/**
 * The few Python string built-ins the hook relies on: `str.strip()`,
 * `str.split(sep)` and `int(text)` on decimal text.
 */
module Text {
  import opened Wrappers

  /**
   * The characters `unicode.strip()` removes when given no argument, and
   * that `int()` skips around a number: the white space of Python 2.7's
   * Unicode 5.2 database (`Py_UNICODE_ISSPACE`).
   */
  predicate IsSpace(c: char)
  {
    ('\t' <= c <= '\r') || ('\U{001C}' <= c <= ' ') ||
    c == '\U{0085}' || c == '\U{00A0}' || c == '\U{1680}' || c == '\U{180E}' ||
    ('\U{2000}' <= c <= '\U{200A}') || c == '\U{2028}' || c == '\U{2029}' ||
    c == '\U{202F}' || c == '\U{205F}' || c == '\U{3000}'
  }

  /** Drops the leading white space of `s`. */
  function TrimLeft(s: string): string
  {
    if s != [] && IsSpace(s[0]) then TrimLeft(s[1..]) else s
  }

  /** Drops the trailing white space of `s`. */
  function TrimRight(s: string): string
  {
    if s != [] && IsSpace(s[|s| - 1]) then TrimRight(s[..|s| - 1]) else s
  }

  /** `TrimLeft` removes exactly the white space in front. */
  lemma {:induction false} TrimLeftShape(s: string)
    ensures var t := TrimLeft(s);
      |t| <= |s| && t == s[|s| - |t|..] && (t == [] || !IsSpace(t[0])) &&
      forall i :: 0 <= i < |s| - |t| ==> IsSpace(s[i])
  {
    if s != [] && IsSpace(s[0]) {
      var tail := s[1..];
      TrimLeftShape(tail);
      var t := TrimLeft(tail);
      assert TrimLeft(s) == t;
      assert tail[|tail| - |t|..] == s[|s| - |t|..];
      forall i | 0 <= i < |s| - |t|
        ensures IsSpace(s[i])
      {
        if i > 0 {
          assert s[i] == tail[i - 1];
        }
      }
    }
  }

  /** `TrimRight` removes exactly the white space behind. */
  lemma {:induction false} TrimRightShape(s: string)
    ensures var t := TrimRight(s);
      |t| <= |s| && t == s[..|t|] && (t == [] || !IsSpace(t[|t| - 1])) &&
      forall i :: |t| <= i < |s| ==> IsSpace(s[i])
  {
    if s != [] && IsSpace(s[|s| - 1]) {
      var front := s[..|s| - 1];
      TrimRightShape(front);
      var t := TrimRight(front);
      assert TrimRight(s) == t;
      assert front[..|t|] == s[..|t|];
      forall i | |t| <= i < |s|
        ensures IsSpace(s[i])
      {
        if i < |s| - 1 {
          assert s[i] == front[i];
        }
      }
    }
  }

  /** Python's `s.strip()` on a `unicode` string. */
  function Strip(s: string): (t: string)
    ensures t == [] || (!IsSpace(t[0]) && !IsSpace(t[|t| - 1]))
  {
    TrimLeftShape(s);
    TrimRightShape(TrimLeft(s));
    var t := TrimRight(TrimLeft(s));
    assert t != [] ==> t[0] == TrimLeft(s)[0];
    t
  }

  /** Stripping only removes characters: whatever remains was in the input. */
  lemma StripKeepsCharacters(s: string, c: char)
    requires c in Strip(s)
    ensures c in s
  {
    TrimLeftShape(s);
    TrimRightShape(TrimLeft(s));
  }

  /** A string that neither starts nor ends with white space is its own strip. */
  lemma StripUnpadded(s: string)
    requires s != [] && !IsSpace(s[0]) && !IsSpace(s[|s| - 1])
    ensures Strip(s) == s
  {
  }

  /** Index of the first occurrence of `sep` in `s`. */
  function FirstIndex(s: string, sep: char): (i: nat)
    requires sep in s
    ensures i < |s| && s[i] == sep && sep !in s[..i]
  {
    if s[0] == sep then 0 else 1 + FirstIndex(s[1..], sep)
  }

  /** The inverse of `Split`: the parts glued back together with `sep`. */
  function Join(parts: seq<string>, sep: char): string
    requires |parts| >= 1
  {
    if |parts| == 1 then parts[0] else parts[0] + [sep] + Join(parts[1..], sep)
  }

  /**
   * Python's `s.split(sep)` for a one-character separator: the maximal
   * pieces of `s` between occurrences of `sep`, empty pieces included.
   */
  function Split(s: string, sep: char): (parts: seq<string>)
    ensures |parts| >= 1
    ensures forall i :: 0 <= i < |parts| ==> sep !in parts[i]
    ensures Join(parts, sep) == s
    ensures sep in s <==> |parts| >= 2
    decreases |s|
  {
    if sep !in s then [s]
    else
      var i := FirstIndex(s, sep);
      var rest := Split(s[i + 1..], sep);
      assert s == s[..i] + [sep] + s[i + 1..];
      [s[..i]] + rest
  }

  /** Splitting after a separator-free first field peels that field off. */
  lemma SplitCons(a: string, rest: string, sep: char)
    requires sep !in a
    ensures Split(a + [sep] + rest, sep) == [a] + Split(rest, sep)
  {
    var s := a + [sep] + rest;
    assert s[|a|] == sep;
    var i := FirstIndex(s, sep);
    assert i == |a|;
    assert s[..i] == a;
    assert s[i + 1..] == rest;
  }

  /** Splitting a separator-free head, one separator and a separator-free tail. */
  lemma SplitTwo(a: string, b: string, sep: char)
    requires sep !in a && sep !in b
    ensures Split(a + [sep] + b, sep) == [a, b]
  {
    SplitCons(a, b, sep);
  }

  predicate IsDigit(c: char)
  {
    '0' <= c <= '9'
  }

  /** A non-empty run of decimal digits. */
  predicate IsNumeral(d: string)
  {
    |d| > 0 && forall i :: 0 <= i < |d| ==> IsDigit(d[i])
  }

  /** The number a string of decimal digits denotes, most significant digit first. */
  function DigitsValue(d: string): nat
    requires forall i :: 0 <= i < |d| ==> IsDigit(d[i])
  {
    if d == [] then 0
    else
      var last := d[|d| - 1];
      assert IsDigit(last);
      DigitsValue(d[..|d| - 1]) * 10 + (last as int - '0' as int)
  }

  /**
   * Python 2's `int(text)` in base 10: white space around the number is
   * ignored, then one optional sign, which white space may follow, then at
   * least one digit; anything else raises `ValueError`, modelled as `None`.
   */
  function ParseInt(text: string): (r: Option<int>)
    ensures IsNumeral(Strip(text)) ==> r == Some(DigitsValue(Strip(text)))
    ensures (forall i :: 0 <= i < |text| ==> !IsDigit(text[i])) ==> r.None?
  {
    var t := Strip(text);
    if t != [] && (t[0] == '+' || t[0] == '-') then
      var digits := TrimLeft(t[1..]);
      if IsNumeral(digits) then
        TrimLeftShape(t[1..]);
        assert digits[0] in t[1..];
        StripKeepsCharacters(text, digits[0]);
        var magnitude: int := DigitsValue(digits);
        Some(if t[0] == '-' then -magnitude else magnitude)
      else None
    else if IsNumeral(t) then
      StripKeepsCharacters(text, t[0]);
      Some(DigitsValue(t))
    else None
  }

  /**
   * The converse: `int` accepts nothing but a numeral, possibly after a
   * sign and white space, once the text is stripped; `'8x'`, `'1 2'` and
   * `'+-1'` raise.
   */
  lemma ParseIntAcceptsOnlyNumerals(text: string)
    requires ParseInt(text).Some?
    ensures var t := Strip(text);
      exists k :: 0 <= k < |t| && IsNumeral(t[k..]) &&
        (k == 0 || ((t[0] == '+' || t[0] == '-') && forall i :: 1 <= i < k ==> IsSpace(t[i])))
  {
    var t := Strip(text);
    if t != [] && (t[0] == '+' || t[0] == '-') {
      TrimLeftShape(t[1..]);
      var k := |t| - |TrimLeft(t[1..])|;
      assert t[k..] == TrimLeft(t[1..]);
      forall i | 1 <= i < k
        ensures IsSpace(t[i])
      {
        assert t[i] == t[1..][i - 1];
      }
    } else {
      assert t[0..] == t;
    }
  }

  /** Python's `str(n)` for a non-negative integer. */
  function NatToString(n: nat): string
  {
    if n < 10 then [(n + '0' as int) as char]
    else NatToString(n / 10) + [(n % 10 + '0' as int) as char]
  }

  lemma {:induction false} NatToStringIsNumeral(n: nat)
    ensures IsNumeral(NatToString(n))
    ensures DigitsValue(NatToString(n)) == n
  {
    if n >= 10 {
      NatToStringIsNumeral(n / 10);
      var s := NatToString(n);
      assert s[..|s| - 1] == NatToString(n / 10);
    }
  }

  /** `int(str(n)) == n`: the printed form of a port number parses back to it. */
  lemma ParseIntOfNat(n: nat)
    ensures ParseInt(NatToString(n)) == Some(n)
    ensures ':' !in NatToString(n)
  {
    NatToStringIsNumeral(n);
    var s := NatToString(n);
    StripUnpadded(s);
    assert s[0] != '+' && s[0] != '-' by { assert IsDigit(s[0]); }
    assert forall i :: 0 <= i < |s| ==> s[i] != ':' by {
      forall i | 0 <= i < |s| ensures s[i] != ':' { assert IsDigit(s[i]); }
    }
  }

  /** `int('')` and `int('  ')` raise: blank text is no number. */
  lemma ParseIntOfBlank(text: string)
    requires forall i :: 0 <= i < |text| ==> IsSpace(text[i])
    ensures ParseInt(text) == None
  {
    TrimLeftShape(text);
  }

  /** Leading white space in front of a text that starts otherwise is exactly what `TrimLeft` drops. */
  lemma {:induction false} TrimLeftOfBlanks(blanks: string, rest: string)
    requires forall i :: 0 <= i < |blanks| ==> IsSpace(blanks[i])
    requires rest != [] && !IsSpace(rest[0])
    ensures TrimLeft(blanks + rest) == rest
  {
    if blanks == [] {
      assert blanks + rest == rest;
    } else {
      assert (blanks + rest)[1..] == blanks[1..] + rest;
      TrimLeftOfBlanks(blanks[1..], rest);
    }
  }

  /** `int` of a text that strips to a sign, maybe blanks, then `digits`: the sign applied to the digits. */
  lemma SignedValue(text: string, sign: char, digits: string)
    requires Strip(text) != [] && Strip(text)[0] == sign && (sign == '+' || sign == '-')
    requires TrimLeft(Strip(text)[1..]) == digits && IsNumeral(digits)
    ensures ParseInt(text) == Some(if sign == '-' then -(DigitsValue(digits) as int) else DigitsValue(digits))
  {
  }

  /** `int('- 80') == -80`: the sign may be separated from the digits by white space. */
  lemma SignThenBlanks(sign: char, blanks: string, digits: string)
    requires sign == '+' || sign == '-'
    requires forall i :: 0 <= i < |blanks| ==> IsSpace(blanks[i])
    requires IsNumeral(digits)
    ensures ParseInt([sign] + blanks + digits) == Some(if sign == '-' then -(DigitsValue(digits) as int) else DigitsValue(digits))
  {
    var s := [sign] + blanks + digits;
    assert Strip(s) == s by {
      var last := digits[|digits| - 1];
      assert IsDigit(last);
      assert s[0] == sign && s[|s| - 1] == last;
      StripUnpadded(s);
    }
    assert TrimLeft(s[1..]) == digits by {
      assert IsDigit(digits[0]);
      assert s[1..] == blanks + digits;
      TrimLeftOfBlanks(blanks, digits);
    }
    SignedValue(s, sign, digits);
  }
}
