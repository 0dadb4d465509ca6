/**
 * `get_changed_files`: the paths named by the `diff --git a/X b/Y` header
 * lines of a patch, both the old and the new path of every header.
 */
module DiffFiles {
  import opened Wrappers
  import opened Text

  const HeaderStart: string := "diff --git a/"
  const PathSeparator: string := " b/"

  predicate OccursAt(s: string, pat: string, i: int)
  {
    0 <= i && i + |pat| <= |s| && s[i..i + |pat|] == pat
  }

  /** The last start index below `k` at which `pat` occurs in `s`. */
  function LastOccurrenceBelow(s: string, pat: string, k: nat): (r: Option<nat>)
    ensures r.Some? ==> r.value < k && OccursAt(s, pat, r.value)
    ensures r.Some? ==> forall j :: r.value < j < k ==> !OccursAt(s, pat, j)
    ensures r.None? ==> forall j :: 0 <= j < k ==> !OccursAt(s, pat, j)
  {
    if k == 0 then None
    else if OccursAt(s, pat, k - 1) then Some(k - 1)
    else LastOccurrenceBelow(s, pat, k - 1)
  }

  /**
   * The two groups of `^diff --git a/(.*) b/(.*)$` on one line. The first
   * group is greedy, so the line splits at the LAST ` b/`.
   */
  function ParseHeader(line: string): (r: Option<(string, string)>)
    ensures r.Some? ==> line == HeaderStart + r.value.0 + PathSeparator + r.value.1
    ensures r.Some? ==> forall j :: !OccursAt(r.value.1, PathSeparator, j)
    ensures r.None? <==>
      !(|HeaderStart| <= |line| && line[..|HeaderStart|] == HeaderStart &&
        exists j :: OccursAt(line[|HeaderStart|..], PathSeparator, j))
  {
    if |HeaderStart| <= |line| && line[..|HeaderStart|] == HeaderStart then
      var rest := line[|HeaderStart|..];
      match LastOccurrenceBelow(rest, PathSeparator, |rest| + 1)
      case None => None
      case Some(i) =>
        var a, b := rest[..i], rest[i + |PathSeparator|..];
        assert rest == a + PathSeparator + b;
        assert forall j :: OccursAt(b, PathSeparator, j) ==> OccursAt(rest, PathSeparator, i + |PathSeparator| + j) by {
          forall j | OccursAt(b, PathSeparator, j)
            ensures OccursAt(rest, PathSeparator, i + |PathSeparator| + j)
          {
            assert rest[i + |PathSeparator| + j..i + |PathSeparator| + j + |PathSeparator|] == b[j..j + |PathSeparator|];
          }
        }
        Some((a, b))
    else None
  }

  /** The paths a single line names: both groups of a header, or none. */
  function HeaderPaths(line: string): set<string>
  {
    match ParseHeader(line)
    case None => {}
    case Some((a, b)) => {a, b}
  }

  /** Some header among `lines` names `f`. */
  predicate NamedIn(lines: seq<string>, f: string)
  {
    exists i :: 0 <= i < |lines| && f in HeaderPaths(lines[i])
  }

  /** Every path named by a header among `lines`. */
  function FilesInLines(lines: seq<string>): (files: set<string>)
    ensures forall f :: f in files <==> NamedIn(lines, f)
  {
    if lines == [] then {}
    else
      var rest := FilesInLines(lines[1..]);
      var files := HeaderPaths(lines[0]) + rest;
      forall f | f in files
        ensures exists i :: 0 <= i < |lines| && f in HeaderPaths(lines[i])
      {
        if f !in HeaderPaths(lines[0]) {
          var i :| 0 <= i < |lines[1..]| && f in HeaderPaths(lines[1..][i]);
          assert f in HeaderPaths(lines[i + 1]);
        }
      }
      forall f, i | 0 <= i < |lines| && f in HeaderPaths(lines[i])
        ensures f in files
      {
        if i > 0 {
          assert lines[1..][i - 1] == lines[i];
        }
      }
      files
  }

  /**
   * `get_changed_files(ancestor, descendant)` given the text of the patch
   * between them: in MULTILINE mode `^` and `$` match at line boundaries
   * and `.` never crosses a newline, so the regex runs line by line.
   */
  function ChangedFiles(patch: string): (files: set<string>)
    ensures forall f {:trigger NamedIn(Split(patch, '\n'), f)} :: f in files <==> NamedIn(Split(patch, '\n'), f)
  {
    FilesInLines(Split(patch, '\n'))
  }

  /** The header line git writes for a file moved from `a` to `b`. */
  function HeaderLine(a: string, b: string): string
  {
    HeaderStart + a + PathSeparator + b
  }

  /** In `a + " b/" + b`, where `b` holds no ` b/`, the last ` b/` is the one after `a`. */
  lemma LastSeparator(a: string, b: string)
    requires forall j :: !OccursAt(b, PathSeparator, j)
    ensures var rest := a + PathSeparator + b;
      LastOccurrenceBelow(rest, PathSeparator, |rest| + 1) == Some(|a|)
  {
    var rest := a + PathSeparator + b;
    assert OccursAt(rest, PathSeparator, |a|);
    forall k | |a| + 3 <= k
      ensures !OccursAt(rest, PathSeparator, k)
    {
      var j := k - |a| - 3;
      assert !OccursAt(b, PathSeparator, j);
      if k + 3 <= |rest| {
        assert rest[k..k + 3] == b[j..j + 3];
      }
    }
    var r := LastOccurrenceBelow(rest, PathSeparator, |rest| + 1);
    var i := r.value;
    assert rest[i] == ' ' by { assert rest[i..i + 3][0] == rest[i]; }
    assert rest[|a| + 1] == 'b' && rest[|a| + 2] == '/';
  }

  /** Reading a header back gives the two paths, whenever the new path does not itself contain ` b/`. */
  lemma HeaderRoundTrip(a: string, b: string)
    requires forall j :: !OccursAt(b, PathSeparator, j)
    ensures ParseHeader(HeaderLine(a, b)) == Some((a, b))
  {
    var line := HeaderLine(a, b);
    assert line[..|HeaderStart|] == HeaderStart;
    var rest := line[|HeaderStart|..];
    assert rest == a + PathSeparator + b;
    LastSeparator(a, b);
    assert rest[..|a|] == a;
    assert rest[|a| + |PathSeparator|..] == b;
  }

  /** A patch whose first line is the header for `a` and `b` touches `a`, `b` and whatever the rest of the patch touches. */
  lemma {:induction false} LeadingHeaderAddsItsPaths(a: string, b: string, rest: string)
    requires '\n' !in a && '\n' !in b
    requires forall j :: !OccursAt(b, PathSeparator, j)
    ensures ChangedFiles(HeaderLine(a, b) + "\n" + rest) == {a, b} + ChangedFiles(rest)
  {
    var header := HeaderLine(a, b);
    assert '\n' !in header by {
      assert header == HeaderStart + a + PathSeparator + b;
      assert '\n' !in HeaderStart && '\n' !in PathSeparator;
    }
    SplitCons(header, rest, '\n');
    var lines := [header] + Split(rest, '\n');
    assert lines[1..] == Split(rest, '\n');
    HeaderRoundTrip(a, b);
    assert HeaderPaths(header) == {a, b};
    assert FilesInLines(lines) == HeaderPaths(header) + FilesInLines(Split(rest, '\n'));
  }
}
