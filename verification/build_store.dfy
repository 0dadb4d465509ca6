/**
 * The `build_store` table of Trac's database, as values: a table that may
 * not exist, whose rows are keyed by the target commit and stamped with
 * the master head current when they were written.
 */
module BuildStore {
  import opened Wrappers

  /** A commit as the hook stores it: the hex digest `hexify` produces. */
  type Commit = string

  /** One row `(base, target, builder, number, status)` of `build_store`. */
  datatype Row = Row(base: Commit, target: Commit, builder: Option<string>, number: Option<int>, status: Option<int>)

  /** The triple `(builder, number, status)` a cache hit hands back. */
  datatype BuildInfo = BuildInfo(builder: Option<string>, number: Option<int>, status: Option<int>)

  /** The table: `None` while it does not exist, else its rows by primary key `target`. */
  type Table = Option<map<Commit, Row>>

  /** The primary key really is the `target` column. */
  predicate Keyed(t: Table)
  {
    t.Some? ==> forall c :: c in t.value ==> t.value[c].target == c
  }

  predicate HasRow(t: Table, c: Commit)
  {
    t.Some? && c in t.value
  }

  /** The row for `c` exists and was written against the current master head. */
  predicate IsCurrent(t: Table, master: Commit, c: Commit)
  {
    HasRow(t, c) && t.value[c].base == master
  }

  function InfoOf(row: Row): BuildInfo
  {
    BuildInfo(row.builder, row.number, row.status)
  }

  /** The table after `_create_table`: created empty if missing, otherwise untouched. */
  function Created(t: Table): (t': Table)
    ensures t'.Some?
    ensures t.Some? ==> t' == t
    ensures t.None? ==> t'.value == map[]
  {
    if t.Some? then t else Some(map[])
  }

  /** What `_get_cache(c)` returns, and the table it leaves behind. */
  datatype Lookup = Lookup(info: Option<BuildInfo>, table: Table)

  /**
   * `_get_cache(c)`: create the table if needed, read the row for `c`; a
   * row written against another master head drops the whole table.
   */
  function Fetch(t: Table, master: Commit, c: Commit): (r: Lookup)
    ensures r.info.Some? <==> IsCurrent(t, master, c)
    ensures r.info.Some? ==> r.info.value == InfoOf(t.value[c]) && r.table == t
    ensures !HasRow(t, c) ==> r.table == Created(t)
    ensures HasRow(t, c) && !IsCurrent(t, master, c) ==> r.table.None?
  {
    var t1 := Created(t);
    if c !in t1.value then Lookup(None, t1)
    else if t1.value[c].base != master then Lookup(None, None)
    else Lookup(Some(InfoOf(t1.value[c])), t1)
  }

  /**
   * `_set_cache(c, builder, number, status)`: create the table if needed,
   * delete the row for `c`, insert a fresh one stamped with `master`.
   */
  function Stored(t: Table, master: Commit, c: Commit, builder: Option<string>, number: Option<int>, status: Option<int>): (t': Table)
    ensures t'.Some? && c in t'.value
    ensures t'.value[c] == Row(master, c, builder, number, status)
    ensures t'.value.Keys == Created(t).value.Keys + {c}
    ensures forall k :: k != c && HasRow(t, k) ==> t'.value[k] == t.value[k]
  {
    Some(Created(t).value[c := Row(master, c, builder, number, status)])
  }

  /** Writes and reads keep every row under its own target. */
  lemma OperationsKeepKeyed(t: Table, master: Commit, c: Commit, b: Option<string>, n: Option<int>, s: Option<int>)
    requires Keyed(t)
    ensures Keyed(Created(t))
    ensures Keyed(Fetch(t, master, c).table)
    ensures Keyed(Stored(t, master, c, b, n, s))
  {
  }

  /** Creating the table twice is creating it once; an existing table keeps its rows. */
  lemma CreateIdempotent(t: Table)
    ensures Created(Created(t)) == Created(t)
    ensures t.Some? ==> Created(t) == t
  {
  }

  /** A row just written is served back unchanged while master stays put. */
  lemma {:induction false} ReadYourWrite(t: Table, master: Commit, c: Commit, b: Option<string>, n: Option<int>, s: Option<int>)
    ensures var t' := Stored(t, master, c, b, n, s);
      Fetch(t', master, c) == Lookup(Some(BuildInfo(b, n, s)), t')
  {
  }

  /** Once master moves, the row written before is no longer served and the table goes. */
  lemma {:induction false} WriteThenMasterMoves(t: Table, master: Commit, master': Commit, c: Commit, b: Option<string>, n: Option<int>, s: Option<int>)
    requires master' != master
    ensures Fetch(Stored(t, master, c, b, n, s), master', c) == Lookup(None, None)
  {
  }

  /** `_get_cache` on each of `cs` in turn: the answers and the final table. */
  function FetchEach(t: Table, master: Commit, cs: seq<Commit>): (r: (seq<Option<BuildInfo>>, Table))
    ensures |r.0| == |cs|
    decreases |cs|
  {
    if cs == [] then ([], t)
    else
      var f := Fetch(t, master, cs[0]);
      var rest := FetchEach(f.table, master, cs[1..]);
      ([f.info] + rest.0, rest.1)
  }

  /** From a missing or empty table, no sequence of reads finds anything. */
  lemma {:induction false} NothingCachedAfterPurge(t: Table, master: Commit, cs: seq<Commit>)
    requires t.None? || t.value == map[]
    ensures forall i :: 0 <= i < |cs| ==> FetchEach(t, master, cs).0[i].None?
    ensures cs != [] ==> FetchEach(t, master, cs).1 == Some(map[])
    decreases |cs|
  {
    if cs != [] {
      var f := Fetch(t, master, cs[0]);
      assert f == Lookup(None, Some(map[]));
      NothingCachedAfterPurge(f.table, master, cs[1..]);
    }
  }

  /**
   * Wholesale purge: one stale row drops the table, and afterwards every
   * read misses, for rows that were current too, until a write.
   */
  lemma StaleReadPurgesAll(t: Table, master: Commit, c: Commit, cs: seq<Commit>)
    requires HasRow(t, c) && t.value[c].base != master
    ensures Fetch(t, master, c) == Lookup(None, None)
    ensures forall i :: 0 <= i < |cs| ==> FetchEach(None, master, cs).0[i].None?
  {
    NothingCachedAfterPurge(None, master, cs);
  }
}
