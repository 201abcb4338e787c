/** The spreadsheet export: keyset windows over the applications, and the offer shown beside each of them. */
module Export {
  import opened OrderBy
  import opened Tables

  const MAX_ROWS := 50000
  const BATCH_SIZE := 1000

  // ---------- keyset windows ----------

  function KeysOf(column: seq<nat>): (keys: seq<Key>)
    ensures |keys| == |column|
  {
    seq(|column|, k requires 0 <= k < |column| => Key(column[k], 0))
  }

  /** The rows whose key is greater than `after`. */
  function Beyond(column: seq<nat>, after: nat): set<nat> {
    set k | 0 <= k < |column| && column[k] > after
  }

  predicate DistinctColumn(column: seq<nat>) {
    forall j, k :: 0 <= j < k < |column| ==> column[j] != column[k]
  }

  /** WHERE key > after ORDER BY key. */
  function Remaining(column: seq<nat>, after: nat): (rows: seq<nat>)
    ensures forall i :: 0 <= i < |rows| ==> rows[i] < |column|
  {
    var rows := Sorted(KeysOf(column), Beyond(column, after));
    assert forall i :: 0 <= i < |rows| ==> rows[i] in Beyond(column, after);
    rows
  }

  /** One window of the query: LIMIT size. */
  function Window(column: seq<nat>, after: nat, size: nat): (rows: seq<nat>)
    ensures forall i :: 0 <= i < |rows| ==> rows[i] < |column|
    ensures |rows| <= |Remaining(column, after)|
  {
    var rows := Remaining(column, after);
    if size < |rows| then rows[..size] else rows
  }

  lemma RemainingAscends(column: seq<nat>, after: nat)
    requires DistinctColumn(column)
    ensures var rows := Remaining(column, after);
      && InOrder(KeysOf(column), rows) && (forall k :: k in rows <==> k in Beyond(column, after))
      && forall i, j :: 0 <= i < j < |rows| ==> column[rows[i]] < column[rows[j]]
  {
    var rows := Remaining(column, after);
    SortedInOrder(KeysOf(column), Beyond(column, after));
    forall i, j | 0 <= i < j < |rows| ensures column[rows[i]] < column[rows[j]] {
      assert rows[i] != rows[j] && !Less(KeysOf(column)[rows[j]], KeysOf(column)[rows[i]]);
      var x, y := if rows[i] < rows[j] then rows[i] else rows[j], if rows[i] < rows[j] then rows[j] else rows[i];
      assert column[x] != column[y];
    }
  }

  lemma TailIsBeyond(column: seq<nat>, after: nat, n: nat, k: nat)
    requires DistinctColumn(column) && 0 < n <= |Remaining(column, after)|
    ensures var rows := Remaining(column, after);
      column[rows[n - 1]] > after && (k in rows[n..] <==> k in Beyond(column, column[rows[n - 1]]))
  {
    var rows := Remaining(column, after);
    RemainingAscends(column, after);
    assert rows[n - 1] in Beyond(column, after);
    if k in rows {
      var i :| 0 <= i < |rows| && rows[i] == k;
      assert i >= n ==> rows[n..][i - n] == k;
    } else {
      assert k !in Beyond(column, after);
    }
  }

  lemma TailAscends(column: seq<nat>, rows: seq<nat>, n: nat)
    requires n <= |rows| && InOrder(KeysOf(column), rows)
    ensures InOrder(KeysOf(column), rows[n..])
  {
  }

  /** A window is the beginning of the remaining rows: as many as its size, or all of them if they are fewer. */
  lemma WindowFits(column: seq<nat>, after: nat, size: nat)
    ensures var rows, left := Window(column, after, size), Remaining(column, after);
      rows <= left && |rows| == if size < |left| then size else |left|
  {
  }

  /** Starting over behind the last row of a window gives exactly the rows the window left out. */
  lemma WindowsJoin(column: seq<nat>, after: nat, n: nat)
    requires DistinctColumn(column) && 0 < n <= |Remaining(column, after)|
    ensures var rows := Remaining(column, after); Remaining(column, column[rows[n - 1]]) == rows[n..]
  {
    var rows := Remaining(column, after);
    var next := column[rows[n - 1]];
    RemainingAscends(column, after);
    TailAscends(column, rows, n);
    forall k: nat ensures k in rows[n..] <==> k in Beyond(column, next) {
      TailIsBeyond(column, after, n, k);
    }
    DistinctKeys(column, next);
    SortedUnique(KeysOf(column), Beyond(column, next), rows[n..]);
  }

  lemma DistinctKeys(column: seq<nat>, after: nat)
    requires DistinctColumn(column)
    ensures Distinct(KeysOf(column), Beyond(column, after))
  {
    forall j, k | j in Beyond(column, after) && k in Beyond(column, after) && j != k
      ensures KeysOf(column)[j] != KeysOf(column)[k]
    {
      var x, y := if j < k then j else k, if j < k then k else j;
      assert column[x] != column[y];
    }
  }

  /** Writes the table window by window. Every row with a positive key is written once, in key order, whatever the
      size of the window; the ceiling is hit exactly when there are more of them. */
  method WriteRows(column: seq<nat>, size: nat, ceiling: nat) returns (written: seq<nat>, tooLarge: bool)
    requires DistinctColumn(column) && size > 0
    ensures tooLarge <==> |Remaining(column, 0)| > ceiling
    ensures !tooLarge ==> written == Remaining(column, 0)
  {
    written, tooLarge := [], false;
    var after := 0;
    while true
      invariant written + Remaining(column, after) == Remaining(column, 0) && |written| <= ceiling
      decreases |Remaining(column, after)|
    {
      var rows := Window(column, after, size);
      if |rows| == 0 {
        return;
      }
      ghost var start, before := after, written;
      for i := 0 to |rows|
        invariant written == before + rows[..i] && |written| <= ceiling
        invariant after == if i == 0 then start else column[rows[i - 1]]
      {
        if |written| == ceiling {
          CeilingHit(column, start, size, before, i, ceiling);
          return written, true;
        }
        PrefixGrows(before, rows, i);
        written := written + [rows[i]];
        after := column[rows[i]];
      }
      WindowWritten(column, start, size, before, rows, after);
      if |rows| < size {
        return;
      }
    }
  }

  lemma CeilingHit(column: seq<nat>, start: nat, size: nat, before: seq<nat>, i: nat, ceiling: nat)
    requires before + Remaining(column, start) == Remaining(column, 0)
    requires i < |Window(column, start, size)| && |before| + i == ceiling
    ensures |Remaining(column, 0)| > ceiling
  {
  }

  lemma PrefixGrows(before: seq<nat>, rows: seq<nat>, i: nat)
    requires i < |rows|
    ensures before + rows[..i + 1] == (before + rows[..i]) + [rows[i]]
  {
  }

  lemma Regroup(x: seq<nat>, y: seq<nat>, z: seq<nat>)
    ensures (x + y[..|y|]) + z == x + (y + z)
  {
    assert y[..|y|] == y;
  }

  lemma WindowWritten(column: seq<nat>, start: nat, size: nat, before: seq<nat>, rows: seq<nat>, after: nat)
    requires DistinctColumn(column) && rows == Window(column, start, size) && rows != []
    requires after == column[rows[|rows| - 1]]
    ensures (before + rows[..|rows|]) + Remaining(column, after) == before + Remaining(column, start)
    ensures |Remaining(column, after)| < |Remaining(column, start)|
    ensures |rows| < size ==> Remaining(column, after) == []
  {
    NextWindow(column, start, size);
    Regroup(before, rows, Remaining(column, after));
  }

  lemma WindowIsPrefix(column: seq<nat>, after: nat, size: nat)
    ensures var rows, all := Window(column, after, size), Remaining(column, after);
      |rows| <= |all| && rows == all[..|rows|] && (|rows| < size ==> |rows| == |all|)
  {
    var all := Remaining(column, after);
    assert all == all[..|all|];
  }

  /** What a window leaves for the next one; a short window leaves nothing. */
  lemma NextWindow(column: seq<nat>, after: nat, size: nat)
    requires DistinctColumn(column) && Window(column, after, size) != []
    ensures var rows := Window(column, after, size); var next := column[rows[|rows| - 1]];
      && Remaining(column, after) == rows + Remaining(column, next)
      && (|rows| < size ==> Remaining(column, next) == [])
  {
    var n := |Window(column, after, size)|;
    WindowIsPrefix(column, after, size);
    WindowsJoin(column, after, n);
    CutAt(Remaining(column, after), n);
  }

  lemma CutAt(rows: seq<nat>, n: nat)
    requires n <= |rows|
    ensures rows == rows[..n] + rows[n..] && (n == |rows| ==> rows[n..] == [])
  {
  }

  /** With positive keys no row is missed: the export lists every row of the table. */
  lemma PositiveKeysAreAll(column: seq<nat>)
    requires DistinctColumn(column) && forall k :: 0 <= k < |column| ==> column[k] > 0
    ensures forall k: nat :: k < |column| <==> k in Remaining(column, 0)
    ensures |Remaining(column, 0)| == |column|
  {
    RemainingAscends(column, 0);
    assert Beyond(column, 0) == IndexSet(|column|);
  }

  function IndexSet(n: nat): (all: set<nat>)
    ensures |all| == n && forall k: nat :: k in all <==> k < n
  {
    if n == 0 then {} else IndexSet(n - 1) + {n - 1}
  }

  // ---------- the current offer ----------

  datatype Row = Row(id: nat, application: nat, status: OfferStatus)

  /** Row `r` is the current offer of application `k`: its active offer with the highest id, or without an active one
      its offer with the highest id. */
  predicate IsCurrent(history: seq<Row>, k: nat, r: nat) {
    && r < |history| && history[r].application == k
    && if HasActive(history, k)
       then Holding(history[r].status)
           && forall j :: 0 <= j < |history| && ActiveOf(history[j], k) ==> history[j].id <= history[r].id
       else forall j :: 0 <= j < |history| && history[j].application == k ==> history[j].id <= history[r].id
  }

  predicate ActiveOf(row: Row, k: nat) { row.application == k && Holding(row.status) }

  predicate HasActive(history: seq<Row>, k: nat) { exists j :: 0 <= j < |history| && ActiveOf(history[j], k) }

  predicate DistinctIds(history: seq<Row>) { forall i, j :: 0 <= i < j < |history| ==> history[i].id != history[j].id }

  /** A history has one current offer per application, so every picker that finds it agrees with every other. */
  lemma CurrentIsUnique(history: seq<Row>, k: nat, r: nat, t: nat)
    requires DistinctIds(history) && IsCurrent(history, k, r) && IsCurrent(history, k, t)
    ensures r == t
  {
    if HasActive(history, k) {
      assert ActiveOf(history[r], k) && ActiveOf(history[t], k);
    }
    assert history[r].id == history[t].id;
  }

  /** The picker of the candidate list: one pass over the offers of one application. */
  method PickCurrentOffer(history: seq<Row>, k: nat) returns (r: Option<nat>)
    requires forall i :: 0 <= i < |history| ==> history[i].application == k
    ensures r.None? <==> history == []
    ensures r.Some? ==> IsCurrent(history, k, r.value)
  {
    var active: Option<nat>, newest: Option<nat> := None, None;
    for i := 0 to |history|
      invariant Newest(history, i, newest) && NewestActive(history, i, active)
    {
      if newest.None? || history[i].id > history[newest.value].id {
        newest := Some(i);
      }
      if Holding(history[i].status) && (active.None? || history[i].id > history[active.value].id) {
        active := Some(i);
      }
    }
    r := if active.Some? then active else newest;
    assert active.Some? ==> ActiveOf(history[active.value], k);
    assert forall j :: 0 <= j < |history| && ActiveOf(history[j], k) ==> Holding(history[j].status);
  }

  predicate Newest(history: seq<Row>, n: nat, found: Option<nat>)
    requires n <= |history|
  {
    match found
    case None => n == 0
    case Some(r) => r < n && forall j :: 0 <= j < n ==> history[j].id <= history[r].id
  }

  predicate NewestActive(history: seq<Row>, n: nat, found: Option<nat>)
    requires n <= |history|
  {
    match found
    case None => forall j :: 0 <= j < n ==> !Holding(history[j].status)
    case Some(r) =>
        r < n && Holding(history[r].status) && forall j :: 0 <= j < n && Holding(history[j].status) ==>
            history[j].id <= history[r].id
  }

  /** The picker of the export: the same over a mixed history, with one entry per application. */
  method PickCurrentOffers(history: seq<Row>) returns (current: map<nat, nat>)
    ensures forall k :: k in current <==> HasRow(history, k)
    ensures forall k :: k in current ==> IsCurrent(history, k, current[k])
  {
    var active: map<nat, nat>, newest: map<nat, nat> := map[], map[];
    for i := 0 to |history|
      invariant BestOf(history, i, newest, false) && BestOf(history, i, active, true)
    {
      var k := history[i].application;
      BestGrows(history, i, newest, false);
      BestGrows(history, i, active, true);
      if k !in newest || history[i].id > history[newest[k]].id {
        newest := newest[k := i];
      }
      if Holding(history[i].status) && (k !in active || history[i].id > history[active[k]].id) {
        active := active[k := i];
      }
    }
    BestIsCurrent(history, newest, active);
    current := map k | k in newest :: if k in active then active[k] else newest[k];
  }

  lemma BestGrows(history: seq<Row>, i: nat, best: map<nat, nat>, activeOnly: bool)
    requires i < |history| && BestOf(history, i, best, activeOnly)
    ensures var k := history[i].application; var better := k !in best || history[i].id > history[best[k]].id;
      BestOf(history, i + 1, if Counts(history[i], activeOnly) && better then best[k := i] else best, activeOnly)
  {
  }

  lemma BestIsCurrent(history: seq<Row>, newest: map<nat, nat>, active: map<nat, nat>)
    requires BestOf(history, |history|, newest, false) && BestOf(history, |history|, active, true)
    ensures forall k :: k in newest <==> HasRow(history, k)
    ensures forall k :: k in newest ==> IsCurrent(history, k, if k in active then active[k] else newest[k])
  {
    forall k | HasRow(history, k) ensures k in newest {
      var j :| 0 <= j < |history| && history[j].application == k;
      assert Counts(history[j], false);
    }
    forall k | k in newest
      ensures HasRow(history, k) && IsCurrent(history, k, if k in active then active[k] else newest[k])
    {
      assert history[newest[k]].application == k;
      assert k in active ==> ActiveOf(history[active[k]], k);
      assert forall j :: 0 <= j < |history| && ActiveOf(history[j], k) ==> Counts(history[j], true);
      assert forall j :: 0 <= j < |history| && history[j].application == k ==> Counts(history[j], false);
    }
  }

  predicate HasRow(history: seq<Row>, k: nat) { exists i :: 0 <= i < |history| && history[i].application == k }

  predicate Counts(row: Row, activeOnly: bool) { !activeOnly || Holding(row.status) }

  /** Per application the row with the highest id among the first `n`, or among the active ones of them. */
  predicate BestOf(history: seq<Row>, n: nat, best: map<nat, nat>, activeOnly: bool)
    requires n <= |history|
  {
    && (forall k :: k in best ==>
        best[k] < n && history[best[k]].application == k && Counts(history[best[k]], activeOnly))
    && forall j :: 0 <= j < n && Counts(history[j], activeOnly) ==>
         history[j].application in best && history[j].id <= history[best[history[j].application]].id
  }

  /** The picker of the repository: ORDER BY active first, id DESC, LIMIT 1. */
  function PickKeys(history: seq<Row>): (keys: seq<Key>)
    ensures |keys| == |history|
  {
    seq(|history|, i requires 0 <= i < |history| =>
      Key(if Holding(history[i].status) then 0 else 1, -(history[i].id as int)))
  }

  function LatestForApplication(history: seq<Row>, k: nat): (r: Option<nat>)
    ensures r.Some? ==> IsCurrent(history, k, r.value)
    ensures r.None? ==> forall i :: 0 <= i < |history| ==> history[i].application != k
  {
    var own := set i | 0 <= i < |history| && history[i].application == k;
    if own == {} then
      assert forall i :: 0 <= i < |history| && history[i].application == k ==> i in own;
      None
    else
      var r := First(PickKeys(history), own);
      assert IsCurrent(history, k, r) by { FirstIsCurrent(history, k, own, r); }
      Some(r)
  }

  lemma FirstIsCurrent(history: seq<Row>, k: nat, own: set<nat>, r: nat)
    requires own == set i | 0 <= i < |history| && history[i].application == k
    requires r in own && forall j :: j in own ==> !Less(PickKeys(history)[j], PickKeys(history)[r])
    ensures IsCurrent(history, k, r)
  {
    forall j | 0 <= j < |history| && history[j].application == k
      ensures !Less(PickKeys(history)[j], PickKeys(history)[r])
    {
      assert j in own;
    }
    if HasActive(history, k) {
      var j :| 0 <= j < |history| && ActiveOf(history[j], k);
      assert !Less(PickKeys(history)[j], PickKeys(history)[r]);
    }
  }
}
