/** ORDER BY over the rows of a table. A row is named by its position in the table, `keys` gives each
    row its two-column sort key, and `pool` is the set of rows the WHERE clause selects. */
module OrderBy {
  datatype Key = Key(major: int, minor: int)

  predicate Less(x: Key, y: Key) {
    x.major < y.major || (x.major == y.major && x.minor < y.minor)
  }

  /** Every selected row is a row of the table. */
  predicate Within(keys: seq<Key>, pool: set<nat>) {
    forall k :: k in pool ==> k < |keys|
  }

  /** No two selected rows share a key, so the order is total. */
  predicate Distinct(keys: seq<Key>, pool: set<nat>)
    requires Within(keys, pool)
  {
    forall j, k :: j in pool && k in pool && j != k ==> keys[j] != keys[k]
  }

  /** The listed rows are different rows of the table, in non-descending key order. */
  predicate InOrder(keys: seq<Key>, rows: seq<nat>) {
    && (forall i :: 0 <= i < |rows| ==> rows[i] < |keys|)
    && forall i, j :: 0 <= i < j < |rows| ==> rows[i] != rows[j] && !Less(keys[rows[j]], keys[rows[i]])
  }

  /** The first of the selected rows among the first `n` rows of the table. */
  function FirstAmong(keys: seq<Key>, pool: set<nat>, n: nat): (r: int)
    requires n <= |keys|
    ensures -1 <= r < n
    ensures r < 0 ==> forall j: nat :: j in pool ==> j >= n
    ensures r >= 0 ==> r in pool && forall j: nat :: j in pool && j < n ==> !Less(keys[j], keys[r])
  {
    if n == 0 then -1
    else
      var best := FirstAmong(keys, pool, n - 1);
      if n - 1 in pool && (best < 0 || Less(keys[n - 1], keys[best])) then n - 1 else best
  }

  /** ORDER BY ... LIMIT 1. */
  function First(keys: seq<Key>, pool: set<nat>): (k: nat)
    requires pool != {} && Within(keys, pool)
    ensures k in pool
    ensures forall j :: j in pool ==> !Less(keys[j], keys[k])
  {
    var r := FirstAmong(keys, pool, |keys|);
    assert r >= 0 by {
      var k :| k in pool;
      assert k < |keys|;
    }
    r
  }

  /** The selected rows in key order. */
  function Sorted(keys: seq<Key>, pool: set<nat>): (rows: seq<nat>)
    requires Within(keys, pool)
    ensures |rows| == |pool|
    ensures forall k :: k in rows <==> k in pool
    decreases pool
  {
    if pool == {} then []
    else
      var k := First(keys, pool);
      [k] + Sorted(keys, pool - {k})
  }

  /** The selected rows come out once each and in key order. */
  lemma {:induction false} SortedInOrder(keys: seq<Key>, pool: set<nat>)
    requires Within(keys, pool)
    ensures InOrder(keys, Sorted(keys, pool))
    decreases pool
  {
    if pool != {} {
      var k, rest := First(keys, pool), pool - {First(keys, pool)};
      var tail := Sorted(keys, rest);
      SortedInOrder(keys, rest);
      PutFirst(keys, k, tail) by {
        forall j | 0 <= j < |tail| ensures tail[j] != k && !Less(keys[tail[j]], keys[k]) {
          assert tail[j] in rest;
        }
      }
    }
  }

  lemma PutFirst(keys: seq<Key>, k: nat, tail: seq<nat>)
    requires k < |keys| && InOrder(keys, tail)
    requires forall j :: 0 <= j < |tail| ==> tail[j] != k && !Less(keys[tail[j]], keys[k])
    ensures InOrder(keys, [k] + tail)
  {
  }

  /** With distinct keys the position of a row is the number of selected rows with a smaller key. */
  lemma {:induction false} PositionCountsSmaller(keys: seq<Key>, pool: set<nat>, i: nat)
    requires Within(keys, pool) && Distinct(keys, pool) && i < |pool|
    ensures Sorted(keys, pool)[i] in pool
    ensures Smaller(keys, pool, Sorted(keys, pool)[i]) == set x: nat | x in Sorted(keys, pool)[..i]
    ensures |Smaller(keys, pool, Sorted(keys, pool)[i])| == i
  {
    var rows := Sorted(keys, pool);
    SortedInOrder(keys, pool);
    forall x | x in pool ensures Less(keys[x], keys[rows[i]]) <==> x in rows[..i] {
      var p :| 0 <= p < |rows| && rows[p] == x;
      if p < i {
        assert rows[..i][p] == x;
        assert rows[i] in pool;
      }
    }
    DistinctSize(rows[..i]);
  }

  /** The selected rows whose key is smaller than row `k`'s. */
  function Smaller(keys: seq<Key>, pool: set<nat>, k: nat): set<nat>
    requires Within(keys, pool) && k < |keys|
  {
    set j | j in pool && Less(keys[j], keys[k])
  }

  lemma {:induction false} DistinctSize(rows: seq<nat>)
    requires forall i, j :: 0 <= i < j < |rows| ==> rows[i] != rows[j]
    ensures |set x: nat | x in rows| == |rows|
  {
    var all := set x: nat | x in rows;
    if rows == [] {
      assert all == {};
    } else {
      DistinctSize(rows[1..]);
      assert all == (set x: nat | x in rows[1..]) + {rows[0]};
      assert rows[0] !in rows[1..];
    }
  }

  lemma TailInOrder(keys: seq<Key>, rows: seq<nat>)
    requires rows != [] && InOrder(keys, rows)
    ensures InOrder(keys, rows[1..])
  {
  }

  /** A sequence that lists the pool without repetition in key order is the ORDER BY result. */
  lemma {:induction false} SortedUnique(keys: seq<Key>, pool: set<nat>, rows: seq<nat>)
    requires Within(keys, pool) && Distinct(keys, pool)
    requires forall k :: k in rows <==> k in pool
    requires InOrder(keys, rows)
    ensures rows == Sorted(keys, pool)
    decreases pool
  {
    assert |rows| > 0 ==> rows[0] in pool;
    if pool != {} {
      var k, tail := First(keys, pool), rows[1..];
      HeadIsFirst(keys, pool, rows);
      assert rows == [k] + tail;
      TailInOrder(keys, rows);
      SortedUnique(keys, pool - {k}, tail);
    }
  }

  lemma HeadIsFirst(keys: seq<Key>, pool: set<nat>, rows: seq<nat>)
    requires Within(keys, pool) && Distinct(keys, pool) && pool != {}
    requires forall k :: k in rows <==> k in pool
    requires InOrder(keys, rows)
    ensures rows != [] && rows[0] == First(keys, pool)
    ensures forall x :: x in rows[1..] <==> x in pool - {rows[0]}
  {
    var k := First(keys, pool);
    var p :| 0 <= p < |rows| && rows[p] == k;
    assert rows[0] in pool;
    assert !Less(keys[rows[p]], keys[rows[0]]);
    assert forall x :: x in rows <==> x == rows[0] || x in rows[1..];
    assert rows[0] !in rows[1..];
  }
}
