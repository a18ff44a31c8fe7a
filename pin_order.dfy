/**
 * The list operations behind pinning and unpinning on the JSON price board:
 * the load-time preparation that numbers rows with `__initIndex`, removal
 * of one row, and the reinsertion of an unpinned row before the first row
 * whose `__initIndex` is larger.
 */
module PinOrder {
  import opened Wrappers
  import opened Values
  import opened Rows

  /** `(r.__initIndex ?? Infinity) > k` */
  predicate Above(row: Row, k: int)
  {
    row.initIndex.None? || row.initIndex.value > k
  }

  /** `rows.findIndex((r) => (r.__initIndex ?? Infinity) > k)`, -1 when there is none. */
  function FirstAbove(rows: seq<Row>, k: int): (p: int)
    ensures -1 <= p < |rows|
    ensures p == -1 <==> forall i :: 0 <= i < |rows| ==> !Above(rows[i], k)
    ensures p >= 0 ==> Above(rows[p], k) && forall i :: 0 <= i < p ==> !Above(rows[i], k)
  {
    if rows == [] then -1
    else if Above(rows[0], k) then 0
    else
      var p := FirstAbove(rows[1..], k);
      assert forall i :: 1 <= i < |rows| ==> rows[i] == rows[1..][i - 1];
      if p == -1 then -1 else p + 1
  }

  /** `rows.findIndex((r) => r.s === sym)`, -1 when there is none. */
  function FindSymbol(rows: seq<Row>, sym: string): (p: int)
    ensures -1 <= p < |rows|
    ensures p == -1 <==> sym !in Symbols(rows)
    ensures p >= 0 ==> rows[p].s == sym && forall i :: 0 <= i < p ==> rows[i].s != sym
  {
    if rows == [] then -1
    else if rows[0].s == sym then 0
    else
      var p := FindSymbol(rows[1..], sym);
      assert forall i :: 1 <= i < |rows| ==> rows[i] == rows[1..][i - 1];
      assert Symbols(rows) == [rows[0].s] + Symbols(rows[1..]);
      if p == -1 then -1 else p + 1
  }

  /** `copy.splice(p, 1)`: the row at p goes, the others keep their order. */
  function RemoveAt(rows: seq<Row>, p: nat): (r: seq<Row>)
    requires p < |rows|
    ensures |r| == |rows| - 1
    ensures forall i :: 0 <= i < |r| ==> r[i] == if i < p then rows[i] else rows[i + 1]
  {
    rows[..p] + rows[p + 1..]
  }

  /** `copy.splice(p, 0, row)`: row lands at p, later rows shift by one. */
  function InsertAt(rows: seq<Row>, p: nat, row: Row): (r: seq<Row>)
    requires p <= |rows|
    ensures |r| == |rows| + 1 && r[p] == row
    ensures forall i :: 0 <= i < |r| && i != p ==> r[i] == if i < p then rows[i] else rows[i - 1]
    ensures multiset(r) == multiset(rows) + multiset{row}
  {
    assert rows == rows[..p] + rows[p..];
    rows[..p] + [row] + rows[p..]
  }

  /** Where the unpin puts a row: the first row above `k`, or the end. */
  function InsertPos(rows: seq<Row>, k: int): (q: nat)
    ensures q <= |rows|
    ensures forall i :: 0 <= i < q ==> !Above(rows[i], k)
    ensures q < |rows| ==> Above(rows[q], k)
  {
    var p := FirstAbove(rows, k);
    if p == -1 then |rows| else p
  }

  /**
   * The unpin insertion: before the first row above `k`, or appended
   * (`copy.push`) when there is none.
   */
  function Reinserted(rows: seq<Row>, k: int, row: Row): (r: seq<Row>)
    ensures multiset(r) == multiset(rows) + multiset{row}
    ensures r == InsertAt(rows, InsertPos(rows, k), row)
  {
    var p := FirstAbove(rows, k);
    if p == -1 then
      assert rows + [row] == rows[..|rows|] + [row] + rows[|rows|..];
      rows + [row]
    else
      InsertAt(rows, p, row)
  }

  /** `a` comes no later than `b` in `__initIndex` order, a missing index counting as infinity. */
  predicate InitLe(a: Row, b: Row)
  {
    b.initIndex.None? || (a.initIndex.Some? && a.initIndex.value <= b.initIndex.value)
  }

  predicate SortedByInit(rows: seq<Row>)
  {
    forall i, j :: 0 <= i < j < |rows| ==> InitLe(rows[i], rows[j])
  }

  /** Every row has an `__initIndex`, and they strictly increase along the list. */
  predicate StrictlySortedByInit(rows: seq<Row>)
  {
    && (forall i :: 0 <= i < |rows| ==> rows[i].initIndex.Some?)
    && (forall i, j :: 0 <= i < j < |rows| ==> rows[i].initIndex.value < rows[j].initIndex.value)
  }

  /** Removing a row keeps a sorted list sorted. */
  lemma RemoveKeepsSorted(rows: seq<Row>, p: nat)
    requires p < |rows| && SortedByInit(rows)
    ensures SortedByInit(RemoveAt(rows, p))
  {
    var r := RemoveAt(rows, p);
    forall i, j | 0 <= i < j < |r|
      ensures InitLe(r[i], r[j])
    {
      var i', j' := if i < p then i else i + 1, if j < p then j else j + 1;
      assert r[i] == rows[i'] && r[j] == rows[j'];
    }
  }

  /**
   * Unpinning keeps a sorted list sorted: the row goes after every row not
   * above its index and before the first one above it.
   */
  lemma ReinsertKeepsSorted(rows: seq<Row>, k: int, row: Row)
    requires SortedByInit(rows) && row.initIndex == Some(k)
    ensures SortedByInit(Reinserted(rows, k, row))
  {
    var p := FirstAbove(rows, k);
    var r := Reinserted(rows, k, row);
    if p == -1 {
      assert r == rows + [row];
      forall i, j | 0 <= i < j < |r|
        ensures InitLe(r[i], r[j])
      {
        if j == |rows| {
          assert !Above(rows[i], k);
        }
      }
    } else {
      forall i, j | 0 <= i < j < |r|
        ensures InitLe(r[i], r[j])
      {
        if i == p {
          assert r[j] == rows[j - 1];
          assert Above(rows[p], k) && InitLe(rows[p], rows[j - 1]);
        } else if j == p {
          assert r[i] == rows[i] && !Above(rows[i], k);
        } else {
          var i', j' := if i < p then i else i - 1, if j < p then j else j - 1;
          assert r[i] == rows[i'] && r[j] == rows[j'];
        }
      }
    }
  }

  /** Removing a row keeps a strictly sorted list strictly sorted. */
  lemma RemoveKeepsStrict(rows: seq<Row>, p: nat)
    requires p < |rows| && StrictlySortedByInit(rows)
    ensures StrictlySortedByInit(RemoveAt(rows, p))
  {
    var r := RemoveAt(rows, p);
    forall i, j | 0 <= i < j < |r|
      ensures r[i].initIndex.Some? && r[i].initIndex.value < r[j].initIndex.value
    {
      var i', j' := if i < p then i else i + 1, if j < p then j else j + 1;
      assert r[i] == rows[i'] && r[j] == rows[j'];
    }
    forall i | 0 <= i < |r|
      ensures r[i].initIndex.Some?
    {
      var i' := if i < p then i else i + 1;
      assert r[i] == rows[i'];
    }
  }

  /**
   * Unpinning a row whose `__initIndex` is k, into a strictly sorted list
   * where no row has index k, keeps the list strictly sorted.
   */
  lemma ReinsertKeepsStrict(rows: seq<Row>, k: int, row: Row)
    requires StrictlySortedByInit(rows) && row.initIndex == Some(k)
    requires forall i :: 0 <= i < |rows| ==> rows[i].initIndex != Some(k)
    ensures StrictlySortedByInit(Reinserted(rows, k, row))
  {
    var q := InsertPos(rows, k);
    forall i | 0 <= i < |rows|
      ensures i < q ==> rows[i].initIndex.value < k
      ensures i >= q ==> rows[i].initIndex.value > k
    {
      if i < q {
        assert !Above(rows[i], k);
      } else {
        assert Above(rows[q], k);
      }
    }
    InsertKeepsStrict(rows, q, row);
  }

  /** Inserting a row at the position that splits the indices below it from those above keeps strict order. */
  lemma InsertKeepsStrict(rows: seq<Row>, q: nat, row: Row)
    requires StrictlySortedByInit(rows) && q <= |rows| && row.initIndex.Some?
    requires forall i :: 0 <= i < |rows| ==>
      (i < q ==> rows[i].initIndex.value < row.initIndex.value) &&
      (i >= q ==> rows[i].initIndex.value > row.initIndex.value)
    ensures StrictlySortedByInit(InsertAt(rows, q, row))
  {
    var r := InsertAt(rows, q, row);
    forall i | 0 <= i < |r|
      ensures r[i].initIndex.Some?
    {
      if i != q {
        var i' := if i < q then i else i - 1;
        assert r[i] == rows[i'];
      }
    }
    forall i, j | 0 <= i < j < |r|
      ensures r[i].initIndex.value < r[j].initIndex.value
    {
      if i == q {
        assert r[j] == rows[j - 1];
      } else if j == q {
        assert r[i] == rows[i];
      } else {
        var i', j' := if i < q then i else i - 1, if j < q then j else j - 1;
        assert r[i] == rows[i'] && r[j] == rows[j'];
      }
    }
  }

  /**
   * Pin then unpin is the identity on a strictly sorted list: the removed
   * row, reinserted under its own `__initIndex`, lands where it was.
   */
  lemma PinUnpinRoundTrip(rows: seq<Row>, p: nat)
    requires p < |rows| && StrictlySortedByInit(rows)
    ensures Reinserted(RemoveAt(rows, p), rows[p].initIndex.value, rows[p]) == rows
  {
    var rest := RemoveAt(rows, p);
    var k := rows[p].initIndex.value;
    RemovedAboveSplit(rows, p);
    InsertPosAtSplit(rest, k, p);
    InsertRemoved(rows, p);
  }

  /** In a strictly sorted list without row p, exactly the rows from p on lie above row p's index. */
  lemma RemovedAboveSplit(rows: seq<Row>, p: nat)
    requires p < |rows| && StrictlySortedByInit(rows)
    ensures var rest := RemoveAt(rows, p);
      forall i :: 0 <= i < |rest| ==> (Above(rest[i], rows[p].initIndex.value) <==> i >= p)
  {
    var rest := RemoveAt(rows, p);
    var k := rows[p].initIndex.value;
    forall i | 0 <= i < |rest|
      ensures Above(rest[i], k) <==> i >= p
    {
      if i < p { assert rest[i] == rows[i]; } else { assert rest[i] == rows[i + 1]; }
    }
  }

  /** When the rows above k are exactly those from p on, the insertion point is p. */
  lemma InsertPosAtSplit(rest: seq<Row>, k: int, p: nat)
    requires p <= |rest|
    requires forall i :: 0 <= i < |rest| ==> (Above(rest[i], k) <==> i >= p)
    ensures InsertPos(rest, k) == p
  {
    var q := InsertPos(rest, k);
    if p < |rest| {
      assert Above(rest[p], k);
    }
    if q < |rest| {
      assert Above(rest[q], k);
    }
  }

  /** Putting a removed row back where it was gives the original list. */
  lemma InsertRemoved(rows: seq<Row>, p: nat)
    requires p < |rows|
    ensures InsertAt(RemoveAt(rows, p), p, rows[p]) == rows
  {
    var r := InsertAt(RemoveAt(rows, p), p, rows[p]);
    forall i | 0 <= i < |rows|
      ensures r[i] == rows[i]
    {
      if i > p {
        assert r[i] == RemoveAt(rows, p)[i - 1];
      }
    }
  }

  /**
   * The load-time preparation: each row gets an empty `_dir`, no flash
   * metadata, and its position as `__initIndex`.
   */
  function Prepare(data: seq<Row>): (r: seq<Row>)
    ensures |r| == |data| && Symbols(r) == Symbols(data)
    ensures StrictlySortedByInit(r)
    ensures forall i :: 0 <= i < |r| ==>
      && r[i].initIndex == Some(i)
      && r[i].num == data[i].num && r[i].bb == data[i].bb && r[i].bo == data[i].bo
      && r[i].dir == map[] && r[i].changes == None && r[i].lastUpdate == None
  {
    seq(|data|, i requires 0 <= i < |data| =>
      data[i].(dir := map[], changes := None, lastUpdate := None, initIndex := Some(i)))
  }

  /** The example of three rows: pin B, then unpin it, and A, B, C are back in order. */
  lemma PinUnpinExample(a: Row, b: Row, c: Row)
    requires a.initIndex == Some(0) && b.initIndex == Some(1) && c.initIndex == Some(2)
    ensures RemoveAt([a, b, c], 1) == [a, c]
    ensures Reinserted([a, c], 1, b) == [a, b, c]
  {
    assert FirstAbove([a, c], 1) == 1;
  }
}
