/**
 * The two copies of the JSON board's main list, as the component keeps
 * them: `rowDataRef.current`, which ticks and flushes write, and the React
 * state `rowData`, from which `togglePin` rebuilds the list. Right after
 * the load, after every pin, and after every unpin that restores a row, the
 * two are one array, so a write through the ref shows in the state. A
 * flush that sends rows to the grid replaces the state by a copy, and from
 * then on a write through the ref stays in the ref. An unpin without a
 * ledger entry also gives the state a fresh copy and leaves the ref alone.
 *
 * The rest of the model keeps one authoritative list and pins from it;
 * this module shows what the pin as written loses.
 */
module RowCopies {
  import opened Rows
  import opened PinOrder
  import opened OrderedMaps
  import opened PriceBoardJson

  /** The ref's list, the state's list, and whether they are one array. */
  datatype Copies = Copies(ref: seq<Row>, state: seq<Row>, shared: bool)

  /** One array has one content. */
  predicate Coherent(c: Copies)
  {
    c.shared ==> c.ref == c.state
  }

  /** `rowDataRef.current = prepared; setRowData(prepared)` */
  function Loaded(prepared: seq<Row>): Copies
  {
    Copies(prepared, prepared, true)
  }

  /** `rowDataRef.current[pos] = row`: the state sees the write only while it is the same array. */
  function WriteRef(c: Copies, pos: nat, row: Row): Copies
    requires pos < |c.ref|
  {
    Copies(c.ref[pos := row], if c.shared && pos < |c.state| then c.state[pos := row] else c.state, c.shared)
  }

  /** `copy[pos] = u` for each update whose symbol has an in-range position. */
  function MergeAt(copy: seq<Row>, updates: seq<Row>, index: map<string, int>): seq<Row>
    decreases |updates|
  {
    if updates == [] then copy
    else
      var u := updates[0];
      var next := if u.s in index && 0 <= index[u.s] < |copy| then copy[index[u.s] := u] else copy;
      MergeAt(next, updates[1..], index)
  }

  /**
   * The flush's `setRowData`, run only when some rendered row was sent: a
   * copy of the state with the sent rows merged in through the index.
   */
  function SyncState(c: Copies, updatesForDom: seq<Row>, index: map<string, int>): Copies
  {
    if updatesForDom == [] then c
    else Copies(c.ref, MergeAt(c.state, updatesForDom, index), false)
  }

  /**
   * The pin branch of `togglePin` as written: the row is spliced out of a
   * copy of the React state, and that copy becomes both lists.
   */
  function PinFromState(c: Copies, sym: string, index: map<string, int>): Copies
  {
    var pos := if sym in index then index[sym] else FindSymbol(c.state, sym);
    var copy := if 0 <= pos < |c.state| then RemoveAt(c.state, pos) else c.state;
    Copies(copy, copy, true)
  }

  /**
   * While the two lists are one array, the pin as written removes the row
   * from the authoritative list, as the store's pin does.
   */
  lemma SharedPinMatchesStore(c: Copies, st: StoreState, sym: string)
    requires Coherent(c) && c.shared
    requires IndexMatches(st.rows, st.index) && st.meta.Valid() && st.rows == c.ref
    ensures PinFromState(c, sym, st.index).ref == PinSpec(st, sym).rows
  {
    IndexMatchesFacts(st.rows, st.index);
  }

  /**
   * Three rows A, B and C are loaded. A ticks while rendered and the flush
   * sends it, so the state becomes a copy. B ticks while not rendered, so
   * its next flush sends nothing and the state keeps the old B. Pinning C
   * then rebuilds the authoritative list from the state, and B's tick is
   * lost.
   */
  lemma PinLosesUnrenderedTick(a: Row, b: Row, c: Row, a2: Row, b2: Row)
    requires a.s != b.s && b.s != c.s && a.s != c.s
    requires a2.s == a.s && b2.s == b.s && b2 != b
    ensures var l1 := WriteRef(Loaded([a, b, c]), 0, a2);
      var l2 := SyncState(l1, [a2], IndexOf(l1.ref));
      var l3 := WriteRef(l2, 1, b2);
      var pinned := PinFromState(l3, c.s, IndexOf(l3.ref));
      && l3.ref == [a2, b2, c]
      && pinned.ref == [a2, b] && b2 !in pinned.ref
  {
    TicksAroundFlush(a, b, c, a2, b2);
    PinFromStaleState(a2, b, c, b2);
  }

  /** The tick of A, the flush that sends it, and the tick of B leave the state with the old B. */
  lemma TicksAroundFlush(a: Row, b: Row, c: Row, a2: Row, b2: Row)
    requires a2.s == a.s && a.s != b.s && a.s != c.s
    ensures var l1 := WriteRef(Loaded([a, b, c]), 0, a2);
      var l2 := SyncState(l1, [a2], IndexOf(l1.ref));
      WriteRef(l2, 1, b2) == Copies([a2, b2, c], [a2, b, c], false)
  {
    var l1 := WriteRef(Loaded([a, b, c]), 0, a2);
    assert l1 == Copies([a2, b, c], [a2, b, c], true);
    var index := IndexOf(l1.ref);
    assert index[a2.s] == 0 by {
      IndexOfThree(a2, b, c);
    }
    MergeOne([a2, b, c], a2, index);
    assert SyncState(l1, [a2], index) == Copies([a2, b, c], [a2, b, c], false);
  }

  /** Merging one sent row writes it at its symbol's position, when that is in range. */
  lemma MergeOne(copy: seq<Row>, u: Row, index: map<string, int>)
    ensures MergeAt(copy, [u], index) ==
      if u.s in index && 0 <= index[u.s] < |copy| then copy[index[u.s] := u] else copy
  {
    assert [u][1..] == [];
  }

  /** Pinning C from the stale state drops B's tick. */
  lemma PinFromStaleState(a2: Row, b: Row, c: Row, b2: Row)
    requires a2.s != b.s && a2.s != c.s && b.s != c.s && b2.s == b.s && b2 != b
    ensures var l3 := Copies([a2, b2, c], [a2, b, c], false);
      var pinned := PinFromState(l3, c.s, IndexOf(l3.ref));
      pinned.ref == [a2, b] && b2 !in pinned.ref
  {
    var l3 := Copies([a2, b2, c], [a2, b, c], false);
    IndexOfThree(a2, b2, c);
    var index := IndexOf(l3.ref);
    assert index[c.s] == 2;
    assert PinFromState(l3, c.s, index).ref == [a2, b];
  }

  /** Pinning C from the authoritative list of the same moment keeps B's tick. */
  lemma StorePinKeepsTick(a2: Row, b2: Row, c: Row)
    requires a2.s != b2.s && b2.s != c.s && a2.s != c.s
    ensures var rows := [a2, b2, c];
      IndexMatches(rows, IndexOf(rows))
      && PinSpec(StoreState(rows, IndexOf(rows), [], [], Empty(), Empty()), c.s).rows == [a2, b2]
  {
    var rows := [a2, b2, c];
    IndexOfThree(a2, b2, c);
    assert UniqueSymbols(rows);
    IndexOfMatches(rows);
    assert IndexOf(rows)[c.s] == 2;
    assert RemoveAt(rows, 2) == [a2, b2];
  }

  /** The index built for three rows: each symbol maps to its position, a later one winning. */
  lemma IndexOfThree(x: Row, y: Row, z: Row)
    ensures IndexOf([x, y, z]) == map[x.s := 0][y.s := 1][z.s := 2]
  {
    var one, two, three := [x], [x, y], [x, y, z];
    assert one[..0] == [] && two[..1] == one && three[..2] == two;
    assert IndexOf(one) == map[x.s := 0];
    assert IndexOf(two) == IndexOf(one)[y.s := 1];
    assert IndexOf(three) == IndexOf(two)[z.s := 2];
  }
}
