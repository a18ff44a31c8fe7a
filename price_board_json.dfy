/**
 * The row store of the JSON price board: the authoritative main list, the
 * symbol-to-position index rebuilt after every change of the list, the
 * pinned symbols (newest first) with the rows shown above the grid, the pin
 * ledger that remembers each pinned row and where it came from, and the
 * pending map that batches ticks between two flushes.
 *
 * The grid's own copy of the rows is not modelled: the set of rendered
 * symbols and the row a grid node holds are parameters.
 */
module PriceBoardJson {
  import opened Wrappers
  import opened Values
  import opened Rows
  import opened OrderedMaps
  import opened Tick
  import opened TickLaws
  import opened PinOrder

  /** What the ledger keeps for a pinned symbol. `originalIndex` is stored and never read. */
  datatype PinMeta = PinMeta(row: Row, originalIndex: int, originalInitIndex: int)

  /** `removedRow.__initIndex ?? removedIndex` */
  function InitOr(row: Row, pos: int): (k: int)
    ensures row.initIndex.Some? ==> k == row.initIndex.value
    ensures row.initIndex.None? ==> k == pos
  {
    if row.initIndex.Some? then row.initIndex.value else pos
  }

  /** The index map agrees with the list: `index[s] = i` exactly when `rows[i].s = s`. */
  predicate IndexMatches(rows: seq<Row>, index: map<string, int>)
  {
    && (forall s :: s in index ==> 0 <= index[s] < |rows| && rows[index[s]].s == s)
    && (forall i :: 0 <= i < |rows| ==> rows[i].s in index && index[rows[i].s] == i)
  }

  /** An index map that agrees with the list has the list's symbols as keys, each once. */
  lemma IndexMatchesFacts(rows: seq<Row>, index: map<string, int>)
    requires IndexMatches(rows, index)
    ensures UniqueSymbols(rows)
    ensures forall s :: s in index <==> s in Symbols(rows)
  {
    forall s | s in Symbols(rows)
      ensures s in index
    {
      var i :| 0 <= i < |rows| && Symbols(rows)[i] == s;
      assert rows[i].s == s;
    }
    forall s | s in index
      ensures s in Symbols(rows)
    {
      assert Symbols(rows)[index[s]] == s;
    }
  }

  /** At most one index map agrees with a given list. */
  lemma IndexDetermined(rows: seq<Row>, m1: map<string, int>, m2: map<string, int>)
    requires IndexMatches(rows, m1) && IndexMatches(rows, m2)
    ensures m1 == m2
  {
    forall s | s in m1
      ensures s in m2 && m2[s] == m1[s]
    {
      assert rows[m1[s]].s == s;
    }
    forall s | s in m2
      ensures s in m1
    {
      assert rows[m2[s]].s == s;
    }
  }

  /**
   * The index map `rows.forEach((r, i) => m.set(r.s, i))` builds: every
   * symbol of the list is a key, mapped to a position holding it, and a
   * later position wins.
   */
  function IndexOf(rows: seq<Row>): (m: map<string, int>)
    ensures forall s :: s in m ==> 0 <= m[s] < |rows| && rows[m[s]].s == s
    ensures forall i :: 0 <= i < |rows| ==> rows[i].s in m && m[rows[i].s] >= i
  {
    if rows == [] then map[]
    else
      var n := |rows| - 1;
      assert forall i :: 0 <= i < n ==> rows[..n][i] == rows[i];
      IndexOf(rows[..n])[rows[n].s := n]
  }

  /** With unique symbols the built map agrees with the list. */
  lemma IndexOfMatches(rows: seq<Row>)
    requires UniqueSymbols(rows)
    ensures IndexMatches(rows, IndexOf(rows))
  {
    var m := IndexOf(rows);
    forall i | 0 <= i < |rows|
      ensures m[rows[i].s] == i
    {
      var j := m[rows[i].s];
      assert rows[j].s == rows[i].s;
    }
  }

  /** The index rebuild: one `set` per row, in list order. */
  method BuildIndex(rows: seq<Row>) returns (m: map<string, int>)
    ensures m == IndexOf(rows)
  {
    m := map[];
    for i := 0 to |rows|
      invariant m == IndexOf(rows[..i])
    {
      assert rows[..i + 1][..i] == rows[..i];
      m := m[rows[i].s := i];
    }
    assert rows[..|rows|] == rows;
  }

  /** `Symbols` distributes over concatenation. */
  lemma SymbolsAppend(a: seq<Row>, b: seq<Row>)
    ensures Symbols(a + b) == Symbols(a) + Symbols(b)
  {
    assert forall i :: 0 <= i < |a + b| ==> Symbols(a + b)[i] == (Symbols(a) + Symbols(b))[i];
  }

  /** The pinned symbols that have a ledger entry, in pin order. */
  function MetaFilter(syms: seq<string>, keys: set<string>): (r: seq<string>)
    ensures forall s {:trigger s in r} :: s in r <==> s in syms && s in keys
  {
    if syms == [] then []
    else (if syms[0] in keys then [syms[0]] else []) + MetaFilter(syms[1..], keys)
  }

  /** When every pinned symbol has a ledger entry, the filter keeps them all, in pin order. */
  lemma {:induction false} MetaFilterKeepsAll(syms: seq<string>, keys: set<string>)
    requires forall s :: s in syms ==> s in keys
    ensures MetaFilter(syms, keys) == syms
  {
    if syms != [] {
      MetaFilterKeepsAll(syms[1..], keys);
      assert syms == [syms[0]] + syms[1..];
    }
  }

  /**
   * The effect on `pinnedSymbols`: each pinned symbol shows its ledger row,
   * or else its main row through the index, and symbols with neither are
   * dropped (`filter(Boolean)`). When no pinned symbol is in the index and
   * every ledger row carries its own symbol, the view lists exactly the
   * pinned symbols that have a ledger entry.
   */
  function PinnedView(syms: seq<string>, meta: map<string, PinMeta>, rows: seq<Row>, index: map<string, int>): (v: seq<Row>)
    ensures |v| <= |syms|
    ensures syms != [] && syms[0] in meta ==> v != [] && v[0] == meta[syms[0]].row
    ensures (forall s :: s in syms ==> s !in index) && (forall k :: k in meta ==> meta[k].row.s == k) ==>
      Symbols(v) == MetaFilter(syms, meta.Keys)
  {
    if syms == [] then []
    else
      var s := syms[0];
      var head :=
        if s in meta then [meta[s].row]
        else if s in index && 0 <= index[s] < |rows| then [rows[index[s]]]
        else [];
      var rest := PinnedView(syms[1..], meta, rows, index);
      SymbolsAppend(head, rest);
      head + rest
  }

  /**
   * When no pinned symbol is in the index, the effect recomputes the rows
   * above the grid as exactly the ledger rows of the pinned symbols that
   * have a ledger entry, one by one and in pin order.
   */
  lemma {:induction false} PinnedViewLedgerRows(syms: seq<string>, meta: map<string, PinMeta>, rows: seq<Row>, index: map<string, int>)
    requires forall s :: s in syms ==> s !in index
    ensures var ks := MetaFilter(syms, meta.Keys);
      var v := PinnedView(syms, meta, rows, index);
      && |v| == |ks|
      && forall i :: 0 <= i < |ks| ==> ks[i] in meta && v[i] == meta[ks[i]].row
  {
    if syms != [] {
      PinnedViewLedgerRows(syms[1..], meta, rows, index);
      var ks' := MetaFilter(syms[1..], meta.Keys);
      var rest := PinnedView(syms[1..], meta, rows, index);
      if syms[0] in meta {
        var ks := [syms[0]] + ks';
        var v := [meta[syms[0]].row] + rest;
        assert MetaFilter(syms, meta.Keys) == ks;
        assert PinnedView(syms, meta, rows, index) == v;
        forall i | 0 <= i < |ks|
          ensures ks[i] in meta && v[i] == meta[ks[i]].row
        {
          if i > 0 {
            assert ks[i] == ks'[i - 1] && v[i] == rest[i - 1];
          }
        }
      } else {
        assert MetaFilter(syms, meta.Keys) == ks';
        assert PinnedView(syms, meta, rows, index) == rest;
      }
    }
  }

  /** `prev.filter((r) => r.s !== sym)` */
  function DropSymbol(rows: seq<Row>, sym: string): (r: seq<Row>)
    ensures forall x {:trigger x in r} :: x in r <==> x in rows && x.s != sym
  {
    if rows == [] then []
    else (if rows[0].s != sym then [rows[0]] else []) + DropSymbol(rows[1..], sym)
  }

  /** `keys.filter((s) => !index.has(s))` */
  function NotIndexed(keys: seq<string>, index: map<string, int>): (r: seq<string>)
    ensures |r| <= |keys|
    ensures forall s {:trigger s in r} :: s in r <==> s in keys && s !in index
  {
    if keys == [] then []
    else (if keys[0] !in index then [keys[0]] else []) + NotIndexed(keys[1..], index)
  }

  /** The symbols a tick picks from: the main list's, then the pinned ones off the list. */
  function TickCandidates(rows: seq<Row>, metaKeys: seq<string>, index: map<string, int>): (all: seq<string>)
    ensures forall s {:trigger s in all} :: s in all <==> s in Symbols(rows) || (s in metaKeys && s !in index)
  {
    Symbols(rows) + NotIndexed(metaKeys, index)
  }

  /** The pending symbols that are rendered, in the order they were first staged. */
  function RenderedKeys(keys: seq<string>, rendered: set<string>): (r: seq<string>)
    ensures forall s {:trigger s in r} :: s in r <==> s in keys && s in rendered
  {
    if keys == [] then []
    else
      var last := keys[|keys| - 1];
      var init := keys[..|keys| - 1];
      assert keys == init + [last];
      RenderedKeys(init, rendered) + (if last in rendered then [last] else [])
  }

  /** `updatesForDom`: the staged rows of rendered symbols, in staging order. */
  function ForGrid(keys: seq<string>, vals: map<string, Row>, rendered: set<string>): (out: seq<Row>)
    ensures |out| <= |keys|
  {
    if keys == [] then []
    else
      var last := keys[|keys| - 1];
      ForGrid(keys[..|keys| - 1], vals, rendered) + (if last in rendered && last in vals then [vals[last]] else [])
  }

  /**
   * The grid update holds the staged row of every rendered pending symbol
   * and of no other symbol, in staging order.
   */
  lemma {:induction false} ForGridExactly(keys: seq<string>, vals: map<string, Row>, rendered: set<string>)
    requires forall k :: k in keys ==> k in vals && vals[k].s == k
    ensures Symbols(ForGrid(keys, vals, rendered)) == RenderedKeys(keys, rendered)
    ensures forall x :: x in ForGrid(keys, vals, rendered) ==> x.s in vals && x == vals[x.s]
  {
    if keys != [] {
      var last := keys[|keys| - 1];
      var init := keys[..|keys| - 1];
      assert keys == init + [last];
      ForGridExactly(init, vals, rendered);
      var tail := if last in rendered && last in vals then [vals[last]] else [];
      SymbolsAppend(ForGrid(init, vals, rendered), tail);
    }
  }

  /**
   * Removing position p from a list with a matching index: the new index
   * holds the other symbols, each still pointing at the same row.
   */
  lemma RemovedLookup(rows: seq<Row>, index: map<string, int>, p: nat, index2: map<string, int>)
    requires IndexMatches(rows, index) && p < |rows| && IndexMatches(RemoveAt(rows, p), index2)
    ensures forall s :: s in index2 <==> s in index && s != rows[p].s
    ensures forall s :: s in index2 ==> RemoveAt(rows, p)[index2[s]] == rows[index[s]]
  {
    forall s | s in index2
      ensures s in index && s != rows[p].s && RemoveAt(rows, p)[index2[s]] == rows[index[s]]
    {
      RemovedSymbolLookup(rows, index, p, index2, s);
    }
    forall s | s in index && s != rows[p].s
      ensures s in index2
    {
      RemovedSymbolKept(rows, index, p, s, index2);
    }
  }

  /** A symbol of the shorter list was in the longer one, and was not the removed row's. */
  lemma RemovedSymbolLookup(rows: seq<Row>, index: map<string, int>, p: nat, index2: map<string, int>, s: string)
    requires IndexMatches(rows, index) && p < |rows| && IndexMatches(RemoveAt(rows, p), index2)
    requires s in index2
    ensures s in index && s != rows[p].s && RemoveAt(rows, p)[index2[s]] == rows[index[s]]
  {
    var r := RemoveAt(rows, p);
    var j := index2[s];
    var j' := if j < p then j else j + 1;
    assert r[j] == rows[j'] && r[j].s == s;
    assert index[rows[j'].s] == j' && index[rows[p].s] == p;
  }

  /** A symbol other than the removed row's stays in the shorter list. */
  lemma RemovedSymbolKept(rows: seq<Row>, index: map<string, int>, p: nat, s: string, index2: map<string, int>)
    requires IndexMatches(rows, index) && p < |rows| && IndexMatches(RemoveAt(rows, p), index2)
    requires s in index && s != rows[p].s
    ensures s in index2
  {
    var r := RemoveAt(rows, p);
    var i := index[s];
    assert rows[i].s == s && i != p;
    var i' := if i < p then i else i - 1;
    assert r[i'] == rows[i];
  }

  /**
   * Inserting a row with a fresh symbol into a list with a matching index:
   * the new index adds that symbol, and every old symbol still points at
   * the same row.
   */
  lemma InsertedLookup(rows: seq<Row>, index: map<string, int>, q: nat, row: Row, index2: map<string, int>)
    requires IndexMatches(rows, index) && q <= |rows| && row.s !in index
    requires IndexMatches(InsertAt(rows, q, row), index2)
    ensures forall s :: s in index2 <==> s in index || s == row.s
    ensures row.s in index2 && InsertAt(rows, q, row)[index2[row.s]] == row
    ensures forall s :: s in index ==> InsertAt(rows, q, row)[index2[s]] == rows[index[s]]
  {
    var r := InsertAt(rows, q, row);
    forall s | s in index2
      ensures s in index || s == row.s
    {
      InsertedSymbolLookup(rows, index, q, row, index2, s);
    }
    forall s | s in index
      ensures s in index2 && r[index2[s]] == rows[index[s]]
    {
      InsertedSymbolKept(rows, index, q, row, index2, s);
    }
    assert r[q] == row;
  }

  /** A symbol of the longer list is an old one or the inserted row's. */
  lemma InsertedSymbolLookup(rows: seq<Row>, index: map<string, int>, q: nat, row: Row, index2: map<string, int>, s: string)
    requires IndexMatches(rows, index) && q <= |rows|
    requires IndexMatches(InsertAt(rows, q, row), index2) && s in index2
    ensures s in index || s == row.s
  {
    var r := InsertAt(rows, q, row);
    var j := index2[s];
    if j != q {
      var j' := if j < q then j else j - 1;
      assert r[j] == rows[j'];
    }
  }

  /** An old symbol stays in the longer list, on the same row. */
  lemma InsertedSymbolKept(rows: seq<Row>, index: map<string, int>, q: nat, row: Row, index2: map<string, int>, s: string)
    requires IndexMatches(rows, index) && q <= |rows|
    requires IndexMatches(InsertAt(rows, q, row), index2) && s in index
    ensures s in index2 && InsertAt(rows, q, row)[index2[s]] == rows[index[s]]
  {
    var r := InsertAt(rows, q, row);
    var i := index[s];
    var i' := if i < q then i else i + 1;
    assert r[i'] == rows[i];
  }

  /** Inserting a row whose symbol is not in the list keeps symbols unique. */
  lemma InsertKeepsUnique(rows: seq<Row>, q: nat, row: Row)
    requires UniqueSymbols(rows) && q <= |rows| && row.s !in Symbols(rows)
    ensures UniqueSymbols(InsertAt(rows, q, row))
  {
    var r := InsertAt(rows, q, row);
    forall i, j | 0 <= i < j < |r|
      ensures r[i].s != r[j].s
    {
      var i' := if i < q then i else i - 1;
      var j' := if j < q then j else j - 1;
      if i == q {
        assert Symbols(rows)[j'] == r[j].s;
      } else if j == q {
        assert Symbols(rows)[i'] == r[i].s;
      }
    }
  }

  /** Removing a row keeps symbols unique. */
  lemma RemoveKeepsUnique(rows: seq<Row>, p: nat)
    requires UniqueSymbols(rows) && p < |rows|
    ensures UniqueSymbols(RemoveAt(rows, p))
  {
    var r := RemoveAt(rows, p);
    forall i, j | 0 <= i < j < |r|
      ensures r[i].s != r[j].s
    {
      var i' := if i < p then i else i + 1;
      var j' := if j < p then j else j + 1;
      assert r[i] == rows[i'] && r[j] == rows[j'];
    }
  }

  /**
   * Replacing by symbol is a no-op on a list with a matching index that
   * already holds the row, or that lacks its symbol.
   */
  lemma ReplaceIsNoop(rows: seq<Row>, index: map<string, int>, nr: Row)
    requires IndexMatches(rows, index)
    requires nr.s in index ==> rows[index[nr.s]] == nr
    ensures ReplaceBySymbol(rows, nr) == rows
  {
    IndexMatchesFacts(rows, index);
    if nr.s in index {
      ReplaceBySymbolAt(rows, index[nr.s], nr);
      assert rows[index[nr.s] := nr] == rows;
    } else {
      ReplaceBySymbolAbsent(rows, nr);
    }
  }

  /** The board's mutable state, bundled as one value. */
  datatype StoreState = StoreState(
    rows: seq<Row>,
    index: map<string, int>,
    pinnedSymbols: seq<string>,
    pinnedTopRows: seq<Row>,
    meta: OrderedMap<PinMeta>,
    pending: OrderedMap<Row>)

  /** Every ledger row carries its key as symbol, and a ledger symbol is pinned and off the main list. */
  predicate MetaKeyed(meta: map<string, PinMeta>, index: map<string, int>, pinned: seq<string>)
  {
    forall k :: k in meta ==> meta[k].row.s == k && k !in index && k in pinned
  }

  /** Every staged row carries its key as symbol, and its symbol is on the main list or in the ledger. */
  predicate PendingKeyed(pending: map<string, Row>, index: map<string, int>, meta: map<string, PinMeta>)
  {
    forall k :: k in pending ==> pending[k].s == k && (k in index || k in meta)
  }

  /** The pinned symbols are distinct and off the main list. */
  predicate PinnedApart(pinned: seq<string>, index: map<string, int>)
  {
    && (forall i, j :: 0 <= i < j < |pinned| ==> pinned[i] != pinned[j])
    && (forall s :: s in pinned ==> s !in index)
  }

  /**
   * The ledger invariant: the index agrees with the list (so symbols are
   * unique), the ledger and the pending map are well-formed maps whose rows
   * carry their key as symbol, a ledger symbol is pinned and off the list,
   * the pinned symbols are distinct and off the list, and every staged
   * symbol is on the list or in the ledger.
   */
  ghost predicate Ledger(st: StoreState)
  {
    && IndexMatches(st.rows, st.index)
    && st.meta.Valid() && st.pending.Valid()
    && MetaKeyed(st.meta.values, st.index, st.pinnedSymbols)
    && PendingKeyed(st.pending.values, st.index, st.meta.values)
    && PinnedApart(st.pinnedSymbols, st.index)
  }

  /** The ledger invariant, and the rows above the grid are those of the pinned symbols in the ledger. */
  ghost predicate Inv(st: StoreState)
  {
    Ledger(st) && Symbols(st.pinnedTopRows) == MetaFilter(st.pinnedSymbols, st.meta.values.Keys)
  }

  /**
   * The current row of a symbol, looked up as the tick does: through the
   * index when the symbol has a position, in the ledger otherwise.
   */
  function RowOf(st: StoreState, s: string): (r: Option<Row>)
    ensures s in st.index && 0 <= st.index[s] < |st.rows| ==> r == Some(st.rows[st.index[s]])
    ensures s !in st.index && s in st.meta.values ==> r == Some(st.meta.values[s].row)
    ensures r.Some? ==> (s in st.index && 0 <= st.index[s] < |st.rows|) || (s !in st.index && s in st.meta.values)
  {
    if s in st.index then
      if 0 <= st.index[s] < |st.rows| then Some(st.rows[st.index[s]]) else None
    else if s in st.meta.values then Some(st.meta.values[s].row)
    else None
  }

  /** Every ledger row carries its `originalInitIndex` as `__initIndex`. */
  ghost predicate LedgerInits(st: StoreState)
  {
    forall k :: k in st.meta.values ==> st.meta.values[k].row.initIndex == Some(st.meta.values[k].originalInitIndex)
  }

  /** The current rows of distinct symbols carry distinct `__initIndex` values. */
  ghost predicate DistinctInits(st: StoreState)
  {
    forall s, t :: s != t && RowOf(st, s).Some? && RowOf(st, t).Some? ==>
      RowOf(st, s).value.initIndex != RowOf(st, t).value.initIndex
  }

  /** A staged row carries the `__initIndex` of its symbol's current row. */
  ghost predicate PendingInits(st: StoreState)
  {
    forall k :: k in st.pending.values && RowOf(st, k).Some? ==>
      st.pending.values[k].initIndex == RowOf(st, k).value.initIndex
  }

  /**
   * The order the unpin relies on: the main list is in strict `__initIndex`
   * order, each ledger row remembers its own `__initIndex`, no two current
   * rows share one, and the staged rows agree with the current rows.
   */
  ghost predicate Ordered(st: StoreState)
  {
    StrictlySortedByInit(st.rows) && LedgerInits(st) && DistinctInits(st) && PendingInits(st)
  }

  /** The two states have current rows for the same symbols, with the same `__initIndex`. */
  ghost predicate SameInits(a: StoreState, b: StoreState)
  {
    forall s :: RowOf(a, s).Some? == RowOf(b, s).Some? &&
      (RowOf(a, s).Some? ==> RowOf(a, s).value.initIndex == RowOf(b, s).value.initIndex)
  }

  /** The state right after the load. */
  function LoadSpec(data: seq<Row>): StoreState
  {
    var prepared := Prepare(data);
    StoreState(prepared, IndexOf(prepared), [], [], Empty(), Empty())
  }

  /** The pin branch of `togglePin`. */
  function PinSpec(st: StoreState, sym: string): StoreState
    requires IndexMatches(st.rows, st.index) && st.meta.Valid()
  {
    var pos := if sym in st.index then st.index[sym] else FindSymbol(st.rows, sym);
    if pos >= 0 then
      var removed := st.rows[pos];
      var rows := RemoveAt(st.rows, pos);
      StoreState(rows, IndexOf(rows), [sym] + st.pinnedSymbols, [removed] + st.pinnedTopRows,
                 st.meta.Set(sym, PinMeta(removed, pos, InitOr(removed, pos))), st.pending)
    else
      StoreState(st.rows, IndexOf(st.rows), [sym] + st.pinnedSymbols, st.pinnedTopRows, st.meta, st.pending)
  }

  /** The unpin branch of `togglePin`. */
  function UnpinSpec(st: StoreState, sym: string): StoreState
    requires st.meta.Valid()
  {
    var entry := st.meta.Get(sym);
    var rows := if entry.Some? then Reinserted(st.rows, entry.value.originalInitIndex, entry.value.row) else st.rows;
    StoreState(
      rows,
      if entry.Some? then IndexOf(rows) else st.index,
      Without(st.pinnedSymbols, sym),
      DropSymbol(st.pinnedTopRows, sym),
      st.meta.Delete(sym),
      st.pending)
  }

  /** `togglePin`, followed by the effect that runs on every change of `pinnedSymbols`. */
  function TogglePinSpec(st: StoreState, sym: string): StoreState
    requires IndexMatches(st.rows, st.index) && st.meta.Valid()
  {
    var st1 := if sym in st.pinnedSymbols then UnpinSpec(st, sym) else PinSpec(st, sym);
    st1.(pinnedTopRows := PinnedView(st1.pinnedSymbols, st1.meta.values, st1.rows, st1.index))
  }

  /**
   * Writing a row back: `rowDataRef.current[pos] = row` when the symbol has
   * a position, otherwise `meta.row = row` when the ledger holds it, and
   * nothing else.
   */
  function WriteBack(st: StoreState, sym: string, row: Row): (r: StoreState)
    requires st.meta.Valid()
    ensures r.meta.Valid() && r.meta.keys == st.meta.keys && r.meta.values.Keys == st.meta.values.Keys
    ensures r.index == st.index && |r.rows| == |st.rows|
    ensures r.pinnedSymbols == st.pinnedSymbols && r.pinnedTopRows == st.pinnedTopRows && r.pending == st.pending
    ensures forall k :: k in r.meta.values ==> r.meta.values[k].originalInitIndex == st.meta.values[k].originalInitIndex
  {
    if sym in st.index then
      if 0 <= st.index[sym] < |st.rows| then st.(rows := st.rows[st.index[sym] := row]) else st
    else
      match st.meta.Get(sym)
      case Some(entry) => st.(meta := st.meta.Set(sym, entry.(row := row)))
      case None => st
  }

  /** The symbol a tick picks, when there is one to pick. */
  function PickedSymbol(st: StoreState, pick: real): Option<string>
    requires Unit(pick)
  {
    var all := TickCandidates(st.rows, st.meta.keys, st.index);
    if |all| == 0 then None else Some(all[PickIndex(pick, |all|)])
  }

  /**
   * One incoming tick: nothing when no row is left anywhere or the picked
   * symbol has no row; otherwise the picked row is updated, staged, written
   * back, and replaced above the grid when it sits in the ledger.
   */
  function TickSpec(st: StoreState, pick: real, draws: Draws, now: int): StoreState
    requires st.meta.Valid() && st.pending.Valid() && Unit(pick) && DrawsOk(draws)
  {
    if |st.rows| == 0 && st.meta.Size() == 0 then st
    else match PickedSymbol(st, pick)
      case None => st
      case Some(sym) => TickAt(st, sym, draws, now)
  }

  /** The tick of a picked symbol: nothing when it has no row, otherwise its update is staged. */
  function TickAt(st: StoreState, sym: string, draws: Draws, now: int): StoreState
    requires st.meta.Valid() && st.pending.Valid() && DrawsOk(draws)
  {
    match RowOf(st, sym)
    case None => st
    case Some(oldRow) => Staged(st, UpdatedRow(oldRow, draws, now))
  }

  /**
   * The second half of a tick: the new row is staged (last write wins),
   * written back, and replaced above the grid when it sits in the ledger.
   */
  function Staged(st: StoreState, newRow: Row): StoreState
    requires st.meta.Valid() && st.pending.Valid()
  {
    var st1 := WriteBack(st.(pending := st.pending.Set(newRow.s, newRow)), newRow.s, newRow);
    if newRow.s !in st.index && newRow.s in st.meta.values
    then st1.(pinnedTopRows := ReplaceBySymbol(st.pinnedTopRows, newRow))
    else st1
  }

  /** Writing back the staged rows of `keys`, in order. */
  function Flushed(st: StoreState, keys: seq<string>, vals: map<string, Row>): (r: StoreState)
    requires st.meta.Valid() && forall k :: k in keys ==> k in vals
    ensures r.meta.Valid() && r.meta.keys == st.meta.keys && r.meta.values.Keys == st.meta.values.Keys
    ensures r.index == st.index && |r.rows| == |st.rows|
    ensures r.pinnedSymbols == st.pinnedSymbols && r.pinnedTopRows == st.pinnedTopRows && r.pending == st.pending
    ensures forall k :: k in r.meta.values ==> r.meta.values[k].originalInitIndex == st.meta.values[k].originalInitIndex
  {
    if keys == [] then st
    else
      var last := keys[|keys| - 1];
      WriteBack(Flushed(st, keys[..|keys| - 1], vals), last, vals[last])
  }

  /** One flush: nothing when nothing is staged; otherwise every staged row is written back and the map cleared. */
  function FlushSpec(st: StoreState): StoreState
    requires st.meta.Valid() && st.pending.Valid()
  {
    if st.pending.Size() == 0 then st
    else Flushed(st, st.pending.keys, st.pending.values).(pending := Empty())
  }

  /** The flash-clear timeout for the row the grid holds, if it holds one. */
  function ClearFlashSpec(st: StoreState, gridRow: Option<Row>): StoreState
    requires st.meta.Valid()
  {
    match gridRow
    case None => st
    case Some(g) =>
      var cleared := ClearedRow(g);
      var st1 := WriteBack(st, cleared.s, cleared);
      st1.(rows := ReplaceBySymbol(st1.rows, cleared), pinnedTopRows := ReplaceBySymbol(st1.pinnedTopRows, cleared))
  }

  // ---------------------------------------------------------------------
  // Laws of the store

  /** The load establishes the invariant, with the list in strict `__initIndex` order. */
  lemma LoadInv(data: seq<Row>)
    requires UniqueSymbols(data)
    ensures Inv(LoadSpec(data)) && StrictlySortedByInit(LoadSpec(data).rows)
    ensures Symbols(LoadSpec(data).rows) == Symbols(data)
  {
    var prepared := Prepare(data);
    assert UniqueSymbols(prepared) by {
      forall i, j | 0 <= i < j < |prepared|
        ensures prepared[i].s != prepared[j].s
      {
        assert Symbols(prepared)[i] == Symbols(data)[i] && Symbols(prepared)[j] == Symbols(data)[j];
      }
    }
    IndexOfMatches(prepared);
    assert Empty<PinMeta>().values.Keys == {};
  }

  /** Writing a row with the same symbol into the list keeps the index in agreement. */
  lemma IndexMatchesUpdate(rows: seq<Row>, index: map<string, int>, p: int, row: Row)
    requires IndexMatches(rows, index) && 0 <= p < |rows| && row.s == rows[p].s
    ensures IndexMatches(rows[p := row], index) && Symbols(rows[p := row]) == Symbols(rows)
  {
  }

  /** The ledger part of a pin that removes a main-list row. */
  lemma MetaKeyedPin(meta: map<string, PinMeta>, index: map<string, int>, pinned: seq<string>,
                     index2: map<string, int>, sym: string, entry: PinMeta)
    requires MetaKeyed(meta, index, pinned) && entry.row.s == sym && sym !in index2
    requires forall s :: s in index2 ==> s in index
    ensures MetaKeyed(meta[sym := entry], index2, [sym] + pinned)
  {
  }

  /** The ledger part of a pin that finds no row: the symbol is only recorded as pinned. */
  lemma MetaKeyedWiden(meta: map<string, PinMeta>, index: map<string, int>, pinned: seq<string>, sym: string)
    requires MetaKeyed(meta, index, pinned)
    ensures MetaKeyed(meta, index, [sym] + pinned)
  {
  }

  /** The staged rows stay accounted for when a pin moves a row from the list to the ledger. */
  lemma PendingKeyedPin(pending: map<string, Row>, index: map<string, int>, meta: map<string, PinMeta>,
                        index2: map<string, int>, sym: string, entry: PinMeta)
    requires PendingKeyed(pending, index, meta)
    requires forall s :: s in index ==> s in index2 || s == sym
    ensures PendingKeyed(pending, index2, meta[sym := entry])
  {
  }

  /** A newly pinned symbol off the list keeps the pinned symbols distinct and off the list. */
  lemma PinnedApartPin(pinned: seq<string>, index: map<string, int>, index2: map<string, int>, sym: string)
    requires PinnedApart(pinned, index) && sym !in pinned && sym !in index2
    requires forall s :: s in index2 ==> s in index
    ensures PinnedApart([sym] + pinned, index2)
  {
    var p := [sym] + pinned;
    forall i, j | 0 <= i < j < |p|
      ensures p[i] != p[j]
    {
      if i == 0 {
        assert p[j] == pinned[j - 1];
      } else {
        assert p[i] == pinned[i - 1] && p[j] == pinned[j - 1];
      }
    }
  }

  /** The ledger part of an unpin. */
  lemma MetaKeyedUnpin(meta: map<string, PinMeta>, index: map<string, int>, pinned: seq<string>,
                       index2: map<string, int>, sym: string)
    requires MetaKeyed(meta, index, pinned)
    requires forall s :: s in index2 ==> s in index || s == sym
    ensures MetaKeyed(meta - {sym}, index2, Without(pinned, sym))
  {
    WithoutFacts(pinned, sym);
  }

  /** The staged rows stay accounted for when an unpin moves a row from the ledger to the list. */
  lemma PendingKeyedUnpin(pending: map<string, Row>, index: map<string, int>, meta: map<string, PinMeta>,
                          index2: map<string, int>, sym: string)
    requires PendingKeyed(pending, index, meta)
    requires (forall s :: s in index ==> s in index2) && (sym in meta ==> sym in index2)
    ensures PendingKeyed(pending, index2, meta - {sym})
  {
  }

  /** Dropping a symbol keeps the pinned symbols distinct and off the list. */
  lemma PinnedApartUnpin(pinned: seq<string>, index: map<string, int>, index2: map<string, int>, sym: string)
    requires PinnedApart(pinned, index)
    requires forall s :: s in index2 ==> s in index || s == sym
    ensures PinnedApart(Without(pinned, sym), index2)
  {
    WithoutFacts(pinned, sym);
  }

  /**
   * What a pin does to a state whose index agrees with its list: a symbol on
   * the list has its row removed (the others keep their order), recorded in
   * the ledger under `__initIndex ?? position` and put on top of the pinned
   * rows; a symbol off the list is only recorded as pinned. Either way the
   * symbol heads the pinned symbols and the index is rebuilt to agree.
   */
  lemma PinEffect(st: StoreState, sym: string)
    requires IndexMatches(st.rows, st.index) && st.meta.Valid()
    ensures var r := PinSpec(st, sym);
      && IndexMatches(r.rows, r.index)
      && (forall s :: s in r.index <==> s in st.index && s != sym)
      && (forall s :: s in r.index ==> r.rows[r.index[s]] == st.rows[st.index[s]])
      && r.pinnedSymbols == [sym] + st.pinnedSymbols && r.pending == st.pending
      && (sym in st.index ==>
            var p := st.index[sym];
            && r.rows == RemoveAt(st.rows, p)
            && r.meta == st.meta.Set(sym, PinMeta(st.rows[p], p, InitOr(st.rows[p], p)))
            && r.pinnedTopRows == [st.rows[p]] + st.pinnedTopRows)
      && (sym !in st.index ==> r.rows == st.rows && r.meta == st.meta && r.pinnedTopRows == st.pinnedTopRows)
  {
    var r := PinSpec(st, sym);
    IndexMatchesFacts(st.rows, st.index);
    if sym in st.index {
      var p := st.index[sym];
      RemoveKeepsUnique(st.rows, p);
      IndexOfMatches(r.rows);
      RemovedLookup(st.rows, st.index, p, r.index);
    } else {
      IndexOfMatches(st.rows);
      IndexDetermined(st.rows, st.index, r.index);
    }
  }

  /** Moving a list row into the ledger, the index agreeing before and after, changes no symbol's current row. */
  lemma ListRowMoved(st: StoreState, r: StoreState, sym: string)
    requires IndexMatches(st.rows, st.index) && IndexMatches(r.rows, r.index)
    requires sym in st.index
    requires forall s :: s in r.index <==> s in st.index && s != sym
    requires forall s :: s in r.index ==> r.rows[r.index[s]] == st.rows[st.index[s]]
    requires sym in r.meta.values && r.meta.values == st.meta.values[sym := r.meta.values[sym]] && r.meta.values[sym].row == st.rows[st.index[sym]]
    ensures forall s :: RowOf(r, s) == RowOf(st, s)
  {
  }

  /** A pin moves a row from the list to the ledger and changes no symbol's current row. */
  lemma PinMovesRows(st: StoreState, sym: string)
    requires IndexMatches(st.rows, st.index) && st.meta.Valid()
    ensures forall s :: RowOf(PinSpec(st, sym), s) == RowOf(st, s)
  {
    if sym in st.index {
      PinListedMovesRows(st, sym);
    } else {
      PinUnlistedMovesRows(st, sym);
    }
  }

  /** A pin of a listed symbol moves its row from the list to the ledger. */
  lemma PinListedMovesRows(st: StoreState, sym: string)
    requires IndexMatches(st.rows, st.index) && st.meta.Valid() && sym in st.index
    ensures forall s :: RowOf(PinSpec(st, sym), s) == RowOf(st, s)
  {
    PinEffect(st, sym);
    ListRowMoved(st, PinSpec(st, sym), sym);
  }

  /** A pin of a symbol off the list leaves the list, the index and the ledger rows alone. */
  lemma PinUnlistedMovesRows(st: StoreState, sym: string)
    requires IndexMatches(st.rows, st.index) && st.meta.Valid() && sym !in st.index
    ensures forall s :: RowOf(PinSpec(st, sym), s) == RowOf(st, s)
  {
    IndexMatchesFacts(st.rows, st.index);
    IndexOfMatches(st.rows);
    IndexDetermined(st.rows, st.index, IndexOf(st.rows));
    assert FindSymbol(st.rows, sym) < 0;
    RowOfFrame(PinSpec(st, sym), st);
  }

  /** Pinning an unpinned symbol keeps the ledger invariant and moves, never changes, a row. */
  lemma PinKeepsLedger(st: StoreState, sym: string)
    requires Ledger(st) && sym !in st.pinnedSymbols
    ensures var r := PinSpec(st, sym);
      && Ledger(r) && sym !in r.index && r.pending == st.pending
      && (forall s :: RowOf(r, s) == RowOf(st, s))
  {
    PinEffect(st, sym);
    var r := PinSpec(st, sym);
    if sym in st.index {
      var p := st.index[sym];
      var entry := PinMeta(st.rows[p], p, InitOr(st.rows[p], p));
      MetaKeyedPin(st.meta.values, st.index, st.pinnedSymbols, r.index, sym, entry);
      PendingKeyedPin(st.pending.values, st.index, st.meta.values, r.index, sym, entry);
    } else {
      MetaKeyedWiden(st.meta.values, st.index, st.pinnedSymbols, sym);
    }
    PinnedApartPin(st.pinnedSymbols, st.index, r.index, sym);
    PinMovesRows(st, sym);
  }

  /**
   * What an unpin does: the ledger entry and the pinned symbol go, and a
   * row the ledger held is reinserted by its `originalInitIndex` with the
   * index rebuilt to agree; without an entry the list stays as it is.
   */
  lemma UnpinEffect(st: StoreState, sym: string)
    requires IndexMatches(st.rows, st.index) && st.meta.Valid()
    requires sym in st.meta.values ==> sym !in st.index && st.meta.values[sym].row.s == sym
    ensures var r := UnpinSpec(st, sym);
      && IndexMatches(r.rows, r.index)
      && r.meta == st.meta.Delete(sym) && r.pinnedSymbols == Without(st.pinnedSymbols, sym)
      && r.pending == st.pending && r.pinnedTopRows == DropSymbol(st.pinnedTopRows, sym)
      && (sym in st.meta.values ==>
            && r.rows == Reinserted(st.rows, st.meta.values[sym].originalInitIndex, st.meta.values[sym].row)
            && (forall s :: s in r.index <==> s in st.index || s == sym)
            && sym in r.index && r.rows[r.index[sym]] == st.meta.values[sym].row
            && (forall s :: s in st.index ==> r.rows[r.index[s]] == st.rows[st.index[s]]))
      && (sym !in st.meta.values ==> r.rows == st.rows && r.index == st.index)
  {
    var r := UnpinSpec(st, sym);
    if sym in st.meta.values {
      var entry := st.meta.values[sym];
      var q := InsertPos(st.rows, entry.originalInitIndex);
      IndexMatchesFacts(st.rows, st.index);
      InsertKeepsUnique(st.rows, q, entry.row);
      IndexOfMatches(r.rows);
      InsertedLookup(st.rows, st.index, q, entry.row, r.index);
    }
  }

  /** Moving a ledger row onto the list, the index agreeing before and after, changes no symbol's current row. */
  lemma LedgerRowMoved(st: StoreState, r: StoreState, sym: string)
    requires IndexMatches(st.rows, st.index) && IndexMatches(r.rows, r.index)
    requires sym in st.meta.values && sym !in st.index
    requires forall s :: s in r.index <==> s in st.index || s == sym
    requires sym in r.index && r.rows[r.index[sym]] == st.meta.values[sym].row
    requires forall s :: s in st.index ==> r.rows[r.index[s]] == st.rows[st.index[s]]
    requires r.meta.values == st.meta.values - {sym}
    ensures forall s :: RowOf(r, s) == RowOf(st, s)
  {
  }

  /** An unpin moves a row from the ledger back to the list and changes no symbol's current row. */
  lemma UnpinMovesRows(st: StoreState, sym: string)
    requires IndexMatches(st.rows, st.index) && st.meta.Valid()
    requires MetaKeyed(st.meta.values, st.index, st.pinnedSymbols)
    ensures forall s :: RowOf(UnpinSpec(st, sym), s) == RowOf(st, s)
  {
    UnpinEffect(st, sym);
    var r := UnpinSpec(st, sym);
    if sym in st.meta.values {
      LedgerRowMoved(st, r, sym);
    } else {
      assert r.meta.values == st.meta.values - {sym} == st.meta.values;
      RowOfFrame(r, st);
    }
  }

  /** Unpinning a pinned symbol keeps the ledger invariant and moves, never changes, a row. */
  lemma UnpinKeepsLedger(st: StoreState, sym: string)
    requires Ledger(st) && sym in st.pinnedSymbols
    ensures var r := UnpinSpec(st, sym);
      && Ledger(r) && sym !in r.pinnedSymbols && sym !in r.meta.values && r.pending == st.pending
      && (forall s :: RowOf(r, s) == RowOf(st, s))
  {
    UnpinEffect(st, sym);
    var r := UnpinSpec(st, sym);
    WithoutFacts(st.pinnedSymbols, sym);
    MetaKeyedUnpin(st.meta.values, st.index, st.pinnedSymbols, r.index, sym);
    PendingKeyedUnpin(st.pending.values, st.index, st.meta.values, r.index, sym);
    PinnedApartUnpin(st.pinnedSymbols, st.index, r.index, sym);
    UnpinMovesRows(st, sym);
  }

  /** Recomputing the rows above the grid from the pinned symbols turns the ledger invariant into the full one. */
  lemma PinnedViewInv(st: StoreState)
    requires Ledger(st)
    ensures Inv(st.(pinnedTopRows := PinnedView(st.pinnedSymbols, st.meta.values, st.rows, st.index)))
  {
    var v := PinnedView(st.pinnedSymbols, st.meta.values, st.rows, st.index);
    assert Symbols(v) == MetaFilter(st.pinnedSymbols, st.meta.values.Keys);
  }

  /**
   * `togglePin` keeps the invariant, moves rows between the main list and
   * the ledger without changing any, and leaves the staged rows alone.
   */
  lemma TogglePinKeepsInv(st: StoreState, sym: string)
    requires Inv(st)
    ensures var r := TogglePinSpec(st, sym);
      && Inv(r) && r.pending == st.pending
      && (forall s :: RowOf(r, s) == RowOf(st, s))
  {
    var st1 := if sym in st.pinnedSymbols then UnpinSpec(st, sym) else PinSpec(st, sym);
    if sym in st.pinnedSymbols {
      UnpinKeepsLedger(st, sym);
    } else {
      PinKeepsLedger(st, sym);
    }
    PinnedViewInv(st1);
    RowOfFrame(TogglePinSpec(st, sym), st1);
  }

  /**
   * Pinning a main-list symbol: its row leaves the list (the others keep
   * their order), the ledger records it under `__initIndex ?? position`,
   * the symbol heads the pinned symbols and its row heads the rows above
   * the grid.
   */
  lemma TogglePinPins(st: StoreState, sym: string)
    requires Inv(st) && sym in st.index
    ensures var p := st.index[sym];
      var row := st.rows[p];
      var r := TogglePinSpec(st, sym);
      && r.rows == RemoveAt(st.rows, p)
      && r.pinnedSymbols == [sym] + st.pinnedSymbols
      && sym !in r.index
      && r.meta == st.meta.Set(sym, PinMeta(row, p, InitOr(row, p)))
      && r.pinnedTopRows != [] && r.pinnedTopRows[0] == row
  {
    PinEffect(st, sym);
  }

  /**
   * Unpinning a pinned symbol: the entry and the symbol go, and a row the
   * ledger held is reinserted by its `originalInitIndex`; without an entry
   * the list and the index are left as they are.
   */
  lemma TogglePinUnpins(st: StoreState, sym: string)
    requires Inv(st) && sym in st.pinnedSymbols
    ensures var r := TogglePinSpec(st, sym);
      && r.pinnedSymbols == Without(st.pinnedSymbols, sym) && sym !in r.pinnedSymbols
      && r.meta == st.meta.Delete(sym)
      && (sym in st.meta.values ==>
            r.rows == Reinserted(st.rows, st.meta.values[sym].originalInitIndex, st.meta.values[sym].row)
            && sym in r.index)
      && (sym !in st.meta.values ==> r.rows == st.rows && r.index == st.index)
  {
    UnpinEffect(st, sym);
    WithoutFacts(st.pinnedSymbols, sym);
  }

  /**
   * Pin then unpin gives back the list, the index, the pinned symbols and
   * the ledger, in every state that keeps the `__initIndex` order.
   */
  lemma TogglePinRoundTrip(st: StoreState, sym: string)
    requires Inv(st) && Ordered(st) && sym in st.index
    ensures TogglePinSpec(st, sym).meta.Valid() && IndexMatches(TogglePinSpec(st, sym).rows, TogglePinSpec(st, sym).index)
    ensures var r := TogglePinSpec(TogglePinSpec(st, sym), sym);
      && r.rows == st.rows && r.index == st.index
      && r.pinnedSymbols == st.pinnedSymbols && r.meta == st.meta && r.pending == st.pending
  {
    var p := st.index[sym];
    var row := st.rows[p];
    TogglePinPins(st, sym);
    TogglePinKeepsInv(st, sym);
    var st1 := TogglePinSpec(st, sym);
    TogglePinUnpins(st1, sym);
    UnpinEffect(st1, sym);
    assert sym !in st.meta.values;
    SetThenDelete(st.meta, sym, PinMeta(row, p, InitOr(row, p)));
    PinUnpinRoundTrip(st.rows, p);
    var r := TogglePinSpec(st1, sym);
    IndexDetermined(st.rows, r.index, st.index);
    WithoutFacts(st.pinnedSymbols, sym);
  }

  /** The current rows depend on the list, the index and the ledger only. */
  lemma RowOfFrame(a: StoreState, b: StoreState)
    requires a.rows == b.rows && a.index == b.index && a.meta.values == b.meta.values
    ensures forall s :: RowOf(a, s) == RowOf(b, s)
  {
  }

  /** Writing a row at its symbol's list position changes that symbol's current row only. */
  lemma ListRowWritten(st: StoreState, r: StoreState, sym: string, row: Row)
    requires IndexMatches(st.rows, st.index) && sym in st.index
    requires r.rows == st.rows[st.index[sym] := row] && r.index == st.index && r.meta.values == st.meta.values
    ensures RowOf(r, sym) == Some(row) && RowOf(st, sym).Some?
    ensures forall s :: s != sym ==> RowOf(r, s) == RowOf(st, s)
  {
  }

  /** Writing a row into a ledger entry off the list changes that symbol's current row only. */
  lemma LedgerRowWritten(st: StoreState, r: StoreState, sym: string, row: Row)
    requires sym !in st.index && sym in st.meta.values
    requires r.rows == st.rows && r.index == st.index
    requires sym in r.meta.values && r.meta.values == st.meta.values[sym := r.meta.values[sym]] && r.meta.values[sym].row == row
    ensures RowOf(r, sym) == Some(row) && RowOf(st, sym).Some?
    ensures forall s :: s != sym ==> RowOf(r, s) == RowOf(st, s)
  {
  }

  /** Replacing the row of a ledger entry by a row with the same symbol keeps the ledger keyed. */
  lemma MetaKeyedWrite(meta: map<string, PinMeta>, index: map<string, int>, pinned: seq<string>,
                       sym: string, entry: PinMeta)
    requires MetaKeyed(meta, index, pinned) && sym in meta && entry.row.s == sym
    ensures MetaKeyed(meta[sym := entry], index, pinned)
  {
  }

  /** The staged rows stay accounted for when the ledger keeps its keys. */
  lemma PendingKeyedSameKeys(pending: map<string, Row>, index: map<string, int>,
                             meta: map<string, PinMeta>, meta2: map<string, PinMeta>)
    requires PendingKeyed(pending, index, meta) && meta2.Keys == meta.Keys
    ensures PendingKeyed(pending, index, meta2)
  {
    forall k | k in pending && k !in index
      ensures k in meta2
    {
      assert k in meta.Keys;
    }
  }

  /** A write-back of a row under its own symbol keeps the ledger and changes that symbol's row only. */
  lemma WriteBackKeepsLedger(st: StoreState, sym: string, row: Row)
    requires Ledger(st) && row.s == sym
    ensures var r := WriteBack(st, sym, row);
      && Ledger(r)
      && Symbols(r.rows) == Symbols(st.rows)
      && RowOf(r, sym) == (if RowOf(st, sym).Some? then Some(row) else None)
      && (forall s :: s != sym ==> RowOf(r, s) == RowOf(st, s))
  {
    var r := WriteBack(st, sym, row);
    if sym in st.index {
      IndexMatchesUpdate(st.rows, st.index, st.index[sym], row);
      ListRowWritten(st, r, sym, row);
    } else if sym in st.meta.values {
      var entry := st.meta.values[sym].(row := row);
      assert r.meta.values == st.meta.values[sym := entry];
      MetaKeyedWrite(st.meta.values, st.index, st.pinnedSymbols, sym, entry);
      PendingKeyedSameKeys(st.pending.values, st.index, st.meta.values, r.meta.values);
      LedgerRowWritten(st, r, sym, row);
    } else {
      assert r == st;
    }
  }

  /** The writes of a flush keep the ledger; each written symbol ends with its staged row. */
  lemma {:induction false} FlushedRows(st: StoreState, keys: seq<string>, vals: map<string, Row>)
    requires Ledger(st)
    requires forall k :: k in keys ==> k in vals && vals[k].s == k
    requires forall i, j :: 0 <= i < j < |keys| ==> keys[i] != keys[j]
    ensures var r := Flushed(st, keys, vals);
      && Ledger(r)
      && (forall s :: s in keys ==> RowOf(r, s) == (if RowOf(st, s).Some? then Some(vals[s]) else None))
      && (forall s :: s !in keys ==> RowOf(r, s) == RowOf(st, s))
  {
    if keys != [] {
      var n := |keys| - 1;
      var init, last := keys[..n], keys[n];
      assert keys == init + [last];
      assert last !in init;
      FlushedRows(st, init, vals);
      var f := Flushed(st, init, vals);
      WriteBackKeepsLedger(f, last, vals[last]);
      var r := Flushed(st, keys, vals);
      assert r == WriteBack(f, last, vals[last]);
      forall s | s in keys
        ensures RowOf(r, s) == (if RowOf(st, s).Some? then Some(vals[s]) else None)
      {
        if s != last {
          assert s in init;
        }
      }
      forall s | s !in keys
        ensures RowOf(r, s) == RowOf(st, s)
      {
        assert s !in init && s != last;
      }
    }
  }

  /** Emptying the pending map keeps the invariant and the current rows. */
  lemma ClearPendingKeepsInv(st: StoreState)
    requires Inv(st)
    ensures Inv(st.(pending := Empty())) && forall s :: RowOf(st.(pending := Empty()), s) == RowOf(st, s)
  {
    RowOfFrame(st.(pending := Empty()), st);
  }

  /** Every staged symbol has a current row. */
  lemma StagedHaveRows(st: StoreState)
    requires Ledger(st)
    ensures forall s :: s in st.pending.values ==> RowOf(st, s).Some?
  {
    forall s | s in st.pending.values
      ensures RowOf(st, s).Some?
    {
      if s in st.index {
        assert 0 <= st.index[s] < |st.rows|;
      }
    }
  }

  /**
   * A flush keeps the invariant, ends with the staged rows as the current
   * rows of their symbols, changes no other row, and empties the pending
   * map; the grid gets exactly the staged rows of rendered symbols.
   */
  lemma FlushWritesPending(st: StoreState, rendered: set<string>)
    requires Inv(st)
    ensures var r := FlushSpec(st);
      && Inv(r)
      && r.pending == Empty()
      && (forall s :: s in st.pending.values ==> RowOf(r, s) == Some(st.pending.values[s]))
      && (forall s :: s !in st.pending.values ==> RowOf(r, s) == RowOf(st, s))
      && Symbols(ForGrid(st.pending.keys, st.pending.values, rendered)) == RenderedKeys(st.pending.keys, rendered)
  {
    var keys, vals := st.pending.keys, st.pending.values;
    ForGridExactly(keys, vals, rendered);
    if st.pending.Size() != 0 {
      FlushedRows(st, keys, vals);
      StagedHaveRows(st);
      var f := Flushed(st, keys, vals);
      assert Inv(f);
      ClearPendingKeepsInv(f);
      var r := FlushSpec(st);
      assert r == f.(pending := Empty());
      forall s | s in vals
        ensures RowOf(r, s) == Some(vals[s])
      {
        assert s in keys;
      }
      forall s | s !in vals
        ensures RowOf(r, s) == RowOf(st, s)
      {
        assert s !in keys;
      }
    } else {
      assert st.pending == Empty();
    }
  }

  /** The updated row keeps its symbol. */
  lemma UpdateKeepsSymbol(oldRow: Row, draws: Draws, now: int)
    requires DrawsOk(draws)
    ensures UpdatedRow(oldRow, draws, now).s == oldRow.s
  {
    UpdateKeepsIdentity(oldRow, draws, now);
  }

  /** A pickable symbol has a current row, and every symbol with a row is pickable. */
  lemma CandidatesHaveRows(st: StoreState)
    requires Ledger(st)
    ensures forall s :: s in TickCandidates(st.rows, st.meta.keys, st.index) <==> RowOf(st, s).Some?
    ensures |TickCandidates(st.rows, st.meta.keys, st.index)| == 0 <==> |st.rows| == 0 && st.meta.Size() == 0
  {
    IndexMatchesFacts(st.rows, st.index);
    var all := TickCandidates(st.rows, st.meta.keys, st.index);
    if |st.rows| == 0 && st.meta.Size() != 0 {
      assert st.meta.keys[0] in all;
    }
    if |st.rows| != 0 {
      assert Symbols(st.rows)[0] in all;
    }
  }

  /** Under the ledger invariant a symbol's current row carries that symbol. */
  lemma RowOfKeyed(st: StoreState, s: string)
    requires Ledger(st) && RowOf(st, s).Some?
    ensures RowOf(st, s).value.s == s
  {
  }

  /** Staging a row for a symbol that has a current row keeps the ledger invariant. */
  lemma StageKeepsLedger(st: StoreState, row: Row)
    requires Ledger(st) && RowOf(st, row.s).Some?
    ensures Ledger(st.(pending := st.pending.Set(row.s, row)))
  {
    PendingKeyedStage(st.pending.values, st.index, st.meta.values, row);
  }

  /** Staging a row whose symbol is on the list or in the ledger keeps the staged rows accounted for. */
  lemma PendingKeyedStage(pending: map<string, Row>, index: map<string, int>, meta: map<string, PinMeta>, row: Row)
    requires PendingKeyed(pending, index, meta) && (row.s in index || row.s in meta)
    ensures PendingKeyed(pending[row.s := row], index, meta)
  {
  }

  /**
   * Staging and writing back a row for a symbol with a current row keeps
   * the invariant and the index, makes the row that symbol's current row,
   * stages it, and changes no other symbol's row.
   */
  lemma StagedKeepsInv(st: StoreState, newRow: Row)
    requires Inv(st) && RowOf(st, newRow.s).Some?
    ensures var r := Staged(st, newRow);
      && Inv(r) && r.index == st.index && r.pinnedSymbols == st.pinnedSymbols
      && RowOf(r, newRow.s) == Some(newRow)
      && r.pending == st.pending.Set(newRow.s, newRow)
      && (forall s :: s != newRow.s ==> RowOf(r, s) == RowOf(st, s))
  {
    var sym := newRow.s;
    var st0 := st.(pending := st.pending.Set(sym, newRow));
    StageKeepsLedger(st, newRow);
    RowOfFrame(st0, st);
    WriteBackKeepsLedger(st0, sym, newRow);
    var st1 := WriteBack(st0, sym, newRow);
    var r := Staged(st, newRow);
    RowOfFrame(r, st1);
    assert Symbols(r.pinnedTopRows) == Symbols(st.pinnedTopRows);
  }

  /**
   * A tick keeps the invariant and the index; when some row exists, the
   * picked symbol's row becomes its update, is staged (last write wins),
   * and no other symbol's row changes.
   */
  lemma TickUpdatesOneRow(st: StoreState, pick: real, draws: Draws, now: int)
    requires Inv(st) && Unit(pick) && DrawsOk(draws)
    ensures var r := TickSpec(st, pick, draws, now);
      && Inv(r) && r.index == st.index && r.pinnedSymbols == st.pinnedSymbols
      && (PickedSymbol(st, pick).None? <==> |st.rows| == 0 && st.meta.Size() == 0)
      && (PickedSymbol(st, pick).None? ==> r == st)
      && (PickedSymbol(st, pick).Some? ==>
            var sym := PickedSymbol(st, pick).value;
            && RowOf(st, sym).Some?
            && var newRow := UpdatedRow(RowOf(st, sym).value, draws, now);
            && RowOf(r, sym) == Some(newRow)
            && r.pending == st.pending.Set(sym, newRow)
            && (forall s :: s != sym ==> RowOf(r, s) == RowOf(st, s)))
  {
    CandidatesHaveRows(st);
    match PickedSymbol(st, pick)
    case None =>
    case Some(sym) =>
      assert sym in TickCandidates(st.rows, st.meta.keys, st.index);
      TickAtUpdates(st, sym, draws, now);
  }

  /** The tick of a symbol with a current row stages its update and changes no other row. */
  lemma TickAtUpdates(st: StoreState, sym: string, draws: Draws, now: int)
    requires Inv(st) && DrawsOk(draws) && RowOf(st, sym).Some?
    ensures var r := TickAt(st, sym, draws, now);
      var newRow := UpdatedRow(RowOf(st, sym).value, draws, now);
      && Inv(r) && r.index == st.index && r.pinnedSymbols == st.pinnedSymbols
      && RowOf(r, sym) == Some(newRow)
      && r.pending == st.pending.Set(sym, newRow)
      && (forall s :: s != sym ==> RowOf(r, s) == RowOf(st, s))
  {
    var oldRow := RowOf(st, sym).value;
    RowOfKeyed(st, sym);
    UpdateKeepsSymbol(oldRow, draws, now);
    StagedKeepsInv(st, UpdatedRow(oldRow, draws, now));
  }

  /**
   * The flash clear keeps the invariant; a symbol with a current row ends
   * with the grid's row cleared of its flash, no other row changes, and a
   * pinned row shown above the grid is cleared there too.
   */
  lemma ClearFlashKeepsInv(st: StoreState, gridRow: Option<Row>)
    requires Inv(st)
    ensures var r := ClearFlashSpec(st, gridRow);
      && Inv(r) && r.index == st.index && r.pinnedSymbols == st.pinnedSymbols && r.pending == st.pending
      && (gridRow.Some? ==>
            var cleared := ClearedRow(gridRow.value);
            && RowOf(r, cleared.s) == (if RowOf(st, cleared.s).Some? then Some(cleared) else None)
            && (forall s :: s != cleared.s ==> RowOf(r, s) == RowOf(st, s))
            && r.pinnedTopRows == ReplaceBySymbol(st.pinnedTopRows, cleared))
  {
    match gridRow
    case None =>
    case Some(g) =>
      var cleared := ClearedRow(g);
      var st1 := WriteBack(st, cleared.s, cleared);
      WriteBackKeepsLedger(st, cleared.s, cleared);
      ReplaceIsNoop(st1.rows, st1.index, cleared);
      var r := ClearFlashSpec(st, gridRow);
      RowOfFrame(r, st1);
  }

  // ---------------------------------------------------------------------
  // Laws of the `__initIndex` order

  /** With the same index and inits, list position i carries the same `__initIndex` in both states. */
  lemma SameRowInit(st: StoreState, r: StoreState, i: int)
    requires IndexMatches(st.rows, st.index) && IndexMatches(r.rows, r.index) && r.index == st.index
    requires SameInits(st, r) && 0 <= i < |st.rows|
    ensures i < |r.rows| && r.rows[i].initIndex == st.rows[i].initIndex
  {
    var x := st.rows[i].s;
    assert st.index[x] == i;
    assert r.rows[r.index[x]].s == x;
    assert RowOf(st, x) == Some(st.rows[i]) && RowOf(r, x) == Some(r.rows[i]);
  }

  /**
   * A change that keeps the index, the ledger's keys and `originalInitIndex`
   * values, and the `__initIndex` of every current row keeps the order.
   */
  lemma OrderedFromInits(st: StoreState, r: StoreState)
    requires Ledger(st) && Ordered(st) && Ledger(r)
    requires r.index == st.index && |r.rows| == |st.rows| && SameInits(st, r)
    requires r.meta.values.Keys == st.meta.values.Keys
    requires forall k :: k in r.meta.values ==> r.meta.values[k].originalInitIndex == st.meta.values[k].originalInitIndex
    requires PendingInits(r)
    ensures Ordered(r)
  {
    forall i | 0 <= i < |r.rows|
      ensures r.rows[i].initIndex == st.rows[i].initIndex
    {
      SameRowInit(st, r, i);
    }
    forall k | k in r.meta.values
      ensures r.meta.values[k].row.initIndex == Some(r.meta.values[k].originalInitIndex)
    {
      assert k in st.meta.values && k !in st.index;
      assert RowOf(st, k) == Some(st.meta.values[k].row) && RowOf(r, k) == Some(r.meta.values[k].row);
    }
  }

  /** With the pending map unchanged, equal inits keep the staged rows in agreement. */
  lemma PendingInitsSame(st: StoreState, r: StoreState)
    requires PendingInits(st) && SameInits(st, r) && r.pending == st.pending
    ensures PendingInits(r)
  {
  }

  /**
   * A list in strict `__initIndex` order, with an index and no ledger, has
   * distinct indices for distinct symbols.
   */
  lemma ListDistinctInits(st: StoreState)
    requires IndexMatches(st.rows, st.index) && StrictlySortedByInit(st.rows) && st.meta.values == map[]
    ensures DistinctInits(st)
  {
    forall s, t | s != t && RowOf(st, s).Some? && RowOf(st, t).Some?
      ensures RowOf(st, s).value.initIndex != RowOf(st, t).value.initIndex
    {
      var i, j := st.index[s], st.index[t];
      assert st.rows[i].s == s && st.rows[j].s == t;
      assert i < j || j < i;
    }
  }

  /** The load leaves the list in strict order with an empty ledger and nothing staged. */
  lemma LoadOrdered(data: seq<Row>)
    requires UniqueSymbols(data)
    ensures Inv(LoadSpec(data)) && Ordered(LoadSpec(data))
  {
    LoadInv(data);
    var st := LoadSpec(data);
    assert Empty<PinMeta>().values == map[] && Empty<Row>().values == map[];
    ListDistinctInits(st);
  }

  /**
   * A pin keeps the order: the list loses one row, and the ledger records
   * it under its own `__initIndex`.
   */
  lemma PinKeepsOrder(st: StoreState, sym: string)
    requires Ledger(st) && Ordered(st) && sym !in st.pinnedSymbols
    ensures Ordered(PinSpec(st, sym))
  {
    PinEffect(st, sym);
    PinMovesRows(st, sym);
    var r := PinSpec(st, sym);
    InitsTransfer(st, r);
    if sym in st.index {
      var p := st.index[sym];
      RemoveKeepsStrict(st.rows, p);
      assert st.rows[p].initIndex.Some?;
    }
  }

  /** No listed row carries the `__initIndex` a ledger entry remembers. */
  lemma ListAvoidsLedgerInit(st: StoreState, sym: string)
    requires Ledger(st) && LedgerInits(st) && DistinctInits(st) && sym in st.meta.values
    ensures forall i :: 0 <= i < |st.rows| ==> st.rows[i].initIndex != Some(st.meta.values[sym].originalInitIndex)
  {
    var entry := st.meta.values[sym];
    forall i | 0 <= i < |st.rows|
      ensures st.rows[i].initIndex != Some(entry.originalInitIndex)
    {
      var x := st.rows[i].s;
      assert RowOf(st, x) == Some(st.rows[i]) && RowOf(st, sym) == Some(entry.row) && x != sym;
    }
  }

  /** States with the same current rows and staged rows agree on distinctness and staging. */
  lemma InitsTransfer(st: StoreState, r: StoreState)
    requires DistinctInits(st) && PendingInits(st) && r.pending == st.pending
    requires forall s :: RowOf(r, s) == RowOf(st, s)
    ensures DistinctInits(r) && PendingInits(r)
  {
  }

  /**
   * An unpin keeps the order: the ledger row is reinserted under its own
   * `__initIndex`, which no listed row carries.
   */
  lemma UnpinKeepsOrder(st: StoreState, sym: string)
    requires Ledger(st) && Ordered(st) && sym in st.pinnedSymbols
    ensures Ordered(UnpinSpec(st, sym))
  {
    UnpinEffect(st, sym);
    UnpinMovesRows(st, sym);
    var r := UnpinSpec(st, sym);
    InitsTransfer(st, r);
    if sym in st.meta.values {
      var entry := st.meta.values[sym];
      ListAvoidsLedgerInit(st, sym);
      ReinsertKeepsStrict(st.rows, entry.originalInitIndex, entry.row);
    }
    assert r.meta.values == st.meta.values - {sym};
  }

  /** `togglePin`, with its effect, keeps the order. */
  lemma TogglePinKeepsOrder(st: StoreState, sym: string)
    requires Inv(st) && Ordered(st)
    ensures Ordered(TogglePinSpec(st, sym))
  {
    var st1 := if sym in st.pinnedSymbols then UnpinSpec(st, sym) else PinSpec(st, sym);
    if sym in st.pinnedSymbols {
      UnpinKeepsOrder(st, sym);
    } else {
      PinKeepsOrder(st, sym);
    }
    RowOfFrame(TogglePinSpec(st, sym), st1);
  }

  /** Staging a row that keeps its symbol's `__initIndex` keeps the order. */
  lemma StagedKeepsOrder(st: StoreState, newRow: Row)
    requires Inv(st) && Ordered(st) && RowOf(st, newRow.s).Some?
    requires newRow.initIndex == RowOf(st, newRow.s).value.initIndex
    ensures Ordered(Staged(st, newRow))
  {
    StagedKeepsInv(st, newRow);
    var r := Staged(st, newRow);
    var sym := newRow.s;
    assert r.pending.values == st.pending.values[sym := newRow];
    forall s
      ensures RowOf(st, s).Some? == RowOf(r, s).Some?
      ensures RowOf(st, s).Some? ==> RowOf(st, s).value.initIndex == RowOf(r, s).value.initIndex
    {
      if s != sym {
        assert RowOf(r, s) == RowOf(st, s);
      }
    }
    forall k | k in r.pending.values && RowOf(r, k).Some?
      ensures r.pending.values[k].initIndex == RowOf(r, k).value.initIndex
    {
      if k != sym {
        assert RowOf(r, k) == RowOf(st, k) && r.pending.values[k] == st.pending.values[k];
      }
    }
    OrderedFromInits(st, r);
  }

  /** An incoming tick keeps the order. */
  lemma TickKeepsOrder(st: StoreState, pick: real, draws: Draws, now: int)
    requires Inv(st) && Ordered(st) && Unit(pick) && DrawsOk(draws)
    ensures Ordered(TickSpec(st, pick, draws, now))
  {
    CandidatesHaveRows(st);
    match PickedSymbol(st, pick)
    case None =>
    case Some(sym) =>
      assert sym in TickCandidates(st.rows, st.meta.keys, st.index);
      var oldRow := RowOf(st, sym).value;
      RowOfKeyed(st, sym);
      UpdateKeepsIdentity(oldRow, draws, now);
      StagedKeepsOrder(st, UpdatedRow(oldRow, draws, now));
  }

  /** A flush keeps the order: every staged row carries its symbol's `__initIndex`. */
  lemma FlushKeepsOrder(st: StoreState, rendered: set<string>)
    requires Inv(st) && Ordered(st)
    ensures Ordered(FlushSpec(st))
  {
    FlushWritesPending(st, rendered);
    StagedHaveRows(st);
    var r := FlushSpec(st);
    if st.pending.Size() != 0 {
      forall s
        ensures RowOf(st, s).Some? == RowOf(r, s).Some?
        ensures RowOf(st, s).Some? ==> RowOf(st, s).value.initIndex == RowOf(r, s).value.initIndex
      {
        if s in st.pending.values {
          assert RowOf(st, s).Some? && RowOf(r, s) == Some(st.pending.values[s]);
        } else {
          assert RowOf(r, s) == RowOf(st, s);
        }
      }
      assert r.pending.values == map[];
      OrderedFromInits(st, r);
    }
  }

  /** The invariant and the order together: what the store keeps between operations. */
  ghost predicate Sound(st: StoreState)
  {
    Inv(st) && Ordered(st)
  }

  /** A flush keeps both the invariant and the order. */
  lemma FlushKeepsValid(st: StoreState)
    requires Sound(st)
    ensures Sound(FlushSpec(st))
  {
    FlushWritesPending(st, {});
    FlushKeepsOrder(st, {});
  }

  /** The grid holds a row with the `__initIndex` of its symbol's current row. */
  ghost predicate GridRowAgrees(st: StoreState, gridRow: Option<Row>)
  {
    gridRow.Some? && RowOf(st, gridRow.value.s).Some? ==>
      gridRow.value.initIndex == RowOf(st, gridRow.value.s).value.initIndex
  }

  /** The flash clear keeps the order when the grid's row carries its symbol's `__initIndex`. */
  lemma ClearFlashKeepsOrder(st: StoreState, gridRow: Option<Row>)
    requires Inv(st) && Ordered(st) && GridRowAgrees(st, gridRow)
    ensures Ordered(ClearFlashSpec(st, gridRow))
  {
    ClearFlashKeepsInv(st, gridRow);
    var r := ClearFlashSpec(st, gridRow);
    if gridRow.Some? {
      var cleared := ClearedRow(gridRow.value);
      forall s
        ensures RowOf(st, s).Some? == RowOf(r, s).Some?
        ensures RowOf(st, s).Some? ==> RowOf(st, s).value.initIndex == RowOf(r, s).value.initIndex
      {
        if s != cleared.s {
          assert RowOf(r, s) == RowOf(st, s);
        }
      }
      PendingInitsSame(st, r);
      OrderedFromInits(st, r);
    }
  }

  class Store {
    /** `rowDataRef.current`, the authoritative main list. */
    var rows: seq<Row>
    /** `indexRef.current`: symbol to position in `rows`. */
    var index: map<string, int>
    /** `pinnedSymbols`, the newest pin first. */
    var pinnedSymbols: seq<string>
    /** `pinnedTopRows`, the rows shown above the grid. */
    var pinnedTopRows: seq<Row>
    /** `pinnedMetaRef.current`, the pin ledger. */
    var meta: OrderedMap<PinMeta>
    /** `pendingUpdatesRef.current`, the ticks staged since the last flush. */
    var pending: OrderedMap<Row>

    function State(): StoreState
      reads this
    {
      StoreState(rows, index, pinnedSymbols, pinnedTopRows, meta, pending)
    }

    ghost predicate Valid()
      reads this
    {
      Sound(State())
    }

    /**
     * The load of the prepared rows, with their index, nothing pinned and
     * nothing staged. The invariant holds when the data's symbols are unique.
     */
    constructor Load(data: seq<Row>)
      ensures State() == LoadSpec(data)
      ensures UniqueSymbols(data) ==> Valid()
    {
      var prepared := Prepare(data);
      var m := BuildIndex(prepared);
      rows := prepared;
      index := m;
      pinnedSymbols := [];
      pinnedTopRows := [];
      meta := Empty();
      pending := Empty();
      if UniqueSymbols(data) {
        LoadOrdered(data);
      }
    }

    /** The pin branch of `togglePin`, an index lookup with a scan as fallback. */
    method Pin(sym: string)
      requires IndexMatches(rows, index) && meta.Valid()
      modifies this
      ensures State() == PinSpec(old(State()), sym)
    {
      var pos := if sym in index then index[sym] else FindSymbol(rows, sym);
      var newRows, newMeta, newTop := rows, meta, pinnedTopRows;
      if pos >= 0 {
        var removed := rows[pos];
        newRows := RemoveAt(rows, pos);
        newMeta := meta.Set(sym, PinMeta(removed, pos, InitOr(removed, pos)));
        newTop := [removed] + pinnedTopRows;
      }
      var newIndex := BuildIndex(newRows);
      rows, index, pinnedSymbols, pinnedTopRows, meta := newRows, newIndex, [sym] + pinnedSymbols, newTop, newMeta;
    }

    /** The unpin branch of `togglePin`; the list is only touched when the ledger has an entry. */
    method Unpin(sym: string)
      requires meta.Valid()
      modifies this
      ensures State() == UnpinSpec(old(State()), sym)
    {
      var entry := meta.Get(sym);
      var newRows, newIndex := rows, index;
      if entry.Some? {
        newRows := Reinserted(rows, entry.value.originalInitIndex, entry.value.row);
        newIndex := BuildIndex(newRows);
      }
      rows, index, pinnedSymbols, pinnedTopRows, meta :=
        newRows, newIndex, Without(pinnedSymbols, sym), DropSymbol(pinnedTopRows, sym), meta.Delete(sym);
    }

    /** `togglePin`, then the effect on `pinnedSymbols` that recomputes the rows above the grid. */
    method TogglePin(sym: string)
      requires Valid()
      modifies this
      ensures State() == TogglePinSpec(old(State()), sym)
      ensures Valid()
    {
      TogglePinKeepsInv(State(), sym);
      TogglePinKeepsOrder(State(), sym);
      if sym in pinnedSymbols {
        Unpin(sym);
      } else {
        Pin(sym);
      }
      pinnedTopRows := PinnedView(pinnedSymbols, meta.values, rows, index);
    }

    /**
     * A write-back through the index when the symbol has a position,
     * otherwise into its ledger entry when there is one.
     */
    method WriteRow(sym: string, row: Row)
      requires meta.Valid()
      modifies this
      ensures State() == WriteBack(old(State()), sym, row)
    {
      if sym in index {
        if 0 <= index[sym] < |rows| {
          rows := rows[index[sym] := row];
        }
      } else {
        var entry := meta.Get(sym);
        if entry.Some? {
          meta := meta.Set(sym, entry.value.(row := row));
        }
      }
    }

    /**
     * The second half of a tick: the new row is staged and written back;
     * a ledger row is also replaced above the grid.
     */
    method Stage(newRow: Row)
      requires meta.Valid() && pending.Valid()
      modifies this
      ensures State() == Staged(old(State()), newRow)
    {
      pending := pending.Set(newRow.s, newRow);
      var inIndex := newRow.s in index;
      var inLedger := meta.Get(newRow.s).Some?;
      WriteRow(newRow.s, newRow);
      if !inIndex && inLedger {
        pinnedTopRows := ReplaceBySymbol(pinnedTopRows, newRow);
      }
    }

    /** One incoming tick, with the draws of `Math.random()` and the clock as parameters. */
    method IncomingTick(pick: real, draws: Draws, now: int)
      requires Valid() && Unit(pick) && DrawsOk(draws)
      modifies this
      ensures State() == TickSpec(old(State()), pick, draws, now)
      ensures Valid()
    {
      TickUpdatesOneRow(State(), pick, draws, now);
      TickKeepsOrder(State(), pick, draws, now);
      if |rows| == 0 && meta.Size() == 0 {
        return;
      }
      var all := TickCandidates(rows, meta.keys, index);
      if |all| > 0 {
        var sym := all[PickIndex(pick, |all|)];
        var oldRow := RowOf(State(), sym);
        if oldRow.Some? {
          var newRow := MakeRandomUpdate(oldRow.value, draws, now);
          Stage(newRow);
        }
      }
    }

    /** The writes of a flush, in staging order, collecting the rows of rendered symbols for the grid. */
    method WriteAll(keys: seq<string>, vals: map<string, Row>, rendered: set<string>) returns (forGrid: seq<Row>)
      requires meta.Valid() && forall k :: k in keys ==> k in vals
      modifies this
      ensures State() == Flushed(old(State()), keys, vals)
      ensures forGrid == ForGrid(keys, vals, rendered)
    {
      forGrid := [];
      for i := 0 to |keys|
        invariant State() == Flushed(old(State()), keys[..i], vals)
        invariant forGrid == ForGrid(keys[..i], vals, rendered)
      {
        var sym := keys[i];
        WriteRow(sym, vals[sym]);
        if sym in rendered {
          forGrid := forGrid + [vals[sym]];
        }
        assert keys[..i + 1][..i] == keys[..i];
      }
      assert keys[..|keys|] == keys;
    }

    /**
     * One flush: each staged row, in staging order, is written back; the
     * staged rows of rendered symbols are returned for the grid; the
     * pending map is cleared.
     */
    method Flush(rendered: set<string>) returns (forGrid: seq<Row>)
      requires Valid()
      modifies this
      ensures State() == FlushSpec(old(State()))
      ensures forGrid == ForGrid(old(pending.keys), old(pending.values), rendered)
      ensures Valid()
    {
      ghost var st0 := State();
      FlushKeepsValid(st0);
      if pending.Size() == 0 {
        forGrid := [];
        return;
      }
      forGrid := WriteAll(pending.keys, pending.values, rendered);
      pending := Empty();
      assert State() == FlushSpec(st0);
    }

    /**
     * The flash-clear timeout, with the row the grid holds as a parameter.
     * The order is kept when that row carries its symbol's `__initIndex`.
     */
    method ClearFlash(gridRow: Option<Row>)
      requires Valid()
      modifies this
      ensures State() == ClearFlashSpec(old(State()), gridRow)
      ensures Inv(State())
      ensures GridRowAgrees(old(State()), gridRow) ==> Valid()
    {
      ClearFlashKeepsInv(State(), gridRow);
      if GridRowAgrees(State(), gridRow) {
        ClearFlashKeepsOrder(State(), gridRow);
      }
      if gridRow.None? {
        return;
      }
      var cleared := ClearedRow(gridRow.value);
      WriteRow(cleared.s, cleared);
      // the React copy of the list and the rows above the grid take the same row
      rows, pinnedTopRows := ReplaceBySymbol(rows, cleared), ReplaceBySymbol(pinnedTopRows, cleared);
    }
  }
}
