/**
 * The plain price board: a list of rows copied from the mock data, one row
 * picked and updated on every interval, the list rewritten by symbol, and
 * the flash metadata of that row cleared by a later timeout.
 *
 * The grid is not modelled: the row the grid holds when the timeout fires
 * is a parameter.
 */
module PriceBoard {
  import opened Wrappers
  import opened Rows
  import opened Tick
  import opened TickLaws

  /** One interval on the list: nothing when it is empty, else the picked row is updated and written back by symbol. */
  function TickSpec(rows: seq<Row>, pick: real, draws: Draws, now: int): seq<Row>
    requires Unit(pick) && DrawsOk(draws)
  {
    if |rows| == 0 then rows
    else ReplaceBySymbol(rows, UpdatedRow(rows[PickIndex(pick, |rows|)], draws, now))
  }

  /** The flash-clear timeout: the row the grid holds, without its flash metadata, written back by symbol. */
  function ClearFlashSpec(rows: seq<Row>, gridRow: Option<Row>): seq<Row>
  {
    match gridRow
    case None => rows
    case Some(g) => ReplaceBySymbol(rows, ClearedRow(g))
  }

  /**
   * An interval keeps the length and the order of symbols. With unique
   * symbols it rewrites exactly the picked position, with the generator's
   * row for it.
   */
  lemma TickRewritesPickedRow(rows: seq<Row>, pick: real, draws: Draws, now: int)
    requires Unit(pick) && DrawsOk(draws)
    ensures var r := TickSpec(rows, pick, draws, now);
      && |r| == |rows| && Symbols(r) == Symbols(rows)
      && (|rows| > 0 && UniqueSymbols(rows) ==>
            var i := PickIndex(pick, |rows|);
            r == rows[i := UpdatedRow(rows[i], draws, now)])
  {
    if |rows| > 0 {
      var i := PickIndex(pick, |rows|);
      var nr := UpdatedRow(rows[i], draws, now);
      UpdateKeepsIdentity(rows[i], draws, now);
      if UniqueSymbols(rows) {
        ReplaceBySymbolAt(rows, i, nr);
      }
    }
  }

  /** An interval keeps every row well formed. */
  lemma TickKeepsRowsWellFormed(rows: seq<Row>, pick: real, draws: Draws, now: int)
    requires Unit(pick) && DrawsOk(draws)
    requires forall i :: 0 <= i < |rows| ==> WellFormed(rows[i])
    ensures var r := TickSpec(rows, pick, draws, now);
      forall i :: 0 <= i < |r| ==> WellFormed(r[i])
  {
    if |rows| > 0 {
      var i := PickIndex(pick, |rows|);
      UpdatePreservesWellFormed(rows[i], draws, now);
    }
  }

  /**
   * When the grid holds the list's row for a symbol, the timeout gives that
   * position the same row without `_changes` and `_lastUpdate`, and leaves
   * every other position alone; when the grid holds no row, nothing changes.
   */
  lemma ClearFlashClearsOneRow(rows: seq<Row>, k: nat)
    requires UniqueSymbols(rows) && k < |rows|
    ensures ClearFlashSpec(rows, Some(rows[k])) == rows[k := ClearedRow(rows[k])]
    ensures ClearFlashSpec(rows, None) == rows
  {
    ReplaceBySymbolAt(rows, k, ClearedRow(rows[k]));
  }

  /**
   * A tick and its timeout, with the grid holding the updated row: the
   * picked position keeps the tick's values and merged directions, and its
   * flash metadata is gone.
   */
  lemma TickThenClear(rows: seq<Row>, pick: real, draws: Draws, now: int)
    requires Unit(pick) && DrawsOk(draws) && UniqueSymbols(rows) && |rows| > 0
    ensures var i := PickIndex(pick, |rows|);
      var nr := UpdatedRow(rows[i], draws, now);
      var r := ClearFlashSpec(TickSpec(rows, pick, draws, now), Some(nr));
      && r == rows[i := nr.(changes := None, lastUpdate := None)]
      && r[i].changes == None && r[i].lastUpdate == None
      && r[i].dir == MergeDirections(rows[i].dir, TickDraft(rows[i], draws).changes)
  {
    var i := PickIndex(pick, |rows|);
    var nr := UpdatedRow(rows[i], draws, now);
    TickRewritesPickedRow(rows, pick, draws, now);
    UpdateKeepsIdentity(rows[i], draws, now);
    var t := rows[i := nr];
    assert Symbols(t) == Symbols(rows) by {
      assert forall j :: 0 <= j < |t| ==> t[j].s == rows[j].s;
    }
    ReplaceBySymbolAt(t, i, ClearedRow(nr));
  }

  /** The board component: its list of rows, kept by React state and a ref that always agree. */
  class Board {
    var rows: seq<Row>

    /** The initial copy of the mock data. */
    constructor(data: seq<Row>)
      ensures rows == data
    {
      rows := data;
    }

    /**
     * One interval: returns the updated row for the grid, or nothing when
     * the list is empty.
     */
    method Tick(pick: real, draws: Draws, now: int) returns (updated: Option<Row>)
      requires Unit(pick) && DrawsOk(draws)
      modifies this
      ensures rows == TickSpec(old(rows), pick, draws, now)
      ensures updated.None? <==> |old(rows)| == 0
      ensures updated.Some? ==>
        var i := PickIndex(pick, |old(rows)|);
        updated.value == UpdatedRow(old(rows)[i], draws, now)
    {
      if |rows| == 0 {
        return None;
      }
      var idx := PickIndex(pick, |rows|);
      var newRow := MakeRandomUpdate(rows[idx], draws, now);
      rows := ReplaceBySymbol(rows, newRow);
      updated := Some(newRow);
    }

    /** The flash-clear timeout, with the row the grid holds as a parameter. */
    method ClearFlash(gridRow: Option<Row>)
      modifies this
      ensures rows == ClearFlashSpec(old(rows), gridRow)
    {
      if gridRow.None? {
        return;
      }
      var cleared := ClearedRow(gridRow.value);
      rows := ReplaceBySymbol(rows, cleared);
    }
  }
}
