/**
 * CSS classes of the price board: the persistent colour of a cell from
 * `_dir`, the transient flash from `_changes` and `_lastUpdate`, the colour
 * of the last-price cell, and the striping of rows.
 *
 * `Date.now()` is the parameter `now`.
 */
module Cells {
  import opened Wrappers
  import opened Values
  import opened Rows
  import opened Tick
  import opened TickLaws

  /** `FLASH_MS`: how long a changed cell flashes, in milliseconds. */
  const FlashMs: int := 350

  /** `getPersistentClass`: the colour a cell keeps between ticks. */
  function PersistentClass(dir: map<string, Dir>, field: string): (c: string)
    ensures c == "cell-up" <==> field in dir && dir[field] == Up
    ensures c == "cell-down" <==> field in dir && dir[field] == Down
    ensures c == "cell-neutral" <==> field !in dir || dir[field] == Neutral
  {
    if field in dir && dir[field] == Up then "cell-up"
    else if field in dir && dir[field] == Down then "cell-down"
    else
      assert field !in dir || dir[field] == Neutral;
      "cell-neutral"
  }

  /**
   * `ch && last && Date.now() - last < FLASH_MS`: a change is recorded for
   * the field (every direction string is truthy, "neutral" included), the
   * update time is set and non-zero, and less than 350 ms have passed.
   */
  predicate Flashing(row: Row, field: string, now: int)
  {
    && row.changes.Some? && field in row.changes.value
    && row.lastUpdate.Some? && row.lastUpdate.value != 0
    && now - row.lastUpdate.value < FlashMs
  }

  /** `` ` flash-${ch}` `` while flashing, else the empty string. */
  function FlashSuffix(row: Row, field: string, now: int): (s: string)
    ensures s == [] <==> !Flashing(row, field, now)
    ensures Flashing(row, field, now) ==> s == " flash-" + DirName(row.changes.value[field])
  {
    if Flashing(row, field, now) then " flash-" + DirName(row.changes.value[field]) else ""
  }

  /**
   * `combinedCellClass`: nothing for a missing row; otherwise the persistent
   * colour, followed by the flash class exactly while the cell flashes.
   */
  function CombinedCellClass(data: Option<Row>, field: string, now: int): (c: string)
    ensures data.None? ==> c == ""
    ensures data.Some? && !Flashing(data.value, field, now) ==> c == PersistentClass(data.value.dir, field)
    ensures data.Some? && Flashing(data.value, field, now) ==>
      c == PersistentClass(data.value.dir, field) + " flash-" + DirName(data.value.changes.value[field])
  {
    match data
    case None => ""
    case Some(row) => PersistentClass(row.dir, field) + FlashSuffix(row, field, now)
  }

  /** The colour of the last price from the sign of `ch`: `ch > 0`, `ch < 0`, else neutral. */
  function SignClass(ch: Num): (c: string)
    ensures c == "cell-up" <==> ch.Val? && ch.v > 0
    ensures c == "cell-down" <==> ch.Val? && ch.v < 0
    ensures c == "cell-neutral" <==> !ch.Val? || ch.v == 0
  {
    if ch.Val? && ch.v > 0 then "cell-up"
    else if ch.Val? && ch.v < 0 then "cell-down"
    else "cell-neutral"
  }

  /**
   * The class rule of the last-price cell `c`: the stored direction of `c`
   * when `_dir` has one, the sign of `ch` otherwise, then the flash of `c`.
   */
  function PriceCellClass(data: Option<Row>, now: int): (c: string)
    ensures data.None? ==> c == ""
    ensures data.Some? ==>
      var colour := if "c" in data.value.dir then PersistentClass(data.value.dir, "c") else SignClass(Field(data.value, "ch"));
      && (!Flashing(data.value, "c", now) ==> c == colour)
      && (Flashing(data.value, "c", now) ==> c == colour + " flash-" + DirName(data.value.changes.value["c"]))
  {
    match data
    case None => ""
    case Some(row) =>
      var colour := if "c" in row.dir then PersistentClass(row.dir, "c") else SignClass(Field(row, "ch"));
      colour + FlashSuffix(row, "c", now)
  }

  /** The JSON board prefixes the price cell with `kl-cell `, even for a missing row. */
  function JsonPriceCellClass(data: Option<Row>, now: int): (c: string)
    ensures |c| >= 8 && c[..8] == "kl-cell "
    ensures c[8..] == PriceCellClass(data, now)
    ensures data.None? ==> c == "kl-cell "
  {
    "kl-cell " + PriceCellClass(data, now)
  }

  /**
   * `rowClassRules`: the classes whose rule holds for a row node. Exactly
   * one applies: pinned rows are marked pinned, the others are striped by
   * the parity of their index.
   */
  function RowClasses(pinned: bool, rowIndex: int): (cs: set<string>)
    ensures |cs| == 1
    ensures "row-pinned" in cs <==> pinned
    ensures "row-even" in cs <==> !pinned && rowIndex % 2 == 0
    ensures "row-odd" in cs <==> !pinned && rowIndex % 2 != 0
  {
    (if pinned then {"row-pinned"} else {})
    + (if !pinned && rowIndex % 2 == 0 then {"row-even"} else {})
    + (if !pinned && rowIndex % 2 != 0 then {"row-odd"} else {})
  }

  /** Neighbouring unpinned rows are striped differently. */
  lemma AdjacentRowsAlternate(i: int)
    ensures RowClasses(false, i) != RowClasses(false, i + 1)
  {
    assert "row-even" in RowClasses(false, i) <==> "row-even" !in RowClasses(false, i + 1);
  }

  /** From 350 ms after the update on, a cell shows its persistent colour only. */
  lemma FlashExpires(row: Row, field: string, now: int)
    requires row.lastUpdate.Some? && now - row.lastUpdate.value >= FlashMs
    ensures CombinedCellClass(Some(row), field, now) == PersistentClass(row.dir, field)
    ensures PriceCellClass(Some(row), now) ==
      if "c" in row.dir then PersistentClass(row.dir, "c") else SignClass(Field(row, "ch"))
  {
  }

  /** The flash-expiry copy never flashes and keeps every colour. */
  lemma ClearedRowIsSteady(row: Row, field: string, now: int)
    ensures CombinedCellClass(Some(ClearedRow(row)), field, now) == PersistentClass(row.dir, field)
    ensures !Flashing(ClearedRow(row), field, now)
    ensures PriceCellClass(Some(ClearedRow(row)), now) ==
      if "c" in row.dir then PersistentClass(row.dir, "c") else SignClass(Field(row, "ch"))
  {
  }

  /**
   * At the instant of a tick every field the tick recorded flashes with its
   * direction, and a field that moved up or down takes that colour.
   */
  lemma UpdatedCellFlashes(oldRow: Row, draws: Draws, now: int, field: string)
    requires DrawsOk(draws) && now != 0 && field in TickDraft(oldRow, draws).changes
    ensures var d := TickDraft(oldRow, draws).changes[field];
      var newRow := UpdatedRow(oldRow, draws, now);
      && CombinedCellClass(Some(newRow), field, now) == PersistentClass(newRow.dir, field) + " flash-" + DirName(d)
      && (d == Up ==> PersistentClass(newRow.dir, field) == "cell-up")
      && (d == Down ==> PersistentClass(newRow.dir, field) == "cell-down")
  {
    UpdateKeepsIdentity(oldRow, draws, now);
  }

  /** A field whose change was neutral, or that did not change, keeps its colour. */
  lemma SteadyFieldKeepsColour(oldRow: Row, draws: Draws, now: int, field: string)
    requires DrawsOk(draws)
    requires var changes := TickDraft(oldRow, draws).changes;
      field !in changes || changes[field] == Neutral
    ensures PersistentClass(UpdatedRow(oldRow, draws, now).dir, field) == PersistentClass(oldRow.dir, field)
  {
    UpdateKeepsIdentity(oldRow, draws, now);
  }
}
