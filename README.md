# Price-board row cache

A Dafny model of the row cache behind the two price boards of the first
remote app. The boards are a stock board rendered with AG Grid:
`first-remote-app/src/components/PriceBoardJson.tsx` (the JSON board) and
`first-remote-app/src/components/PriceBoard.tsx` (the plain board). Both keep
a list of quote rows keyed by symbol (`s`). The model covers:

- **the update generator** (`makeRandomUpdate`, and the same body inline in the
  plain board's interval). It perturbs the five top-level prices, the last
  price `c`, the derived change `ch` and percentage `r`, the volume `vo` and
  value `va`, and the first three levels of each side of the book (`bb`, `bo`).
  It records a direction (up, down, neutral) for every key it touches in
  `_changes`, merges the non-neutral ones into the persistent `_dir`, and
  stamps `_lastUpdate`;
- **the JSON board's store**: the authoritative main list, the
  symbol-to-position index, the pinned symbols with the rows shown above the
  grid, the pin ledger (`pinnedMetaRef`) and the pending map that batches ticks
  between flushes. The operations are the load-time preparation, pin and unpin
  (`togglePin` and the effect on `pinnedSymbols`), the incoming tick, the flush
  and the flash-clear timeout;
- **the plain board**: pick a row, update it, rewrite the list by symbol, then
  clear the row's flash;
- **the cell and row classes**: the persistent colour from `_dir`, the
  350 ms flash suffix, the last-price cell's colour and the row striping.

Every `Math.random()` call site is a named draw in [0, 1), `Date.now()` is a
parameter `now`, and the grid's view (which symbols are rendered, which row a
grid node holds) is a parameter.

Module layout:

| module | file | contents |
|---|---|---|
| `Wrappers` | `wrappers.dfy` | `Option` |
| `Values` | `values.dfy` | numbers that may be missing or NaN, `direction`, clamping, the rounded percentage |
| `Rows` | `rows.dfy` | rows, book levels, field access, book-cell keys, replace by symbol, the cleared row |
| `OrderedMaps` | `ordered_map.dfy` | a JavaScript `Map` with its insertion order |
| `PinOrder` | `pin_order.dfy` | the list surgery of pin and unpin, and `__initIndex` order |
| `Tick` | `tick.dfy` | the generator: a stage-by-stage specification (`UpdatedRow`) and the imperative `MakeRandomUpdate` proved equal to it |
| `TickLaws` | `tick_laws.dfy` | what one tick guarantees, field by field |
| `Cells` | `cells.dfy` | CSS class selection |
| `PriceBoardJson` | `price_board_json.dfy` | the JSON board's store as a class over a state record, with its invariant |
| `PriceBoard` | `price_board.dfy` | the plain board as a class |
| `RowCopies` | `row_copies.dfy` | the JSON board's React state and ref as two lists, and the tick the pin loses |

The store's invariant (`PriceBoardJson.Inv`) states the following:
- the index matches the main list (`index[s] == i` exactly when `rows[i].s == s`);
- every ledger entry and pinned symbol is off the main list;
- each ledger entry holds a row of its own symbol;
- every staged row belongs to a symbol that has a row;
- the rows above the grid are one row for each pinned symbol that has a ledger
  entry, in pin order. The effect on `pinnedSymbols` recomputes them as exactly
  those ledger rows (`PriceBoardJson.PinnedViewLedgerRows`). A flush updates
  the ledger but not these rows, so they can lag behind it.

The store also keeps the `__initIndex` order (`PriceBoardJson.Ordered`) that
the unpin relies on:
- the main list is in strict `__initIndex` order;
- each ledger row carries its `originalInitIndex` as `__initIndex`;
- no two symbols' current rows share an `__initIndex`;
- a staged row carries the `__initIndex` of its symbol's current row.

## Model

Source paths are relative to the repository root.

| member | source | states |
|---|---|---|
| Values.Direction | first-remote-app/src/components/PriceBoardJson.tsx:36-41 | `up` exactly when both values are numbers and the new one is larger, `down` exactly when it is smaller, `neutral` exactly when either is missing or NaN or they are equal |
| Values.DirectionSwapped | first-remote-app/src/components/PriceBoardJson.tsx:36-41 | (algebraic fact) swapping old and new turns `up` into `down` and keeps `neutral` |
| Values.ClampAdd | first-remote-app/src/components/PriceBoardJson.tsx:431 | `Math.max(0, old + delta)`: a number exactly when the base is one, never negative, never below `old + delta`, and equal to it whenever positive |
| Values.TimesIsProduct | first-remote-app/src/components/PriceBoardJson.tsx:464-466 | the repeated addition used for `addVol * c` is the product |
| Values.QuotientBounds | first-remote-app/src/components/PriceBoardJson.tsx:452-454 | the integer quotient behind the rounding lies within one divisor below the dividend |
| Values.PercentRounding | first-remote-app/src/components/PriceBoardJson.tsx:452-454 | `r`, in hundredths of a percent, is within half a hundredth of `ch / o * 100`; it is 0 when `ch` is 0 and has the sign of `ch / o` |
| Values.PercentExamples | first-remote-app/src/components/PriceBoardJson.tsx:452-454 | (worked example) 10 on 90 gives 11.11 %, 5 on 90 gives 5.56 %, -10 on 90 gives -11.11 % |
| Rows.WithLevel | first-remote-app/src/components/PriceBoardJson.tsx:470-503 | writing level i of one side changes that level of that side and nothing else of the row |
| Rows.LevelKeyInjective | first-remote-app/src/components/PriceBoardJson.tsx:477-500 | the keys `bb[i].v`, `bb[i].p`, `bo[i].v`, `bo[i].p` are seven characters long and distinct for distinct side, level and part |
| Rows.TopFieldsAreNotLevelKeys | first-remote-app/src/components/PriceBoardJson.tsx:424-500 | no book-cell key is one of the five top-level field names |
| Rows.ReplaceBySymbol | first-remote-app/src/components/PriceBoard.tsx:433-437 | `prev.map(r => r.s === newRow.s ? newRow : r)`: same length, same symbols in the same order, rows of other symbols kept, rows of that symbol replaced |
| Rows.ReplaceBySymbolAt | first-remote-app/src/components/PriceBoard.tsx:433-437 | with unique symbols, replacing by symbol rewrites exactly the one position holding it |
| Rows.ReplaceBySymbolAbsent | first-remote-app/src/components/PriceBoardJson.tsx:765-770 | replacing a symbol the list does not hold changes nothing |
| Rows.ClearedRow | first-remote-app/src/components/PriceBoard.tsx:444-448 | the cleared copy has no `_changes` and no `_lastUpdate`; everything else is the original row's |
| OrderedMaps.OrderedMap.Get | first-remote-app/src/components/PriceBoardJson.tsx:527 | `get` finds a value exactly when the key is present, and it is the stored one |
| OrderedMaps.OrderedMap.Set | first-remote-app/src/components/PriceBoardJson.tsx:658 | `set` stores the value; an existing key keeps its place in the order and a new key goes last; the map stays duplicate-free |
| OrderedMaps.OrderedMap.Delete | first-remote-app/src/components/PriceBoardJson.tsx:528 | `delete` removes the key from the values and from the order, keeping the other keys in order |
| OrderedMaps.Empty | first-remote-app/src/components/PriceBoardJson.tsx:779 | `clear` leaves a map with no keys |
| OrderedMaps.WithoutFacts | first-remote-app/src/components/PriceBoardJson.tsx:565 | filtering a key out keeps exactly the other keys, keeps them distinct, and changes nothing when the key is absent |
| OrderedMaps.WithoutAppended | first-remote-app/src/components/PriceBoardJson.tsx:565 | filtering out a key that was just appended gives back the list before the append |
| OrderedMaps.SetThenDelete | first-remote-app/src/components/PriceBoardJson.tsx:588-592 | adding a fresh ledger entry and deleting it again leaves the map, its order included, as it was |
| OrderedMaps.LastWriteWins | first-remote-app/src/components/PriceBoardJson.tsx:657-658 | two writes of one key in a batch leave the map as the second write alone would |
| PinOrder.FirstAbove | first-remote-app/src/components/PriceBoardJson.tsx:545-547 | `findIndex` of the first row whose `__initIndex ?? Infinity` exceeds k: -1 exactly when there is none, otherwise that row is above k and no earlier one is |
| PinOrder.FindSymbol | first-remote-app/src/components/PriceBoardJson.tsx:578 | `findIndex` by symbol: -1 exactly when the symbol is absent, otherwise the first row with it |
| PinOrder.RemoveAt | first-remote-app/src/components/PriceBoardJson.tsx:574 | `splice(pos, 1)`: one row shorter, rows before p kept, rows after it shifted down by one |
| PinOrder.InsertAt | first-remote-app/src/components/PriceBoardJson.tsx:553 | `splice(pos, 0, row)`: the row lands at p, rows before it kept, rows after it shifted up by one, and the list gains exactly that row |
| PinOrder.InsertPos | first-remote-app/src/components/PriceBoardJson.tsx:545-554 | the insertion point has no row above k before it, and a row above k at it unless it is the end |
| PinOrder.Reinserted | first-remote-app/src/components/PriceBoardJson.tsx:545-554 | the unpinned row is added once (the multiset grows by that row) at the insertion point, or pushed at the end |
| PinOrder.RemoveKeepsSorted | first-remote-app/src/components/PriceBoardJson.tsx:574 | removing a row keeps a list sorted by `__initIndex` sorted |
| PinOrder.ReinsertKeepsSorted | first-remote-app/src/components/PriceBoardJson.tsx:544-554 | reinserting a row under its own `__initIndex` keeps a sorted list sorted |
| PinOrder.PinUnpinRoundTrip | first-remote-app/src/components/PriceBoardJson.tsx:526-587 | on a list strictly sorted by `__initIndex`, removing any row and reinserting it under its `__initIndex` gives back the original list |
| PinOrder.RemoveKeepsStrict | first-remote-app/src/components/PriceBoardJson.tsx:574 | removing a row keeps a list in strict `__initIndex` order strictly ordered |
| PinOrder.InsertKeepsStrict | first-remote-app/src/components/PriceBoardJson.tsx:553 | inserting a row between the rows with smaller and larger `__initIndex` keeps strict order |
| PinOrder.ReinsertKeepsStrict | first-remote-app/src/components/PriceBoardJson.tsx:544-554 | reinserting a row under its own `__initIndex` k, into a strictly ordered list where no row has index k, keeps strict order |
| PinOrder.Prepare | first-remote-app/src/components/PriceBoardJson.tsx:386-392 | the load keeps every row's data and symbols in order, empties `_dir`, clears `_changes` and `_lastUpdate`, and sets each row's `__initIndex` to its position, so the list is in strict `__initIndex` order |
| PinOrder.PinUnpinExample | first-remote-app/src/components/PriceBoardJson.tsx:520-607 | (worked example) [A, B, C]: pinning B leaves [A, C]; unpinning B restores [A, B, C] |
| Tick.PickIndex | first-remote-app/src/components/PriceBoardJson.tsx:647 | `Math.floor(Math.random() * n)` is a position below n, the floor of `pick * n` |
| Tick.TopDelta | first-remote-app/src/components/PriceBoardJson.tsx:428-430 | a top-level field's step is one of plus or minus 10, 20, 30 |
| Tick.PriceTick | first-remote-app/src/components/PriceBoardJson.tsx:440 | the tick of `c` is -10, 0 or 10, and non-zero exactly when its draw exceeds 0.6 |
| Tick.PriceJump | first-remote-app/src/components/PriceBoardJson.tsx:441 | the jump of `c` is -50, 0 or 50, and non-zero exactly when its draw exceeds 0.98 |
| Tick.VolumeStep | first-remote-app/src/components/PriceBoardJson.tsx:475 | a level's volume step lies in [-1500, 1500) |
| Tick.AddVolume | first-remote-app/src/components/PriceBoardJson.tsx:459 | the added volume lies in [0, 5000) |
| Tick.LevelPriceStep | first-remote-app/src/components/PriceBoardJson.tsx:482 | a level's price step is 10 or -10 |
| Tick.MergeDirections | first-remote-app/src/components/PriceBoardJson.tsx:507-511 | the new `_dir` takes every non-neutral change, keeps every other old entry, and has no other keys |
| Tick.MakeRandomUpdate | first-remote-app/src/components/PriceBoardJson.tsx:415-518 | the imperative generator returns exactly the specified `UpdatedRow` |
| Tick.PerturbTopFields | first-remote-app/src/components/PriceBoardJson.tsx:424-435 | the `forEach` over the five top-level fields computes the top-field stage |
| Tick.PerturbLastPrice | first-remote-app/src/components/PriceBoardJson.tsx:437-445 | the `c` block computes its stage |
| Tick.RecomputeDerived | first-remote-app/src/components/PriceBoardJson.tsx:447-456 | the `ch, r` block computes its stage |
| Tick.AccumulateVolume | first-remote-app/src/components/PriceBoardJson.tsx:458-466 | the `vo, va` block computes its stage |
| Tick.PerturbBook | first-remote-app/src/components/PriceBoardJson.tsx:468-504 | the book loop over levels 0 to 2 computes the book stage |
| Tick.PerturbLevel | first-remote-app/src/components/PriceBoardJson.tsx:470-486 | one side of one iteration steps that level when it exists |
| Tick.PerturbParts | first-remote-app/src/components/PriceBoardJson.tsx:471-485 | the volume and price parts of one level step as drawn and record their keys |
| Tick.MergeInto | first-remote-app/src/components/PriceBoardJson.tsx:506-511 | the key-by-key merge loop computes `MergeDirections` |
| TickLaws.StepTopFieldsFrame | first-remote-app/src/components/PriceBoardJson.tsx:424-435 | the top-field loop touches no other field and no other record, and only the numbers of the row |
| TickLaws.StepTopFieldsAt | first-remote-app/src/components/PriceBoardJson.tsx:424-435 | over distinct names, field j is stepped and recorded exactly when its draw is below 0.25, and left alone otherwise |
| TickLaws.StepLevelEffect | first-remote-app/src/components/PriceBoardJson.tsx:470-503 | one side of one iteration steps level i of that side when it exists, leaves the other side alone, and adds that level's records |
| TickLaws.StepBookEffect | first-remote-app/src/components/PriceBoardJson.tsx:468-504 | after n iterations, levels below n have stepped, the rest and the book lengths are unchanged, and the records are the levels' records |
| TickLaws.BookChangesKeys | first-remote-app/src/components/PriceBoardJson.tsx:477-500 | every key the book loop records is a seven-character book-cell key |
| TickLaws.BookChangesAt | first-remote-app/src/components/PriceBoardJson.tsx:468-504 | the key of a book cell is recorded exactly when the level exists, lies below n and its part was drawn, with the direction of that part's move |
| TickLaws.LastPriceKeeps | first-remote-app/src/components/PriceBoardJson.tsx:437-445 | the `c` block touches `c` and its record only |
| TickLaws.DerivedKeeps | first-remote-app/src/components/PriceBoardJson.tsx:447-456 | the `ch, r` block touches `ch`, `r` and their records only |
| TickLaws.VolumeKeeps | first-remote-app/src/components/PriceBoardJson.tsx:458-466 | the `vo, va` block touches `vo`, `va` and their records only |
| TickLaws.TickDraftFrame | first-remote-app/src/components/PriceBoardJson.tsx:416-420 | a tick changes only numbers and levels; fields outside the perturbed ones, book lengths and levels from the fourth on are kept |
| TickLaws.UpdateKeepsIdentity | first-remote-app/src/components/PriceBoardJson.tsx:416-420 | the new row keeps the symbol, `o`, `__initIndex` and every unperturbed field; `_changes` is this tick's record, `_dir` its merge into the old `_dir`, `_lastUpdate` the clock |
| TickLaws.TickTopField | first-remote-app/src/components/PriceBoardJson.tsx:424-435 | a top-level field moves by its step from `old ?? 0`, clamped at zero, and records its direction, exactly when its draw hits; otherwise it and its record stay; a moved field is a non-negative number |
| TickLaws.TickLastPrice | first-remote-app/src/components/PriceBoardJson.tsx:437-445 | `c` moves by tick plus jump from `c ?? 0`, clamped at zero, and records its direction, exactly when its draw is below 0.9; otherwise it and its record stay |
| TickLaws.TickDerived | first-remote-app/src/components/PriceBoardJson.tsx:447-456 | `ch` is `c - (o ?? 0)` of the new `c`; `r` is 0 when `o` is falsy, NaN when `o` is truthy and `c` is not a number, and the rounded percentage otherwise; each is recorded with `direction(old ?? 0, new)` |
| TickLaws.TickVolume | first-remote-app/src/components/PriceBoardJson.tsx:458-466 | `vo` grows by the added volume and never decreases, staying below old plus 5000; `va` grows by `addVol * (c ?? 0)`; each is recorded with `direction(old, new)` on the raw old value, so a missing one records neutral |
| TickLaws.TickBookCell | first-remote-app/src/components/PriceBoardJson.tsx:468-504 | each of the first three levels of each side steps as drawn; the cell key is recorded exactly when the level exists and the part was drawn, with its direction |
| TickLaws.LevelAfterClamped | first-remote-app/src/components/PriceBoardJson.tsx:471-485 | a drawn part of a level becomes a non-negative number; an undrawn part stays |
| TickLaws.TickPreservesWellFormed | first-remote-app/src/components/PriceBoardJson.tsx:415-504 | a tick introduces no NaN into a clamped field, the volumes or a book level |
| TickLaws.UpdatePreservesWellFormed | first-remote-app/src/components/PriceBoardJson.tsx:415-518 | the same for the row the generator returns |
| TickLaws.OpenPriceKept | first-remote-app/src/components/PriceBoardJson.tsx:416-420 | `o` survives a tick |
| TickLaws.MergeIdempotent | first-remote-app/src/components/PriceBoardJson.tsx:507-511 | (algebraic fact) merging the same changes twice is merging them once |
| TickLaws.MergeAllNeutral | first-remote-app/src/components/PriceBoardJson.tsx:507-511 | (algebraic fact) neutral changes never erase or alter a stored direction |
| TickLaws.MergeKeepsKeys | first-remote-app/src/components/PriceBoardJson.tsx:507-511 | (algebraic fact) the merge never drops a stored key |
| Cells.PersistentClass | first-remote-app/src/components/PriceBoardJson.tsx:127-132 | `cell-up` exactly for a stored `up`, `cell-down` exactly for a stored `down`, `cell-neutral` otherwise |
| Cells.FlashSuffix | first-remote-app/src/components/PriceBoardJson.tsx:138-141 | the suffix is empty exactly when the field is not flashing, and while it flashes it is ` flash-` followed by the direction recorded for the field in `_changes` |
| Cells.CombinedCellClass | first-remote-app/src/components/PriceBoardJson.tsx:134-143 | empty without data; otherwise the persistent class alone when the field is not flashing, and the persistent class followed by ` flash-<recorded direction>` while it flashes |
| Cells.SignClass | first-remote-app/src/components/PriceBoard.tsx:176-181 | the colour of the sign of `ch` |
| Cells.PriceCellClass | first-remote-app/src/components/PriceBoard.tsx:174-193 | empty without data; otherwise the colour (the `_dir` colour of `c` when one is stored, else the sign of `ch`) alone when `c` is not flashing, and the colour followed by ` flash-<recorded direction of c>` while it flashes |
| Cells.JsonPriceCellClass | first-remote-app/src/components/PriceBoardJson.tsx:251-271 | the JSON board's last-price cell is `kl-cell ` followed by the same class |
| Cells.RowClasses | first-remote-app/src/components/PriceBoardJson.tsx:16-24 | exactly one of `row-pinned`, `row-even`, `row-odd` applies |
| Cells.AdjacentRowsAlternate | first-remote-app/src/components/PriceBoardJson.tsx:19-23 | (algebraic fact) adjacent unpinned rows get different stripes |
| Cells.FlashExpires | first-remote-app/src/components/PriceBoardJson.tsx:140-141 | 350 ms after the update no cell flashes any more |
| Cells.ClearedRowIsSteady | first-remote-app/src/components/PriceBoardJson.tsx:752-756 | a cleared row flashes nowhere and shows its persistent colours |
| Cells.UpdatedCellFlashes | first-remote-app/src/components/PriceBoardJson.tsx:134-143 | right after a tick, a recorded field shows its persistent colour plus ` flash-<direction>`, and a non-neutral direction is also the persistent colour |
| Cells.SteadyFieldKeepsColour | first-remote-app/src/components/PriceBoardJson.tsx:507-511 | a field a tick does not change, or changes neutrally, keeps its persistent colour |
| PriceBoardJson.InitOr | first-remote-app/src/components/PriceBoardJson.tsx:587 | `__initIndex ?? removedIndex` |
| PriceBoardJson.IndexMatchesFacts | first-remote-app/src/components/PriceBoardJson.tsx:395-397 | a matching index forces unique symbols and has exactly the list's symbols as keys |
| PriceBoardJson.IndexDetermined | first-remote-app/src/components/PriceBoardJson.tsx:395-397 | a list has only one matching index |
| PriceBoardJson.IndexOf | first-remote-app/src/components/PriceBoardJson.tsx:395-396 | each key points at a row with that symbol, and every row's symbol is a key pointing at that row or a later one |
| PriceBoardJson.IndexOfMatches | first-remote-app/src/components/PriceBoardJson.tsx:395-397 | with unique symbols the rebuilt map matches the list exactly |
| PriceBoardJson.BuildIndex | first-remote-app/src/components/PriceBoardJson.tsx:395-396 | the `forEach` that rebuilds the index computes `IndexOf` |
| PriceBoardJson.MetaFilter | first-remote-app/src/components/PriceBoardJson.tsx:614-622 | a symbol is kept exactly when it is pinned and has a ledger entry |
| PriceBoardJson.MetaFilterKeepsAll | first-remote-app/src/components/PriceBoardJson.tsx:614-622 | when every pinned symbol has a ledger entry, the filter keeps all of them in pin order |
| PriceBoardJson.PinnedView | first-remote-app/src/components/PriceBoardJson.tsx:613-624 | the recomputed rows above the grid: at most one per pinned symbol, the first pinned symbol's ledger row first, and, when no pinned symbol is listed and every ledger row carries its own symbol, one row for each pinned symbol with a ledger entry, in pin order |
| PriceBoardJson.PinnedViewLedgerRows | first-remote-app/src/components/PriceBoardJson.tsx:613-624 | when no pinned symbol is in the index, the recomputed rows are, position by position, the ledger rows of the pinned symbols that have a ledger entry |
| PriceBoardJson.DropSymbol | first-remote-app/src/components/PriceBoardJson.tsx:531-533 | the rows above the grid without the unpinned symbol's |
| PriceBoardJson.TickCandidates | first-remote-app/src/components/PriceBoardJson.tsx:640-645 | the main list's symbols and the ledger's symbols off the list |
| PriceBoardJson.RenderedKeys | first-remote-app/src/components/PriceBoardJson.tsx:709-725 | the staged symbols that are rendered |
| PriceBoardJson.ForGridExactly | first-remote-app/src/components/PriceBoardJson.tsx:709-725 | the rows sent to the grid are the staged rows of the rendered symbols, in staging order |
| PriceBoardJson.RemovedLookup | first-remote-app/src/components/PriceBoardJson.tsx:597-600 | after a removal, the rebuilt index holds exactly the other symbols, each pointing at the same row |
| PriceBoardJson.InsertedLookup | first-remote-app/src/components/PriceBoardJson.tsx:556-559 | after an insertion, the rebuilt index adds the new symbol at the new row and keeps every old symbol on its row |
| PriceBoardJson.ReplaceIsNoop | first-remote-app/src/components/PriceBoardJson.tsx:738-741 | rewriting rows the list already holds changes nothing |
| PriceBoardJson.RowOf | first-remote-app/src/components/PriceBoardJson.tsx:649-654 | the current row of a symbol is the list row at its index position when it has an in-range one, the ledger row when it has no position but a ledger entry, and nothing otherwise |
| PriceBoardJson.WriteBack | first-remote-app/src/components/PriceBoardJson.tsx:661-674 | writing a row back touches only the main list's row or the ledger entry, never the index, pinned symbols, ledger keys or pending map |
| PriceBoardJson.Flushed | first-remote-app/src/components/PriceBoardJson.tsx:709-720 | the flush's writes keep the index, list length, ledger keys and everything else |
| PriceBoardJson.LoadInv | first-remote-app/src/components/PriceBoardJson.tsx:386-397 | the load establishes the invariant, with the list strictly sorted by `__initIndex` and the data's symbols in order |
| PriceBoardJson.PinEffect | first-remote-app/src/components/PriceBoardJson.tsx:567-605 | pinning removes the symbol's row, records it with its `__initIndex` in the ledger, puts it first above the grid and the symbol first among the pinned; the other rows keep their order and rows |
| PriceBoardJson.PinMovesRows | first-remote-app/src/components/PriceBoardJson.tsx:567-605 | pinning moves a row from the list to the ledger: every symbol's current row is unchanged |
| PriceBoardJson.PinKeepsLedger | first-remote-app/src/components/PriceBoardJson.tsx:567-605 | pinning keeps the ledger invariant and takes the symbol off the index |
| PriceBoardJson.UnpinEffect | first-remote-app/src/components/PriceBoardJson.tsx:525-565 | unpinning deletes the ledger entry, filters the symbol out of the pinned ones and the rows above the grid, and reinserts the ledger row by `__initIndex`; without an entry the list and index stay |
| PriceBoardJson.UnpinMovesRows | first-remote-app/src/components/PriceBoardJson.tsx:525-565 | unpinning moves a row from the ledger back to the list: every symbol's current row is unchanged |
| PriceBoardJson.UnpinKeepsLedger | first-remote-app/src/components/PriceBoardJson.tsx:525-565 | unpinning keeps the ledger invariant and removes the symbol from pinned symbols and ledger |
| PriceBoardJson.PinnedViewInv | first-remote-app/src/components/PriceBoardJson.tsx:611-625 | the effect on `pinnedSymbols` restores the full invariant |
| PriceBoardJson.TogglePinKeepsInv | first-remote-app/src/components/PriceBoardJson.tsx:520-625 | `togglePin` keeps the invariant, the pending map and every symbol's current row |
| PriceBoardJson.TogglePinPins | first-remote-app/src/components/PriceBoardJson.tsx:567-605 | toggling a listed symbol removes its row at its index position and pins it |
| PriceBoardJson.TogglePinUnpins | first-remote-app/src/components/PriceBoardJson.tsx:525-565 | toggling a pinned symbol unpins it and reinserts its ledger row |
| PriceBoardJson.TogglePinRoundTrip | first-remote-app/src/components/PriceBoardJson.tsx:520-607 | in every state that keeps the invariant and the `__initIndex` order, toggling a listed symbol twice restores the list, the index, the pinned symbols and the ledger |
| PriceBoardJson.WriteBackKeepsLedger | first-remote-app/src/components/PriceBoardJson.tsx:661-674 | writing a row of its own symbol back keeps the ledger invariant and the symbols, and changes that symbol's current row only |
| PriceBoardJson.FlushedRows | first-remote-app/src/components/PriceBoardJson.tsx:709-720 | after the writes, each written symbol with a row has the staged row and the others are unchanged |
| PriceBoardJson.FlushWritesPending | first-remote-app/src/components/PriceBoardJson.tsx:694-790 | a flush keeps the invariant, gives every staged symbol its staged row, leaves the others, sends the rendered ones to the grid, and empties the pending map |
| PriceBoardJson.CandidatesHaveRows | first-remote-app/src/components/PriceBoardJson.tsx:636-654 | a symbol can be picked exactly when it has a current row, and there is none to pick exactly when list and ledger are empty |
| PriceBoardJson.StagedKeepsInv | first-remote-app/src/components/PriceBoardJson.tsx:656-674 | staging a new row keeps the invariant, records it in the pending map and makes it the symbol's current row, and changes nothing else |
| PriceBoardJson.TickUpdatesOneRow | first-remote-app/src/components/PriceBoardJson.tsx:632-678 | an incoming tick keeps the invariant; with nothing to pick it changes nothing; otherwise the picked symbol's row becomes its update, is staged, and no other row changes |
| PriceBoardJson.TickAtUpdates | first-remote-app/src/components/PriceBoardJson.tsx:649-674 | the tick of a symbol that has a row stages its update and makes it the current row |
| PriceBoardJson.ClearFlashKeepsInv | first-remote-app/src/components/PriceBoardJson.tsx:748-774 | the flash-clear keeps the invariant, makes the cleared row current for its symbol when it has one, and changes no other row; the row written back is the grid's copy, which can be older than the symbol's current row when the symbol ticked while not rendered, and then that tick is overwritten |
| PriceBoardJson.LoadOrdered | first-remote-app/src/components/PriceBoardJson.tsx:386-397 | with unique symbols the load establishes the invariant and the `__initIndex` order |
| PriceBoardJson.OrderedFromInits | first-remote-app/src/components/PriceBoardJson.tsx:656-774 | a write that keeps the index, the ledger's `originalInitIndex` values and the `__initIndex` of every current row keeps the order |
| PriceBoardJson.ListAvoidsLedgerInit | first-remote-app/src/components/PriceBoardJson.tsx:544-554 | under the order, no row of the main list carries the `__initIndex` a ledger entry remembers, so the unpin has a unique place to insert |
| PriceBoardJson.PinKeepsOrder | first-remote-app/src/components/PriceBoardJson.tsx:567-605 | a pin keeps the order: the list loses one row and the ledger remembers its `__initIndex` |
| PriceBoardJson.UnpinKeepsOrder | first-remote-app/src/components/PriceBoardJson.tsx:525-565 | an unpin keeps the order: the ledger row goes back under its own `__initIndex`, between the smaller and the larger ones |
| PriceBoardJson.TogglePinKeepsOrder | first-remote-app/src/components/PriceBoardJson.tsx:520-625 | `togglePin` with its effect keeps the order |
| PriceBoardJson.StagedKeepsOrder | first-remote-app/src/components/PriceBoardJson.tsx:656-674 | staging and writing back a row that keeps its symbol's `__initIndex` keeps the order |
| PriceBoardJson.TickKeepsOrder | first-remote-app/src/components/PriceBoardJson.tsx:632-678 | an incoming tick keeps the order, because the generator keeps `__initIndex` |
| PriceBoardJson.FlushKeepsOrder | first-remote-app/src/components/PriceBoardJson.tsx:694-790 | a flush keeps the order, because every staged row carries its symbol's `__initIndex` |
| PriceBoardJson.FlushKeepsValid | first-remote-app/src/components/PriceBoardJson.tsx:694-790 | a flush keeps the invariant and the order together |
| PriceBoardJson.ClearFlashKeepsOrder | first-remote-app/src/components/PriceBoardJson.tsx:748-774 | the flash clear keeps the order when the grid's row carries its symbol's `__initIndex` |
| PriceBoardJson.Store.Load | first-remote-app/src/components/PriceBoardJson.tsx:386-397 | the load sets up the prepared list, its index, empty pins and an empty pending map, and the invariant and the `__initIndex` order when the data's symbols are unique |
| PriceBoardJson.Store.Pin | first-remote-app/src/components/PriceBoardJson.tsx:567-605 | the pin branch updates the fields as `PinSpec` |
| PriceBoardJson.Store.Unpin | first-remote-app/src/components/PriceBoardJson.tsx:525-565 | the unpin branch updates the fields as `UnpinSpec` |
| PriceBoardJson.Store.TogglePin | first-remote-app/src/components/PriceBoardJson.tsx:520-625 | `togglePin` and its effect update the fields as `TogglePinSpec` and keep the invariant and the `__initIndex` order |
| PriceBoardJson.Store.WriteRow | first-remote-app/src/components/PriceBoardJson.tsx:710-720 | one write-back |
| PriceBoardJson.Store.Stage | first-remote-app/src/components/PriceBoardJson.tsx:658-674 | one staging of an updated row |
| PriceBoardJson.Store.IncomingTick | first-remote-app/src/components/PriceBoardJson.tsx:632-678 | the incoming interval updates the fields as `TickSpec` and keeps the invariant and the `__initIndex` order |
| PriceBoardJson.Store.WriteAll | first-remote-app/src/components/PriceBoardJson.tsx:709-725 | the `forEach` over the pending map writes every row back in order and collects the rendered ones |
| PriceBoardJson.Store.Flush | first-remote-app/src/components/PriceBoardJson.tsx:694-790 | the flush updates the fields as `FlushSpec`, returns the rows for the grid and keeps the invariant and the `__initIndex` order |
| PriceBoardJson.Store.ClearFlash | first-remote-app/src/components/PriceBoardJson.tsx:748-774 | the flash-clear timeout updates the fields as `ClearFlashSpec` and keeps the invariant; it keeps the `__initIndex` order when the grid's row carries its symbol's `__initIndex` |
| PriceBoard.TickRewritesPickedRow | first-remote-app/src/components/PriceBoard.tsx:313-437 | an interval keeps the length and symbols of the list; with unique symbols it rewrites exactly the picked position, with the generator's row for it |
| PriceBoard.TickKeepsRowsWellFormed | first-remote-app/src/components/PriceBoard.tsx:313-437 | an interval keeps every row free of NaN where the generator clamps |
| PriceBoard.ClearFlashClearsOneRow | first-remote-app/src/components/PriceBoard.tsx:440-454 | with the grid holding the list's row, the timeout clears exactly that position's flash metadata; without a grid row nothing changes |
| PriceBoard.TickThenClear | first-remote-app/src/components/PriceBoard.tsx:313-454 | a tick followed by its timeout leaves the picked position with the tick's values and merged `_dir`, and no flash metadata |
| PriceBoard.Board.constructor | first-remote-app/src/components/PriceBoard.tsx:23-28 | the board starts with the copied mock rows |
| PriceBoard.Board.Tick | first-remote-app/src/components/PriceBoard.tsx:309-437 | the interval returns nothing on an empty list and otherwise the updated row, and rewrites the list as `TickSpec` |
| PriceBoard.Board.ClearFlash | first-remote-app/src/components/PriceBoard.tsx:440-454 | the timeout rewrites the list as `ClearFlashSpec` |
| RowCopies.SharedPinMatchesStore | first-remote-app/src/components/PriceBoardJson.tsx:567-601 | while React state and the ref are one array, the pin as written removes the same row from the list as the store's pin |
| RowCopies.MergeOne | first-remote-app/src/components/PriceBoardJson.tsx:735-743 | the flush's state sync writes a sent row at its symbol's index position when that is in range |
| RowCopies.TicksAroundFlush | first-remote-app/src/components/PriceBoardJson.tsx:656-743 | a tick of a rendered A, the flush that sends it, and a tick of an unrendered B leave React state holding the old B while the ref holds the new one |
| RowCopies.PinFromStaleState | first-remote-app/src/components/PriceBoardJson.tsx:567-601 | pinning C from that React state makes the ref [A', B]: B's tick is gone |
| RowCopies.StorePinKeepsTick | first-remote-app/src/components/PriceBoardJson.tsx:567-601 | pinning C from the authoritative list of the same moment gives [A', B'] |
| RowCopies.PinLosesUnrenderedTick | first-remote-app/src/components/PriceBoardJson.tsx:520-743 | the whole sequence: load [A, B, C], tick A rendered, flush, tick B unrendered, pin C; the ref ends as [A', B] without B's tick |
| RowCopies.IndexOfThree | first-remote-app/src/components/PriceBoardJson.tsx:395-396 | the index rebuilt for three rows maps each symbol to its position |

## Findings

| source | as written | input that shows it | evidently intended | confidence | as-written member | corrected member |
|---|---|---|---|---|---|---|
| first-remote-app/src/components/PriceBoardJson.tsx:567-601 | the pin (and likewise the unpin at lines 535-561) rebuilds the main list from React state `rowData` and makes that copy `rowDataRef.current`; after a flush that sent rows, React state holds only the rendered updates (lines 735-743), so ticks of unrendered rows are dropped | load [A, B, C]; tick A while rendered; flush; tick B while not rendered; flush; pin C: the list becomes [A', B] | the pin removes C from the authoritative list, giving [A', B'], and changes no other row | not executed | RowCopies.PinLosesUnrenderedTick | PriceBoardJson.PinMovesRows |

## Left out

- React state and refs are one value each. In the JSON board's store,
  `rowData` (React state) and `rowDataRef.current` are one list, the
  authoritative one, and `togglePin` works on it. The source's `togglePin`
  rebuilds the list from React state instead, which loses ticks of rows that
  were not rendered (see "## Findings"); only `RowCopies` models the two
  lists apart.
- PriceBoardJson.PinMovesRows: holds for the pin on the authoritative list.
  The source's pin rebuilds the list from React state and can drop ticks of
  unrendered rows, so there a symbol's current row can revert to an older one
  (`RowCopies.PinLosesUnrenderedTick`).
- PriceBoardJson.UnpinMovesRows: holds for the unpin on the authoritative
  list. The source's unpin also rebuilds the list from React state
  (lines 535-561) and can drop the same ticks.
- PriceBoardJson.TogglePinKeepsInv: its "every current row unchanged" part
  holds for the authoritative list only, for the same reason.
- PriceBoardJson.Store.ClearFlash: keeps the `__initIndex` order only when the
  grid's row carries its symbol's current `__initIndex`. The grid is a
  parameter, so the model does not know that the grid only holds rows the
  board gave it.
- State-updater functions (`setPinnedSymbols(prev => …)`) run at once, in
  source order. React's scheduling and StrictMode double invocation are not
  modelled.
- AG Grid is not modelled: `applyTransaction`, `getRenderedNodes` and
  `getRowNode` become parameters (the rendered symbols, the grid's row).
  `sizeColumnsToFit`, column definitions and value formatting
  (`formatNumber`, `toLocaleString`) are left out.
- The `gridApiRef.current` null checks return early before anything changes,
  so they are left out.
- `fetch` of the JSON data, the abort controller and the loading and error
  states are not modelled. A load that fails or returns a non-array changes
  no rows.
- Timers (`setInterval`, `setTimeout`, their cleanup) are not modelled. Each
  callback is an operation that the caller invokes.
- Every `try`/`catch` is left out, because no modelled step throws.
- PriceBoardJson.LoadInv: the invariant is established only for data with
  unique symbols. The source does not check this; with duplicates its index
  keeps the last position of each symbol (`PriceBoardJson.IndexOf` states
  that much), and the later operations are not modelled on such a list.
- PriceBoardJson.Store.Pin: the `findIndex` fallback for a symbol missing
  from the index is modelled, but with a matching index it never finds
  anything.
- `originalIndex` in the ledger is stored and never read, as in the source.
- Values.PercentRounding: `r` is exact rational rounding of
  `ch / o * 100` to hundredths, half away from zero. JavaScript's
  floating-point `toFixed(2)` can round a tie the other way, and floating
  point is not modelled.
- `c` is read as `newRow.c`; when `c` is a JSON `null`, JavaScript coerces it
  to 0 in `c - o`, while the model treats it as missing and yields NaN.
- Integers are unbounded. The source's double-precision numbers lose
  precision above 2^53, which is not modelled.
- Writes through an out-of-range index (`rowDataRef.current[pos] = …` with
  `pos` past the end) cannot happen under the invariant, so they are not
  modelled.
- Rows are treated as values. Shared references between the list, the
  ledger and the rows above the grid are not modelled, because every write
  in the source replaces a row object rather than mutating one the others
  share. The exception is `meta.row = newRow`, which the model treats as a
  ledger update.
- `PingRenderer`, the pin column and the component markup are out of scope.
