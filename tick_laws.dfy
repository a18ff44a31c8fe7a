/**
 * What one tick of the generator guarantees about the row it returns: what
 * stays, how each perturbed field moves, which keys `_changes` records, and
 * that a well-formed row stays well formed.
 */
module TickLaws {
  import opened Wrappers
  import opened Values
  import opened Rows
  import opened Tick

  /** The fields the stages after the top-field loop write. */
  const DerivedFields: set<string> := {"c", "ch", "r", "vo", "va"}

  lemma TopFieldsDistinct()
    ensures forall i, j :: 0 <= i < j < |TopPriceFields| ==> TopPriceFields[i] != TopPriceFields[j]
    ensures forall f :: f in TopPriceFields ==> |f| <= 3 && f !in DerivedFields && f != "o"
  {
  }

  /** The top-field loop over the first |fs| fields touches those fields and their records only. */
  lemma {:induction false} StepTopFieldsFrame(dr: Draft, fs: seq<string>, ds: seq<FieldDraw>)
    requires |fs| <= |ds| && forall i :: 0 <= i < |ds| ==> Unit(ds[i].size)
    ensures var r := StepTopFields(dr, fs, ds);
      && r.row == dr.row.(num := r.row.num)
      && (forall k :: k !in fs ==> Field(r.row, k) == Field(dr.row, k))
      && (forall k :: k !in fs ==> (k in r.changes <==> k in dr.changes))
      && (forall k :: k !in fs && k in dr.changes ==> r.changes[k] == dr.changes[k])
    decreases |fs|
  {
    if |fs| > 0 {
      var n := |fs| - 1;
      StepTopFieldsFrame(dr, fs[..n], ds);
      assert forall k :: k !in fs ==> k !in fs[..n] && k != fs[n];
    }
  }

  /**
   * The top-field loop over distinct names: field j ends up stepped and
   * recorded exactly when its draw hits, and is left alone otherwise.
   */
  lemma {:induction false} StepTopFieldsAt(dr: Draft, fs: seq<string>, ds: seq<FieldDraw>, j: nat)
    requires |fs| <= |ds| && forall i :: 0 <= i < |ds| ==> Unit(ds[i].size)
    requires forall a, b :: 0 <= a < b < |fs| ==> fs[a] != fs[b]
    requires j < |fs|
    ensures var r := StepTopFields(dr, fs, ds);
      var base := OrZero(Field(dr.row, fs[j]));
      var updated := ClampAdd(base, TopDelta(ds[j]));
      if ds[j].hit < TopHit then
        Field(r.row, fs[j]) == updated && fs[j] in r.changes && r.changes[fs[j]] == Direction(base, updated)
      else
        Field(r.row, fs[j]) == Field(dr.row, fs[j]) && (fs[j] in r.changes <==> fs[j] in dr.changes)
    decreases |fs|
  {
    var n := |fs| - 1;
    var prefix := fs[..n];
    if j < n {
      assert forall a, b :: 0 <= a < b < |prefix| ==> prefix[a] != prefix[b];
      StepTopFieldsAt(dr, prefix, ds, j);
      assert prefix[j] == fs[j] && fs[j] != fs[n];
    } else {
      assert fs[n] !in prefix;
      StepTopFieldsFrame(dr, prefix, ds);
    }
  }

  /** One side of one iteration of the book loop steps level i of that side, when it exists. */
  lemma StepLevelEffect(dr: Draft, side: Side, i: nat, d: LevelDraw)
    requires i < 3 && Unit(d.volume)
    ensures var r := StepLevel(dr, side, i, d);
      && r.row == dr.row.(bb := r.row.bb, bo := r.row.bo)
      && (side == Bid ==> r.row.bo == dr.row.bo)
      && (side == Ask ==> r.row.bb == dr.row.bb)
      && Book(r.row, side) ==
           (if i < |Book(dr.row, side)| then Book(dr.row, side)[i := LevelAfter(Book(dr.row, side)[i], d)]
            else Book(dr.row, side))
      && r.changes == dr.changes + LevelChangesAt(dr.row, side, i, d)
  {
  }

  /** The book loop: levels below n step, the others stay, and the changes are `BookChanges`. */
  lemma {:induction false} StepBookEffect(dr: Draft, n: nat, bid: seq<LevelDraw>, ask: seq<LevelDraw>)
    requires n <= 3 && LevelDrawsOk(bid) && LevelDrawsOk(ask)
    ensures var r := StepBook(dr, n, bid, ask);
      && r.row == dr.row.(bb := r.row.bb, bo := r.row.bo)
      && |r.row.bb| == |dr.row.bb| && |r.row.bo| == |dr.row.bo|
      && (forall j :: 0 <= j < |dr.row.bb| ==>
            r.row.bb[j] == if j < n then LevelAfter(dr.row.bb[j], bid[j]) else dr.row.bb[j])
      && (forall j :: 0 <= j < |dr.row.bo| ==>
            r.row.bo[j] == if j < n then LevelAfter(dr.row.bo[j], ask[j]) else dr.row.bo[j])
      && r.changes == dr.changes + BookChanges(dr.row, n, bid, ask)
  {
    if n > 0 {
      var i := n - 1;
      StepBookEffect(dr, i, bid, ask);
      var prev := StepBook(dr, i, bid, ask);
      var afterBid := StepLevel(prev, Bid, i, bid[i]);
      var r := StepLevel(afterBid, Ask, i, ask[i]);
      StepLevelEffect(prev, Bid, i, bid[i]);
      StepLevelEffect(afterBid, Ask, i, ask[i]);
      assert i < |prev.row.bb| ==> prev.row.bb[i] == dr.row.bb[i];
      assert afterBid.row.bo == prev.row.bo;
      assert i < |afterBid.row.bo| ==> afterBid.row.bo[i] == dr.row.bo[i];
      LevelsStep(dr.row.bb, prev.row.bb, r.row.bb, i, bid);
      LevelsStep(dr.row.bo, afterBid.row.bo, r.row.bo, i, ask);
      var x := LevelChangesAt(dr.row, Bid, i, bid[i]);
      var y := LevelChangesAt(dr.row, Ask, i, ask[i]);
      assert LevelChangesAt(prev.row, Bid, i, bid[i]) == x;
      assert LevelChangesAt(afterBid.row, Ask, i, ask[i]) == y;
      MapUnionAssoc(dr.changes, BookChanges(dr.row, i, bid, ask), x, y, prev.changes, afterBid.changes, r.changes);
    }
  }

  /** One more level of one side has stepped. */
  lemma LevelsStep(orig: seq<Level>, prev: seq<Level>, next: seq<Level>, i: nat, ds: seq<LevelDraw>)
    requires i < 3 && LevelDrawsOk(ds)
    requires |prev| == |orig|
    requires forall j :: 0 <= j < |orig| ==> prev[j] == if j < i then LevelAfter(orig[j], ds[j]) else orig[j]
    requires next == if i < |prev| then prev[i := LevelAfter(prev[i], ds[i])] else prev
    ensures |next| == |orig|
    ensures forall j :: 0 <= j < |orig| ==> next[j] == if j < i + 1 then LevelAfter(orig[j], ds[j]) else orig[j]
  {
  }

  lemma MapUnionAssoc(a: map<string, Dir>, b: map<string, Dir>, x: map<string, Dir>, y: map<string, Dir>,
                      p: map<string, Dir>, q: map<string, Dir>, r: map<string, Dir>)
    requires p == a + b && q == p + x && r == q + y
    ensures r == a + (b + x + y)
  {
  }

  /** Every key the book loop records is a seven-character book-cell key. */
  lemma {:induction false} BookChangesKeys(row: Row, n: nat, bid: seq<LevelDraw>, ask: seq<LevelDraw>)
    requires n <= 3 && LevelDrawsOk(bid) && LevelDrawsOk(ask)
    ensures forall k :: k in BookChanges(row, n, bid, ask) ==> |k| == 7
  {
    if n > 0 {
      var i := n - 1;
      BookChangesKeys(row, i, bid, ask);
      LevelChangesKeys(row, Bid, i, bid[i]);
      LevelChangesKeys(row, Ask, i, ask[i]);
    }
  }

  /** The keys one level records are its two cell keys. */
  lemma LevelChangesKeys(row: Row, side: Side, i: nat, d: LevelDraw)
    requires i < 3 && Unit(d.volume)
    ensures forall k :: k in LevelChangesAt(row, side, i, d) ==> k == LevelKey(side, i, Volume) || k == LevelKey(side, i, Price)
    ensures forall k :: k in LevelChangesAt(row, side, i, d) ==> |k| == 7
  {
    LevelKeyInjective(side, i, Volume, side, i, Price);
  }

  /**
   * The book loop records the key of cell (side, j, part) exactly when level
   * j exists, lies below n and its part was drawn, with the direction of
   * that part's move.
   */
  lemma {:induction false} BookChangesAt(row: Row, n: nat, bid: seq<LevelDraw>, ask: seq<LevelDraw>,
                                         side: Side, j: nat, part: LevelPart)
    requires n <= 3 && LevelDrawsOk(bid) && LevelDrawsOk(ask) && j < 3
    ensures var key := LevelKey(side, j, part);
      var m := BookChanges(row, n, bid, ask);
      (key in m <==> j < n && j < |Book(row, side)| && PartHit(SideDraws(side, bid, ask)[j], part))
      && (key in m ==>
            var l := Book(row, side)[j];
            m[key] == Direction(OrZero(PartOf(l, part)), PartOf(LevelAfter(l, SideDraws(side, bid, ask)[j]), part)))
  {
    if n > 0 {
      var i := n - 1;
      BookChangesAt(row, i, bid, ask, side, j, part);
      LevelChangesCell(row, Bid, i, bid[i], side, j, part);
      LevelChangesCell(row, Ask, i, ask[i], side, j, part);
    }
  }

  /** What one level's record says about the key of cell (side, j, part). */
  lemma LevelChangesCell(row: Row, at: Side, i: nat, d: LevelDraw, side: Side, j: nat, part: LevelPart)
    requires i < 3 && Unit(d.volume) && j < 3
    ensures var key := LevelKey(side, j, part);
      var m := LevelChangesAt(row, at, i, d);
      (key in m <==> at == side && i == j && j < |Book(row, side)| && PartHit(d, part))
      && (key in m ==>
            var l := Book(row, side)[j];
            m[key] == Direction(OrZero(PartOf(l, part)), PartOf(LevelAfter(l, d), part)))
  {
    LevelKeyInjective(side, j, part, at, i, Volume);
    LevelKeyInjective(side, j, part, at, i, Price);
  }

  /** The `c` block touches `c` only. */
  lemma LastPriceKeeps(dr: Draft, d: PriceDraw, k: string)
    requires k != "c"
    ensures var r := StepLastPrice(dr, d);
      && r.row == dr.row.(num := r.row.num)
      && Field(r.row, k) == Field(dr.row, k)
      && (k in r.changes <==> k in dr.changes)
      && (k in dr.changes ==> r.changes[k] == dr.changes[k])
  {
  }

  /** The `ch, r` block touches `ch` and `r` only. */
  lemma DerivedKeeps(dr: Draft, k: string)
    requires k != "ch" && k != "r"
    ensures var r := StepDerived(dr);
      && r.row == dr.row.(num := r.row.num)
      && Field(r.row, k) == Field(dr.row, k)
      && (k in r.changes <==> k in dr.changes)
      && (k in dr.changes ==> r.changes[k] == dr.changes[k])
  {
  }

  /** The `vol/va` block touches `vo` and `va` only. */
  lemma VolumeKeeps(dr: Draft, x: real, k: string)
    requires Unit(x) && k != "vo" && k != "va"
    ensures var r := StepVolume(dr, x);
      && r.row == dr.row.(num := r.row.num)
      && Field(r.row, k) == Field(dr.row, k)
      && (k in r.changes <==> k in dr.changes)
      && (k in dr.changes ==> r.changes[k] == dr.changes[k])
  {
  }

  /** The book loop leaves every number and every record of a non-book key alone. */
  lemma BookKeepsShortKeys(dr: Draft, bid: seq<LevelDraw>, ask: seq<LevelDraw>, k: string)
    requires LevelDrawsOk(bid) && LevelDrawsOk(ask) && |k| != 7
    ensures var r := StepBook(dr, 3, bid, ask);
      && r.row.num == dr.row.num
      && (k in r.changes <==> k in dr.changes)
      && (k in dr.changes ==> r.changes[k] == dr.changes[k])
  {
    StepBookEffect(dr, 3, bid, ask);
    BookChangesKeys(dr.row, 3, bid, ask);
  }

  /**
   * The stages after the top-field loop leave every other field alone, and
   * the record of every other non-book key too.
   */
  lemma LaterStagesKeep(d1: Draft, draws: Draws, k: string)
    requires DrawsOk(draws) && k !in DerivedFields
    ensures var r := LaterStages(d1, draws);
      && Field(r.row, k) == Field(d1.row, k)
      && (|k| != 7 ==> (k in r.changes <==> k in d1.changes))
      && (|k| != 7 && k in d1.changes ==> r.changes[k] == d1.changes[k])
  {
    var d2 := StepLastPrice(d1, draws.price);
    var d3 := StepDerived(d2);
    var d4 := StepVolume(d3, draws.addVolume);
    LastPriceKeeps(d1, draws.price, k);
    DerivedKeeps(d2, k);
    VolumeKeeps(d3, draws.addVolume, k);
    StepBookEffect(d4, 3, draws.bid, draws.ask);
    if |k| != 7 {
      BookKeepsShortKeys(d4, draws.bid, draws.ask, k);
    }
  }

  /** The stages after the top-field loop change numbers and the first three levels only. */
  lemma LaterStagesFrame(d1: Draft, draws: Draws)
    requires DrawsOk(draws)
    ensures var r := LaterStages(d1, draws);
      && r.row == d1.row.(num := r.row.num, bb := r.row.bb, bo := r.row.bo)
      && |r.row.bb| == |d1.row.bb| && |r.row.bo| == |d1.row.bo|
      && (forall j :: 3 <= j < |d1.row.bb| ==> r.row.bb[j] == d1.row.bb[j])
      && (forall j :: 3 <= j < |d1.row.bo| ==> r.row.bo[j] == d1.row.bo[j])
  {
    var d2 := StepLastPrice(d1, draws.price);
    var d3 := StepDerived(d2);
    var d4 := StepVolume(d3, draws.addVolume);
    LastPriceKeeps(d1, draws.price, "o");
    DerivedKeeps(d2, "o");
    VolumeKeeps(d3, draws.addVolume, "o");
    StepBookEffect(d4, 3, draws.bid, draws.ask);
  }

  /** The top-field loop of a tick touches the five top fields and their records only. */
  lemma TopStageFrame(oldRow: Row, draws: Draws)
    requires DrawsOk(draws)
    ensures var d1 := TopStage(oldRow, draws);
      && d1.row == oldRow.(num := d1.row.num)
      && (forall k :: k !in TopPriceFields ==> Field(d1.row, k) == Field(oldRow, k) && k !in d1.changes)
  {
    StepTopFieldsFrame(Draft(oldRow, map[]), TopPriceFields, draws.top);
  }

  /** One field outside the top five, its record and the book survive the top-field loop. */
  lemma TopStageKeeps(oldRow: Row, draws: Draws, k: string)
    requires DrawsOk(draws) && k !in TopPriceFields
    ensures var d1 := TopStage(oldRow, draws);
      && Field(d1.row, k) == Field(oldRow, k) && k !in d1.changes
      && d1.row.bb == oldRow.bb && d1.row.bo == oldRow.bo
  {
    TopStageFrame(oldRow, draws);
  }

  /** The draft of a tick differs from the old row only in numbers and levels. */
  lemma TickDraftFrame(oldRow: Row, draws: Draws)
    requires DrawsOk(draws)
    ensures var dr := TickDraft(oldRow, draws);
      && dr.row == oldRow.(num := dr.row.num, bb := dr.row.bb, bo := dr.row.bo)
      && (forall k :: k !in TopPriceFields && k !in DerivedFields ==> Field(dr.row, k) == Field(oldRow, k))
      && |dr.row.bb| == |oldRow.bb| && |dr.row.bo| == |oldRow.bo|
      && (forall j :: 3 <= j < |oldRow.bb| ==> dr.row.bb[j] == oldRow.bb[j])
      && (forall j :: 3 <= j < |oldRow.bo| ==> dr.row.bo[j] == oldRow.bo[j])
  {
    var d1 := TopStage(oldRow, draws);
    TopStageFrame(oldRow, draws);
    LaterStagesFrame(d1, draws);
    forall k | k !in TopPriceFields && k !in DerivedFields
      ensures Field(TickDraft(oldRow, draws).row, k) == Field(oldRow, k)
    {
      LaterStagesKeep(d1, draws, k);
    }
  }

  /**
   * The identity of a row survives a tick: the symbol, the open price `o`,
   * `__initIndex`, the book lengths, levels from the fourth on and every
   * field the generator does not perturb. `_lastUpdate` is the clock,
   * `_changes` holds this tick's changes and `_dir` merges them.
   */
  lemma UpdateKeepsIdentity(oldRow: Row, draws: Draws, now: int)
    requires DrawsOk(draws)
    ensures var r := UpdatedRow(oldRow, draws, now);
      var changes := TickDraft(oldRow, draws).changes;
      && r.s == oldRow.s && r.initIndex == oldRow.initIndex
      && Field(r, "o") == Field(oldRow, "o")
      && (forall k :: k !in TopPriceFields && k !in DerivedFields ==> Field(r, k) == Field(oldRow, k))
      && |r.bb| == |oldRow.bb| && |r.bo| == |oldRow.bo|
      && (forall j :: 3 <= j < |oldRow.bb| ==> r.bb[j] == oldRow.bb[j])
      && (forall j :: 3 <= j < |oldRow.bo| ==> r.bo[j] == oldRow.bo[j])
      && r.num == TickDraft(oldRow, draws).row.num
      && r.bb == TickDraft(oldRow, draws).row.bb && r.bo == TickDraft(oldRow, draws).row.bo
      && r.lastUpdate == Some(now)
      && r.changes == Some(changes)
      && r.dir == MergeDirections(oldRow.dir, changes)
  {
    TickDraftFrame(oldRow, draws);
    OpenPriceKept(oldRow, draws);
    var dr := TickDraft(oldRow, draws);
    var r := UpdatedRow(oldRow, draws, now);
    assert r.num == dr.row.num && r.bb == dr.row.bb && r.bo == dr.row.bo;
  }

  /**
   * A top-level field (`h`, `fl`, `ce`, `odH`, `odL`) moves by its signed
   * step of 10, 20 or 30, clamped at zero, exactly when its draw hits, and
   * then its direction is recorded; otherwise it and its record stay.
   */
  lemma TickTopField(oldRow: Row, draws: Draws, j: nat)
    requires DrawsOk(draws) && j < |TopPriceFields|
    ensures var r := TickDraft(oldRow, draws);
      var f := TopPriceFields[j];
      var d := draws.top[j];
      var base := OrZero(Field(oldRow, f));
      var updated := ClampAdd(base, TopDelta(d));
      && (d.hit < TopHit ==>
            Field(r.row, f) == updated && f in r.changes && r.changes[f] == Direction(base, updated))
      && (d.hit >= TopHit ==> Field(r.row, f) == Field(oldRow, f) && f !in r.changes)
      && (d.hit < TopHit && Field(oldRow, f) != NaN ==> Field(r.row, f).Val? && Field(r.row, f).v >= 0)
  {
    TopFieldsDistinct();
    var f := TopPriceFields[j];
    StepTopFieldsAt(Draft(oldRow, map[]), TopPriceFields, draws.top, j);
    LaterStagesKeep(TopStage(oldRow, draws), draws, f);
  }

  /**
   * The last price `c` moves by a tick in {-10, 0, 10} plus a jump in
   * {-50, 0, 50}, clamped at zero, when its draw hits, and keeps its value
   * and records nothing otherwise.
   */
  lemma TickLastPrice(oldRow: Row, draws: Draws)
    requires DrawsOk(draws)
    ensures var r := TickDraft(oldRow, draws);
      var oldC := OrZero(Field(oldRow, "c"));
      var updatedC := ClampAdd(oldC, PriceTick(draws.price) + PriceJump(draws.price));
      && (draws.price.hit < PriceHit ==>
            Field(r.row, "c") == updatedC && "c" in r.changes && r.changes["c"] == Direction(oldC, updatedC))
      && (draws.price.hit >= PriceHit ==> Field(r.row, "c") == Field(oldRow, "c") && "c" !in r.changes)
      && (draws.price.hit < PriceHit && Field(oldRow, "c") != NaN ==> Field(r.row, "c").Val? && Field(r.row, "c").v >= 0)
  {
    TopStageKeeps(oldRow, draws, "c");
    TailLastPrice(TopStage(oldRow, draws), draws);
  }

  /** The stages from `c` on: `c` is written by its own block and kept by the rest. */
  lemma TailLastPrice(d1: Draft, draws: Draws)
    requires DrawsOk(draws)
    ensures var r := LaterStages(d1, draws);
      var oldC := OrZero(Field(d1.row, "c"));
      var updatedC := ClampAdd(oldC, PriceTick(draws.price) + PriceJump(draws.price));
      && (draws.price.hit < PriceHit ==>
            Field(r.row, "c") == updatedC && "c" in r.changes && r.changes["c"] == Direction(oldC, updatedC))
      && (draws.price.hit >= PriceHit ==>
            Field(r.row, "c") == Field(d1.row, "c") && ("c" in r.changes <==> "c" in d1.changes))
  {
    var d2 := StepLastPrice(d1, draws.price);
    var d3 := StepDerived(d2);
    var d4 := StepVolume(d3, draws.addVolume);
    DerivedKeeps(d2, "c");
    VolumeKeeps(d3, draws.addVolume, "c");
    BookKeepsShortKeys(d4, draws.bid, draws.ask, "c");
  }

  /**
   * `ch` is `c - (o ?? 0)` of the new `c`; `r` is 0 when `o` is 0 or
   * missing, NaN when `o` is truthy and `c` is not a number, and otherwise
   * `ch / o` as a percentage in hundredths, rounded. Both are recorded on
   * every tick, each with its direction from the old value (`?? 0`).
   */
  lemma TickDerived(oldRow: Row, draws: Draws)
    requires DrawsOk(draws)
    ensures var r := TickDraft(oldRow, draws);
      var o := Field(oldRow, "o");
      var c := Field(r.row, "c");
      && Field(r.row, "ch") == Sub(c, OrZero(o))
      && (!Truthy(o) ==> Field(r.row, "r") == Val(0))
      && (Truthy(o) && c.Val? ==> Field(r.row, "r") == Val(PercentHundredths(c.v - o.v, o.v)))
      && (Truthy(o) && !c.Val? ==> Field(r.row, "r") == NaN)
      && "ch" in r.changes && "r" in r.changes
      && r.changes["ch"] == Direction(OrZero(Field(oldRow, "ch")), Field(r.row, "ch"))
      && r.changes["r"] == Direction(OrZero(Field(oldRow, "r")), Field(r.row, "r"))
  {
    DerivedValues(oldRow, draws);
    DerivedRecords(oldRow, draws);
  }

  /** The values of `ch` and `r` after a whole tick. */
  lemma DerivedValues(oldRow: Row, draws: Draws)
    requires DrawsOk(draws)
    ensures var r := TickDraft(oldRow, draws);
      var o := Field(oldRow, "o");
      var c := Field(r.row, "c");
      && Field(r.row, "ch") == Sub(c, OrZero(o))
      && (!Truthy(o) ==> Field(r.row, "r") == Val(0))
      && (Truthy(o) && c.Val? ==> Field(r.row, "r") == Val(PercentHundredths(c.v - o.v, o.v)))
      && (Truthy(o) && !c.Val? ==> Field(r.row, "r") == NaN)
  {
    TopStageKeeps(oldRow, draws, "o");
    TailDerived(TopStage(oldRow, draws), draws);
  }

  /** The records of `ch` and `r` after a whole tick. */
  lemma DerivedRecords(oldRow: Row, draws: Draws)
    requires DrawsOk(draws)
    ensures var r := TickDraft(oldRow, draws);
      && "ch" in r.changes && "r" in r.changes
      && r.changes["ch"] == Direction(OrZero(Field(oldRow, "ch")), Field(r.row, "ch"))
      && r.changes["r"] == Direction(OrZero(Field(oldRow, "r")), Field(r.row, "r"))
  {
    var d1 := TopStage(oldRow, draws);
    assert TickDraft(oldRow, draws) == LaterStages(d1, draws);
    TopStageKeeps(oldRow, draws, "ch");
    TopStageKeeps(oldRow, draws, "r");
    TailDerivedRecords(d1, draws);
  }

  /** The stages from `c` on: `ch` and `r` are written by their block and kept by the rest. */
  lemma TailDerived(d1: Draft, draws: Draws)
    requires DrawsOk(draws)
    ensures var r := LaterStages(d1, draws);
      var o := Field(d1.row, "o");
      var c := Field(r.row, "c");
      && Field(r.row, "ch") == Sub(c, OrZero(o))
      && (!Truthy(o) ==> Field(r.row, "r") == Val(0))
      && (Truthy(o) && c.Val? ==> Field(r.row, "r") == Val(PercentHundredths(c.v - o.v, o.v)))
      && (Truthy(o) && !c.Val? ==> Field(r.row, "r") == NaN)
      && "ch" in r.changes && "r" in r.changes
  {
    var d2 := StepLastPrice(d1, draws.price);
    var d3 := StepDerived(d2);
    LastPriceKeeps(d1, draws.price, "o");
    DerivedBlock(d2);
    AfterDerivedKeeps(d3, draws, "c");
    AfterDerivedKeeps(d3, draws, "ch");
    AfterDerivedKeeps(d3, draws, "r");
  }

  /** The stages from `c` on record `ch` and `r` with their directions from the old values. */
  lemma TailDerivedRecords(d1: Draft, draws: Draws)
    requires DrawsOk(draws)
    ensures var r := LaterStages(d1, draws);
      && "ch" in r.changes && "r" in r.changes
      && r.changes["ch"] == Direction(OrZero(Field(d1.row, "ch")), Field(r.row, "ch"))
      && r.changes["r"] == Direction(OrZero(Field(d1.row, "r")), Field(r.row, "r"))
  {
    var d2 := StepLastPrice(d1, draws.price);
    var d3 := StepDerived(d2);
    LastPriceKeeps(d1, draws.price, "ch");
    LastPriceKeeps(d1, draws.price, "r");
    DerivedBlock(d2);
    AfterDerivedKeeps(d3, draws, "ch");
    AfterDerivedKeeps(d3, draws, "r");
  }

  /** The volume block and the book loop keep a short key outside `vo` and `va`, and its record. */
  lemma AfterDerivedKeeps(d3: Draft, draws: Draws, k: string)
    requires DrawsOk(draws) && k != "vo" && k != "va" && |k| != 7
    ensures var r := StepBook(StepVolume(d3, draws.addVolume), 3, draws.bid, draws.ask);
      && Field(r.row, k) == Field(d3.row, k)
      && (k in r.changes <==> k in d3.changes)
      && (k in d3.changes ==> r.changes[k] == d3.changes[k])
  {
    var d4 := StepVolume(d3, draws.addVolume);
    VolumeKeeps(d3, draws.addVolume, k);
    BookKeepsShortKeys(d4, draws.bid, draws.ask, k);
  }

  /** The `ch, r` block: both fields computed and recorded, `c` and `o` kept. */
  lemma DerivedBlock(dr: Draft)
    ensures var r := StepDerived(dr);
      var o := Field(dr.row, "o");
      var c := Field(dr.row, "c");
      && Field(r.row, "c") == c && Field(r.row, "o") == o
      && Field(r.row, "ch") == Sub(c, OrZero(o))
      && (!Truthy(o) ==> Field(r.row, "r") == Val(0))
      && (Truthy(o) && c.Val? ==> Field(r.row, "r") == Val(PercentHundredths(c.v - o.v, o.v)))
      && (Truthy(o) && !c.Val? ==> Field(r.row, "r") == NaN)
      && "ch" in r.changes && "r" in r.changes
      && r.changes["ch"] == Direction(OrZero(Field(dr.row, "ch")), Field(r.row, "ch"))
      && r.changes["r"] == Direction(OrZero(Field(dr.row, "r")), Field(r.row, "r"))
  {
  }

  /**
   * The day volume never decreases: `vo` grows by fewer than 5000 units,
   * and the turnover `va` grows by that amount times the new `c`. Both are
   * recorded with the direction from the raw old value, so a missing `vo`
   * or `va` records neutral.
   */
  lemma TickVolume(oldRow: Row, draws: Draws)
    requires DrawsOk(draws)
    ensures var r := TickDraft(oldRow, draws);
      var vo := OrZero(Field(oldRow, "vo"));
      var added := AddVolume(draws.addVolume);
      && Field(r.row, "vo") == Add(vo, Val(added))
      && (vo.Val? ==> Field(r.row, "vo").Val? && vo.v <= Field(r.row, "vo").v < vo.v + 5000)
      && Field(r.row, "va") == Add(OrZero(Field(oldRow, "va")), Scale(OrZero(Field(r.row, "c")), added))
      && "vo" in r.changes && "va" in r.changes
      && r.changes["vo"] == Direction(Field(oldRow, "vo"), Field(r.row, "vo"))
      && r.changes["va"] == Direction(Field(oldRow, "va"), Field(r.row, "va"))
  {
    TopStageKeeps(oldRow, draws, "vo");
    TopStageKeeps(oldRow, draws, "va");
    TailVolume(TopStage(oldRow, draws), draws);
  }

  /** The stages from `c` on: `vo` and `va` are written by their block and kept by the rest. */
  lemma TailVolume(d1: Draft, draws: Draws)
    requires DrawsOk(draws)
    ensures var r := LaterStages(d1, draws);
      var added := AddVolume(draws.addVolume);
      && Field(r.row, "vo") == Add(OrZero(Field(d1.row, "vo")), Val(added))
      && Field(r.row, "va") == Add(OrZero(Field(d1.row, "va")), Scale(OrZero(Field(r.row, "c")), added))
      && "vo" in r.changes && "va" in r.changes
      && r.changes["vo"] == Direction(Field(d1.row, "vo"), Field(r.row, "vo"))
      && r.changes["va"] == Direction(Field(d1.row, "va"), Field(r.row, "va"))
  {
    var d2 := StepLastPrice(d1, draws.price);
    var d3 := StepDerived(d2);
    var d4 := StepVolume(d3, draws.addVolume);
    LastPriceKeeps(d1, draws.price, "vo");
    LastPriceKeeps(d1, draws.price, "va");
    DerivedKeeps(d2, "vo");
    DerivedKeeps(d2, "va");
    DerivedKeeps(d2, "c");
    VolumeBlock(d3, draws.addVolume);
    BookKeepsShortKeys(d4, draws.bid, draws.ask, "vo");
    BookKeepsShortKeys(d4, draws.bid, draws.ask, "va");
  }

  /** The `vol/va` block: both fields grown and recorded, `c` kept. */
  lemma VolumeBlock(dr: Draft, x: real)
    requires Unit(x)
    ensures var r := StepVolume(dr, x);
      var added := AddVolume(x);
      && Field(r.row, "c") == Field(dr.row, "c")
      && Field(r.row, "vo") == Add(OrZero(Field(dr.row, "vo")), Val(added))
      && Field(r.row, "va") == Add(OrZero(Field(dr.row, "va")), Scale(OrZero(Field(dr.row, "c")), added))
      && "vo" in r.changes && "va" in r.changes
      && r.changes["vo"] == Direction(Field(dr.row, "vo"), Field(r.row, "vo"))
      && r.changes["va"] == Direction(Field(dr.row, "va"), Field(r.row, "va"))
  {
  }

  /**
   * Each of the first three levels of each side steps as drawn, each part
   * clamped at zero; `_changes` records the key of a book cell exactly when
   * that level exists and that part was drawn.
   */
  lemma TickBookCell(oldRow: Row, draws: Draws, side: Side, j: nat, part: LevelPart)
    requires DrawsOk(draws) && j < 3
    ensures var r := TickDraft(oldRow, draws);
      var d := SideDraws(side, draws.bid, draws.ask)[j];
      var key := LevelKey(side, j, part);
      && |Book(r.row, side)| == |Book(oldRow, side)|
      && (j < |Book(oldRow, side)| ==> Book(r.row, side)[j] == LevelAfter(Book(oldRow, side)[j], d))
      && (key in r.changes <==> j < |Book(oldRow, side)| && PartHit(d, part))
      && (key in r.changes ==>
            var l := Book(oldRow, side)[j];
            r.changes[key] == Direction(OrZero(PartOf(l, part)), PartOf(LevelAfter(l, d), part)))
  {
    TopFieldsAreNotLevelKeys(side, j, part);
    TopStageKeeps(oldRow, draws, LevelKey(side, j, part));
    TailBook(TopStage(oldRow, draws), draws, side, j, part);
  }

  /** The stages from `c` on: the book loop alone moves the levels and records their keys. */
  lemma TailBook(d1: Draft, draws: Draws, side: Side, j: nat, part: LevelPart)
    requires DrawsOk(draws) && j < 3 && LevelKey(side, j, part) !in d1.changes
    ensures var r := LaterStages(d1, draws);
      var d := SideDraws(side, draws.bid, draws.ask)[j];
      var key := LevelKey(side, j, part);
      var book := Book(d1.row, side);
      && |Book(r.row, side)| == |book|
      && (j < |book| ==> Book(r.row, side)[j] == LevelAfter(book[j], d))
      && (key in r.changes <==> j < |book| && PartHit(d, part))
      && (key in r.changes ==> r.changes[key] == Direction(OrZero(PartOf(book[j], part)), PartOf(LevelAfter(book[j], d), part)))
  {
    var key := LevelKey(side, j, part);
    TopFieldsAreNotLevelKeys(side, j, part);
    var d2 := StepLastPrice(d1, draws.price);
    var d3 := StepDerived(d2);
    var d4 := StepVolume(d3, draws.addVolume);
    LastPriceKeeps(d1, draws.price, key);
    DerivedKeeps(d2, key);
    VolumeKeeps(d3, draws.addVolume, key);
    assert Book(d4.row, side) == Book(d1.row, side);
    StepBookEffect(d4, 3, draws.bid, draws.ask);
    BookChangesAt(d4.row, 3, draws.bid, draws.ask, side, j, part);
  }

  /** A stepped part of a level is a non-negative number, when it was not NaN before. */
  lemma LevelAfterClamped(l: Level, d: LevelDraw)
    requires Unit(d.volume) && l.p != NaN && l.v != NaN
    ensures var r := LevelAfter(l, d);
      && r.p != NaN && r.v != NaN
      && (PartHit(d, Price) ==> r.p.Val? && r.p.v >= 0)
      && (PartHit(d, Volume) ==> r.v.Val? && r.v.v >= 0)
      && (!PartHit(d, Price) ==> r.p == l.p)
      && (!PartHit(d, Volume) ==> r.v == l.v)
  {
  }

  /** A tick never introduces NaN into a clamped field, a volume or a book level. */
  lemma TickPreservesWellFormed(oldRow: Row, draws: Draws)
    requires DrawsOk(draws) && WellFormed(oldRow)
    ensures WellFormed(TickDraft(oldRow, draws).row)
  {
    TopFieldsNotNaN(oldRow, draws);
    ScalarsNotNaN(oldRow, draws);
    BookNotNaN(oldRow, draws, Bid);
    BookNotNaN(oldRow, draws, Ask);
  }

  /** `c`, `o`, `vo` and `va` stay numbers or missing through a tick. */
  lemma ScalarsNotNaN(oldRow: Row, draws: Draws)
    requires DrawsOk(draws)
    requires Field(oldRow, "c") != NaN && Field(oldRow, "o") != NaN
    requires Field(oldRow, "vo") != NaN && Field(oldRow, "va") != NaN
    ensures var r := TickDraft(oldRow, draws).row;
      && Field(r, "c") != NaN && Field(r, "o") != NaN
      && Field(r, "vo") != NaN && Field(r, "va") != NaN
  {
    TickLastPrice(oldRow, draws);
    TickVolume(oldRow, draws);
    OpenPriceKept(oldRow, draws);
  }

  lemma TopFieldsNotNaN(oldRow: Row, draws: Draws)
    requires DrawsOk(draws) && WellFormed(oldRow)
    ensures forall f :: f in TopPriceFields ==> Field(TickDraft(oldRow, draws).row, f) != NaN
  {
    forall f | f in TopPriceFields
      ensures Field(TickDraft(oldRow, draws).row, f) != NaN
    {
      var j :| 0 <= j < |TopPriceFields| && TopPriceFields[j] == f;
      TickTopField(oldRow, draws, j);
    }
  }

  /** The open price `o` survives a tick. */
  lemma OpenPriceKept(oldRow: Row, draws: Draws)
    requires DrawsOk(draws)
    ensures Field(TickDraft(oldRow, draws).row, "o") == Field(oldRow, "o")
  {
    TopStageKeeps(oldRow, draws, "o");
    LaterStagesKeep(TopStage(oldRow, draws), draws, "o");
  }

  lemma BookNotNaN(oldRow: Row, draws: Draws, side: Side)
    requires DrawsOk(draws) && WellFormed(oldRow)
    ensures forall l :: l in Book(TickDraft(oldRow, draws).row, side) ==> l.p != NaN && l.v != NaN
  {
    var r := TickDraft(oldRow, draws).row;
    TickDraftFrame(oldRow, draws);
    forall l | l in Book(r, side)
      ensures l.p != NaN && l.v != NaN
    {
      var j :| 0 <= j < |Book(r, side)| && Book(r, side)[j] == l;
      assert Book(oldRow, side)[j] in Book(oldRow, side);
      if j < 3 {
        TickBookCell(oldRow, draws, side, j, Price);
        LevelAfterClamped(Book(oldRow, side)[j], SideDraws(side, draws.bid, draws.ask)[j]);
      }
    }
  }

  /** The same for the row the generator returns. */
  lemma UpdatePreservesWellFormed(oldRow: Row, draws: Draws, now: int)
    requires DrawsOk(draws) && WellFormed(oldRow)
    ensures WellFormed(UpdatedRow(oldRow, draws, now))
  {
    TickPreservesWellFormed(oldRow, draws);
    UpdateKeepsIdentity(oldRow, draws, now);
  }

  /** Merging the same changes twice is merging them once. */
  lemma MergeIdempotent(oldDir: map<string, Dir>, changes: map<string, Dir>)
    ensures MergeDirections(MergeDirections(oldDir, changes), changes) == MergeDirections(oldDir, changes)
  {
  }

  /** A tick whose changes are all neutral leaves the stored directions as they were. */
  lemma MergeAllNeutral(oldDir: map<string, Dir>, changes: map<string, Dir>)
    requires forall k :: k in changes ==> changes[k] == Neutral
    ensures MergeDirections(oldDir, changes) == oldDir
  {
  }

  /** The merge never loses a stored key. */
  lemma MergeKeepsKeys(oldDir: map<string, Dir>, changes: map<string, Dir>)
    ensures oldDir.Keys <= MergeDirections(oldDir, changes).Keys
  {
  }
}
