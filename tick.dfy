/**
 * The update generator: `makeRandomUpdate` of the JSON price board, whose
 * field logic the first price board's interval body repeats line for line.
 *
 * Every `Math.random()` call site becomes a named draw in [0, 1), and
 * `Date.now()` becomes `now`, so one tick is a function of the old row and
 * its draws. `UpdatedRow` specifies the tick stage by stage, following the
 * statement order of the source; `MakeRandomUpdate` performs it with the
 * source's loops and is proved equal to it.
 */
module Tick {
  import opened Wrappers
  import opened Values
  import opened Rows

  const TopHit: real := 0.25         // chance that h, fl, ce, odH, odL move
  const PriceHit: real := 0.9        // chance that c moves
  const TickThreshold: real := 0.6   // c takes a +-10 tick above this draw
  const JumpThreshold: real := 0.98  // c takes a +-50 jump above this draw
  const VolumeHit: real := 0.6       // chance that a book level's volume moves
  const LevelPriceHit: real := 0.2   // chance that a book level's price moves

  predicate Unit(x: real)
  {
    0.0 <= x < 1.0
  }

  /** `Math.floor(Math.random() * n)` for a draw in [0, 1): a position below n. */
  function PickIndex(pick: real, n: nat): (i: nat)
    requires Unit(pick) && n > 0
    ensures i < n
    ensures i as real <= pick * (n as real) < i as real + 1.0
  {
    assert 0.0 <= pick * (n as real) < n as real by {
      assert pick * (n as real) <= 1.0 * (n as real) - (1.0 - pick) * (n as real);
    }
    (pick * (n as real)).Floor
  }

  /** Draws for one top-level field: whether it moves, the sign, the size. */
  datatype FieldDraw = FieldDraw(hit: real, sign: real, size: real)
  /** Draws for the last price `c`. */
  datatype PriceDraw = PriceDraw(hit: real, tick: real, tickSign: real, jump: real, jumpSign: real)
  /** Draws for one book level. */
  datatype LevelDraw = LevelDraw(volumeHit: real, volume: real, priceHit: real, priceSign: real)
  /** All the draws of one tick: five top fields, `c`, the volume, three levels a side. */
  datatype Draws = Draws(top: seq<FieldDraw>, price: PriceDraw, addVolume: real, bid: seq<LevelDraw>, ask: seq<LevelDraw>)

  predicate LevelDrawsOk(ds: seq<LevelDraw>)
  {
    |ds| == 3 && forall i :: 0 <= i < 3 ==> Unit(ds[i].volume)
  }

  /** What `Math.random()` guarantees about the draws the tick uses. */
  predicate DrawsOk(d: Draws)
  {
    && |d.top| == |TopPriceFields|
    && (forall i :: 0 <= i < |d.top| ==> Unit(d.top[i].size))
    && Unit(d.addVolume)
    && LevelDrawsOk(d.bid) && LevelDrawsOk(d.ask)
  }

  /** The signed step of a top-level field: 10, 20 or 30 either way. */
  function TopDelta(d: FieldDraw): (delta: int)
    requires Unit(d.size)
    ensures delta == -30 || delta == -20 || delta == -10 || delta == 10 || delta == 20 || delta == 30
  {
    var size := (d.size * 3.0).Floor;
    assert 0 <= size <= 2;
    var step := 10 * (1 + size);
    if d.sign > 0.5 then step else -step
  }

  /** The small move of `c`: none, or one tick of 10 either way. */
  function PriceTick(d: PriceDraw): (t: int)
    ensures t == -10 || t == 0 || t == 10
    ensures t != 0 <==> d.tick > TickThreshold
  {
    if d.tick > TickThreshold then (if d.tickSign > 0.5 then 10 else -10) else 0
  }

  /** The rare jump of `c`: none, or 50 either way. */
  function PriceJump(d: PriceDraw): (j: int)
    ensures j == -50 || j == 0 || j == 50
    ensures j != 0 <==> d.jump > JumpThreshold
  {
    if d.jump > JumpThreshold then (if d.jumpSign > 0.5 then 50 else -50) else 0
  }

  /** `Math.floor((Math.random() - 0.5) * 3000)`, a book volume's step. */
  function VolumeStep(x: real): (delta: int)
    requires Unit(x)
    ensures -1500 <= delta < 1500
  {
    ((x - 0.5) * 3000.0).Floor
  }

  /** `Math.floor(Math.random() * 5000)`, the volume a tick adds. */
  function AddVolume(x: real): (a: int)
    requires Unit(x)
    ensures 0 <= a < 5000
  {
    (x * 5000.0).Floor
  }

  function LevelPriceStep(sign: real): (delta: int)
    ensures delta == -10 || delta == 10
  {
    if sign > 0.5 then 10 else -10
  }

  /** The row being built and the `changes` record so far. */
  datatype Draft = Draft(row: Row, changes: map<string, Dir>)

  /** One iteration of the `topPriceFields.forEach`. */
  function StepTopField(dr: Draft, f: string, d: FieldDraw): Draft
    requires Unit(d.size)
  {
    if d.hit < TopHit then
      var base := OrZero(Field(dr.row, f));
      var updated := ClampAdd(base, TopDelta(d));
      Draft(dr.row.(num := dr.row.num[f := updated]), dr.changes[f := Direction(base, updated)])
    else dr
  }

  /** The forEach over the first |fs| fields. */
  function StepTopFields(dr: Draft, fs: seq<string>, ds: seq<FieldDraw>): Draft
    requires |fs| <= |ds| && forall i :: 0 <= i < |ds| ==> Unit(ds[i].size)
    decreases |fs|
  {
    if |fs| == 0 then dr
    else
      var n := |fs| - 1;
      StepTopField(StepTopFields(dr, fs[..n], ds), fs[n], ds[n])
  }

  /** The `c` block: a tick plus a jump, clamped at zero. */
  function StepLastPrice(dr: Draft, d: PriceDraw): Draft
  {
    var oldC := OrZero(Field(dr.row, "c"));
    if d.hit < PriceHit then
      var updatedC := ClampAdd(oldC, PriceTick(d) + PriceJump(d));
      Draft(dr.row.(num := dr.row.num["c" := updatedC]), dr.changes["c" := Direction(oldC, updatedC)])
    else dr
  }

  /** `r` from the new `ch` when `o` is truthy, else 0; NaN stays NaN. */
  function PercentOf(ch: Num, o: int): Num
    requires o != 0
  {
    if ch.Val? then Val(PercentHundredths(ch.v, o)) else NaN
  }

  /** The `ch, r` block: both recomputed from `c` and `o`. */
  function StepDerived(dr: Draft): Draft
  {
    var o := Field(dr.row, "o");
    var computedCh := Sub(Field(dr.row, "c"), OrZero(o));
    var computedR := if Truthy(o) then PercentOf(computedCh, o.v) else Val(0);
    Draft(
      dr.row.(num := dr.row.num["ch" := computedCh]["r" := computedR]),
      dr.changes["ch" := Direction(OrZero(Field(dr.row, "ch")), computedCh)]
                ["r" := Direction(OrZero(Field(dr.row, "r")), computedR)])
  }

  /** The `vol/va` block: `vo` grows by `addVol`, `va` by `addVol * c`. */
  function StepVolume(dr: Draft, x: real): Draft
    requires Unit(x)
  {
    var add := AddVolume(x);
    var vo := Field(dr.row, "vo");
    var newVo := Add(OrZero(vo), Val(add));
    var va := Field(dr.row, "va");
    var newVa := Add(OrZero(va), Scale(OrZero(Field(dr.row, "c")), add));
    Draft(
      dr.row.(num := dr.row.num["vo" := newVo]["va" := newVa]),
      dr.changes["vo" := Direction(vo, newVo)]["va" := Direction(va, newVa)])
  }

  function PartHit(d: LevelDraw, part: LevelPart): bool
  {
    match part
    case Volume => d.volumeHit < VolumeHit
    case Price => d.priceHit < LevelPriceHit
  }

  /** A book level after its step: each part moved only when drawn. */
  function LevelAfter(l: Level, d: LevelDraw): (r: Level)
    requires Unit(d.volume)
  {
    Level(
      if PartHit(d, Price) then ClampAdd(OrZero(l.p), LevelPriceStep(d.priceSign)) else l.p,
      if PartHit(d, Volume) then ClampAdd(OrZero(l.v), VolumeStep(d.volume)) else l.v)
  }

  function PartChange(side: Side, i: nat, part: LevelPart, l: Level, d: LevelDraw): map<string, Dir>
    requires i < 3 && Unit(d.volume)
  {
    if PartHit(d, part) then
      map[LevelKey(side, i, part) := Direction(OrZero(PartOf(l, part)), PartOf(LevelAfter(l, d), part))]
    else map[]
  }

  /** The changes one level records: its volume key, then its price key. */
  function LevelChanges(side: Side, i: nat, l: Level, d: LevelDraw): map<string, Dir>
    requires i < 3 && Unit(d.volume)
  {
    PartChange(side, i, Volume, l, d) + PartChange(side, i, Price, l, d)
  }

  /** The changes level i of a side records, none when the side is shorter. */
  function LevelChangesAt(row: Row, side: Side, i: nat, d: LevelDraw): map<string, Dir>
    requires i < 3 && Unit(d.volume)
  {
    if i < |Book(row, side)| then LevelChanges(side, i, Book(row, side)[i], d) else map[]
  }

  function SideDraws(side: Side, bid: seq<LevelDraw>, ask: seq<LevelDraw>): seq<LevelDraw>
  {
    match side
    case Bid => bid
    case Ask => ask
  }

  /** One side of one iteration of the `for (i < 3)` loop. */
  function StepLevel(dr: Draft, side: Side, i: nat, d: LevelDraw): Draft
    requires i < 3 && Unit(d.volume)
  {
    var levels := Book(dr.row, side);
    if i < |levels| then
      Draft(WithLevel(dr.row, side, i, LevelAfter(levels[i], d)), dr.changes + LevelChanges(side, i, levels[i], d))
    else dr
  }

  /** The changes the first n iterations of the book loop record, read off the row before it. */
  function BookChanges(row: Row, n: nat, bid: seq<LevelDraw>, ask: seq<LevelDraw>): map<string, Dir>
    requires n <= 3 && LevelDrawsOk(bid) && LevelDrawsOk(ask)
  {
    if n == 0 then map[]
    else
      var i := n - 1;
      BookChanges(row, i, bid, ask) + LevelChangesAt(row, Bid, i, bid[i]) + LevelChangesAt(row, Ask, i, ask[i])
  }

  /** The first n iterations of the book loop: level i of the bids, then of the asks. */
  function StepBook(dr: Draft, n: nat, bid: seq<LevelDraw>, ask: seq<LevelDraw>): Draft
    requires n <= 3 && LevelDrawsOk(bid) && LevelDrawsOk(ask)
  {
    if n == 0 then dr
    else
      var i := n - 1;
      StepLevel(StepLevel(StepBook(dr, i, bid, ask), Bid, i, bid[i]), Ask, i, ask[i])
  }

  /**
   * `newDir`: the old `_dir` with every non-neutral change of this tick
   * written over it. A neutral change never erases a stored direction.
   */
  function MergeDirections(oldDir: map<string, Dir>, changes: map<string, Dir>): (d: map<string, Dir>)
    ensures forall k :: k in changes && changes[k] != Neutral ==> k in d && d[k] == changes[k]
    ensures forall k :: k in oldDir && !(k in changes && changes[k] != Neutral) ==> k in d && d[k] == oldDir[k]
    ensures forall k :: k in d ==> k in oldDir || (k in changes && changes[k] != Neutral)
  {
    map k | k in oldDir.Keys + changes.Keys && (k in oldDir || changes[k] != Neutral)
      :: if k in changes && changes[k] != Neutral then changes[k] else oldDir[k]
  }

  /** The first stage of a tick: the loop over the top-level fields. */
  function TopStage(oldRow: Row, draws: Draws): Draft
    requires DrawsOk(draws)
  {
    StepTopFields(Draft(oldRow, map[]), TopPriceFields, draws.top)
  }

  /** The stages after it: `c`, then `ch` and `r`, then `vo` and `va`, then the book loop. */
  function LaterStages(d1: Draft, draws: Draws): Draft
    requires DrawsOk(draws)
  {
    StepBook(StepVolume(StepDerived(StepLastPrice(d1, draws.price)), draws.addVolume), 3, draws.bid, draws.ask)
  }

  /** The draft after every field stage, before the directions are merged. */
  function TickDraft(oldRow: Row, draws: Draws): Draft
    requires DrawsOk(draws)
  {
    LaterStages(TopStage(oldRow, draws), draws)
  }

  /** The row `makeRandomUpdate(oldRow)` returns for the given draws and clock. */
  function UpdatedRow(oldRow: Row, draws: Draws, now: int): Row
    requires DrawsOk(draws)
  {
    var dr := TickDraft(oldRow, draws);
    dr.row.(dir := MergeDirections(oldRow.dir, dr.changes), changes := Some(dr.changes), lastUpdate := Some(now))
  }

  /**
   * `makeRandomUpdate`: works on a copy, perturbs the fields field by field
   * and level by level, then merges the directions key by key.
   */
  method MakeRandomUpdate(oldRow: Row, draws: Draws, now: int) returns (newRow: Row)
    requires DrawsOk(draws)
    ensures newRow == UpdatedRow(oldRow, draws, now)
  {
    var row, changes := PerturbTopFields(oldRow, draws.top);
    row, changes := PerturbLastPrice(row, changes, draws.price);
    row, changes := RecomputeDerived(row, changes);
    row, changes := AccumulateVolume(row, changes, draws.addVolume);
    row, changes := PerturbBook(row, changes, draws.bid, draws.ask);
    var newDir := MergeInto(oldRow.dir, changes);
    newRow := row.(dir := newDir, changes := Some(changes), lastUpdate := Some(now));
  }

  /** The `c` block of the generator. */
  method PerturbLastPrice(row0: Row, changes0: map<string, Dir>, d: PriceDraw)
    returns (row: Row, changes: map<string, Dir>)
    ensures Draft(row, changes) == StepLastPrice(Draft(row0, changes0), d)
  {
    row, changes := row0, changes0;
    var oldC := OrZero(Field(row, "c"));
    if d.hit < PriceHit {
      var updatedC := ClampAdd(oldC, PriceTick(d) + PriceJump(d));
      changes := changes["c" := Direction(oldC, updatedC)];
      row := row.(num := row.num["c" := updatedC]);
    }
  }

  /** The `ch, r` block of the generator. */
  method RecomputeDerived(row0: Row, changes0: map<string, Dir>)
    returns (row: Row, changes: map<string, Dir>)
    ensures Draft(row, changes) == StepDerived(Draft(row0, changes0))
  {
    row, changes := row0, changes0;
    var o := Field(row, "o");
    var computedCh := Sub(Field(row, "c"), OrZero(o));
    changes := changes["ch" := Direction(OrZero(Field(row, "ch")), computedCh)];
    row := row.(num := row.num["ch" := computedCh]);
    var computedR := if Truthy(o) then PercentOf(computedCh, o.v) else Val(0);
    assert Field(row, "r") == Field(row0, "r");
    changes := changes["r" := Direction(OrZero(Field(row, "r")), computedR)];
    row := row.(num := row.num["r" := computedR]);
  }

  /** The `vol/va` block of the generator. */
  method AccumulateVolume(row0: Row, changes0: map<string, Dir>, x: real)
    returns (row: Row, changes: map<string, Dir>)
    requires Unit(x)
    ensures Draft(row, changes) == StepVolume(Draft(row0, changes0), x)
  {
    row, changes := row0, changes0;
    var addVol := AddVolume(x);
    var vo := Field(row, "vo");
    changes := changes["vo" := Direction(vo, Add(OrZero(vo), Val(addVol)))];
    row := row.(num := row.num["vo" := Add(OrZero(vo), Val(addVol))]);
    var va := Field(row, "va");
    assert va == Field(row0, "va");
    assert Field(row, "c") == Field(row0, "c");
    var newVa := Add(OrZero(va), Scale(OrZero(Field(row, "c")), addVol));
    changes := changes["va" := Direction(va, newVa)];
    row := row.(num := row.num["va" := newVa]);
  }

  /** The `topPriceFields.forEach` of the generator. */
  method PerturbTopFields(oldRow: Row, ds: seq<FieldDraw>) returns (row: Row, changes: map<string, Dir>)
    requires |ds| == |TopPriceFields| && forall i :: 0 <= i < |ds| ==> Unit(ds[i].size)
    ensures Draft(row, changes) == StepTopFields(Draft(oldRow, map[]), TopPriceFields, ds)
  {
    row, changes := oldRow, map[];
    for k := 0 to |TopPriceFields|
      invariant Draft(row, changes) == StepTopFields(Draft(oldRow, map[]), TopPriceFields[..k], ds)
    {
      var f, d := TopPriceFields[k], ds[k];
      if d.hit < TopHit {
        var base := OrZero(Field(row, f));
        var updated := ClampAdd(base, TopDelta(d));
        changes := changes[f := Direction(base, updated)];
        row := row.(num := row.num[f := updated]);
      }
      assert TopPriceFields[..k + 1][..k] == TopPriceFields[..k];
    }
    assert TopPriceFields[..|TopPriceFields|] == TopPriceFields;
  }

  /** The `for (let i = 0; i < 3; i++)` loop over the bid and ask levels. */
  method PerturbBook(row0: Row, changes0: map<string, Dir>, bid: seq<LevelDraw>, ask: seq<LevelDraw>)
    returns (row: Row, changes: map<string, Dir>)
    requires LevelDrawsOk(bid) && LevelDrawsOk(ask)
    ensures Draft(row, changes) == StepBook(Draft(row0, changes0), 3, bid, ask)
  {
    row, changes := row0, changes0;
    for i := 0 to 3
      invariant Draft(row, changes) == StepBook(Draft(row0, changes0), i, bid, ask)
    {
      row, changes := PerturbLevel(row, changes, Bid, i, bid[i]);
      row, changes := PerturbLevel(row, changes, Ask, i, ask[i]);
    }
  }

  /**
   * One side's block inside the book loop: when level i exists, its volume
   * and then its price may move, each clamped at zero.
   */
  method PerturbLevel(row0: Row, changes0: map<string, Dir>, side: Side, i: nat, d: LevelDraw)
    returns (row: Row, changes: map<string, Dir>)
    requires i < 3 && Unit(d.volume)
    ensures Draft(row, changes) == StepLevel(Draft(row0, changes0), side, i, d)
  {
    row, changes := row0, changes0;
    var levels := Book(row, side);
    if i < |levels| {
      var level;
      level, changes := PerturbParts(levels[i], changes, side, i, d);
      row := WithLevel(row, side, i, level);
    }
  }

  /** The volume and price steps of one existing level, with their records. */
  method PerturbParts(level0: Level, changes0: map<string, Dir>, side: Side, i: nat, d: LevelDraw)
    returns (level: Level, changes: map<string, Dir>)
    requires i < 3 && Unit(d.volume)
    ensures level == LevelAfter(level0, d)
    ensures changes == changes0 + LevelChanges(side, i, level0, d)
  {
    level := level0;
    var c1 := changes0;
    if d.volumeHit < VolumeHit {
      var oldV := OrZero(level.v);
      var newV := ClampAdd(oldV, VolumeStep(d.volume));
      c1 := c1[LevelKey(side, i, Volume) := Direction(oldV, newV)];
      level := level.(v := newV);
    }
    assert c1 == changes0 + PartChange(side, i, Volume, level0, d);
    changes := c1;
    if d.priceHit < LevelPriceHit {
      var oldP := OrZero(level.p);
      var newP := ClampAdd(oldP, LevelPriceStep(d.priceSign));
      changes := changes[LevelKey(side, i, Price) := Direction(oldP, newP)];
      level := level.(p := newP);
    }
    assert changes == c1 + PartChange(side, i, Price, level0, d);
    MapUnionAssoc3(changes0, PartChange(side, i, Volume, level0, d), PartChange(side, i, Price, level0, d));
  }

  lemma MapUnionAssoc3(a: map<string, Dir>, b: map<string, Dir>, c: map<string, Dir>)
    ensures a + b + c == a + (b + c)
  {
  }

  /** `Object.keys(changes).forEach(...)`: write each non-neutral change over the old directions. */
  method MergeInto(oldDir: map<string, Dir>, changes: map<string, Dir>) returns (newDir: map<string, Dir>)
    ensures newDir == MergeDirections(oldDir, changes)
  {
    newDir := oldDir;
    var todo := changes.Keys;
    while todo != {}
      invariant todo <= changes.Keys
      invariant newDir == MergeDirections(oldDir, changes - todo)
      decreases todo
    {
      var k :| k in todo;
      MergeOneMore(oldDir, changes, todo, k);
      if changes[k] != Neutral {
        newDir := newDir[k := changes[k]];
      }
      todo := todo - {k};
    }
    assert changes - {} == changes;
  }

  /** Taking one more key out of the to-do set writes at most that key. */
  lemma MergeOneMore(oldDir: map<string, Dir>, changes: map<string, Dir>, todo: set<string>, k: string)
    requires k in todo && todo <= changes.Keys
    ensures MergeDirections(oldDir, changes - (todo - {k})) ==
      if changes[k] != Neutral then MergeDirections(oldDir, changes - todo)[k := changes[k]]
      else MergeDirections(oldDir, changes - todo)
  {
    var now, before := changes - (todo - {k}), changes - todo;
    assert now == before[k := changes[k]];
  }
}
