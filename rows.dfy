/**
 * A price-board row: one instrument's quote, its two three-level order-book
 * sides and the per-field direction bookkeeping the grid colours cells from.
 */
module Rows {
  import opened Wrappers
  import opened Values

  /** One order-book level: price `p` and volume `v`. */
  datatype Level = Level(p: Num, v: Num)

  datatype Side = Bid | Ask
  datatype LevelPart = Price | Volume

  /**
   * A row object. `num` holds every numeric top-level field by its JSON name
   * (`h`, `fl`, `ce`, `odH`, `odL`, `c`, `o`, `ch`, `r`, `vo`, `va`, ...);
   * `bb`/`bo` are the bid and ask sides (a missing side is empty); `dir` is
   * `_dir`, `changes` is `_changes`, `lastUpdate` is `_lastUpdate` and
   * `initIndex` is `__initIndex`. The percentage `r` is kept in hundredths.
   */
  datatype Row = Row(
    s: string,
    num: map<string, Num>,
    bb: seq<Level>,
    bo: seq<Level>,
    dir: map<string, Dir>,
    changes: Option<map<string, Dir>>,
    lastUpdate: Option<int>,
    initIndex: Option<int>)

  /** The top-level fields the generator moves by a random step. */
  const TopPriceFields: seq<string> := ["h", "fl", "ce", "odH", "odL"]

  /** `row[f]`, missing when the key is absent. */
  function Field(row: Row, f: string): Num
  {
    if f in row.num then row.num[f] else Absent
  }

  function Book(row: Row, side: Side): seq<Level>
  {
    match side
    case Bid => row.bb
    case Ask => row.bo
  }

  function WithLevel(row: Row, side: Side, i: nat, l: Level): (r: Row)
    requires i < |Book(row, side)|
    ensures Book(r, side) == Book(row, side)[i := l]
    ensures r == row.(bb := r.bb, bo := r.bo)
    ensures side == Bid ==> r.bo == row.bo
    ensures side == Ask ==> r.bb == row.bb
  {
    match side
    case Bid => row.(bb := row.bb[i := l])
    case Ask => row.(bo := row.bo[i := l])
  }

  function PartOf(l: Level, part: LevelPart): Num
  {
    match part
    case Price => l.p
    case Volume => l.v
  }

  function SideName(side: Side): string
  {
    match side
    case Bid => "bb"
    case Ask => "bo"
  }

  function PartName(part: LevelPart): char
  {
    match part
    case Price => 'p'
    case Volume => 'v'
  }

  /** The `_changes` key of a book cell, `bb[1].v` for instance. */
  function LevelKey(side: Side, i: nat, part: LevelPart): string
    requires i < 10
  {
    SideName(side) + "[" + [('0' as int + i) as char] + "]." + [PartName(part)]
  }

  /** Book keys are seven characters long and name exactly one cell. */
  lemma LevelKeyInjective(s1: Side, i1: nat, p1: LevelPart, s2: Side, i2: nat, p2: LevelPart)
    requires i1 < 10 && i2 < 10
    ensures |LevelKey(s1, i1, p1)| == 7
    ensures LevelKey(s1, i1, p1) == LevelKey(s2, i2, p2) <==> s1 == s2 && i1 == i2 && p1 == p2
  {
    var k1, k2 := LevelKey(s1, i1, p1), LevelKey(s2, i2, p2);
    assert k1[1] == SideName(s1)[1] && k2[1] == SideName(s2)[1];
    assert k1[3] == ('0' as int + i1) as char && k2[3] == ('0' as int + i2) as char;
    assert k1[6] == PartName(p1) && k2[6] == PartName(p2);
  }

  /** Every key that is a top-level field name is shorter than a book key. */
  lemma TopFieldsAreNotLevelKeys(side: Side, i: nat, part: LevelPart)
    requires i < 10
    ensures LevelKey(side, i, part) !in TopPriceFields
    ensures |LevelKey(side, i, part)| == 7
  {
    LevelKeyInjective(side, i, part, side, i, part);
  }

  /**
   * The rows a JSON snapshot can hold: JSON has no NaN, and the generator
   * never writes NaN into a clamped field or a volume.
   */
  ghost predicate WellFormed(row: Row)
  {
    && (forall f :: f in TopPriceFields ==> Field(row, f) != NaN)
    && Field(row, "c") != NaN && Field(row, "o") != NaN
    && Field(row, "vo") != NaN && Field(row, "va") != NaN
    && (forall l :: l in row.bb ==> l.p != NaN && l.v != NaN)
    && (forall l :: l in row.bo ==> l.p != NaN && l.v != NaN)
  }

  function Symbols(rows: seq<Row>): (syms: seq<string>)
    ensures |syms| == |rows|
    ensures forall i :: 0 <= i < |rows| ==> syms[i] == rows[i].s
  {
    seq(|rows|, i requires 0 <= i < |rows| => rows[i].s)
  }

  /** Symbols are unique: the grid identifies rows by symbol. */
  predicate UniqueSymbols(rows: seq<Row>)
  {
    forall i, j :: 0 <= i < j < |rows| ==> rows[i].s != rows[j].s
  }

  /**
   * `rows.map((r) => (r.s === nr.s ? nr : r))`: every row carrying the
   * symbol of `nr` becomes `nr`, every other row stays, the list keeps its
   * length and its order of symbols.
   */
  function ReplaceBySymbol(rows: seq<Row>, nr: Row): (r: seq<Row>)
    ensures |r| == |rows| && Symbols(r) == Symbols(rows)
    ensures forall i :: 0 <= i < |rows| && rows[i].s != nr.s ==> r[i] == rows[i]
    ensures forall i :: 0 <= i < |rows| && rows[i].s == nr.s ==> r[i] == nr
  {
    seq(|rows|, i requires 0 <= i < |rows| => if rows[i].s == nr.s then nr else rows[i])
  }

  /** With unique symbols, replacing by symbol rewrites exactly one position. */
  lemma ReplaceBySymbolAt(rows: seq<Row>, k: nat, nr: Row)
    requires UniqueSymbols(rows) && k < |rows| && rows[k].s == nr.s
    ensures ReplaceBySymbol(rows, nr) == rows[k := nr]
  {
    var r := ReplaceBySymbol(rows, nr);
    forall i | 0 <= i < |rows|
      ensures r[i] == rows[k := nr][i]
    {
      if i != k {
        assert rows[i].s != rows[k].s by {
          if i < k { assert rows[i].s != rows[k].s; } else { assert rows[k].s != rows[i].s; }
        }
      }
    }
  }

  /** Replacing a symbol that is not in the list changes nothing. */
  lemma ReplaceBySymbolAbsent(rows: seq<Row>, nr: Row)
    requires nr.s !in Symbols(rows)
    ensures ReplaceBySymbol(rows, nr) == rows
  {
    var r := ReplaceBySymbol(rows, nr);
    forall i | 0 <= i < |rows|
      ensures r[i] == rows[i]
    {
      assert Symbols(rows)[i] == rows[i].s;
    }
  }

  /**
   * The flash-expiry copy `{ ...row, _changes: undefined, _lastUpdate: undefined }`.
   */
  function ClearedRow(row: Row): (r: Row)
    ensures r.changes == None && r.lastUpdate == None
    ensures r.s == row.s && r.num == row.num && r.bb == row.bb && r.bo == row.bo
    ensures r.dir == row.dir && r.initIndex == row.initIndex
  {
    row.(changes := None, lastUpdate := None)
  }
}
