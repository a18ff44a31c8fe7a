/**
 * Number slots and price directions, as the price board's JavaScript sees them.
 *
 * A row's numeric fields come from JSON, so a slot is either missing (null or
 * undefined), an integer (prices are multiples of 10, volumes are counts), or,
 * after arithmetic on a missing slot, NaN.
 */
module Values {

  datatype Num = Absent | Val(v: int) | NaN

  /** The three values the code stores in `_dir` and `_changes`. */
  datatype Dir = Up | Down | Neutral

  function DirName(d: Dir): string
  {
    match d
    case Up => "up"
    case Down => "down"
    case Neutral => "neutral"
  }

  /** `x ?? 0` */
  function OrZero(x: Num): Num
  {
    if x == Absent then Val(0) else x
  }

  /** JavaScript truthiness of a number slot: missing, 0 and NaN are falsy. */
  predicate Truthy(x: Num)
  {
    x.Val? && x.v != 0
  }

  /** `a + b`; anything but two numbers gives NaN. */
  function Add(a: Num, b: Num): Num
  {
    if a.Val? && b.Val? then Val(a.v + b.v) else NaN
  }

  /** `a - b`; anything but two numbers gives NaN. */
  function Sub(a: Num, b: Num): Num
  {
    if a.Val? && b.Val? then Val(a.v - b.v) else NaN
  }

  /**
   * `k * a` for a count k, written as k-fold addition so that a tick's
   * arithmetic stays linear; `TimesIsProduct` shows it is the product.
   */
  function Times(k: nat, a: int): int
  {
    if k == 0 then 0 else Times(k - 1, a) + a
  }

  lemma {:induction false} TimesIsProduct(k: nat, a: int)
    ensures Times(k, a) == k * a
  {
    if k > 0 {
      TimesIsProduct(k - 1, a);
    }
  }

  /** `k * a` for a count k; anything but a number gives NaN. */
  function Scale(a: Num, k: nat): Num
  {
    if a.Val? then Val(Times(k, a.v)) else NaN
  }

  /**
   * `Math.max(0, base + delta)`, the clamped step every perturbed price and
   * volume takes. NaN stays NaN, as Math.max propagates it.
   */
  function ClampAdd(base: Num, delta: int): (r: Num)
    ensures base.Val? <==> r.Val?
    ensures base.Val? ==> r.v >= 0 && r.v >= base.v + delta
    ensures base.Val? && r.v > 0 ==> r.v == base.v + delta
  {
    match base
    case Val(x) => Val(if x + delta < 0 then 0 else x + delta)
    case _ => NaN
  }

  /**
   * `direction(oldVal, newVal)` of both price boards: neutral when either side
   * is null/undefined (or a comparison involves NaN), otherwise the sign of
   * the move.
   */
  function Direction(oldVal: Num, newVal: Num): (d: Dir)
    ensures d == Up <==> oldVal.Val? && newVal.Val? && newVal.v > oldVal.v
    ensures d == Down <==> oldVal.Val? && newVal.Val? && newVal.v < oldVal.v
    ensures d == Neutral <==> !oldVal.Val? || !newVal.Val? || newVal.v == oldVal.v
  {
    if oldVal == Absent || newVal == Absent then Neutral
    else if oldVal.Val? && newVal.Val? && newVal.v > oldVal.v then Up
    else if oldVal.Val? && newVal.Val? && newVal.v < oldVal.v then Down
    else Neutral
  }

  /** Swapping the arguments of `direction` swaps up and down. */
  lemma DirectionSwapped(a: Num, b: Num)
    ensures Direction(a, b) == Up <==> Direction(b, a) == Down
    ensures Direction(a, b) == Neutral <==> Direction(b, a) == Neutral
  {
  }

  function Abs(x: int): nat
  {
    if x < 0 then -x else x
  }

  /**
   * `n / m` rounded down, as repeated subtraction; `QuotientBounds` shows it
   * is the quotient.
   */
  function Quotient(n: nat, m: nat): nat
    requires m > 0
    decreases n
  {
    if n < m then 0 else 1 + Quotient(n - m, m)
  }

  lemma {:induction false} QuotientBounds(n: nat, m: nat)
    requires m > 0
    ensures Quotient(n, m) * m <= n < Quotient(n, m) * m + m
  {
    if n >= m {
      QuotientBounds(n - m, m);
    }
  }

  /**
   * `Number(((ch / o) * 100).toFixed(2))` in hundredths of a percent: the
   * exact quotient rounded to the nearest hundredth, halves away from zero.
   */
  function PercentHundredths(ch: int, o: int): int
    requires o != 0
  {
    var q: int := Quotient(2 * (Abs(ch) * 10000) + Abs(o), 2 * Abs(o));
    if (ch >= 0) == (o > 0) then q else -q
  }

  /**
   * The percentage is within half a hundredth of `ch / o`, is 0 when `ch` is,
   * and has the sign of the quotient.
   */
  lemma PercentRounding(ch: int, o: int)
    requires o != 0
    ensures var r := PercentHundredths(ch, o);
      && 2 * Abs(r * o - ch * 10000) <= Abs(o)
      && (ch == 0 ==> r == 0)
      && (r > 0 ==> ch * o > 0) && (r < 0 ==> ch * o < 0)
  {
    var a := Abs(ch) * 10000;
    var b := Abs(o);
    var q := Quotient(2 * a + b, 2 * b);
    QuotientBounds(2 * a + b, 2 * b);
    RoundingBound(a, b, q);
    SignedBound(ch, o, a, b, q, (ch >= 0) == (o > 0));
  }

  lemma RoundingBound(a: nat, b: nat, q: int)
    requires b > 0 && q >= 0 && q * (2 * b) <= 2 * a + b < q * (2 * b) + 2 * b
    ensures 2 * Abs(q * b - a) <= b
    ensures a == 0 ==> q == 0
    ensures q > 0 ==> a > 0
  {
    assert q * (2 * b) == 2 * (q * b);
  }

  lemma SignedBound(ch: int, o: int, a: nat, b: nat, q: int, positive: bool)
    requires o != 0 && a == Abs(ch) * 10000 && b == Abs(o)
    requires 2 * Abs(q * b - a) <= b && q >= 0 && (a == 0 ==> q == 0) && (q > 0 ==> a > 0)
    requires positive == ((ch >= 0) == (o > 0))
    ensures var r := if positive then q else -q;
      2 * Abs(r * o - ch * 10000) <= Abs(o) &&
      (ch == 0 ==> r == 0) && (r > 0 ==> ch * o > 0) && (r < 0 ==> ch * o < 0)
  {
    var r := if positive then q else -q;
    ProductSigns(ch, o);
    NegatedProducts(q, b);
    if ch >= 0 && o > 0 {
      assert r * o == q * b;
    } else if ch >= 0 {
      assert r * o == (-q) * -(b as int);
    } else if o > 0 {
      assert r * o == (-q) * b;
    } else {
      assert r * o == q * -(b as int);
    }
  }

  lemma ProductSigns(x: int, y: int)
    ensures x > 0 && y > 0 ==> x * y > 0
    ensures x < 0 && y < 0 ==> x * y > 0
    ensures x > 0 && y < 0 ==> x * y < 0
    ensures x < 0 && y > 0 ==> x * y < 0
  {
  }

  lemma NegatedProducts(x: int, y: int)
    ensures (-x) * (-y) == x * y && (-x) * y == -(x * y) && x * (-y) == -(x * y)
  {
  }

  /** The two worked examples: 10 over 90 is 11.11%, 5 over 90 is 5.56%. */
  lemma PercentExamples()
    ensures PercentHundredths(10, 90) == 1111
    ensures PercentHundredths(5, 90) == 556
    ensures PercentHundredths(-10, 90) == -1111
  {
    QuotientBounds(200090, 180);
    QuotientBounds(100090, 180);
  }
}
