/** Attribute arithmetic (attrib.c): what raising, lowering, draining and redistributing do to an
    attribute's base value and its peak, kept in signed bytes. */
module Attributes {

  /** One attribute: its base value and the highest it has been. */
  datatype Attr = Attr(base: int, peak: int)

  const A_STR := 0
  const A_INT := 1
  const A_WIS := 2
  const A_DEX := 3
  const A_CON := 4
  const A_CHA := 5
  const A_MAX := 6

  /** Conversion to a signed byte. */
  function ToSchar(n: int): (r: int)
    ensures -128 <= r <= 127 && (-128 <= n <= 127 ==> r == n)
  {
    (n + 128) % 256 - 128
  }

  predicate Bounds(lo: int, hi: int) {
    1 <= lo <= hi <= 125
  }

  predicate Ok(a: Attr, lo: int, hi: int) {
    lo <= a.base <= a.peak <= hi
  }

  // ----- adjattrib -----

  /** At the top already, as far as the current value shows? */
  predicate AtTop(a: Attr, hi: int, curr: int) {
    a.peak >= hi && curr >= a.peak
  }

  /** What adjattrib does to an attribute that may change, and whether it says so. */
  function Adjusted(a: Attr, lo: int, hi: int, curr: int, incr: int): (Attr, bool) {
    if incr == 0 then (a, false)
    else if incr > 0 then
      if AtTop(a, hi, curr) then (Attr(hi, hi), false)
      else
        var b := ToSchar(a.base + incr);
        if b <= a.peak then (Attr(b, a.peak), true)
        else if b > hi then (Attr(hi, hi), true)
        else (Attr(b, b), true)
    else if a.base <= lo then (Attr(lo, a.peak), false)
    else
      var b := ToSchar(a.base + incr);
      if b >= lo then (Attr(b, a.peak), true)
      else
        var p := ToSchar(a.peak + (b - lo));
        (Attr(lo, if p < lo then lo else p), true)
  }

  function Min(x: int, y: int): int {
    if x < y then x else y
  }

  function Max(x: int, y: int): int {
    if x < y then y else x
  }

  /** Exactly when the bounds survive an adjustment: the sum must not wrap round into the forbidden side. */
  lemma AdjustedOkIff(a: Attr, lo: int, hi: int, curr: int, incr: int)
    requires Bounds(lo, hi) && Ok(a, lo, hi) && incr != 0
    ensures Ok(Adjusted(a, lo, hi, curr, incr).0, lo, hi) <==>
            if incr > 0 then AtTop(a, hi, curr) || ToSchar(a.base + incr) >= lo
            else a.base <= lo || ToSchar(a.base + incr) <= a.peak
  {
  }

  /** A gain that fits a signed byte, where it is the gain one expects: added, but not beyond the race's
      maximum, the peak following. It is not exactly when the attribute has been drained while bonuses make
      it look full: then any gain that would not fill it fills it nevertheless, and reports no change. */
  lemma GainIsExpectedIff(a: Attr, lo: int, hi: int, curr: int, incr: int)
    requires Bounds(lo, hi) && Ok(a, lo, hi) && incr > 0 && a.base + incr <= 127
    ensures var a' := Adjusted(a, lo, hi, curr, incr).0;
            && Ok(a', lo, hi) && a'.base >= a.base && a'.peak == Max(a.peak, a'.base)
            && (a'.base == Min(a.base + incr, hi) <==> !(AtTop(a, hi, curr) && a.base + incr < hi))
            && (AtTop(a, hi, curr) ==> a' == Attr(hi, hi) && !Adjusted(a, lo, hi, curr, incr).1)
  {
  }

  /** A loss that fits a signed byte: taken away, but not below the race's minimum; what could not be taken
      from the base is taken from the peak, unless the base was at the minimum to begin with. */
  lemma LossIsExpected(a: Attr, lo: int, hi: int, curr: int, loss: int)
    requires Bounds(lo, hi) && Ok(a, lo, hi) && loss > 0 && a.base - loss >= -128
    ensures var a' := Adjusted(a, lo, hi, curr, -loss).0;
            && Ok(a', lo, hi) && a'.base == Max(a.base - loss, lo)
            && a'.peak == if a.base == lo then a.peak else Max(a.peak - (loss - (a.base - a'.base)), lo)
  {
  }

  /** A point gained fills up a strength drained from 18 to 10 that bonuses make look like 18, and is reported
      as no change. */
  lemma GainCanFill()
    ensures Adjusted(Attr(10, 18), 3, 18, 18, 1) == (Attr(18, 18), false)
  {
  }

  // ----- losestr -----

  /** How many points are paid in hit points instead, six each. */
  function PaidInHp(base: int, num: int): nat {
    if base - num < 3 then 3 - (base - num) else 0
  }

  function Drained(a: Attr, lo: int, hi: int, curr: int, fixedAbil: bool, num: int): Attr {
    if fixedAbil then a else Adjusted(a, lo, hi, curr, -(num - PaidInHp(a.base, num))).0
  }

  /** Each point asked for is paid, with a point of strength or with six hit points, exactly if abilities
      are not fixed or no strength is asked for; the peak does not change. With fixed abilities the hit
      points are lost all the same. */
  lemma EachPointPaidIff(a: Attr, hi: int, curr: int, fixedAbil: bool, num: nat)
    requires Bounds(3, hi) && Ok(a, 3, hi)
    ensures var a' := Drained(a, 3, hi, curr, fixedAbil, num);
            && Ok(a', 3, hi) && a'.peak == a.peak
            && ((a.base - a'.base) + PaidInHp(a.base, num) == num <==> !fixedAbil || PaidInHp(a.base, num) == num)
            && (PaidInHp(a.base, num) == num <==> num == 0 || a.base == 3)
  {
  }

  /** Strength lost to hunger comes back when it passes, exactly unless the drained strength looks full and
      was not: then it is filled up. */
  lemma DrainUndoneIff(a: Attr, hi: int, curr: int, later: int)
    requires Bounds(3, hi) && Ok(a, 3, hi) && a.base > 3
    ensures Drained(Drained(a, 3, hi, curr, false, 1), 3, hi, later, false, -1) == a
            <==> !AtTop(a, hi, later) || a.base == hi
  {
  }

  /** With fixed abilities a loss of four from a strength of five costs twelve hit points and no strength. */
  lemma FixedStillPays()
    ensures Drained(Attr(5, 18), 3, 18, 5, true, 4) == Attr(5, 18) && PaidInHp(5, 4) == 2
  {
  }

  /** Hunger passing fills up a strength of 10 that looks like its peak. */
  lemma HungerCanFill()
    ensures Drained(Drained(Attr(10, 18), 3, 18, 18, false, 1), 3, 18, 18, false, -1) == Attr(18, 18)
  {
  }

  // ----- redist_attr -----

  /** die is rn2(5) - 2. */
  function Redistributed(a: Attr, lo: int, hi: int, die: int): Attr
    requires a.peak > 0
  {
    var p := a.peak + die;
    var peak := if p > hi then hi else if p < lo then lo else p;
    var base := a.base * peak / a.peak;
    Attr(if base < lo then lo else base, peak)
  }

  lemma Times(x: int, y: int, p: int)
    requires x <= y && 0 <= p
    ensures x * p <= y * p && (x + 1) * p == x * p + p
  {
    assert (y - x) * p >= 0;
  }

  lemma DivBound(n: int, p: int, q: int)
    requires 0 < p && 0 <= n <= p * q
    ensures 0 <= n / p <= q && (n == p * q ==> n / p == q)
  {
    var k := n / p;
    assert n == k * p + n % p;
    if k > q {
      Times(q, k, p);
      Times(q + 1, k, p);
    } else if k < q {
      Times(k, q, p);
      Times(k + 1, q, p);
    }
  }

  lemma Scaled(b: int, p: int, q: int)
    requires 0 <= b <= p && 0 < p && 0 <= q
    ensures 0 <= b * q / p <= q && (b == p ==> b * q / p == q)
  {
    Times(b, p, q);
    Times(0, b, q);
    DivBound(b * q, p, q);
  }

  /** Redistribution keeps the bounds, shifts the peak by at most two, and leaves a full attribute full. */
  lemma RedistributedOk(a: Attr, lo: int, hi: int, die: int)
    requires Bounds(lo, hi) && Ok(a, lo, hi) && -2 <= die <= 2
    ensures var a' := Redistributed(a, lo, hi, die);
            && Ok(a', lo, hi) && a.peak - 2 <= a'.peak <= a.peak + 2
            && (a.base == a.peak ==> a'.base == a'.peak)
  {
    var p := a.peak + die;
    var peak := if p > hi then hi else if p < lo then lo else p;
    Scaled(a.base, a.peak, peak);
  }

  // ----- any run -----

  /** The hero's attributes, their race's bounds, what keeps them from changing, and hit points. */
  datatype Body = Body(attrs: seq<Attr>, lo: seq<int>, hi: seq<int>, fixedAbil: bool, dunce: bool, hp: int) {
    predicate Valid() {
      |attrs| == A_MAX == |lo| == |hi| && forall i :: 0 <= i < A_MAX ==> Bounds(lo[i], hi[i])
    }

    predicate InBounds()
      requires Valid()
    {
      forall i :: 0 <= i < A_MAX ==> Ok(attrs[i], lo[i], hi[i])
    }
  }

  /** Fixed abilities change not at all, and intelligence and wisdom not under a dunce cap. */
  predicate Barred(b: Body, i: int) {
    b.fixedAbil || ((i == A_INT || i == A_WIS) && b.dunce)
  }

  function AdjAttrib(b: Body, i: nat, curr: int, incr: int): Body
    requires b.Valid() && i < A_MAX
  {
    if Barred(b, i) then b else b.(attrs := b.attrs[i := Adjusted(b.attrs[i], b.lo[i], b.hi[i], curr, incr).0])
  }

  function LoseStr(b: Body, curr: int, num: int): Body
    requires b.Valid()
  {
    var paid := PaidInHp(b.attrs[A_STR].base, num);
    AdjAttrib(b.(hp := b.hp - 6 * paid), A_STR, curr, -(num - paid))
  }

  /** The attributes below n redistributed, but for intelligence and wisdom. */
  function RedistBelow(b: Body, dice: seq<int>, n: nat): (b': Body)
    requires b.Valid() && |dice| == A_MAX && n <= A_MAX && forall i :: 0 <= i < A_MAX ==> b.attrs[i].peak > 0
    ensures b'.Valid() && forall i :: n <= i < A_MAX ==> b'.attrs[i] == b.attrs[i]
  {
    if n == 0 then b
    else
      var b1 := RedistBelow(b, dice, n - 1);
      var i := n - 1;
      if i == A_INT || i == A_WIS then b1
      else b1.(attrs := b1.attrs[i := Redistributed(b1.attrs[i], b1.lo[i], b1.hi[i], dice[i])])
  }

  datatype Event =
    | Adjust(i: nat, curr: int, incr: int)
    | Drain(curr: int, num: int)
    | Redistribute(dice: seq<int>)

  /** Adjustments must fit a signed byte. */
  predicate Can(b: Body, e: Event)
    requires b.Valid()
  {
    match e
    case Adjust(i, _, incr) => i < A_MAX && -128 <= b.attrs[i].base + incr <= 127
    case Drain(_, num) => b.attrs[A_STR].base - num <= 127
    case Redistribute(dice) => |dice| == A_MAX && forall i :: 0 <= i < A_MAX ==> -2 <= dice[i] <= 2
  }

  function Step(b: Body, e: Event): Body
    requires b.Valid() && Can(b, e) && b.InBounds()
  {
    match e
    case Adjust(i, curr, incr) => AdjAttrib(b, i, curr, incr)
    case Drain(curr, num) => LoseStr(b, curr, num)
    case Redistribute(dice) => RedistBelow(b, dice, A_MAX)
  }

  lemma {:induction false} RedistOk(b: Body, dice: seq<int>, n: nat)
    requires b.Valid() && b.InBounds() && n <= A_MAX && |dice| == A_MAX && forall i :: 0 <= i < A_MAX ==> -2 <= dice[i] <= 2
    ensures var b' := RedistBelow(b, dice, n); b'.InBounds() && b'.lo == b.lo && b'.hi == b.hi
  {
    if n > 0 {
      RedistOk(b, dice, n - 1);
      var b1 := RedistBelow(b, dice, n - 1);
      RedistributedOk(b1.attrs[n - 1], b1.lo[n - 1], b1.hi[n - 1], dice[n - 1]);
    }
  }

  lemma StepOk(b: Body, e: Event)
    requires b.Valid() && b.InBounds() && Can(b, e)
    ensures var b' := Step(b, e); b'.Valid() && b'.InBounds() && b'.lo == b.lo && b'.hi == b.hi
  {
    match e
    case Adjust(i, curr, incr) =>
      if incr != 0 {
        AdjustedOkIff(b.attrs[i], b.lo[i], b.hi[i], curr, incr);
      }
    case Drain(curr, num) =>
      var less := -(num - PaidInHp(b.attrs[A_STR].base, num));
      if less != 0 {
        AdjustedOkIff(b.attrs[A_STR], b.lo[A_STR], b.hi[A_STR], curr, less);
      }
    case Redistribute(dice) => RedistOk(b, dice, A_MAX);
  }

  predicate CanRun(b: Body, events: seq<Event>)
    requires b.Valid() && b.InBounds()
    decreases |events|
  {
    events != [] ==> Can(b, events[0]) && (StepOk(b, events[0]); CanRun(Step(b, events[0]), events[1..]))
  }

  function Run(b: Body, events: seq<Event>): Body
    requires b.Valid() && b.InBounds() && CanRun(b, events)
    decreases |events|
  {
    if events == [] then b
    else
      StepOk(b, events[0]);
      Run(Step(b, events[0]), events[1..])
  }

  /** Over any sequence of adjustments, drains and redistributions, every attribute stays between its
      race's minimum and its peak, and the peak below the maximum. */
  lemma {:induction false} RunOk(b: Body, events: seq<Event>)
    requires b.Valid() && b.InBounds() && CanRun(b, events)
    ensures Run(b, events).Valid() && Run(b, events).InBounds()
    decreases |events|
  {
    if events != [] {
      StepOk(b, events[0]);
      RunOk(Step(b, events[0]), events[1..]);
    }
  }
}
