/** Unicorn horns and their like (apply.c): a list of the hero's troubles, shuffled, of which the first few
    are put right. This module says what the list is, what fixing does, and what follows. */
module Troubles {

  /** A property's intrinsic field: the low 24 bits are a timeout, what is above is permanent. */
  datatype Intrinsic = Intrinsic(time: nat, perm: nat)

  const TIMEOUT := 0xffffff

  function Value(p: Intrinsic): nat {
    p.perm * (TIMEOUT + 1) + p.time
  }

  /** set_itimeout */
  function SetTimeout(p: Intrinsic, val: nat): Intrinsic {
    p.(time := if val >= TIMEOUT then TIMEOUT else val)
  }

  datatype Sickness = Vomitable | NonVomitable

  const STUNNED := 27
  const CONFUSION := 28
  const SICK := 29
  const BLINDED := 30
  const HALLUC := 35
  const VOMITING := 47
  const LAST_PROP := 66
  const PROP_COUNT := 6
  const A_STR := 0
  const A_MAX := 6

  /** What may ail the hero: properties, kinds of sickness, cream on the face, and attributes, with their
      highest values so far. */
  datatype Health = Health(props: seq<Intrinsic>, sick: set<Sickness>, creamed: nat, weak: bool, base: seq<int>, peak: seq<int>)
  {
    predicate Valid() {
      |props| == LAST_PROP + 1 && |base| == A_MAX == |peak|
    }
  }

  /** The trouble list's encoding: attributes as they are, properties above them. */
  predicate IsProp(t: int) {
    var p := t - A_MAX;
    p == SICK || p == BLINDED || p == HALLUC || p == VOMITING || p == CONFUSION || p == STUNNED
  }

  predicate Ails(h: Health, p: int)
    requires h.Valid() && 0 <= p <= LAST_PROP
  {
    Value(h.props[p]) > if p == BLINDED then h.creamed else 0
  }

  function PropTrouble(h: Health, p: int): (list: seq<int>)
    requires h.Valid() && 0 <= p <= LAST_PROP
    ensures |list| <= 1
  {
    if Ails(h, p) then [p + A_MAX] else []
  }

  /** The properties in the order they are looked at. */
  function Checked(k: nat): (p: int)
    requires k < PROP_COUNT
    ensures IsProp(p + A_MAX)
  {
    match k
    case 0 => SICK
    case 1 => BLINDED
    case 2 => HALLUC
    case 3 => VOMITING
    case 4 => CONFUSION
    case _ => STUNNED
  }

  function PropTroubles(h: Health, k: nat): (list: seq<int>)
    requires h.Valid() && k <= PROP_COUNT
    ensures |list| <= k
  {
    if k == 0 then [] else PropTroubles(h, k - 1) + PropTrouble(h, Checked(k - 1))
  }

  /** How many points an attribute may get back. */
  function Gain(h: Health, i: int, attrPoint: nat): nat
    requires h.Valid() && 0 <= i < A_MAX
  {
    var limit := if i == A_STR && h.weak then h.peak[i] - 1 else h.peak[i];
    if limit <= h.base[i] then 0 else if limit - h.base[i] > attrPoint then attrPoint else limit - h.base[i]
  }

  function Repeat(x: int, n: nat): (r: seq<int>)
    ensures |r| == n
  {
    if n == 0 then [] else Repeat(x, n - 1) + [x]
  }

  /** The attribute troubles below attribute i. */
  function AttrTroubles(h: Health, attrPoint: nat, i: nat): (list: seq<int>)
    requires h.Valid() && i <= A_MAX
    ensures |list| <= i * attrPoint
  {
    if i == 0 then [] else AttrTroubles(h, attrPoint, i - 1) + Repeat(i - 1, Gain(h, i - 1, attrPoint))
  }

  lemma Room(idx: nat, attrPoint: nat)
    requires idx < A_MAX
    ensures idx * attrPoint + attrPoint == (idx + 1) * attrPoint <= A_MAX * attrPoint
  {
  }

  function AllTroubles(h: Health, attrPoint: nat): seq<int>
    requires h.Valid()
  {
    PropTroubles(h, PROP_COUNT) + AttrTroubles(h, attrPoint, A_MAX)
  }

  // ----- what is on the list -----

  function Count(s: seq<int>, t: int): nat {
    if s == [] then 0 else Count(s[..|s| - 1], t) + if s[|s| - 1] == t then 1 else 0
  }

  lemma {:induction false} CountIs(s: seq<int>, t: int)
    ensures Count(s, t) == multiset(s)[t]
  {
    if s != [] {
      CountIs(s[..|s| - 1], t);
      assert s == s[..|s| - 1] + [s[|s| - 1]];
    }
  }

  lemma {:induction false} CountPlus(a: seq<int>, b: seq<int>, t: int)
    ensures Count(a + b, t) == Count(a, t) + Count(b, t)
    decreases |b|
  {
    if b == [] {
      assert a + b == a;
    } else {
      CountPlus(a, b[..|b| - 1], t);
      assert (a + b)[..|a + b| - 1] == a + b[..|b| - 1];
    }
  }

  lemma CountNext(order: seq<int>, n: nat, t: int)
    requires 0 < n <= |order|
    ensures Count(order[..n], t) == Count(order[..n - 1], t) + if order[n - 1] == t then 1 else 0
    ensures t in order[..n] <==> t in order[..n - 1] || order[n - 1] == t
  {
    assert order[..n][..n - 1] == order[..n - 1];
    assert order[..n] == order[..n - 1] + [order[n - 1]];
  }

  lemma CountPrefix(order: seq<int>, n: nat, t: int)
    requires n <= |order|
    ensures Count(order[..n], t) <= Count(order, t)
    ensures n == |order| ==> order[..n] == order
  {
    CountPlus(order[..n], order[n..], t);
    assert order == order[..n] + order[n..];
  }

  lemma CountAppended(list: seq<int>, before: seq<int>, more: seq<int>, t: int)
    requires list == before + more
    ensures Count(list, t) == Count(before, t) + Count(more, t)
  {
    CountPlus(before, more, t);
  }

  /** Six properties looked at one after the other. */
  lemma SixCount(h: Health, lists: seq<seq<int>>, t: int)
    requires h.Valid() && |lists| == PROP_COUNT + 1 && lists[0] == []
    requires lists[1] == lists[0] + PropTrouble(h, SICK) && lists[2] == lists[1] + PropTrouble(h, BLINDED)
    requires lists[3] == lists[2] + PropTrouble(h, HALLUC) && lists[4] == lists[3] + PropTrouble(h, VOMITING)
    requires lists[5] == lists[4] + PropTrouble(h, CONFUSION) && lists[6] == lists[5] + PropTrouble(h, STUNNED)
    ensures Count(lists[6], t) == if IsProp(t) && Ails(h, t - A_MAX) then 1 else 0
  {
    NextCount(h, lists[1], lists[0], SICK, t);
    NextCount(h, lists[2], lists[1], BLINDED, t);
    NextCount(h, lists[3], lists[2], HALLUC, t);
    NextCount(h, lists[4], lists[3], VOMITING, t);
    NextCount(h, lists[5], lists[4], CONFUSION, t);
    NextCount(h, lists[6], lists[5], STUNNED, t);
  }

  lemma NextCount(h: Health, list: seq<int>, before: seq<int>, p: int, t: int)
    requires h.Valid() && 0 <= p <= LAST_PROP && list == before + PropTrouble(h, p)
    ensures Count(list, t) == Count(before, t) + if t == p + A_MAX && Ails(h, p) then 1 else 0
  {
    OnePropCount(h, p, t);
    CountAppended(list, before, PropTrouble(h, p), t);
  }

  lemma PropCountIs(h: Health, t: int)
    requires h.Valid()
    ensures Count(PropTroubles(h, PROP_COUNT), t) == if IsProp(t) && Ails(h, t - A_MAX) then 1 else 0
  {
    SixCount(h, seq(PROP_COUNT + 1, k requires 0 <= k <= PROP_COUNT => PropTroubles(h, k)), t);
  }

  lemma OnePropCount(h: Health, p: int, t: int)
    requires h.Valid() && 0 <= p <= LAST_PROP
    ensures Count(PropTrouble(h, p), t) == if t == p + A_MAX && Ails(h, p) then 1 else 0
  {
  }

  lemma {:induction false} AttrCount(h: Health, attrPoint: nat, n: nat, t: int)
    requires h.Valid() && n <= A_MAX
    ensures Count(AttrTroubles(h, attrPoint, n), t) == if 0 <= t < n then Gain(h, t, attrPoint) else 0
  {
    if n > 0 {
      AttrCount(h, attrPoint, n - 1, t);
      RepeatCount(n - 1, Gain(h, n - 1, attrPoint), t);
      CountAppended(AttrTroubles(h, attrPoint, n), AttrTroubles(h, attrPoint, n - 1), Repeat(n - 1, Gain(h, n - 1, attrPoint)), t);
    }
  }

  lemma {:induction false} RepeatCount(x: int, n: nat, t: int)
    ensures Count(Repeat(x, n), t) == if t == x then n else 0
  {
    if n > 0 {
      RepeatCount(x, n - 1, t);
      CountPlus(Repeat(x, n - 1), [x], t);
    }
  }

  /** Each trouble is listed once, an attribute once for each point it may get back, and nothing else is. */
  lemma ListedAsOften(h: Health, attrPoint: nat, t: int)
    requires h.Valid()
    ensures Count(AllTroubles(h, attrPoint), t) ==
            if 0 <= t < A_MAX then Gain(h, t, attrPoint) else if IsProp(t) && Ails(h, t - A_MAX) then 1 else 0
  {
    AttrCount(h, attrPoint, A_MAX, t);
    PropCountIs(h, t);
    CountPlus(PropTroubles(h, PROP_COUNT), AttrTroubles(h, attrPoint, A_MAX), t);
  }

  // ----- putting one right -----

  function FixProp(h: Health, p: int): (h': Health)
    requires h.Valid() && 0 <= p <= LAST_PROP
    ensures h'.Valid()
  {
    if p == SICK then
      if Value(h.props[SICK]) != 0 && h.sick != {} then h.(props := h.props[SICK := Intrinsic(0, 0)], sick := {}) else h
    else if p == BLINDED then h.(props := h.props[BLINDED := SetTimeout(h.props[BLINDED], h.creamed)])
    else h.(props := h.props[p := SetTimeout(h.props[p], 0)])
  }

  function FixOne(h: Health, t: int): (h': Health)
    requires h.Valid() && (0 <= t < A_MAX || IsProp(t))
    ensures h'.Valid()
  {
    if t < A_MAX then h.(base := h.base[t := h.base[t] + 1]) else FixProp(h, t - A_MAX)
  }

  predicate Encoded(order: seq<int>) {
    forall i :: 0 <= i < |order| ==> 0 <= order[i] < A_MAX || IsProp(order[i])
  }

  /** The first n of the list put right in order. */
  function FixFirst(h: Health, order: seq<int>, n: nat): (h': Health)
    requires h.Valid() && Encoded(order) && n <= |order|
    ensures h'.Valid()
  {
    if n == 0 then h else FixOne(FixFirst(h, order, n - 1), order[n - 1])
  }

  lemma {:induction false} SameFirst(h: Health, a: seq<int>, b: seq<int>, n: nat)
    requires h.Valid() && Encoded(a) && Encoded(b) && n <= |a| && n <= |b| && forall i :: 0 <= i < n ==> a[i] == b[i]
    ensures FixFirst(h, a, n) == FixFirst(h, b, n) && PropFixes(a, n) == PropFixes(b, n)
  {
    if n > 0 {
      SameFirst(h, a, b, n - 1);
    }
  }

  lemma {:induction false} FixedRest(h: Health, order: seq<int>, n: nat)
    requires h.Valid() && Encoded(order) && n <= |order|
    ensures var h' := FixFirst(h, order, n); h'.peak == h.peak && h'.creamed == h.creamed && h'.weak == h.weak
  {
    if n > 0 {
      FixedRest(h, order, n - 1);
    }
  }

  /** Each attribute has gained one point for each time it comes up. */
  lemma {:induction false} FixedBase(h: Health, order: seq<int>, n: nat, i: int)
    requires h.Valid() && Encoded(order) && n <= |order| && 0 <= i < A_MAX
    ensures var h' := FixFirst(h, order, n);
            h'.base[i] == h.base[i] + Count(order[..n], i)
  {
    if n > 0 {
      FixedBase(h, order, n - 1, i);
      CountNext(order, n, i);
    }
  }

  lemma {:induction false} FixedSick(h: Health, order: seq<int>, n: nat)
    requires h.Valid() && Encoded(order) && n <= |order|
    ensures var h' := FixFirst(h, order, n);
            (h'.sick, h'.props[SICK]) ==
            if SICK + A_MAX in order[..n] then (FixProp(h, SICK).sick, FixProp(h, SICK).props[SICK]) else (h.sick, h.props[SICK])
  {
    if n > 0 {
      FixedSick(h, order, n - 1);
      CountNext(order, n, SICK + A_MAX);
    }
  }

  /** A property's intrinsic field after fixing depends only on whether its trouble came up. */
  lemma {:induction false} FixedProp(h: Health, order: seq<int>, n: nat, p: int)
    requires h.Valid() && Encoded(order) && n <= |order| && 0 <= p <= LAST_PROP && IsProp(p + A_MAX)
    ensures FixFirst(h, order, n).props[p] == if p + A_MAX in order[..n] then FixProp(h, p).props[p] else h.props[p]
  {
    if p == SICK {
      FixedSick(h, order, n);
    } else if n > 0 {
      FixedProp(h, order, n - 1, p);
      FixedRest(h, order, n - 1);
      CountNext(order, n, p + A_MAX);
    }
  }

  /** When fixing a property's trouble is not enough: a permanent property stays (unless there is so much
      cream on the face that blindness is put down to it), and sickness of no known kind does. */
  predicate Stubborn(h: Health, p: int)
    requires h.Valid() && 0 <= p <= LAST_PROP
  {
    if p == SICK then h.sick == {}
    else
      && h.props[p].perm > 0
      && (p == BLINDED ==> h.creamed < h.props[p].perm * (TIMEOUT + 1) + TIMEOUT)
  }

  /** Exactly which properties still ail the hero. */
  lemma StillAilsIff(h: Health, order: seq<int>, n: nat, p: int)
    requires h.Valid() && Encoded(order) && n <= |order| && 0 <= p <= LAST_PROP && IsProp(p + A_MAX) && Ails(h, p)
    ensures Ails(FixFirst(h, order, n), p) <==> p + A_MAX !in order[..n] || Stubborn(h, p)
  {
    FixedProp(h, order, n, p);
    FixedSick(h, order, n);
    FixedRest(h, order, n);
  }

  function Sum(base: seq<int>): int
    requires |base| == A_MAX
  {
    base[0] + base[1] + base[2] + base[3] + base[4] + base[5]
  }

  function PropFixes(order: seq<int>, n: nat): nat
    requires n <= |order|
  {
    if n == 0 then 0 else PropFixes(order, n - 1) + if order[n - 1] >= A_MAX then 1 else 0
  }

  /** Every fix restores one attribute point or treats one property. */
  lemma {:induction false} FixesAddUp(h: Health, order: seq<int>, n: nat)
    requires h.Valid() && Encoded(order) && n <= |order|
    ensures Sum(FixFirst(h, order, n).base) - Sum(h.base) + PropFixes(order, n) == n
  {
    if n > 0 {
      FixesAddUp(h, order, n - 1);
    }
  }

  /** A list in some order of what AllTroubles lists. */
  ghost predicate Reordered(h: Health, attrPoint: nat, order: seq<int>)
    requires h.Valid()
  {
    multiset(order) == multiset(AllTroubles(h, attrPoint))
  }

  lemma ReorderedIsEncoded(h: Health, attrPoint: nat, order: seq<int>)
    requires h.Valid() && Reordered(h, attrPoint, order)
    ensures Encoded(order) && |order| == |AllTroubles(h, attrPoint)|
  {
    forall i | 0 <= i < |order|
      ensures 0 <= order[i] < A_MAX || IsProp(order[i])
    {
      ListedAsOften(h, attrPoint, order[i]);
      CountIs(AllTroubles(h, attrPoint), order[i]);
      assert order[i] in multiset(order);
    }
    assert |multiset(order)| == |order|;
    assert |multiset(AllTroubles(h, attrPoint))| == |AllTroubles(h, attrPoint)|;
  }

  lemma ComesUp(h: Health, attrPoint: nat, order: seq<int>, n: nat, i: int)
    requires h.Valid() && Reordered(h, attrPoint, order) && n <= |order| && 0 <= i < A_MAX
    ensures Count(order[..n], i) <= Gain(h, i, attrPoint)
    ensures n == |order| ==> Count(order[..n], i) == Gain(h, i, attrPoint)
  {
    ListedAsOften(h, attrPoint, i);
    CountIs(AllTroubles(h, attrPoint), i);
    CountIs(order, i);
    CountPrefix(order, n, i);
  }

  // ----- the shuffle -----

  function Swapped(s: seq<int>, i: nat, j: nat): (r: seq<int>)
    requires i < |s| && j < |s|
    ensures |r| == |s|
  {
    s[i := s[j]][j := s[i]]
  }

  lemma SwappedSame(s: seq<int>, i: nat, j: nat)
    requires i < |s| && j < |s|
    ensures multiset(Swapped(s, i, j)) == multiset(s)
  {
  }

  lemma {:induction false} ShuffledSame(s: seq<int>, i: int, dice: seq<nat>)
    requires i < |s| <= |dice| && Rolled(dice)
    ensures multiset(Shuffled(s, i, dice)) == multiset(s)
    decreases i
  {
    if i > 0 {
      SwappedSame(s, i, dice[i]);
      ShuffledSame(Swapped(s, i, dice[i]), i - 1, dice);
    }
  }

  /** Die i is rn2(i + 1). */
  predicate Rolled(dice: seq<nat>) {
    forall i :: 0 <= i < |dice| ==> dice[i] <= i
  }

  /** The shuffle from index i down. */
  function Shuffled(s: seq<int>, i: int, dice: seq<nat>): (r: seq<int>)
    requires i < |s| <= |dice| && Rolled(dice)
    ensures |r| == |s|
    ensures forall k :: 0 <= k < |s| && i < k ==> r[k] == s[k]
    decreases i
  {
    if i <= 0 then s else Shuffled(Swapped(s, i, dice[i]), i - 1, dice)
  }

  /** Of two lists of the same things that agree beyond i, one has at i what the other has up to i. */
  lemma HasIt(s: seq<int>, i: nat, target: seq<int>) returns (j: nat)
    requires i < |s| == |target| && multiset(s) == multiset(target)
    requires forall k :: i < k < |s| ==> s[k] == target[k]
    ensures j <= i && s[j] == target[i]
  {
    var n := i + 1;
    assert s[n..] == target[n..];
    assert s == s[..n] + s[n..] && target == target[..n] + target[n..];
    CountPlus(s[..n], s[n..], target[i]);
    CountPlus(target[..n], target[n..], target[i]);
    CountIs(s, target[i]);
    CountIs(target, target[i]);
    CountIs(s[..n], target[i]);
    CountIs(target[..n], target[i]);
    assert target[..n][i] in multiset(target[..n]);
    assert target[i] in multiset(s[..n]);
    j :| 0 <= j < n && s[..n][j] == target[i];
  }

  lemma PutInPlace(s: seq<int>, i: nat, target: seq<int>) returns (j: nat)
    requires i < |s| == |target| && multiset(s) == multiset(target)
    requires forall k :: i < k < |s| ==> s[k] == target[k]
    ensures j <= i && multiset(Swapped(s, i, j)) == multiset(target)
    ensures forall k :: i <= k < |s| ==> Swapped(s, i, j)[k] == target[k]
  {
    j := HasIt(s, i, target);
    SwappedSame(s, i, j);
  }

  /** The dice can bring the list into any order. */
  lemma {:induction false} ShuffleReaches(s: seq<int>, i: int, target: seq<int>) returns (dice: seq<nat>)
    requires -1 <= i < |s| == |target| && multiset(s) == multiset(target)
    requires forall k :: i < k < |s| ==> s[k] == target[k]
    ensures |dice| == |s| && Rolled(dice) && Shuffled(s, i, dice) == target
    decreases i
  {
    if i < 0 {
      dice := seq(|s|, _ => 0);
    } else {
      var j := PutInPlace(s, i, target);
      var rest := ShuffleReaches(Swapped(s, i, j), i - 1, target);
      dice := rest[i := j];
      SameDice(Swapped(s, i, j), i - 1, rest, dice);
    }
  }

  lemma {:induction false} SameDice(s: seq<int>, i: int, a: seq<nat>, b: seq<nat>)
    requires i < |s| <= |a| && |s| <= |b| && Rolled(a) && Rolled(b) && forall k :: 0 <= k <= i ==> a[k] == b[k]
    ensures Shuffled(s, i, a) == Shuffled(s, i, b)
    decreases i
  {
    if i > 0 {
      SameDice(Swapped(s, i, a[i]), i - 1, a, b);
    }
  }

  // ----- the whole of it -----

  /** The list in its final order. */
  function Reshuffled(list: seq<int>, dice: seq<nat>): (order: seq<int>)
    requires |list| <= |dice| && Rolled(dice)
    ensures |order| == |list|
  {
    Shuffled(list, |list| - 1, dice)
  }

  lemma TroubleRoom(h: Health, attrPoint: nat)
    requires h.Valid()
    ensures |AllTroubles(h, attrPoint)| <= PROP_COUNT + A_MAX * attrPoint
  {
  }

  lemma ReshuffledSame(h: Health, attrPoint: nat, dice: seq<nat>)
    requires h.Valid() && Rolled(dice) && |dice| == PROP_COUNT + A_MAX * attrPoint
    ensures |AllTroubles(h, attrPoint)| <= |dice|
    ensures var order := Reshuffled(AllTroubles(h, attrPoint), dice); Reordered(h, attrPoint, order) && Encoded(order)
  {
    var all := AllTroubles(h, attrPoint);
    TroubleRoom(h, attrPoint);
    ShuffledSame(all, |all| - 1, dice);
    ReorderedIsEncoded(h, attrPoint, Reshuffled(all, dice));
  }

  /** The hero's health afterwards, how many properties were treated, and how many fixes there were. */
  function Outcome(h: Health, attrPoint: nat, pick: nat, dice: seq<nat>): (r: (Health, nat, nat))
    requires h.Valid() && Rolled(dice) && |dice| == PROP_COUNT + A_MAX * attrPoint
  {
    ReshuffledSame(h, attrPoint, dice);
    var order := Reshuffled(AllTroubles(h, attrPoint), dice);
    var fixes := if pick < |order| then pick else |order|;
    (FixFirst(h, order, fixes), PropFixes(order, fixes), fixes)
  }

  /** Only the part of the list that is worked through matters. */
  lemma OutcomeIs(h: Health, attrPoint: nat, pick: nat, dice: seq<nat>, order: seq<int>, part: seq<int>)
    requires h.Valid() && Rolled(dice) && |dice| == PROP_COUNT + A_MAX * attrPoint
    requires |AllTroubles(h, attrPoint)| <= |dice| && order == Reshuffled(AllTroubles(h, attrPoint), dice)
    requires part == order[..if pick < |order| then pick else |order|]
    ensures Encoded(part) && Outcome(h, attrPoint, pick, dice) == (FixFirst(h, part, |part|), PropFixes(part, |part|), |part|)
  {
    ReshuffledSame(h, attrPoint, dice);
    SameFirst(h, part, order, |part|);
  }

  /** Attribute points restored plus properties treated make up the fixes drawn: as many as the dice gave,
      but no more than there are troubles, and at most 7 (3 without a blessing). No attribute gains more
      than its share or passes its peak, and none goes down. */
  lemma OutcomeIsBounded(h: Health, blessed: bool, attrPoint: nat, d1: nat, d2: nat, pick: nat, dice: seq<nat>, i: int)
    requires h.Valid() && Rolled(dice) && |dice| == PROP_COUNT + A_MAX * attrPoint && 0 <= i < A_MAX
    requires var sides := if blessed then 4 else 2;
             1 <= d1 <= sides && 1 <= d2 <= sides && pick < d1 + d2
    ensures var (h', props, fixes) := Outcome(h, attrPoint, pick, dice);
            && Sum(h'.base) - Sum(h.base) + props == fixes
            && fixes <= pick <= (if blessed then 7 else 3)
            && (fixes == pick || fixes == |AllTroubles(h, attrPoint)|)
            && h.base[i] <= h'.base[i] <= h.base[i] + Gain(h, i, attrPoint)
            && (fixes == |AllTroubles(h, attrPoint)| ==> h'.base[i] == h.base[i] + Gain(h, i, attrPoint))
  {
    ReshuffledSame(h, attrPoint, dice);
    var order := Reshuffled(AllTroubles(h, attrPoint), dice);
    var fixes := if pick < |order| then pick else |order|;
    FixesAddUp(h, order, fixes);
    FixedBase(h, order, fixes, i);
    ComesUp(h, attrPoint, order, fixes, i);
  }

  /** Whichever selection of the listed troubles one names, in whatever order, some dice fix just those. */
  lemma AnyOrderCanCome(h: Health, attrPoint: nat, order: seq<int>) returns (dice: seq<nat>)
    requires h.Valid() && Reordered(h, attrPoint, order)
    ensures Rolled(dice) && |dice| == PROP_COUNT + A_MAX * attrPoint && |AllTroubles(h, attrPoint)| <= |dice|
    ensures Reshuffled(AllTroubles(h, attrPoint), dice) == order
  {
    var all := AllTroubles(h, attrPoint);
    ReorderedIsEncoded(h, attrPoint, order);
    TroubleRoom(h, attrPoint);
    var few := ShuffleReaches(all, |all| - 1, order);
    dice := few + seq(PROP_COUNT + A_MAX * attrPoint - |all|, _ => 0);
    SameDice(all, |all| - 1, few, dice);
  }
}
