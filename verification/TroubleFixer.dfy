/** fix_attributes_and_properties (apply.c) in its own form: the trouble list is an array, filled, shuffled
    in place and worked through, and the hero's fields change as it goes. */
module TroubleFixer {
  import opened Troubles

  class Hero {
    const uprops: array<Intrinsic>
    const abase: array<int>
    const amax: array<int>
    var sickType: set<Sickness>
    const creamed: nat
    const weak: bool

    constructor (props: seq<Intrinsic>, base: seq<int>, peak: seq<int>, sick: set<Sickness>, creamed: nat, weak: bool)
      requires |props| == LAST_PROP + 1 && |base| == A_MAX == |peak|
      ensures Valid() && fresh(uprops) && fresh(abase) && fresh(amax)
      ensures Val() == Health(props, sick, creamed, weak, base, peak)
    {
      uprops := new Intrinsic[|props|](i requires 0 <= i < |props| => props[i]);
      abase := new int[A_MAX](i requires 0 <= i < A_MAX => base[i]);
      amax := new int[A_MAX](i requires 0 <= i < A_MAX => peak[i]);
      sickType, this.creamed, this.weak := sick, creamed, weak;
      new;
      assert uprops[..] == props && abase[..] == base && amax[..] == peak;
    }

    ghost predicate Valid() {
      uprops.Length == LAST_PROP + 1 && abase.Length == A_MAX == amax.Length && abase != amax
    }

    function Val(): (h: Health)
      reads this, uprops, abase, amax
      requires Valid()
      ensures h.Valid()
    {
      Health(uprops[..], sickType, creamed, weak, abase[..], amax[..])
    }

    method CollectProp(p: int, list: array<int>, n: nat, ghost h: Health) returns (count: nat)
      requires Valid() && h == Val() && 0 <= p <= LAST_PROP && n < list.Length
      requires list !in {abase, amax}
      modifies list
      ensures count <= n + 1 && count <= list.Length
      ensures list[..count] == old(list[..n]) + PropTrouble(h, p)
    {
      count := n;
      if Value(uprops[p]) > if p == BLINDED then creamed else 0 {
        list[count] := p + A_MAX;
        count := count + 1;
      }
    }

    method CollectProps(list: array<int>) returns (count: nat)
      requires Valid() && list.Length >= PROP_COUNT
      requires list !in {abase, amax}
      modifies list
      ensures count <= PROP_COUNT && list[..count] == PropTroubles(Val(), PROP_COUNT)
    {
      ghost var h := Val();
      count := CollectProp(SICK, list, 0, h);
      assert list[..count] == PropTroubles(h, 1);
      count := CollectProp(BLINDED, list, count, h);
      assert list[..count] == PropTroubles(h, 2);
      count := CollectProp(HALLUC, list, count, h);
      assert list[..count] == PropTroubles(h, 3);
      count := CollectProp(VOMITING, list, count, h);
      assert list[..count] == PropTroubles(h, 4);
      count := CollectProp(CONFUSION, list, count, h);
      assert list[..count] == PropTroubles(h, 5);
      count := CollectProp(STUNNED, list, count, h);
    }

    /** The points of one attribute. */
    method CollectAttr(idx: nat, attrPoint: nat, list: array<int>, n: nat, ghost h: Health) returns (count: nat)
      requires Valid() && h == Val() && idx < A_MAX && n + attrPoint <= list.Length
      requires list !in {abase, amax}
      modifies list
      ensures n <= count <= n + attrPoint
      ensures list[..count] == old(list[..n]) + Repeat(idx, Gain(h, idx, attrPoint))
    {
      count := n;
      var limit := amax[idx];
      if idx == A_STR && weak {
        limit := limit - 1;
      }
      if limit > abase[idx] + attrPoint {
        limit := abase[idx] + attrPoint;
      }
      var val := abase[idx];
      while val < limit
        invariant abase[idx] <= val && (val <= limit || val == abase[idx])
        invariant count == n + (val - abase[idx])
        invariant list[..count] == old(list[..n]) + Repeat(idx, val - abase[idx])
      {
        list[count] := idx;
        count := count + 1;
        val := val + 1;
      }
    }

    method Collect(attrPoint: nat, list: array<int>) returns (count: nat)
      requires Valid() && list.Length == PROP_COUNT + A_MAX * attrPoint
      requires list !in {abase, amax}
      modifies list
      ensures count <= list.Length && list[..count] == AllTroubles(Val(), attrPoint)
    {
      ghost var h := Val();
      count := CollectProps(list);
      var idx := 0;
      while idx < A_MAX
        invariant 0 <= idx <= A_MAX && count <= PROP_COUNT + idx * attrPoint
        invariant list[..count] == PropTroubles(h, PROP_COUNT) + AttrTroubles(h, attrPoint, idx)
      {
        Room(idx, attrPoint);
        count := CollectAttr(idx, attrPoint, list, count, h);
        idx := idx + 1;
      }
    }

    method Treat(p: int)
      requires Valid() && IsProp(p + A_MAX)
      modifies this`sickType, uprops
      ensures Val() == FixProp(old(Val()), p)
    {
      if p == SICK {
        if Value(uprops[SICK]) != 0 && sickType != {} {
          sickType := {};
          uprops[SICK] := Intrinsic(0, 0);
        }
      } else {
        uprops[p] := SetTimeout(uprops[p], if p == BLINDED then creamed else 0);
      }
    }

    /** The loop that fixes the first troubles of the list. Every entry is one of the known kinds, so the
        panic for a bad one is never reached. */
    method Fix(list: array<int>, limit: nat) returns (didProp: nat, didAttr: nat)
      requires Valid() && limit <= list.Length && list !in {abase, amax} && Encoded(list[..limit])
      modifies this`sickType, uprops, abase
      ensures Val() == FixFirst(old(Val()), list[..limit], limit)
      ensures didProp == PropFixes(list[..limit], limit) && didProp + didAttr == limit
    {
      ghost var order := list[..limit];
      didProp, didAttr := 0, 0;
      var val := 0;
      while val < limit
        invariant 0 <= val <= limit && list[..limit] == order
        invariant Val() == FixFirst(old(Val()), order, val)
        invariant didProp == PropFixes(order, val) && didProp + didAttr == val
      {
        var t := list[val];
        assert t == order[val];
        if IsProp(t) {
          Treat(t - A_MAX);
          didProp := didProp + 1;
        } else if 0 <= t < A_MAX {
          abase[t] := abase[t] + 1;
          didAttr := didAttr + 1;
        } else {
          assert false;
        }
        val := val + 1;
      }
    }

    /** The list, in its final order. */
    method Order(attrPoint: nat, dice: seq<nat>) returns (list: array<int>, count: nat)
      requires Valid() && Rolled(dice) && |dice| == PROP_COUNT + A_MAX * attrPoint
      ensures fresh(list) && count <= list.Length && count == |AllTroubles(Val(), attrPoint)|
      ensures list[..count] == Reshuffled(AllTroubles(Val(), attrPoint), dice)
    {
      list := new int[PROP_COUNT + A_MAX * attrPoint];
      count := Collect(attrPoint, list);
      if count > 1 {
        Shuffle(list, count, dice);
      }
    }

    /** The whole function for a horn that is not cursed. The dice: two for how many troubles at most, one
        for how many of those, and one for each step of the shuffle. */
    method FixTroubles(blessed: bool, attrPoint: nat, d1: nat, d2: nat, pick: nat, dice: seq<nat>)
      returns (didProp: nat, didAttr: nat)
      requires Valid() && Rolled(dice) && |dice| == PROP_COUNT + A_MAX * attrPoint
      requires var sides := if blessed then 4 else 2;
               1 <= d1 <= sides && 1 <= d2 <= sides && pick < d1 + d2
      modifies this`sickType, uprops, abase
      ensures var (h, props, fixes) := Outcome(old(Val()), attrPoint, pick, dice);
              Val() == h && didProp == props && didProp + didAttr == fixes
    {
      ghost var was := Val();
      var list, count := Order(attrPoint, dice);
      var limit := if pick < count then pick else count;
      OutcomeIs(was, attrPoint, pick, dice, list[..count], list[..limit]);
      didProp, didAttr := Fix(list, limit);
    }
  }

  /** The shuffle in place. */
  method Shuffle(list: array<int>, count: nat, dice: seq<nat>)
    requires 1 < count <= list.Length && count <= |dice| && Rolled(dice)
    modifies list
    ensures list[..count] == Shuffled(old(list[..count]), count - 1, dice)
  {
    var i := count - 1;
    while i > 0
      invariant 0 <= i < count
      invariant Shuffled(list[..count], i, dice) == Shuffled(old(list[..count]), count - 1, dice)
    {
      var j := dice[i];
      ghost var s := list[..count];
      if j != i {
        list[j], list[i] := list[i], list[j];
      }
      assert list[..count] == Swapped(s, i, j);
      i := i - 1;
    }
  }
}
