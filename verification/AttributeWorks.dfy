/** adjattrib, losestr, redist_attr and init_attr (attrib.c) in their own form, on the hero's attribute
    arrays. */
module AttributeWorks {
  import opened Attributes
  import opened InitAttr

  class Hero {
    const abase: array<int>
    const amax: array<int>
    const attrmin: seq<int>
    const attrmax: seq<int>
    const fixedAbil: bool
    const dunce: bool
    var hp: int
    var hpMax: int

    constructor (attrmin: seq<int>, attrmax: seq<int>, fixedAbil: bool, dunce: bool, hp: int)
      requires |attrmin| == A_MAX == |attrmax| && forall i :: 0 <= i < A_MAX ==> Bounds(attrmin[i], attrmax[i])
      ensures Valid() && fresh(abase) && fresh(amax) && this.hp == hp == hpMax
      ensures this.attrmin == attrmin && this.attrmax == attrmax && this.fixedAbil == fixedAbil && this.dunce == dunce
    {
      abase := new int[A_MAX](_ => 0);
      amax := new int[A_MAX](_ => 0);
      this.attrmin, this.attrmax, this.fixedAbil, this.dunce := attrmin, attrmax, fixedAbil, dunce;
      this.hp, hpMax := hp, hp;
    }

    ghost predicate Valid() {
      && abase.Length == A_MAX == amax.Length && abase != amax
      && |attrmin| == A_MAX == |attrmax| && forall i :: 0 <= i < A_MAX ==> Bounds(attrmin[i], attrmax[i])
    }

    ghost function Attrs(): (attrs: seq<Attr>)
      reads abase, amax
      requires Valid()
      ensures |attrs| == A_MAX
    {
      seq(A_MAX, i requires 0 <= i < A_MAX reads abase, amax => Attr(abase[i], amax[i]))
    }

    ghost function Val(): (b: Body)
      reads this, abase, amax
      requires Valid()
      ensures b.Valid()
    {
      Body(Attrs(), attrmin, attrmax, fixedAbil, dunce, hp)
    }

    /** adjattrib, past the tests for a fixed or barred attribute. */
    method Change(i: nat, curr: int, incr: int) returns (changed: bool)
      requires Valid() && i < A_MAX && incr != 0
      modifies abase, amax
      ensures var r := Adjusted(old(Attr(abase[i], amax[i])), attrmin[i], attrmax[i], curr, incr);
              Attr(abase[i], amax[i]) == r.0 && changed == r.1
      ensures forall k :: 0 <= k < A_MAX && k != i ==> abase[k] == old(abase[k]) && amax[k] == old(amax[k])
    {
      var inc := incr;
      if incr > 0 {
        if amax[i] >= attrmax[i] && curr >= amax[i] {
          amax[i] := attrmax[i];
          abase[i] := amax[i];
          return false;
        }
        abase[i] := ToSchar(abase[i] + inc);
        if abase[i] > amax[i] {
          inc := abase[i] - amax[i];
          amax[i] := amax[i] + inc;
          if amax[i] > attrmax[i] {
            amax[i] := attrmax[i];
          }
          abase[i] := amax[i];
        }
      } else {
        if abase[i] <= attrmin[i] {
          abase[i] := attrmin[i];
          return false;
        }
        abase[i] := ToSchar(abase[i] + inc);
        if abase[i] < attrmin[i] {
          inc := abase[i] - attrmin[i];
          abase[i] := attrmin[i];
          amax[i] := ToSchar(amax[i] + inc);
          if amax[i] < attrmin[i] {
            amax[i] := attrmin[i];
          }
        }
      }
      return true;
    }

    /** adjattrib */
    method Adjust(i: nat, curr: int, incr: int) returns (changed: bool)
      requires Valid() && i < A_MAX
      modifies abase, amax
      ensures Val() == AdjAttrib(old(Val()), i, curr, incr)
      ensures changed == (!Barred(old(Val()), i) && Adjusted(old(Attrs()[i]), attrmin[i], attrmax[i], curr, incr).1)
    {
      ghost var attrs := Attrs();
      if fixedAbil || incr == 0 {
        assert attrs[i := attrs[i]] == attrs;
        return false;
      }
      if (i == A_INT || i == A_WIS) && dunce {
        return false;
      }
      changed := Change(i, curr, incr);
      assert Attrs() == attrs[i := Attr(abase[i], amax[i])];
    }

    /** losestr; its loop trades points the hero cannot pay in strength for hit points. */
    method LoseStrength(curr: int, num: int)
      requires Valid()
      modifies this, abase, amax
      ensures Val() == LoseStr(old(Val()), curr, num)
      ensures hpMax - old(hpMax) == hp - old(hp)
    {
      var ustr, left := abase[A_STR] - num, num;
      while ustr < 3
        invariant left - num == abase[A_STR] - num - ustr <= 0
        invariant num - left <= PaidInHp(abase[A_STR], num) && (ustr < 3 || num - left == PaidInHp(abase[A_STR], num))
        invariant hp == old(hp) - 6 * (num - left) && hpMax == old(hpMax) - 6 * (num - left)
        invariant Attrs() == old(Attrs())
      {
        ustr := ustr + 1;
        left := left - 1;
        hp := hp - 6;
        hpMax := hpMax - 6;
      }
      var changed := Adjust(A_STR, curr, -left);
    }

    /** redist_attr */
    method Redistribute(dice: seq<int>)
      requires Valid() && |dice| == A_MAX && forall i :: 0 <= i < A_MAX ==> -2 <= dice[i] <= 2
      requires forall i :: 0 <= i < A_MAX ==> amax[i] > 0 && abase[i] >= 0
      modifies abase, amax
      ensures Val() == RedistBelow(old(Val()), dice, A_MAX)
    {
      var i := 0;
      while i < A_MAX
        invariant 0 <= i <= A_MAX
        invariant Val() == RedistBelow(old(Val()), dice, i)
      {
        if i != A_INT && i != A_WIS {
          ghost var attrs := Attrs();
          assert attrs[i] == old(Attrs()[i]);
          RedistributeOne(i, dice[i]);
          assert Attrs() == attrs[i := Attr(abase[i], amax[i])];
        }
        i := i + 1;
      }
    }

    method RedistributeOne(i: nat, die: int)
      requires Valid() && i < A_MAX && amax[i] > 0
      modifies abase, amax
      ensures Attr(abase[i], amax[i]) == Redistributed(old(Attr(abase[i], amax[i])), attrmin[i], attrmax[i], die)
      ensures forall k :: 0 <= k < A_MAX && k != i ==> abase[k] == old(abase[k]) && amax[k] == old(amax[k])
    {
      var tmp := amax[i];
      amax[i] := amax[i] + die;
      if amax[i] > attrmax[i] {
        amax[i] := attrmax[i];
      }
      if amax[i] < attrmin[i] {
        amax[i] := attrmin[i];
      }
      abase[i] := abase[i] * amax[i] / tmp;
      if abase[i] < attrmin[i] {
        abase[i] := attrmin[i];
      }
    }

    /** init_attr: the role's base values first. */
    method SetBase(np: int, base: seq<int>) returns (left: int)
      requires Valid() && |base| == A_MAX
      modifies abase, amax
      ensures abase[..] == base == amax[..] && left == np - Sum(base)
    {
      left := np;
      var i := 0;
      while i < A_MAX
        invariant 0 <= i <= A_MAX && left == np - Sum(base[..i])
        invariant forall k :: 0 <= k < i ==> abase[k] == base[k] == amax[k]
      {
        abase[i] := base[i];
        amax[i] := base[i];
        left := left - base[i];
        SumNext(base, i + 1);
        i := i + 1;
      }
      assert base[..i] == base;
    }

    /** The attribute chosen goes up a point, base and peak, unless it is full. */
    method RaiseChosen(dist: seq<int>, roll: nat -> nat, next: nat) returns (full: bool)
      requires Valid() && Fair(dist, roll) && amax[..] == abase[..]
      modifies abase, amax
      ensures var i, was := Chosen(dist, roll, next), old(abase[..]);
              && full == (was[i] >= attrmax[i])
              && abase[..] == (if full then was else was[i := was[i] + 1]) == amax[..]
    {
      PickFair(dist, roll, next);
      var i := PickOne(dist, roll(next));
      full := abase[i] >= attrmax[i];
      if !full {
        abase[i] := abase[i] + 1;
        amax[i] := amax[i] + 1;
      }
    }

    /** Or down, unless it is at its minimum. */
    method LowerChosen(dist: seq<int>, roll: nat -> nat, next: nat) returns (spent: bool)
      requires Valid() && Fair(dist, roll) && amax[..] == abase[..]
      modifies abase, amax
      ensures var i, was := Chosen(dist, roll, next), old(abase[..]);
              && spent == (was[i] <= attrmin[i])
              && abase[..] == (if spent then was else was[i := was[i] - 1]) == amax[..]
    {
      PickFair(dist, roll, next);
      var i := PickOne(dist, roll(next));
      spent := abase[i] <= attrmin[i];
      if !spent {
        abase[i] := abase[i] - 1;
        amax[i] := amax[i] - 1;
      }
    }

    /** Its first loop. */
    method GrowLoop(start: int, dist: seq<int>, roll: nat -> nat) returns (left: int, next: nat)
      requires Valid() && Fair(dist, roll) && amax[..] == abase[..]
      modifies abase, amax
      ensures amax[..] == abase[..]
      ensures Spread(abase[..], left, next) == Grow(Spread(old(abase[..]), start, 0), 0, attrmax, dist, roll)
    {
      left, next := start, 0;
      var tryct := 0;
      while left > 0 && tryct < 100
        invariant 0 <= tryct <= 100 && amax[..] == abase[..]
        invariant Grow(Spread(abase[..], left, next), tryct, attrmax, dist, roll)
               == Grow(Spread(old(abase[..]), start, 0), 0, attrmax, dist, roll)
        decreases left, 100 - tryct
      {
        var full := RaiseChosen(dist, roll, next);
        next := next + 1;
        if full {
          tryct := tryct + 1;
          continue;
        }
        tryct := 0;
        left := left - 1;
      }
    }

    /** Its second loop. */
    method ShrinkLoop(start: int, from: nat, dist: seq<int>, roll: nat -> nat) returns (left: int, next: nat)
      requires Valid() && Fair(dist, roll) && amax[..] == abase[..]
      modifies abase, amax
      ensures amax[..] == abase[..]
      ensures Spread(abase[..], left, next) == Shrink(Spread(old(abase[..]), start, from), 0, attrmin, dist, roll)
    {
      left, next := start, from;
      var tryct := 0;
      while left < 0 && tryct < 100
        invariant 0 <= tryct <= 100 && amax[..] == abase[..]
        invariant Shrink(Spread(abase[..], left, next), tryct, attrmin, dist, roll)
               == Shrink(Spread(old(abase[..]), start, from), 0, attrmin, dist, roll)
        decreases -left, 100 - tryct
      {
        var spent := LowerChosen(dist, roll, next);
        next := next + 1;
        if spent {
          tryct := tryct + 1;
          continue;
        }
        tryct := 0;
        left := left + 1;
      }
    }

    /** init_attr; left is what could not be spread. */
    method InitAttributes(np: int, base: seq<int>, dist: seq<int>, roll: nat -> nat) returns (left: int, next: nat)
      requires Valid() && |base| == A_MAX && Fair(dist, roll)
      modifies abase, amax
      ensures amax[..] == abase[..]
      ensures Spread(abase[..], left, next) == Initial(np, base, attrmin, attrmax, dist, roll)
    {
      left := SetBase(np, base);
      left, next := GrowLoop(left, dist, roll);
      left, next := ShrinkLoop(left, next, dist, roll);
    }
  }

  /** The loop that turns a roll into an attribute. */
  method PickOne(dist: seq<int>, roll: int) returns (i: nat)
    ensures i == Pick(dist, roll, 0)
  {
    i := 0;
    var x := roll;
    while i < |dist|
      invariant i <= |dist| && Pick(dist, x, i) == Pick(dist, roll, 0)
    {
      if x - dist[i] <= 0 {
        return;
      }
      x := x - dist[i];
      i := i + 1;
    }
  }
}
