/** How a new hero's attribute points are spread (init_attr in attrib.c, with the role and race tables of
    role.c). */
module InitAttr {
  import opened Attributes

  datatype Role =
    | Archeologist | Barbarian | Caveman | Convict | Healer | Knight | Monk | Priest | Rogue | Ranger
    | Samurai | Tourist | Valkyrie | Wizard

  datatype Race = Human | Elf | Dwarf | Gnome | Orc | Vampire

  /** attrbase: Str, Int, Wis, Dex, Con, Cha. */
  function RoleBase(r: Role): (base: seq<int>)
    ensures |base| == A_MAX
  {
    match r
    case Archeologist => [7, 10, 10, 7, 7, 7]
    case Barbarian => [16, 7, 7, 15, 16, 6]
    case Caveman => [10, 7, 7, 7, 8, 6]
    case Convict => [10, 7, 7, 7, 13, 6]
    case Healer => [7, 7, 13, 7, 11, 16]
    case Knight => [13, 7, 14, 8, 10, 17]
    case Monk => [10, 7, 8, 8, 7, 7]
    case Priest => [7, 7, 10, 7, 7, 7]
    case Rogue => [7, 7, 7, 10, 7, 6]
    case Ranger => [13, 13, 13, 9, 13, 7]
    case Samurai => [10, 8, 7, 10, 17, 6]
    case Tourist => [7, 10, 6, 7, 7, 10]
    case Valkyrie => [10, 7, 7, 7, 10, 7]
    case Wizard => [7, 10, 7, 7, 7, 7]
  }

  /** attrdist */
  function RoleDist(r: Role): (dist: seq<int>)
    ensures |dist| == A_MAX
  {
    match r
    case Archeologist => [20, 20, 20, 10, 20, 10]
    case Barbarian => [30, 6, 7, 20, 30, 7]
    case Caveman => [30, 6, 7, 20, 30, 7]
    case Convict => [20, 20, 10, 20, 20, 10]
    case Healer => [15, 20, 20, 15, 25, 5]
    case Knight => [30, 15, 15, 10, 20, 10]
    case Monk => [25, 10, 20, 20, 15, 10]
    case Priest => [15, 10, 30, 15, 20, 10]
    case Rogue => [20, 10, 10, 30, 20, 10]
    case Ranger => [30, 10, 10, 20, 20, 10]
    case Samurai => [30, 10, 8, 30, 14, 8]
    case Tourist => [15, 10, 10, 15, 30, 20]
    case Valkyrie => [30, 6, 7, 20, 30, 7]
    case Wizard => [10, 30, 10, 20, 20, 10]
  }

  function RaceMax(r: Race): (hi: seq<int>)
    ensures |hi| == A_MAX
  {
    match r
    case Human => [118, 18, 18, 18, 18, 18]
    case Elf => [18, 20, 20, 18, 16, 18]
    case Dwarf => [118, 16, 16, 20, 20, 16]
    case Gnome => [68, 19, 18, 18, 18, 18]
    case Orc => [68, 16, 16, 18, 18, 16]
    case Vampire => [119, 18, 18, 20, 20, 20]
  }

  function RaceMin(): (lo: seq<int>)
    ensures |lo| == A_MAX
  {
    [3, 3, 3, 3, 3, 3]
  }

  function Sum(s: seq<int>): int {
    if s == [] then 0 else Sum(s[..|s| - 1]) + s[|s| - 1]
  }

  lemma SumNext(s: seq<int>, n: nat)
    requires 0 < n <= |s|
    ensures Sum(s[..n]) == Sum(s[..n - 1]) + s[n - 1]
  {
    assert s[..n][..n - 1] == s[..n - 1];
  }

  lemma SumOfSix(s: seq<int>)
    requires |s| == A_MAX
    ensures Sum(s) == s[0] + s[1] + s[2] + s[3] + s[4] + s[5]
  {
    assert s[..6] == s && s[..0] == [];
    SumNext(s, 6);
    SumNext(s, 5);
    SumNext(s, 4);
    SumNext(s, 3);
    SumNext(s, 2);
    SumNext(s, 1);
  }

  lemma {:induction false} SumUpdate(s: seq<int>, i: nat, v: int)
    requires i < |s|
    ensures Sum(s[i := v]) == Sum(s) - s[i] + v
  {
    var n := |s| - 1;
    if i == n {
      assert s[i := v][..n] == s[..n];
    } else {
      assert s[i := v][..n] == s[..n][i := v];
      SumUpdate(s[..n], i, v);
    }
  }

  // ----- choosing an attribute -----

  /** for (i = ...; i < A_MAX && (x -= dist[i]) > 0; i++), started at i. */
  function Pick(dist: seq<int>, x: int, i: nat): (r: nat)
    requires i <= |dist|
    ensures i <= r <= |dist|
    decreases |dist| - i
  {
    if i == |dist| || x - dist[i] <= 0 then i else Pick(dist, x - dist[i], i + 1)
  }

  ghost predicate Shares(dist: seq<int>) {
    |dist| == A_MAX && forall i :: 0 <= i < A_MAX ==> dist[i] > 0
  }

  /** The choice falls where the running total first reaches x. */
  lemma {:induction false} PickIs(dist: seq<int>, x: int, i: nat)
    requires Shares(dist) && i <= A_MAX
    ensures var r := Pick(dist, x, i);
            && (r > i ==> Sum(dist[..r]) - Sum(dist[..i]) < x)
            && (r < A_MAX ==> x <= Sum(dist[..r + 1]) - Sum(dist[..i]))
    decreases A_MAX - i
  {
    if i < A_MAX {
      assert dist[..i + 1][..i] == dist[..i];
      if x - dist[i] > 0 {
        PickIs(dist, x - dist[i], i + 1);
      }
    }
  }

  lemma {:induction false} SumGrows(dist: seq<int>, i: nat, k: nat)
    requires Shares(dist) && i <= k <= A_MAX
    ensures Sum(dist[..i]) + (k - i) <= Sum(dist[..k])
    decreases k - i
  {
    if i < k {
      SumGrows(dist, i, k - 1);
      assert dist[..k][..k - 1] == dist[..k - 1];
    }
  }

  /** Exactly which rolls choose attribute i. The first attribute's share includes the roll 0. */
  lemma PickIff(dist: seq<int>, x: nat, i: nat)
    requires Shares(dist) && i < A_MAX
    ensures Pick(dist, x, 0) == i <==> (i == 0 || Sum(dist[..i]) < x) && x <= Sum(dist[..i + 1])
  {
    var r := Pick(dist, x, 0);
    PickIs(dist, x, 0);
    assert dist[..0] == [];
    if r < i {
      SumGrows(dist, r + 1, i);
    } else if i < r {
      SumGrows(dist, i + 1, r);
    }
  }

  /** No roll below 100 misses exactly if the shares add up to 99 at least. (A miss would count neither as a
      point nor as a try, so that only chance would end the loop.) */
  lemma NoMissIff(dist: seq<int>)
    requires Shares(dist)
    ensures (forall x :: 0 <= x < 100 ==> Pick(dist, x, 0) < A_MAX) <==> Sum(dist) >= 99
  {
    assert dist[..A_MAX] == dist && dist[..0] == [];
    forall x | 0 <= x < 100 && Sum(dist) >= 99
      ensures Pick(dist, x, 0) < A_MAX
    {
      PickIs(dist, x, 0);
    }
    if Sum(dist) < 99 {
      PickIs(dist, 99, 0);
      SumGrows(dist, 0, A_MAX);
      NotPicked(dist, 99);
    }
  }

  lemma NotPicked(dist: seq<int>, x: int)
    requires Shares(dist) && x > Sum(dist)
    ensures Pick(dist, x, 0) == A_MAX
  {
    var r := Pick(dist, x, 0);
    assert dist[..A_MAX] == dist && dist[..0] == [];
    PickIs(dist, x, 0);
    if r < A_MAX {
      SumGrows(dist, r + 1, A_MAX);
    }
  }

  /** How many rolls below n choose attribute i. */
  function Chances(dist: seq<int>, i: nat, n: nat): nat {
    if n == 0 then 0 else Chances(dist, i, n - 1) + if Pick(dist, n - 1, 0) == i then 1 else 0
  }

  lemma {:induction false} ChancesAre(dist: seq<int>, i: nat, n: nat)
    requires Shares(dist) && i < A_MAX
    ensures Chances(dist, i, n) ==
            if i == 0 then Min(n, dist[0] + 1) else Max(0, Min(n - 1, Sum(dist[..i + 1])) - Sum(dist[..i]))
  {
    assert dist[..i + 1][..i] == dist[..i];
    if i == 0 {
      assert dist[..0] == [];
    } else {
      SumGrows(dist, 0, i);
      assert dist[..0] == [];
    }
    if n > 0 {
      ChancesAre(dist, i, n - 1);
      PickIff(dist, n - 1, i);
    }
  }

  /** The chances in a hundred are the table's shares, but for the first attribute, which has one more, and
      the last, which has one less: the roll is taken from 0 to 99 and compared as if from 1 to 100. */
  lemma ChancesInHundred(dist: seq<int>, i: nat)
    requires Shares(dist) && Sum(dist) == 100 && i < A_MAX
    ensures Chances(dist, i, 100) == dist[i] + (if i == 0 then 1 else 0) - (if i == A_MAX - 1 then 1 else 0)
  {
    ChancesAre(dist, i, 100);
    assert dist[..i + 1][..i] == dist[..i];
    assert dist[..A_MAX] == dist;
    SumGrows(dist, i + 1, A_MAX);
    SumGrows(dist, 1, A_MAX);
    assert dist[..1][..0] == [];
  }

  // ----- spreading the points -----

  /** The role's shares, and rolls that never run out; roll k is rn2(100). */
  ghost predicate Fair(dist: seq<int>, roll: nat -> nat) {
    Shares(dist) && Sum(dist) == 100 && forall k :: roll(k) < 100
  }

  lemma PickFair(dist: seq<int>, roll: nat -> nat, k: nat)
    requires Fair(dist, roll)
    ensures Pick(dist, roll(k), 0) < A_MAX
  {
    NoMissIff(dist);
  }

  /** The attribute that roll k chooses. */
  ghost function Chosen(dist: seq<int>, roll: nat -> nat, k: nat): (i: nat)
    requires Fair(dist, roll)
    ensures i < A_MAX
  {
    PickFair(dist, roll, k);
    Pick(dist, roll(k), 0)
  }

  datatype Spread = Spread(vals: seq<int>, left: int, next: nat)

  /** The first loop: while points are left, one goes to an attribute chosen by roll, unless that one is at
      its maximum; a hundred such misses in a row end the loop. */
  ghost function Grow(s: Spread, misses: nat, hi: seq<int>, dist: seq<int>, roll: nat -> nat): (r: Spread)
    requires |s.vals| == A_MAX == |hi| && misses <= 100 && Fair(dist, roll)
    ensures |r.vals| == A_MAX && r.next >= s.next
    decreases s.left, 100 - misses
  {
    if s.left <= 0 || misses == 100 then s
    else
      var i := Chosen(dist, roll, s.next);
      if s.vals[i] >= hi[i] then Grow(s.(next := s.next + 1), misses + 1, hi, dist, roll)
      else Grow(Spread(s.vals[i := s.vals[i] + 1], s.left - 1, s.next + 1), 0, hi, dist, roll)
  }

  /** The second loop, the same the other way. */
  ghost function Shrink(s: Spread, misses: nat, lo: seq<int>, dist: seq<int>, roll: nat -> nat): (r: Spread)
    requires |s.vals| == A_MAX == |lo| && misses <= 100 && Fair(dist, roll)
    ensures |r.vals| == A_MAX && r.next >= s.next
    decreases -s.left, 100 - misses
  {
    if s.left >= 0 || misses == 100 then s
    else
      var i := Chosen(dist, roll, s.next);
      if s.vals[i] <= lo[i] then Shrink(s.(next := s.next + 1), misses + 1, lo, dist, roll)
      else Shrink(Spread(s.vals[i := s.vals[i] - 1], s.left + 1, s.next + 1), 0, lo, dist, roll)
  }

  ghost function Initial(np: int, base: seq<int>, lo: seq<int>, hi: seq<int>, dist: seq<int>, roll: nat -> nat): Spread
    requires |base| == A_MAX == |lo| == |hi| && Fair(dist, roll)
  {
    Shrink(Grow(Spread(base, np - Sum(base), 0), 0, hi, dist, roll), 0, lo, dist, roll)
  }

  predicate Within(vals: seq<int>, lo: seq<int>, hi: seq<int>)
    requires |vals| == A_MAX == |lo| == |hi|
  {
    forall i :: 0 <= i < A_MAX ==> lo[i] <= vals[i] <= hi[i]
  }

  lemma {:induction false} GrowSum(s: Spread, misses: nat, hi: seq<int>, dist: seq<int>, roll: nat -> nat)
    requires |s.vals| == A_MAX == |hi| && misses <= 100 && Fair(dist, roll)
    ensures var r := Grow(s, misses, hi, dist, roll);
            && Sum(r.vals) + r.left == Sum(s.vals) + s.left
            && (s.left >= 0 ==> 0 <= r.left) && (s.left < 0 ==> r == s)
    decreases s.left, 100 - misses
  {
    if s.left > 0 && misses < 100 {
      var i := Chosen(dist, roll, s.next);
      if s.vals[i] >= hi[i] {
        GrowSum(s.(next := s.next + 1), misses + 1, hi, dist, roll);
      } else {
        SumUpdate(s.vals, i, s.vals[i] + 1);
        GrowSum(Spread(s.vals[i := s.vals[i] + 1], s.left - 1, s.next + 1), 0, hi, dist, roll);
      }
    }
  }

  lemma {:induction false} GrowWithin(s: Spread, misses: nat, lo: seq<int>, hi: seq<int>, dist: seq<int>, roll: nat -> nat)
    requires |s.vals| == A_MAX == |lo| == |hi| && misses <= 100 && Fair(dist, roll) && Within(s.vals, lo, hi)
    ensures Within(Grow(s, misses, hi, dist, roll).vals, lo, hi)
    decreases s.left, 100 - misses
  {
    if s.left > 0 && misses < 100 {
      var i := Chosen(dist, roll, s.next);
      if s.vals[i] >= hi[i] {
        GrowWithin(s.(next := s.next + 1), misses + 1, lo, hi, dist, roll);
      } else {
        GrowWithin(Spread(s.vals[i := s.vals[i] + 1], s.left - 1, s.next + 1), 0, lo, hi, dist, roll);
      }
    }
  }

  lemma {:induction false} ShrinkSum(s: Spread, misses: nat, lo: seq<int>, dist: seq<int>, roll: nat -> nat)
    requires |s.vals| == A_MAX == |lo| && misses <= 100 && Fair(dist, roll)
    ensures var r := Shrink(s, misses, lo, dist, roll);
            && Sum(r.vals) + r.left == Sum(s.vals) + s.left
            && (s.left < 0 ==> r.left <= 0) && (s.left >= 0 ==> r == s)
    decreases -s.left, 100 - misses
  {
    if s.left < 0 && misses < 100 {
      var i := Chosen(dist, roll, s.next);
      if s.vals[i] <= lo[i] {
        ShrinkSum(s.(next := s.next + 1), misses + 1, lo, dist, roll);
      } else {
        SumUpdate(s.vals, i, s.vals[i] - 1);
        ShrinkSum(Spread(s.vals[i := s.vals[i] - 1], s.left + 1, s.next + 1), 0, lo, dist, roll);
      }
    }
  }

  lemma {:induction false} ShrinkWithin(s: Spread, misses: nat, lo: seq<int>, hi: seq<int>, dist: seq<int>, roll: nat -> nat)
    requires |s.vals| == A_MAX == |lo| == |hi| && misses <= 100 && Fair(dist, roll) && Within(s.vals, lo, hi)
    ensures Within(Shrink(s, misses, lo, dist, roll).vals, lo, hi)
    decreases -s.left, 100 - misses
  {
    if s.left < 0 && misses < 100 {
      var i := Chosen(dist, roll, s.next);
      if s.vals[i] <= lo[i] {
        ShrinkWithin(s.(next := s.next + 1), misses + 1, lo, hi, dist, roll);
      } else {
        ShrinkWithin(Spread(s.vals[i := s.vals[i] - 1], s.left + 1, s.next + 1), 0, lo, hi, dist, roll);
      }
    }
  }

  /** Whatever the rolls, points are only moved, never made or lost, no attribute leaves the race's bounds
      if none started outside, and never more than the given points are spread. */
  lemma InitialKeeps(np: int, base: seq<int>, lo: seq<int>, hi: seq<int>, dist: seq<int>, roll: nat -> nat)
    requires |base| == A_MAX == |lo| == |hi| && Fair(dist, roll) && Within(base, lo, hi)
    ensures var r := Initial(np, base, lo, hi, dist, roll);
            && |r.vals| == A_MAX && Within(r.vals, lo, hi) && Sum(r.vals) + r.left == np
            && (np >= Sum(base) ==> r.left >= 0) && (np <= Sum(base) ==> r.left <= 0)
  {
    var s := Spread(base, np - Sum(base), 0);
    var g := Grow(s, 0, hi, dist, roll);
    GrowSum(s, 0, hi, dist, roll);
    GrowWithin(s, 0, lo, hi, dist, roll);
    ShrinkSum(g, 0, lo, dist, roll);
    ShrinkWithin(g, 0, lo, hi, dist, roll);
  }

  ghost predicate Full(vals: seq<int>, hi: seq<int>, dist: seq<int>, roll: nat -> nat, from: int, to: nat)
    requires |vals| == A_MAX == |hi| && Fair(dist, roll)
  {
    0 <= from && forall k: nat :: from <= k < to ==> vals[Chosen(dist, roll, k)] >= hi[Chosen(dist, roll, k)]
  }

  lemma FullNext(vals: seq<int>, hi: seq<int>, dist: seq<int>, roll: nat -> nat, from: int, to: nat)
    requires |vals| == A_MAX == |hi| && Fair(dist, roll) && Full(vals, hi, dist, roll, from, to)
    requires vals[Chosen(dist, roll, to)] >= hi[Chosen(dist, roll, to)]
    ensures Full(vals, hi, dist, roll, from, to + 1)
  {
  }

  /** Nothing is left, or the last hundred rolls all missed. */
  ghost predicate Ended(r: Spread, hi: seq<int>, dist: seq<int>, roll: nat -> nat)
    requires |r.vals| == A_MAX == |hi| && Fair(dist, roll)
  {
    r.left <= 0 || Full(r.vals, hi, dist, roll, r.next - 100, r.next)
  }

  /** Points are left over only if the last hundred rolls all chose attributes at their maximum. */
  lemma {:induction false} LeftOnlyIfFull(s: Spread, misses: nat, hi: seq<int>, dist: seq<int>, roll: nat -> nat)
    requires |s.vals| == A_MAX == |hi| && misses <= 100 && Fair(dist, roll)
    requires Full(s.vals, hi, dist, roll, s.next - misses, s.next)
    ensures Ended(Grow(s, misses, hi, dist, roll), hi, dist, roll)
    decreases s.left, 100 - misses
  {
    if s.left > 0 && misses < 100 {
      var i := Chosen(dist, roll, s.next);
      if s.vals[i] >= hi[i] {
        FullNext(s.vals, hi, dist, roll, s.next - misses, s.next);
        LeftOnlyIfFull(s.(next := s.next + 1), misses + 1, hi, dist, roll);
      } else {
        LeftOnlyIfFull(Spread(s.vals[i := s.vals[i] + 1], s.left - 1, s.next + 1), 0, hi, dist, roll);
      }
    }
  }

  /** With points to spread at the start, only the first loop does anything. */
  lemma InitialGrows(np: int, base: seq<int>, lo: seq<int>, hi: seq<int>, dist: seq<int>, roll: nat -> nat)
    requires |base| == A_MAX == |lo| == |hi| && Fair(dist, roll) && np >= Sum(base)
    ensures Initial(np, base, lo, hi, dist, roll) == Grow(Spread(base, np - Sum(base), 0), 0, hi, dist, roll)
  {
    GrowSum(Spread(base, np - Sum(base), 0), 0, hi, dist, roll);
  }

  // ----- the game's own tables -----

  lemma RolesAreFair(r: Role)
    ensures Shares(RoleDist(r)) && Sum(RoleDist(r)) == 100 && Sum(RoleBase(r)) < 75
  {
    SumOfSix(RoleDist(r));
    SumOfSix(RoleBase(r));
  }

  /** A role's base values fit a race's bounds but for three pairs, none of which the game offers. */
  lemma BaseFitsIff(r: Role, e: Race)
    ensures Within(RoleBase(r), RaceMin(), RaceMax(e)) <==> (r, e) !in {(Knight, Dwarf), (Knight, Orc), (Samurai, Elf)}
  {
    var base, lo, hi := RoleBase(r), RaceMin(), RaceMax(e);
    WithinSix(base, lo, hi);
  }

  lemma WithinSix(vals: seq<int>, lo: seq<int>, hi: seq<int>)
    requires |vals| == A_MAX == |lo| == |hi|
    ensures Within(vals, lo, hi) <==>
            lo[0] <= vals[0] <= hi[0] && lo[1] <= vals[1] <= hi[1] && lo[2] <= vals[2] <= hi[2] &&
            lo[3] <= vals[3] <= hi[3] && lo[4] <= vals[4] <= hi[4] && lo[5] <= vals[5] <= hi[5]
  {
  }

  /** A new hero: 75 points in all, within bounds; any left over, the attributes rolled last were full. */
  lemma NewHero(r: Role, e: Race, roll: nat -> nat)
    requires (r, e) !in {(Knight, Dwarf), (Knight, Orc), (Samurai, Elf)} && forall k :: roll(k) < 100
    ensures Fair(RoleDist(r), roll)
    ensures var hero := Initial(75, RoleBase(r), RaceMin(), RaceMax(e), RoleDist(r), roll);
            && |hero.vals| == A_MAX && Within(hero.vals, RaceMin(), RaceMax(e)) && Sum(hero.vals) + hero.left == 75
            && Ended(hero, RaceMax(e), RoleDist(r), roll)
  {
    RolesAreFair(r);
    BaseFitsIff(r, e);
    InitialKeeps(75, RoleBase(r), RaceMin(), RaceMax(e), RoleDist(r), roll);
    InitialGrows(75, RoleBase(r), RaceMin(), RaceMax(e), RoleDist(r), roll);
    LeftOnlyIfFull(Spread(RoleBase(r), 75 - Sum(RoleBase(r)), 0), 0, RaceMax(e), RoleDist(r), roll);
  }
}
