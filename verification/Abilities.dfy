/** The abilities that come with experience levels (adjabil in attrib.c): one list for the hero's role, one
    for his race, each with its own bit in a property's intrinsic field. */
module Abilities {
  import opened Geometry
  import opened InitAttr

  datatype Source = FromExper | FromRace | FromOutside

  /** A property and the level that brings it. */
  datatype Innate = Innate(level: int, prop: nat)

  const FIRE_RES := 1
  const COLD_RES := 2
  const SLEEP_RES := 3
  const SHOCK_RES := 5
  const POISON_RES := 6
  const SEARCHING := 11
  const SEE_INVIS := 12
  const TELEPORT_CONTROL := 15
  const STEALTH := 19
  const WARNING := 24
  const FAST := 26
  const SICK_RES := 52
  const LAST_PROP := 66

  function RoleAbil(r: Role): seq<Innate> {
    match r
    case Archeologist => [Innate(1, STEALTH), Innate(1, FAST), Innate(10, SEARCHING)]
    case Barbarian => [Innate(1, POISON_RES), Innate(7, FAST), Innate(15, STEALTH)]
    case Caveman => [Innate(7, FAST), Innate(15, WARNING)]
    case Convict => [Innate(1, SICK_RES), Innate(7, POISON_RES), Innate(20, SEARCHING)]
    case Healer => [Innate(1, POISON_RES), Innate(15, WARNING)]
    case Knight => [Innate(7, FAST)]
    case Monk =>
      [Innate(1, FAST), Innate(1, SLEEP_RES), Innate(1, SEE_INVIS), Innate(3, POISON_RES), Innate(5, STEALTH),
       Innate(7, WARNING), Innate(9, SEARCHING), Innate(11, FIRE_RES), Innate(13, COLD_RES), Innate(15, SHOCK_RES),
       Innate(17, TELEPORT_CONTROL)]
    case Priest => [Innate(15, WARNING), Innate(20, FIRE_RES)]
    case Ranger => [Innate(1, SEARCHING), Innate(7, STEALTH), Innate(15, SEE_INVIS)]
    case Rogue => [Innate(1, STEALTH), Innate(10, SEARCHING)]
    case Samurai => [Innate(1, FAST), Innate(15, STEALTH)]
    case Tourist => [Innate(10, SEARCHING), Innate(20, POISON_RES)]
    case Valkyrie => [Innate(1, COLD_RES), Innate(1, STEALTH), Innate(7, FAST)]
    case Wizard => [Innate(15, WARNING), Innate(17, TELEPORT_CONTROL)]
  }

  function RaceAbil(r: Race): seq<Innate> {
    match r
    case Elf => [Innate(4, SLEEP_RES)]
    case Orc => [Innate(1, POISON_RES)]
    case _ => []
  }

  type Bits = seq<set<Source>>

  /** Each list names properties once, at level 1 or above. */
  ghost predicate Listed(list: seq<Innate>) {
    && (forall k :: 0 <= k < |list| ==> list[k].prop <= LAST_PROP && list[k].level >= 1)
    && (forall j, k :: 0 <= j < k < |list| ==> list[j].prop != list[k].prop)
  }

  lemma RoleIsListed(role: Role)
    requires role != Monk
    ensures Listed(RoleAbil(role))
  {
  }

  lemma TablesAreListed(role: Role, race: Race)
    ensures Listed(RoleAbil(role)) && Listed(RaceAbil(race))
  {
    if role != Monk {
      RoleIsListed(role);
    }
  }

  // ----- what the loop does -----

  function Changed(b: set<Source>, level: int, mask: Source, oldLevel: int, newLevel: int): set<Source> {
    if oldLevel < level <= newLevel then (if level == 1 then b + {mask, FromOutside} else b + {mask})
    else if newLevel < level <= oldLevel then b - {mask}
    else b
  }

  /** The first n entries of a list taken in turn. */
  function Apply(bits: Bits, list: seq<Innate>, mask: Source, oldLevel: int, newLevel: int, n: nat): (r: Bits)
    requires |bits| == LAST_PROP + 1 && Listed(list) && n <= |list|
    ensures |r| == |bits|
  {
    if n == 0 then bits
    else
      var b := Apply(bits, list, mask, oldLevel, newLevel, n - 1);
      b[list[n - 1].prop := Changed(b[list[n - 1].prop], list[n - 1].level, mask, oldLevel, newLevel)]
  }

  /** adjabil */
  function AdjAbil(bits: Bits, role: Role, race: Race, oldLevel: int, newLevel: int): (r: Bits)
    requires |bits| == LAST_PROP + 1
    ensures |r| == |bits|
  {
    TablesAreListed(role, race);
    var b := Apply(bits, RoleAbil(role), FromExper, oldLevel, newLevel, |RoleAbil(role)|);
    Apply(b, RaceAbil(race), FromRace, oldLevel, newLevel, |RaceAbil(race)|)
  }

  // ----- what it means -----

  /** The level at which one of the first n entries brings property p. */
  function LevelOf(list: seq<Innate>, p: nat, n: nat): Option<int>
    requires n <= |list|
  {
    if n == 0 then None else if list[n - 1].prop == p then Some(list[n - 1].level) else LevelOf(list, p, n - 1)
  }

  lemma {:induction false} LevelOfNone(list: seq<Innate>, p: nat, n: nat)
    requires n <= |list| && forall k :: 0 <= k < n ==> list[k].prop != p
    ensures LevelOf(list, p, n) == None
  {
    if n > 0 {
      LevelOfNone(list, p, n - 1);
    }
  }

  function ChangedIf(b: set<Source>, level: Option<int>, mask: Source, oldLevel: int, newLevel: int): set<Source> {
    match level case None => b case Some(l) => Changed(b, l, mask, oldLevel, newLevel)
  }

  lemma {:induction false} ApplyAt(
      bits: Bits, list: seq<Innate>, mask: Source, oldLevel: int, newLevel: int, n: nat, p: nat)
    requires |bits| == LAST_PROP + 1 && Listed(list) && n <= |list| && p <= LAST_PROP
    ensures Apply(bits, list, mask, oldLevel, newLevel, n)[p]
         == ChangedIf(bits[p], LevelOf(list, p, n), mask, oldLevel, newLevel)
  {
    if n > 0 {
      ApplyAt(bits, list, mask, oldLevel, newLevel, n - 1, p);
      if list[n - 1].prop == p {
        LevelOfNone(list, p, n - 1);
      }
    }
  }

  function RoleLevel(role: Role, p: nat): Option<int> {
    LevelOf(RoleAbil(role), p, |RoleAbil(role)|)
  }

  function RaceLevel(race: Race, p: nat): Option<int> {
    LevelOf(RaceAbil(race), p, |RaceAbil(race)|)
  }

  predicate Reaches(level: Option<int>, now: int) {
    level.Some? && level.value <= now
  }

  /** One property's bits, given that its level-driven ones are right for the old level: right for the new. */
  function Settled(b: set<Source>, role: Option<int>, race: Option<int>, oldLevel: int, newLevel: int): set<Source> {
    (b - (if role.Some? then {FromExper} else {}) - (if race.Some? then {FromRace} else {})) +
    (if Reaches(role, newLevel) then {FromExper} else {}) +
    (if Reaches(race, newLevel) then {FromRace} else {}) +
    (if oldLevel < 1 <= newLevel && (role == Some(1) || race == Some(1)) then {FromOutside} else {})
  }

  /** The level-driven bits are right for a level: each is set exactly if its list has the property at that
      level or below (a property a list does not name is none of its business). */
  ghost predicate Right(bits: Bits, role: Role, race: Race, level: int)
    requires |bits| == LAST_PROP + 1
  {
    forall p :: 0 <= p <= LAST_PROP ==>
      && (RoleLevel(role, p).Some? ==> (FromExper in bits[p] <==> RoleLevel(role, p).value <= level))
      && (RaceLevel(race, p).Some? ==> (FromRace in bits[p] <==> RaceLevel(race, p).value <= level))
  }

  lemma SettledIs(b: set<Source>, role: Option<int>, race: Option<int>, oldLevel: int, newLevel: int)
    requires role.Some? ==> (FromExper in b <==> role.value <= oldLevel)
    requires race.Some? ==> (FromRace in b <==> race.value <= oldLevel)
    ensures ChangedIf(ChangedIf(b, role, FromExper, oldLevel, newLevel), race, FromRace, oldLevel, newLevel)
         == Settled(b, role, race, oldLevel, newLevel)
  {
  }

  lemma AdjAbilAt(bits: Bits, role: Role, race: Race, oldLevel: int, newLevel: int, p: nat)
    requires |bits| == LAST_PROP + 1 && Right(bits, role, race, oldLevel) && p <= LAST_PROP
    ensures AdjAbil(bits, role, race, oldLevel, newLevel)[p]
         == Settled(bits[p], RoleLevel(role, p), RaceLevel(race, p), oldLevel, newLevel)
  {
    TablesAreListed(role, race);
    var b := Apply(bits, RoleAbil(role), FromExper, oldLevel, newLevel, |RoleAbil(role)|);
    ApplyAt(bits, RoleAbil(role), FromExper, oldLevel, newLevel, |RoleAbil(role)|, p);
    ApplyAt(b, RaceAbil(race), FromRace, oldLevel, newLevel, |RaceAbil(race)|, p);
    SettledIs(bits[p], RoleLevel(role, p), RaceLevel(race, p), oldLevel, newLevel);
  }

  /** A change of level, by however much, leaves every level-driven bit right for the new level. */
  lemma AdjAbilIsRight(bits: Bits, role: Role, race: Race, oldLevel: int, newLevel: int)
    requires |bits| == LAST_PROP + 1 && Right(bits, role, race, oldLevel)
    ensures Right(AdjAbil(bits, role, race, oldLevel, newLevel), role, race, newLevel)
  {
    var r := AdjAbil(bits, role, race, oldLevel, newLevel);
    forall p | 0 <= p <= LAST_PROP
      ensures RoleLevel(role, p).Some? ==> (FromExper in r[p] <==> RoleLevel(role, p).value <= newLevel)
      ensures RaceLevel(race, p).Some? ==> (FromRace in r[p] <==> RaceLevel(race, p).value <= newLevel)
    {
      AdjAbilAt(bits, role, race, oldLevel, newLevel, p);
    }
  }

  function Path(bits: Bits, role: Role, race: Race, from: int, levels: seq<int>): (r: Bits)
    requires |bits| == LAST_PROP + 1
    ensures |r| == |bits|
    decreases |levels|
  {
    if levels == [] then bits else Path(AdjAbil(bits, role, race, from, levels[0]), role, race, levels[0], levels[1..])
  }

  lemma SettledTwice(b: set<Source>, role: Option<int>, race: Option<int>, l0: int, l1: int, l2: int)
    requires l1 >= 1 && l2 >= 1
    ensures Settled(Settled(b, role, race, l0, l1), role, race, l1, l2) == Settled(b, role, race, l0, l2)
  {
  }

  /** Only the first and last level count: after any ups and downs all the bits are those that one change
      from first to last would have left. */
  lemma {:induction false} PathIndependent(bits: Bits, role: Role, race: Race, from: int, levels: seq<int>)
    requires |bits| == LAST_PROP + 1 && Right(bits, role, race, from)
    requires levels != [] && forall i :: 0 <= i < |levels| ==> levels[i] >= 1
    ensures Path(bits, role, race, from, levels) == AdjAbil(bits, role, race, from, levels[|levels| - 1])
    ensures Right(Path(bits, role, race, from, levels), role, race, levels[|levels| - 1])
    decreases |levels|
  {
    var mid, last := levels[0], levels[|levels| - 1];
    var b1 := AdjAbil(bits, role, race, from, mid);
    AdjAbilIsRight(bits, role, race, from, mid);
    if |levels| > 1 {
      PathIndependent(b1, role, race, mid, levels[1..]);
      forall p | 0 <= p <= LAST_PROP
        ensures AdjAbil(b1, role, race, mid, last)[p] == AdjAbil(bits, role, race, from, last)[p]
      {
        AdjAbilAt(bits, role, race, from, mid, p);
        AdjAbilAt(b1, role, race, mid, last, p);
        AdjAbilAt(bits, role, race, from, last, p);
        SettledTwice(bits[p], RoleLevel(role, p), RaceLevel(race, p), from, mid, last);
      }
      assert AdjAbil(b1, role, race, mid, last) == AdjAbil(bits, role, race, from, last);
    }
  }

  lemma {:induction false} LevelIsListed(list: seq<Innate>, p: nat, n: nat)
    requires Listed(list) && n <= |list|
    ensures LevelOf(list, p, n).Some? ==> LevelOf(list, p, n).value >= 1
  {
    if n > 0 {
      LevelIsListed(list, p, n - 1);
    }
  }

  lemma LevelsStartAtOne(role: Role, race: Race, p: nat)
    ensures RoleLevel(role, p).Some? ==> RoleLevel(role, p).value >= 1
    ensures RaceLevel(race, p).Some? ==> RaceLevel(race, p).value >= 1
  {
    TablesAreListed(role, race);
    LevelIsListed(RoleAbil(role), p, |RoleAbil(role)|);
    LevelIsListed(RaceAbil(race), p, |RaceAbil(race)|);
  }

  /** A new hero has no intrinsics. */
  function NoBits(): (bits: Bits)
    ensures |bits| == LAST_PROP + 1 && forall p :: 0 <= p <= LAST_PROP ==> bits[p] == {}
  {
    seq(LAST_PROP + 1, _ => {})
  }

  lemma NoBitsRight(role: Role, race: Race)
    ensures Right(NoBits(), role, race, 0)
  {
    forall p | 0 <= p <= LAST_PROP
      ensures RoleLevel(role, p).Some? ==> RoleLevel(role, p).value > 0
      ensures RaceLevel(race, p).Some? ==> RaceLevel(race, p).value > 0
    {
      LevelsStartAtOne(role, race, p);
    }
  }

  lemma SettledFromNone(role: Option<int>, race: Option<int>, now: int)
    requires now >= 1
    ensures var b := Settled({}, role, race, 0, now);
            && (FromExper in b <==> Reaches(role, now)) && (FromRace in b <==> Reaches(race, now))
            && (FromOutside in b <==> role == Some(1) || race == Some(1))
  {
  }

  /** From the first level on, what level 1 brings can never be lost to a change of level, and what a later
      level brings is there exactly from that level on. */
  lemma HeroAbilities(role: Role, race: Race, levels: seq<int>, p: nat)
    requires levels != [] && (forall i :: 0 <= i < |levels| ==> levels[i] >= 1) && p <= LAST_PROP
    ensures var now, b := levels[|levels| - 1], Path(NoBits(), role, race, 0, levels)[p];
            && (FromExper in b <==> Reaches(RoleLevel(role, p), now))
            && (FromRace in b <==> Reaches(RaceLevel(race, p), now))
            && (FromOutside in b <==> RoleLevel(role, p) == Some(1) || RaceLevel(race, p) == Some(1))
  {
    var now := levels[|levels| - 1];
    NoBitsRight(role, race);
    PathIndependent(NoBits(), role, race, 0, levels);
    AdjAbilAt(NoBits(), role, race, 0, now, p);
    SettledFromNone(RoleLevel(role, p), RaceLevel(race, p), now);
  }

  // ----- the loop itself -----

  class Hero {
    const intrinsic: array<set<Source>>
    const role: Role
    const race: Race

    constructor (role: Role, race: Race)
      ensures Valid() && fresh(intrinsic) && this.role == role && this.race == race
      ensures intrinsic[..] == NoBits()
    {
      intrinsic := new set<Source>[LAST_PROP + 1](_ => {});
      this.role, this.race := role, race;
    }

    ghost predicate Valid() {
      intrinsic.Length == LAST_PROP + 1
    }

    /** adjabil: one loop that goes on from the role's list to the race's. */
    method ChangeLevel(oldLevel: int, newLevel: int)
      requires Valid()
      modifies intrinsic
      ensures intrinsic[..] == AdjAbil(old(intrinsic[..]), role, race, oldLevel, newLevel)
    {
      TablesAreListed(role, race);
      ghost var bits := intrinsic[..];
      ghost var mine := Apply(bits, RoleAbil(role), FromExper, oldLevel, newLevel, |RoleAbil(role)|);
      var abil, rabil, mask, k := RoleAbil(role), RaceAbil(race), FromExper, 0;
      while true
        invariant 0 <= k <= |abil| && Listed(abil) && mask != FromOutside
        invariant mask == FromExper ==> abil == RoleAbil(role) && rabil == RaceAbil(race)
        invariant mask == FromRace ==> abil == RaceAbil(race) && rabil == []
        invariant intrinsic[..] == Apply(if mask == FromExper then bits else mine, abil, mask, oldLevel, newLevel, k)
        decreases |rabil|, |abil| - k
      {
        if k == |abil| {
          if rabil == [] {
            break;
          }
          abil, rabil, mask, k := rabil, [], FromRace, 0;
        }
        var a := abil[k];
        if oldLevel < a.level && newLevel >= a.level {
          if a.level == 1 {
            intrinsic[a.prop] := intrinsic[a.prop] + {mask, FromOutside};
          } else {
            intrinsic[a.prop] := intrinsic[a.prop] + {mask};
          }
        } else if oldLevel >= a.level && newLevel < a.level {
          intrinsic[a.prop] := intrinsic[a.prop] - {mask};
        }
        k := k + 1;
      }
    }
  }
}
