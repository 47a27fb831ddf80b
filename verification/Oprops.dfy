/** Object properties (artifact.c): which of the twenty an object may have, and how a new object is given
    some of them. A property mask is the set of its properties. */
module Oprops {
  import opened Geometry

  /** ITEM_FIRE to ITEM_AGGRAVATE, in the order of their bits. */
  datatype Prop =
    | Fire | Frost | Drli | Vorpal | Reflection | Speed | Oilskin | Power | Dexterity | Brilliance
    | Esp | Displacement | Searching | Warning | Stealth | Fumbling | Clairvoyance | Detonations | Hunger | Aggravate

  const MAX_ITEM_PROPS := 20

  datatype Class = Weapon | Tool | Armor | Amulet | Ring | Gem | Coin | OtherClass

  /** What an object type already grants its wearer, where it matters here. */
  datatype Base =
    | FireRes | ColdRes | DrainRes | Reflecting | Fast | Telepat | Displaced | Searches | Warned | Stealthy
    | Fumbles | Clairvoyant | Hungry | Aggravates | OtherBase

  datatype Special =
    OilskinCloak | OilskinSack | GauntletsOfPower | GauntletsOfDexterity | HelmOfBrilliance | Ordinary

  datatype ObjType = ObjType(
    oclass: Class, skill: int, armcat: int, cloth: bool, charged: bool, unique: bool, base: Base, special: Special)

  const P_NONE := 0
  const P_DAGGER := 1
  const P_SABER := 10
  const P_BOW := 22
  const P_CROSSBOW := 24
  const P_DART := 25
  const P_BOOMERANG := 27
  const ARM_HELM := 2
  const ARM_GLOVES := 3
  const ARM_BOOTS := 4

  predicate IsWeptool(t: ObjType) {
    t.oclass == Tool && t.skill != P_NONE
  }

  predicate Arms(t: ObjType) {
    t.oclass == Weapon || IsWeptool(t)
  }

  /** Can objects of this type have properties at all? */
  predicate Bears(t: ObjType) {
    Arms(t) || t.oclass in {Armor, Amulet, Ring}
  }

  datatype Category = WepBlade | WepLaunch | WepProj | WepOther | ArmHgf | ArmOther | CatAmulet | CatRing | CatNone

  function CategoryOf(t: ObjType): (c: Category)
    ensures c != CatNone <==> Bears(t)
  {
    if Arms(t) then
      if t.oclass == Weapon && P_DAGGER <= t.skill <= P_SABER then WepBlade
      else if t.oclass == Weapon && P_BOW <= t.skill <= P_CROSSBOW then WepLaunch
      else if (t.oclass == Weapon || t.oclass == Gem) && -P_CROSSBOW <= t.skill <= -P_BOW then WepProj
      else if -P_BOOMERANG <= t.skill <= -P_DART then WepProj
      else WepOther
    else match t.oclass
      case Armor => if t.armcat in {ARM_HELM, ARM_GLOVES, ARM_BOOTS} then ArmHgf else ArmOther
      case Amulet => CatAmulet
      case Ring => CatRing
      case _ => CatNone
  }

  /** The restriction table: each property with the categories that may have it. */
  function Row(i: nat): (Prop, set<Category>)
    requires i < MAX_ITEM_PROPS
  {
    var all := {WepBlade, WepLaunch, WepProj, WepOther, ArmHgf, ArmOther, CatAmulet, CatRing};
    var worn := {ArmHgf, ArmOther, CatAmulet, CatRing};
    match i
    case 0 => (Fire, all)
    case 1 => (Frost, all)
    case 2 => (Drli, all)
    case 3 => (Reflection, {WepBlade, WepLaunch, WepOther, ArmOther, CatAmulet, CatRing})
    case 4 => (Esp, {WepBlade, WepLaunch, WepOther, ArmHgf, ArmOther, CatAmulet, CatRing})
    case 5 => (Searching, {WepBlade, WepLaunch, WepOther, ArmHgf, ArmOther, CatAmulet, CatRing})
    case 6 => (Warning, {WepBlade, WepLaunch, WepOther, ArmHgf, ArmOther, CatAmulet, CatRing})
    case 7 => (Stealth, all)
    case 8 => (Fumbling, {WepBlade, WepLaunch, WepOther, ArmHgf, ArmOther, CatAmulet, CatRing})
    case 9 => (Hunger, {WepBlade, WepLaunch, WepOther, ArmHgf, ArmOther, CatAmulet, CatRing})
    case 10 => (Aggravate, {WepBlade, WepLaunch, WepOther, ArmHgf, ArmOther, CatAmulet, CatRing})
    case 11 => (Vorpal, {WepBlade})
    case 12 => (Detonations, {WepLaunch, WepProj})
    case 13 => (Speed, worn)
    case 14 => (Oilskin, worn)
    case 15 => (Power, worn)
    case 16 => (Dexterity, {ArmHgf, ArmOther, CatRing})
    case 17 => (Brilliance, {ArmHgf, ArmOther, CatRing})
    case 18 => (Displacement, worn)
    case _ => (Clairvoyance, worn)
  }

  /** What the rows say, property by property. */
  predicate Suits(p: Prop, c: Category) {
    match p
    case Fire | Frost | Drli | Stealth => c != CatNone
    case Esp | Searching | Warning | Fumbling | Hunger | Aggravate => c != CatNone && c != WepProj
    case Reflection => c != CatNone && c != WepProj && c != ArmHgf
    case Vorpal => c == WepBlade
    case Detonations => c == WepLaunch || c == WepProj
    case Speed | Oilskin | Power | Displacement | Clairvoyance => c in {ArmHgf, ArmOther, CatAmulet, CatRing}
    case Dexterity | Brilliance => c in {ArmHgf, ArmOther, CatRing}
  }

  /** The property that doubles a base ability. */
  function Doubles(b: Base): Option<Prop> {
    match b
    case FireRes => Some(Fire)
    case ColdRes => Some(Frost)
    case DrainRes => Some(Drli)
    case Reflecting => Some(Reflection)
    case Fast => Some(Speed)
    case Telepat => Some(Esp)
    case Displaced => Some(Displacement)
    case Searches => Some(Searching)
    case Warned => Some(Warning)
    case Stealthy => Some(Stealth)
    case Fumbles => Some(Fumbling)
    case Clairvoyant => Some(Clairvoyance)
    case Hungry => Some(Hunger)
    case Aggravates => Some(Aggravate)
    case OtherBase => None
  }

  /** May an object of type t have property p? */
  predicate Permits(t: ObjType, p: Prop) {
    && Suits(p, CategoryOf(t))
    && (p == Oilskin ==> t.cloth && t.special != OilskinCloak && t.special != OilskinSack)
    && (p == Dexterity ==> t.charged && t.special != GauntletsOfDexterity)
    && (p == Brilliance ==> t.charged && t.special != HelmOfBrilliance)
    && (p == Power ==> t.special != GauntletsOfPower)
    && Doubles(t.base) != Some(p)
  }

  function Permitted(t: ObjType, props: set<Prop>): set<Prop> {
    set p | p in props && Permits(t, p)
  }

  function RowOf(p: Prop): nat {
    match p
    case Fire => 0 case Frost => 1 case Drli => 2 case Reflection => 3 case Esp => 4 case Searching => 5
    case Warning => 6 case Stealth => 7 case Fumbling => 8 case Hunger => 9 case Aggravate => 10
    case Vorpal => 11 case Detonations => 12 case Speed => 13 case Oilskin => 14 case Power => 15
    case Dexterity => 16 case Brilliance => 17 case Displacement => 18 case Clairvoyance => 19
  }

  lemma RowsAre(p: Prop, c: Category)
    ensures RowOf(p) < MAX_ITEM_PROPS && Row(RowOf(p)).0 == p && (c in Row(RowOf(p)).1 <==> Suits(p, c))
    ensures forall i :: 0 <= i < MAX_ITEM_PROPS && Row(i).0 == p ==> i == RowOf(p)
  {
  }

  /** The rows applied one after the other. */
  method ApplyRows(c: Category, objprops: set<Prop>) returns (r: set<Prop>)
    ensures r == set p | p in objprops && Suits(p, c)
  {
    r := objprops;
    for i := 0 to MAX_ITEM_PROPS
      invariant forall p :: p in r <==> p in objprops && (RowOf(p) < i ==> Suits(p, c))
    {
      if c !in Row(i).1 {
        r := r - {Row(i).0};
      }
      forall p
        ensures p == Row(i).0 <==> RowOf(p) == i
        ensures RowOf(p) == i ==> (c in Row(i).1 <==> Suits(p, c))
      {
        RowsAre(p, c);
      }
    }
    forall p
      ensures RowOf(p) < MAX_ITEM_PROPS
    {
      RowsAre(p, c);
    }
  }

  /** restrict_oprops */
  method RestrictOprops(t: ObjType, objprops: set<Prop>) returns (r: set<Prop>)
    ensures r == Permitted(t, objprops)
  {
    var c := CategoryOf(t);
    if c == CatNone {
      return {};
    }
    r := ApplyRows(c, objprops);
    if !t.cloth {
      r := r - {Oilskin};
    }
    if !t.charged {
      r := r - {Dexterity, Brilliance};
    }
    match Doubles(t.base) {
      case Some(p) => r := r - {p};
      case None =>
    }
    if t.special == OilskinCloak || t.special == OilskinSack {
      r := r - {Oilskin};
    }
    if t.special == GauntletsOfPower {
      r := r - {Power};
    }
    if t.special == GauntletsOfDexterity {
      r := r - {Dexterity};
    }
    if t.special == HelmOfBrilliance {
      r := r - {Brilliance};
    }
  }

  /** The filter only takes away, does nothing the second time, and treats each property by itself. */
  lemma FilterLaws(t: ObjType, a: set<Prop>, b: set<Prop>)
    ensures Permitted(t, a) <= a
    ensures Permitted(t, Permitted(t, a)) == Permitted(t, a)
    ensures Permitted(t, a + b) == Permitted(t, a) + Permitted(t, b)
  {
  }

  // ----- giving an object properties -----

  predicate Detrimental(p: Prop) {
    p in {Fumbling, Hunger, Aggravate}
  }

  /** The properties that may come up at random for an object. */
  predicate Grantable(t: ObjType, p: Prop, detrimentalToo: bool) {
    Permits(t, p) && p != Vorpal && (Detrimental(p) ==> detrimentalToo)
  }

  /** Three of four harmless ones always may, on anything that bears properties; on anything else none may. */
  lemma ThreeGrantable(t: ObjType)
    ensures Bears(t) ==> exists drop :: {Fire, Frost, Drli, Stealth} - {drop} <= set p: Prop | Grantable(t, p, false)
    ensures !Bears(t) ==> forall p, detrimentalToo :: !Grantable(t, p, detrimentalToo)
  {
    var drop := match Doubles(t.base) case Some(p) => p case None => Fire;
    if Bears(t) {
      assert {Fire, Frost, Drli, Stealth} - {drop} <= set p: Prop | Grantable(t, p, false);
    }
  }

  /** 1 << die, as a property. */
  function Face(die: nat): Prop {
    match die % MAX_ITEM_PROPS
    case 0 => Fire case 1 => Frost case 2 => Drli case 3 => Vorpal case 4 => Reflection case 5 => Speed
    case 6 => Oilskin case 7 => Power case 8 => Dexterity case 9 => Brilliance case 10 => Esp
    case 11 => Displacement case 12 => Searching case 13 => Warning case 14 => Stealth case 15 => Fumbling
    case 16 => Clairvoyance case 17 => Detonations case 18 => Hunger case _ => Aggravate
  }

  function DieFor(p: Prop): (die: nat)
    ensures Face(die) == p
  {
    match p
    case Fire => 0 case Frost => 1 case Drli => 2 case Vorpal => 3 case Reflection => 4 case Speed => 5
    case Oilskin => 6 case Power => 7 case Dexterity => 8 case Brilliance => 9 case Esp => 10
    case Displacement => 11 case Searching => 12 case Warning => 13 case Stealth => 14 case Fumbling => 15
    case Clairvoyance => 16 case Detonations => 17 case Hunger => 18 case Aggravate => 19
  }

  /** One turn of the loop: the property that came up, if it is allowed. */
  function Turn(t: ObjType, props: set<Prop>, detrimentalToo: bool, die: nat): set<Prop> {
    var p := Face(die);
    if p in props || p == Vorpal || (Detrimental(p) && !detrimentalToo) then props
    else props + Permitted(t, {p})
  }

  /** The loop over a finite supply of dice: the properties in the end and the dice left over; None when
      the dice run out first. */
  function Grow(t: ObjType, props: set<Prop>, detrimentalToo: bool, dice: seq<nat>): Option<(set<Prop>, seq<nat>)>
    decreases |dice|
  {
    if dice == [] then None
    else if props != {} && dice[0] % 250 != 0 then Some((props, dice[1..]))
    else
      var rest := if props == {} then dice else dice[1..];
      if rest == [] then None else Grow(t, Turn(t, props, detrimentalToo, rest[0]), detrimentalToo, rest[1..])
  }

  lemma {:induction false} GrowIsSound(t: ObjType, props: set<Prop>, detrimentalToo: bool, dice: seq<nat>)
    ensures var r := Grow(t, props, detrimentalToo, dice);
            r.Some? ==> props <= r.value.0 && r.value.0 != {} &&
                        forall p :: p in r.value.0 - props ==> Grantable(t, p, detrimentalToo)
    decreases |dice|
  {
    if dice != [] && (props == {} || dice[0] % 250 == 0) {
      var rest := if props == {} then dice else dice[1..];
      if rest != [] {
        GrowIsSound(t, Turn(t, props, detrimentalToo, rest[0]), detrimentalToo, rest[1..]);
      }
    }
  }

  lemma TurnGrants(t: ObjType, props: set<Prop>, detrimentalToo: bool, p: Prop)
    requires Grantable(t, p, detrimentalToo)
    ensures Turn(t, props, detrimentalToo, DieFor(p)) == props + {p}
  {
    assert Permitted(t, {p}) == {p};
  }

  /** Dice that add the given properties one by one and then stop. */
  function DiceFor(wanted: seq<Prop>): seq<nat> {
    if wanted == [] then [1] else [0, DieFor(wanted[0])] + DiceFor(wanted[1..])
  }

  lemma {:induction false} GrowAdds(t: ObjType, props: set<Prop>, detrimentalToo: bool, wanted: seq<Prop>)
    requires props != {} && forall p :: p in wanted ==> Grantable(t, p, detrimentalToo)
    ensures Grow(t, props, detrimentalToo, DiceFor(wanted)) == Some((props + (set p | p in wanted), []))
    decreases |wanted|
  {
    if wanted == [] {
      assert props + (set p | p in wanted) == props;
    } else {
      var die := DieFor(wanted[0]);
      var dice := DiceFor(wanted);
      var next := Turn(t, props, detrimentalToo, die);
      TurnGrants(t, props, detrimentalToo, wanted[0]);
      assert dice[1..][1..] == DiceFor(wanted[1..]);
      assert next + (set p | p in wanted[1..]) == props + (set p | p in wanted);
      GrowAdds(t, next, detrimentalToo, wanted[1..]);
    }
  }

  lemma {:induction false} Listed(s: set<Prop>) returns (listing: seq<Prop>)
    ensures forall p :: p in s <==> p in listing
    ensures s != {} ==> listing != []
    decreases |s|
  {
    listing := [];
    if s != {} {
      var p :| p in s;
      var rest := Listed(s - {p});
      listing := [p] + rest;
    }
  }

  lemma CanGrow(t: ObjType, detrimentalToo: bool, s: set<Prop>) returns (dice: seq<nat>)
    requires s != {} && forall p :: p in s ==> Grantable(t, p, detrimentalToo)
    ensures Grow(t, {}, detrimentalToo, dice) == Some((s, []))
  {
    var listing := Listed(s);
    dice := [DieFor(listing[0])] + DiceFor(listing[1..]);
    assert dice[1..] == DiceFor(listing[1..]);
    TurnGrants(t, {}, detrimentalToo, listing[0]);
    GrowAdds(t, {listing[0]}, detrimentalToo, listing[1..]);
    assert {} + {listing[0]} == {listing[0]};
    assert {listing[0]} + (set p | p in listing[1..]) == s;
  }

  ghost predicate CanGive(t: ObjType, detrimentalToo: bool, s: set<Prop>) {
    exists dice :: Grow(t, {}, detrimentalToo, dice).Some? && Grow(t, {}, detrimentalToo, dice).value.0 == s
  }

  /** An object without properties can end up with exactly the non-empty sets of grantable ones. */
  lemma GrownExactly(t: ObjType, detrimentalToo: bool, s: set<Prop>)
    ensures CanGive(t, detrimentalToo, s) <==> s != {} && forall p :: p in s ==> Grantable(t, p, detrimentalToo)
  {
    if CanGive(t, detrimentalToo, s) {
      var dice :| Grow(t, {}, detrimentalToo, dice).Some? && Grow(t, {}, detrimentalToo, dice).value.0 == s;
      GrowIsSound(t, {}, detrimentalToo, dice);
    }
    if s != {} && forall p :: p in s ==> Grantable(t, p, detrimentalToo) {
      var dice := CanGrow(t, detrimentalToo, s);
    }
  }

  /** Dice that end the loop at once. */
  lemma EndNow(t: ObjType, props: set<Prop>, detrimentalToo: bool) returns (more: seq<nat>)
    requires Bears(t)
    ensures Grow(t, props, detrimentalToo, more).Some?
  {
    if props == {} {
      ThreeGrantable(t);
      var drop :| {Fire, Frost, Drli, Stealth} - {drop} <= set p: Prop | Grantable(t, p, false);
      var p := if drop == Fire then Frost else Fire;
      assert p in {Fire, Frost, Drli, Stealth} - {drop};
      more := CanGrow(t, detrimentalToo, {p});
    } else {
      more := [1];
    }
  }

  lemma TailOfAppend(a: seq<nat>, b: seq<nat>)
    requires a != []
    ensures (a + b)[1..] == a[1..] + b && (a + b)[0] == a[0]
  {
  }

  /** However badly the dice have fallen, some further dice end the loop. */
  lemma {:induction false} CanAlwaysEnd(t: ObjType, props: set<Prop>, detrimentalToo: bool, dice: seq<nat>)
    returns (more: seq<nat>)
    requires Bears(t)
    ensures Grow(t, props, detrimentalToo, dice + more).Some?
    decreases |dice|
  {
    if dice == [] {
      more := EndNow(t, props, detrimentalToo);
      assert dice + more == more;
    } else if props != {} && dice[0] % 250 != 0 {
      more := [];
    } else if props != {} && |dice| == 1 {
      more := [0, 1];
      assert (dice + more)[1..][1..] == [1];
      assert Grow(t, Turn(t, props, detrimentalToo, 0), detrimentalToo, [1]).Some?;
    } else {
      var rest := if props == {} then dice else dice[1..];
      more := CanAlwaysEnd(t, Turn(t, props, detrimentalToo, rest[0]), detrimentalToo, rest[1..]);
      assert (dice + more)[|dice| - |rest|..] == rest + more;
      TailOfAppend(rest, more);
    }
  }

  // ----- create_oprop on an existing object -----

  datatype Obj = Obj(typ: ObjType, artifact: bool, oprops: set<Prop>, cursed: bool, blessed: bool, spe: int)

  predicate Enchanted(t: ObjType) {
    t.oclass == Weapon || t.oclass == Armor || (t.oclass == Ring && t.charged)
  }

  /** Lift a curse or bless, and raise a poor enchantment; a die only for an enchantment of 0. */
  function Blest(o: Obj, dice: seq<nat>): Option<(Obj, seq<nat>)> {
    var o1 := if o.cursed then o.(cursed := false) else if o.typ.oclass == Coin then o else o.(blessed := true);
    if !Enchanted(o.typ) || o.spe > 0 then Some((o1, dice))
    else if o.spe < 0 then Some((o1.(spe := 0), dice))
    else if dice == [] then None
    else Some((o1.(spe := 1 + dice[0] % 2), dice[1..]))
  }

  function Spruced(o: Obj, detrimentalToo: bool, dice: seq<nat>): Option<Obj> {
    if o.artifact || o.typ.unique || !Bears(o.typ) then Some(o)
    else match Grow(o.typ, o.oprops, detrimentalToo, dice)
      case None => None
      case Some((props, rest)) =>
        if !(detrimentalToo && props * {Fumbling, Hunger, Aggravate} != {}) then Some(o.(oprops := props))
        else if rest == [] then None
        else if rest[0] % 10 == 0 then Some(o.(oprops := props))
        else Some(o.(oprops := props, blessed := false, cursed := true))
  }

  /** create_oprop, given the dice; None when they run out. */
  function Created(o: Obj, detrimentalToo: bool, dice: seq<nat>): Option<Obj> {
    if detrimentalToo then Spruced(o, detrimentalToo, dice)
    else match Blest(o, dice)
      case None => None
      case Some((o1, rest)) => Spruced(o1, detrimentalToo, rest)
  }

  /** Whatever comes out kept its old properties; what is new is permitted, never vorpal, and harmful only
      where that was allowed. An artifact or unique object gains none, any other that can bear properties
      has one at least, and unless harm was allowed nothing ends up cursed or with a negative enchantment. */
  lemma CreatedIsSound(o: Obj, detrimentalToo: bool, dice: seq<nat>)
    requires Created(o, detrimentalToo, dice).Some?
    ensures var o' := Created(o, detrimentalToo, dice).value;
            && o'.typ == o.typ && o'.artifact == o.artifact && o.oprops <= o'.oprops
            && (o.artifact || o.typ.unique || !Bears(o.typ) ==> o'.oprops == o.oprops)
            && (!o.artifact && !o.typ.unique && Bears(o.typ) ==> o'.oprops != {})
            && (forall p :: p in o'.oprops - o.oprops ==> Grantable(o.typ, p, detrimentalToo))
            && (!detrimentalToo ==> !o'.cursed && o.spe <= o'.spe && (Enchanted(o.typ) ==> o'.spe >= 0))
  {
    var o1, rest := o, dice;
    if !detrimentalToo {
      o1, rest := Blest(o, dice).value.0, Blest(o, dice).value.1;
    }
    GrowIsSound(o1.typ, o1.oprops, detrimentalToo, rest);
  }
}
