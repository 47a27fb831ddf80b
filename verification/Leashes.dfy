/** Leashes (apply.c): a two-way relation between the hero's leashes and pets on the level, updated from
    many places. This module says what each operation does to it and what stays true. */
module Leashes {
  import opened Geometry

  /** A minion is tame by another's will and keeps no account of what the hero does to it. */
  datatype Pet = Pet(id: int, leashed: bool, tame: nat, at: Coord, hp: int, breathless: bool, minion: bool)

  /** A thing the hero carries; saddles have a leashmon too, which means nothing here. */
  datatype Thing = Thing(leash: bool, leashmon: int, cursed: bool)

  datatype World = World(pets: seq<Pet>, things: seq<Thing>)

  const MAXLEASHED := 2

  predicate InUse(t: Thing) {
    t.leash && t.leashmon != 0
  }

  predicate Holds(t: Thing, id: int) {
    t.leash && t.leashmon == id
  }

  /** number_leashed */
  function NumberLeashed(things: seq<Thing>): (n: nat)
    ensures n == 0 <==> forall j :: 0 <= j < |things| ==> !InUse(things[j])
  {
    if things == [] then 0 else (if InUse(things[|things| - 1]) then 1 else 0) + NumberLeashed(things[..|things| - 1])
  }

  function LeashedPets(pets: seq<Pet>): (n: nat)
    ensures n == 0 <==> forall i :: 0 <= i < |pets| ==> !pets[i].leashed
  {
    if pets == [] then 0 else (if pets[|pets| - 1].leashed then 1 else 0) + LeashedPets(pets[..|pets| - 1])
  }

  ghost predicate HasLeash(things: seq<Thing>, id: int) {
    exists j :: 0 <= j < |things| && Holds(things[j], id)
  }

  ghost predicate HasPet(pets: seq<Pet>, id: int) {
    exists i :: 0 <= i < |pets| && pets[i].id == id && pets[i].leashed
  }

  ghost predicate Distinct(pets: seq<Pet>) {
    && (forall i :: 0 <= i < |pets| ==> pets[i].id > 0)
    && (forall i, k :: 0 <= i < k < |pets| ==> pets[i].id != pets[k].id)
  }

  /** Every leash in use holds a leashed pet, no two the same one, and every leashed pet lives and is held. */
  ghost predicate Linked(w: World) {
    && Distinct(w.pets)
    && (forall i {:trigger w.pets[i].leashed} :: 0 <= i < |w.pets| && w.pets[i].leashed ==> w.pets[i].hp > 0)
    && (forall i {:trigger HasLeash(w.things, w.pets[i].id)} ::
          0 <= i < |w.pets| && w.pets[i].leashed ==> HasLeash(w.things, w.pets[i].id))
    && (forall j {:trigger HasPet(w.pets, w.things[j].leashmon)} ::
          0 <= j < |w.things| && InUse(w.things[j]) ==> HasPet(w.pets, w.things[j].leashmon))
    && AllDifferent(w.things)
  }

  // ----- unleashing -----

  function LooseOne(p: Pet, id: int): Pet {
    if p.id == id then p.(leashed := false) else p
  }

  function SlackOne(t: Thing, id: int): Thing {
    if Holds(t, id) then t.(leashmon := 0) else t
  }

  function Loose(pets: seq<Pet>, id: int): seq<Pet> {
    seq(|pets|, i requires 0 <= i < |pets| => LooseOne(pets[i], id))
  }

  function Slack(things: seq<Thing>, id: int): seq<Thing> {
    seq(|things|, j requires 0 <= j < |things| => SlackOne(things[j], id))
  }

  /** m_unleash */
  function MUnleash(w: World, id: int): World {
    World(Loose(w.pets, id), Slack(w.things, id))
  }

  /** o_unleash */
  function OUnleash(w: World, j: nat): World
    requires j < |w.things|
  {
    World(Loose(w.pets, w.things[j].leashmon), w.things[j := w.things[j].(leashmon := 0)])
  }

  function AllLoose(pets: seq<Pet>): seq<Pet> {
    seq(|pets|, i requires 0 <= i < |pets| => pets[i].(leashed := false))
  }

  function SlackAny(t: Thing): Thing {
    if t.leash then t.(leashmon := 0) else t
  }

  function AllSlack(things: seq<Thing>): seq<Thing> {
    seq(|things|, j requires 0 <= j < |things| => SlackAny(things[j]))
  }

  /** unleash_all */
  function UnleashAll(w: World): World {
    World(AllLoose(w.pets), AllSlack(w.things))
  }

  /** Unleashing a pet keeps the correspondence and adds no leash in use. */
  lemma MUnleashKeeps(w: World, id: int)
    requires Linked(w) && id != 0
    ensures var v := MUnleash(w, id);
            Linked(v) && NumberLeashed(v.things) <= NumberLeashed(w.things)
  {
    SlackCount(w.things, id);
    MUnleashLinked(w, id);
  }

  lemma MUnleashLinked(w: World, id: int)
    requires Linked(w) && id != 0
    ensures Linked(MUnleash(w, id)) && !HasLeash(MUnleash(w, id).things, id) && !HasPet(MUnleash(w, id).pets, id)
  {
    var v := MUnleash(w, id);
    forall i | 0 <= i < |v.pets| && v.pets[i].leashed
      ensures HasLeash(v.things, v.pets[i].id)
    {
      assert HasLeash(w.things, w.pets[i].id);
      var j :| 0 <= j < |w.things| && Holds(w.things[j], w.pets[i].id);
      assert Holds(v.things[j], v.pets[i].id);
    }
    forall j | 0 <= j < |v.things| && InUse(v.things[j])
      ensures HasPet(v.pets, v.things[j].leashmon)
    {
      assert HasPet(w.pets, w.things[j].leashmon);
      var i :| 0 <= i < |w.pets| && w.pets[i].id == w.things[j].leashmon && w.pets[i].leashed;
      assert v.pets[i].leashed;
    }
  }

  /** Where leashes and pets correspond, letting go of a leash and letting go of its pet are the same. */
  lemma OUnleashIsMUnleash(w: World, j: nat)
    requires Linked(w) && j < |w.things| && InUse(w.things[j])
    ensures OUnleash(w, j) == MUnleash(w, w.things[j].leashmon)
  {
    var id := w.things[j].leashmon;
    forall k | 0 <= k < |w.things|
      ensures OUnleash(w, j).things[k] == MUnleash(w, id).things[k]
    {
      assert Holds(w.things[k], id) ==> InUse(w.things[k]);
    }
  }

  lemma HasLeashSplit(things: seq<Thing>, id: int)
    requires things != []
    ensures var n := |things| - 1; HasLeash(things, id) <==> HasLeash(things[..n], id) || Holds(things[n], id)
  {
    var n := |things| - 1;
    if HasLeash(things[..n], id) {
      var j :| 0 <= j < n && Holds(things[..n][j], id);
      assert Holds(things[j], id);
    }
    if HasLeash(things, id) {
      var j :| 0 <= j < |things| && Holds(things[j], id);
      if j < n {
        assert Holds(things[..n][j], id);
      }
    }
  }

  ghost predicate AllDifferent(things: seq<Thing>) {
    forall j, k {:trigger InUse(things[j]), InUse(things[k])} ::
      0 <= j < k < |things| && InUse(things[j]) && InUse(things[k]) ==> things[j].leashmon != things[k].leashmon
  }

  lemma NoOther(things: seq<Thing>, j: nat)
    requires AllDifferent(things) && j < |things| && InUse(things[j])
    ensures forall k :: 0 <= k < |things| && k != j ==> !Holds(things[k], things[j].leashmon)
  {
    forall k | 0 <= k < |things| && k != j
      ensures !Holds(things[k], things[j].leashmon)
    {
      assert InUse(things[k]) ==> things[k].leashmon != things[j].leashmon;
    }
  }

  lemma {:induction false} SlackCount(things: seq<Thing>, id: int)
    requires id != 0 && AllDifferent(things)
    ensures NumberLeashed(Slack(things, id)) == NumberLeashed(things) - if HasLeash(things, id) then 1 else 0
  {
    if things != [] {
      var n := |things| - 1;
      assert AllDifferent(things[..n]) by {
        assert forall j :: 0 <= j < n ==> InUse(things[..n][j]) == InUse(things[j]);
      }
      SlackCount(things[..n], id);
      assert Slack(things, id)[..n] == Slack(things[..n], id);
      HasLeashSplit(things, id);
      if Holds(things[n], id) {
        NoOther(things, n);
        assert forall j :: 0 <= j < n ==> Holds(things[..n][j], id) == Holds(things[j], id);
      }
    }
  }

  lemma NoTwin(pets: seq<Pet>)
    requires Distinct(pets) && pets != []
    ensures var n := |pets| - 1; Distinct(pets[..n]) && !HasPet(pets[..n], pets[n].id)
  {
  }

  lemma LooseLast(pets: seq<Pet>, id: int)
    requires pets != []
    ensures var n := |pets| - 1;
            LeashedPets(Loose(pets, id)) ==
            LeashedPets(Loose(pets[..n], id)) + if LooseOne(pets[n], id).leashed then 1 else 0
  {
    var n := |pets| - 1;
    assert Loose(pets, id)[..n] == Loose(pets[..n], id);
    assert Loose(pets, id)[n] == LooseOne(pets[n], id);
  }

  lemma {:induction false} LooseCount(pets: seq<Pet>, id: int)
    requires Distinct(pets)
    ensures LeashedPets(Loose(pets, id)) == LeashedPets(pets) - if HasPet(pets, id) then 1 else 0
  {
    if pets != [] {
      var n := |pets| - 1;
      NoTwin(pets);
      LooseCount(pets[..n], id);
      LooseLast(pets, id);
      HasPetSplit(pets, id);
    }
  }

  lemma HasPetSplit(pets: seq<Pet>, id: int)
    requires pets != []
    ensures var n := |pets| - 1; HasPet(pets, id) <==> HasPet(pets[..n], id) || (pets[n].id == id && pets[n].leashed)
  {
    var n := |pets| - 1;
    if HasPet(pets[..n], id) {
      var i :| 0 <= i < n && pets[..n][i].id == id && pets[..n][i].leashed;
      assert pets[i].id == id && pets[i].leashed;
    }
    if HasPet(pets, id) {
      var i :| 0 <= i < |pets| && pets[i].id == id && pets[i].leashed;
      if i < n {
        assert pets[..n][i].id == id && pets[..n][i].leashed;
      }
    }
  }

  lemma LeashedMeansInUse(w: World, i: nat)
    requires Linked(w) && i < |w.pets| && w.pets[i].leashed
    ensures NumberLeashed(w.things) > 0
  {
    assert HasLeash(w.things, w.pets[i].id);
    var j :| 0 <= j < |w.things| && Holds(w.things[j], w.pets[i].id);
    assert InUse(w.things[j]);
  }

  /** There are as many leashes in use as leashed pets. */
  lemma {:induction false} CountsAgree(w: World)
    requires Linked(w)
    ensures NumberLeashed(w.things) == LeashedPets(w.pets)
    decreases NumberLeashed(w.things)
  {
    if NumberLeashed(w.things) == 0 {
      forall i | 0 <= i < |w.pets|
        ensures !w.pets[i].leashed
      {
        if w.pets[i].leashed {
          LeashedMeansInUse(w, i);
        }
      }
    } else {
      var j :| 0 <= j < |w.things| && InUse(w.things[j]);
      var id := w.things[j].leashmon;
      assert Holds(w.things[j], id) && HasLeash(w.things, id) && HasPet(w.pets, id);
      MUnleashKeeps(w, id);
      SlackCount(w.things, id);
      LooseCount(w.pets, id);
      CountsAgree(MUnleash(w, id));
    }
  }

  // ----- applying a leash -----

  /** Whom the hero turns to: no one after all, himself, an empty square, or a creature. */
  datatype Target = Cancelled | Self | Empty | Creature(i: nat)

  /** What applying a leash to a creature does, and the time it takes. */
  function ApplyTo(w: World, j: nat, i: nat): (World, nat)
    requires j < |w.things| && i < |w.pets|
  {
    var t, p := w.things[j], w.pets[i];
    if p.tame == 0 then (w, 0)
    else if t.leashmon == 0 then
      if p.leashed then (w, 0)
      else (World(w.pets[i := p.(leashed := true)], w.things[j := t.(leashmon := p.id)]), 1)
    else if t.leashmon != p.id then (w, 0)
    else if t.cursed then (w, 1)
    else (World(w.pets[i := p.(leashed := false)], w.things[j := t.(leashmon := 0)]), 1)
  }

  /** use_leash */
  function UseLeash(w: World, j: nat, target: Target): (World, nat)
    requires j < |w.things| && (target.Creature? ==> target.i < |w.pets|)
  {
    if w.things[j].leashmon == 0 && NumberLeashed(w.things) >= MAXLEASHED then (w, 0)
    else if target.Creature? then ApplyTo(w, j, target.i)
    else (w, 0)
  }

  ghost predicate Few(w: World) {
    NumberLeashed(w.things) <= MAXLEASHED
  }

  lemma {:induction false} CountOneMore(things: seq<Thing>, j: nat, t: Thing)
    requires j < |things| && !InUse(things[j]) && InUse(t)
    ensures NumberLeashed(things[j := t]) == NumberLeashed(things) + 1
  {
    var n := |things| - 1;
    if j < n {
      CountOneMore(things[..n], j, t);
      assert things[j := t][..n] == things[..n][j := t];
    } else {
      assert things[j := t][..n] == things[..n];
    }
  }

  lemma AttachKeeps(w: World, j: nat, i: nat)
    requires Linked(w) && j < |w.things| && i < |w.pets| && w.things[j].leash && w.things[j].leashmon == 0
    requires !w.pets[i].leashed && w.pets[i].hp > 0
    ensures Linked(World(w.pets[i := w.pets[i].(leashed := true)], w.things[j := w.things[j].(leashmon := w.pets[i].id)]))
  {
    var v := World(w.pets[i := w.pets[i].(leashed := true)], w.things[j := w.things[j].(leashmon := w.pets[i].id)]);
    assert v.pets[i].leashed && Holds(v.things[j], v.pets[i].id);
    forall k | 0 <= k < |v.pets| && v.pets[k].leashed && k != i
      ensures HasLeash(v.things, v.pets[k].id)
    {
      assert HasLeash(w.things, w.pets[k].id);
      var l :| 0 <= l < |w.things| && Holds(w.things[l], w.pets[k].id);
      assert Holds(v.things[l], v.pets[k].id);
    }
    forall l | 0 <= l < |v.things| && InUse(v.things[l]) && l != j
      ensures HasPet(v.pets, v.things[l].leashmon) && v.things[l].leashmon != v.pets[i].id
    {
      assert HasPet(w.pets, w.things[l].leashmon);
      var k :| 0 <= k < |w.pets| && w.pets[k].id == w.things[l].leashmon && w.pets[k].leashed;
      assert v.pets[k].leashed && k != i;
    }
  }

  /** However a leash is applied, leashes and pets still correspond and there are never too many. */
  lemma UseLeashKeeps(w: World, j: nat, target: Target)
    requires Linked(w) && Few(w) && j < |w.things| && w.things[j].leash
    requires target.Creature? ==> target.i < |w.pets| && w.pets[target.i].hp > 0
    ensures var w' := UseLeash(w, j, target).0; Linked(w') && Few(w')
  {
    var w' := UseLeash(w, j, target).0;
    if w' != w {
      var i := target.i;
      if w.things[j].leashmon == 0 {
        AttachKeeps(w, j, i);
        CountOneMore(w.things, j, w'.things[j]);
      } else {
        OUnleashIsMUnleash(w, j);
        MUnleashKeeps(w, w.pets[i].id);
        SlackCount(w.things, w.pets[i].id);
        assert w'.pets == Loose(w.pets, w.pets[i].id);
        assert w' == OUnleash(w, j);
      }
    }
  }
}
