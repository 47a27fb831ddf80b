/** check_leash (apply.c): the hero has moved, and each leash in use is pulled. */
module LeashDrag {
  import opened Geometry
  import opened Leashes
  import opened LeashWalk

  /** What chance decides for one leash: how much choking hurts, what an amulet of life saving would leave
      the pet with (0 for none, or none that helps its kind), and whether a choked pet's roll below its
      tameness is not 0 (it always is 0 for a tameness of 1). */
  datatype Roll = Roll(hurt: nat, saved: nat, vexed: bool)

  /** The first living pet of that id from index k on. */
  function FindAlive(pets: seq<Pet>, id: int, k: nat): (r: Option<nat>)
    requires k <= |pets|
    ensures r.Some? ==> k <= r.value < |pets| && pets[r.value].id == id && pets[r.value].hp > 0
    ensures r.None? ==> forall i :: k <= i < |pets| ==> pets[i].id != id || pets[i].hp <= 0
    decreases |pets| - k
  {
    if k == |pets| then None
    else if pets[k].hp > 0 && pets[k].id == id then Some(k)
    else FindAlive(pets, id, k + 1)
  }

  lemma FoundIs(pets: seq<Pet>, i: nat)
    requires Distinct(pets) && i < |pets| && pets[i].hp > 0
    ensures FindAlive(pets, pets[i].id, 0) == Some(i)
  {
  }

  /** Is the hero farther from the pet than before, and more than three squares away? */
  predicate Pulled(p: Pet, hero: Coord, from: Coord) {
    Dist2(hero, p.at) > Dist2(from, p.at) && DistMin(hero, p.at) > 3
  }

  predicate Chokes(p: Pet, cursed: bool) {
    cursed && !p.breathless
  }

  /** Does a choking pet lose its last hit point, or is it dragged too far? */
  predicate Deadly(p: Pet, hero: Coord, r: Roll) {
    DistMin(hero, p.at) > 5 || p.hp - r.hurt <= 0
  }

  /** A pet knows who killed it: brought back by an amulet it is wild (wary_dog). */
  predicate Resents(p: Pet) {
    p.tame > 0 && !p.minion
  }

  /** The pet as killing leaves it, but for the leash. */
  function Slain(p: Pet, r: Roll): Pet {
    if r.saved > 0 && Resents(p) then p.(hp := r.saved, tame := 0) else p.(hp := r.saved)
  }

  /** Dead or wild it is let go. */
  predicate LetGo(p: Pet, r: Roll) {
    r.saved == 0 || Resents(p)
  }

  /** A pet choked: killed, and perhaps brought back by an amulet, or hurt and perhaps made less tame. */
  function Choked(w: World, i: nat, hero: Coord, r: Roll): (v: World)
    requires i < |w.pets|
    ensures |v.things| == |w.things| && |v.pets| == |w.pets|
  {
    var p := w.pets[i];
    if !Deadly(p, hero, r) then
      var tame := if p.tame > 1 && r.vexed then p.tame - 1 else p.tame;
      w.(pets := w.pets[i := p.(hp := p.hp - r.hurt, tame := tame)])
    else
      var v := w.(pets := w.pets[i := Slain(p, r)]);
      if LetGo(p, r) && p.leashed then MUnleash(v, p.id) else v
  }

  /** One leash pulled: the pet chokes, perhaps to death, or the leash snaps loose. */
  function Tug(w: World, j: nat, hero: Coord, from: Coord, r: Roll): (v: World)
    requires j < |w.things|
    ensures |v.things| == |w.things| && |v.pets| == |w.pets|
  {
    var t := w.things[j];
    if !InUse(t) then w
    else match FindAlive(w.pets, t.leashmon, 0)
      case None => w.(things := w.things[j := t.(leashmon := 0)])
      case Some(i) =>
        var p := w.pets[i];
        if !Pulled(p, hero, from) then w
        else if Chokes(p, t.cursed) then
          Choked(w, i, hero, r)
        else if DistMin(hero, p.at) > 5 then MUnleash(w, p.id)
        else w
  }

  function CheckFrom(w: World, hero: Coord, from: Coord, rolls: seq<Roll>, j: nat): World
    requires |rolls| == |w.things| && j <= |w.things|
    decreases |w.things| - j
  {
    if j == |w.things| then w else CheckFrom(Tug(w, j, hero, from, rolls[j]), hero, from, rolls, j + 1)
  }

  /** check_leash */
  function CheckLeash(w: World, hero: Coord, from: Coord, rolls: seq<Roll>): World
    requires |rolls| == |w.things|
  {
    CheckFrom(w, hero, from, rolls, 0)
  }

  // ----- what a tug does, given the pet -----

  predicate StaysOn(p: Pet, cursed: bool, hero: Coord, from: Coord, r: Roll) {
    || !Pulled(p, hero, from)
    || (if Chokes(p, cursed) then !Deadly(p, hero, r) || !LetGo(p, r) else DistMin(hero, p.at) <= 5)
  }

  function Tugged(p: Pet, cursed: bool, hero: Coord, from: Coord, r: Roll): Pet {
    if !Pulled(p, hero, from) then p
    else if !Chokes(p, cursed) then p.(leashed := DistMin(hero, p.at) <= 5)
    else if Deadly(p, hero, r) then Slain(p, r).(leashed := !LetGo(p, r))
    else p.(hp := p.hp - r.hurt, tame := if p.tame > 1 && r.vexed then p.tame - 1 else p.tame)
  }

  /** The pet a leash in use holds. */
  ghost function PetOf(w: World, j: nat): (i: nat)
    requires Linked(w) && j < |w.things| && InUse(w.things[j])
    ensures i < |w.pets| && w.pets[i].id == w.things[j].leashmon && w.pets[i].leashed && w.pets[i].hp > 0
    ensures FindAlive(w.pets, w.things[j].leashmon, 0) == Some(i)
  {
    assert HasPet(w.pets, w.things[j].leashmon);
    var i :| 0 <= i < |w.pets| && w.pets[i].id == w.things[j].leashmon && w.pets[i].leashed;
    FoundIs(w.pets, i);
    i
  }

  /** One tug: only this leash and its pet change. */
  lemma TugIs(w: World, j: nat, hero: Coord, from: Coord, r: Roll)
    requires Linked(w) && j < |w.things| && InUse(w.things[j])
    ensures var v, i, t := Tug(w, j, hero, from, r), PetOf(w, j), w.things[j];
            && v.pets == w.pets[i := Tugged(w.pets[i], t.cursed, hero, from, r)]
            && v.things == w.things[j := if StaysOn(w.pets[i], t.cursed, hero, from, r) then t else t.(leashmon := 0)]
  {
    var i, t := PetOf(w, j), w.things[j];
    OUnleashIsMUnleash(w, j);
    assert Slack(w.things, t.leashmon) == w.things[j := t.(leashmon := 0)];
    var p := w.pets[i];
    assert Loose(w.pets, p.id) == w.pets[i := p.(leashed := false)];
    assert Loose(w.pets[i := Slain(p, r)], p.id) == w.pets[i := Slain(p, r).(leashed := false)];
    assert w.pets[i := p] == w.pets && w.things[j := t] == w.things;
  }

  lemma TugKeeps(w: World, j: nat, hero: Coord, from: Coord, r: Roll)
    requires Linked(w) && j < |w.things|
    ensures var v := Tug(w, j, hero, from, r); Linked(v) && NumberLeashed(v.things) <= NumberLeashed(w.things)
  {
    if InUse(w.things[j]) {
      var i, t := PetOf(w, j), w.things[j];
      var p := w.pets[i];
      var v := Tug(w, j, hero, from, r);
      if StaysOn(p, t.cursed, hero, from, r) {
        TugIs(w, j, hero, from, r);
        MovedLinked(w, i, v.pets[i]);
        assert v == w.(pets := w.pets[i := v.pets[i]]);
      } else {
        MUnleashKeeps(w, p.id);
        KilledKeeps(w, i, Slain(p, r));
      }
    }
  }

  lemma KilledKeeps(w: World, i: nat, q: Pet)
    requires Linked(w) && i < |w.pets| && q.id == w.pets[i].id && q.leashed == w.pets[i].leashed
    ensures var v := MUnleash(w.(pets := w.pets[i := q]), q.id);
            Linked(v) && NumberLeashed(v.things) <= NumberLeashed(w.things)
  {
    var u := MUnleash(w, q.id);
    MUnleashKeeps(w, q.id);
    var v := MUnleash(w.(pets := w.pets[i := q]), q.id);
    assert v.pets == u.pets[i := q.(leashed := false)];
    MovedLinked(u, i, q.(leashed := false));
  }

  lemma {:induction false} CheckKeeps(w: World, hero: Coord, from: Coord, rolls: seq<Roll>, j: nat)
    requires Linked(w) && |rolls| == |w.things| && j <= |w.things|
    ensures var v := CheckFrom(w, hero, from, rolls, j); Linked(v) && NumberLeashed(v.things) <= NumberLeashed(w.things)
    decreases |w.things| - j
  {
    if j < |w.things| {
      TugKeeps(w, j, hero, from, rolls[j]);
      CheckKeeps(Tug(w, j, hero, from, rolls[j]), hero, from, rolls, j + 1);
    }
  }

  /** How one leash fares. */
  ghost predicate Fares(w: World, v: World, hero: Coord, from: Coord, rolls: seq<Roll>, j: nat)
    requires Linked(w) && |rolls| == |w.things| == |v.things| && |v.pets| == |w.pets| && j < |w.things| && InUse(w.things[j])
  {
    var i, t := PetOf(w, j), w.things[j];
    && v.pets[i] == Tugged(w.pets[i], t.cursed, hero, from, rolls[j])
    && v.things[j] == if StaysOn(w.pets[i], t.cursed, hero, from, rolls[j]) then t else t.(leashmon := 0)
  }

  lemma TugElsewhere(w: World, s: nat, hero: Coord, from: Coord, r: Roll, i: nat)
    requires Linked(w) && s < |w.things| && i < |w.pets| && !Holds(w.things[s], w.pets[i].id)
    ensures var v := Tug(w, s, hero, from, r);
            v.pets[i] == w.pets[i] && forall j :: 0 <= j < |w.things| && j != s ==> v.things[j] == w.things[j]
  {
    if InUse(w.things[s]) {
      TugIs(w, s, hero, from, r);
    }
  }

  lemma TugOtherThings(w: World, s: nat, hero: Coord, from: Coord, r: Roll, j: nat)
    requires Linked(w) && s < |w.things| && j < |w.things| && (j != s || !InUse(w.things[s]))
    ensures Tug(w, s, hero, from, r).things[j] == w.things[j]
  {
    if InUse(w.things[s]) {
      TugIs(w, s, hero, from, r);
    }
  }

  /** A pet that no leash from s on holds is left alone. */
  lemma {:induction false} PetUntouched(w: World, hero: Coord, from: Coord, rolls: seq<Roll>, s: nat, i: nat)
    requires Linked(w) && |rolls| == |w.things| && s <= |w.things| && i < |w.pets|
    requires forall k :: s <= k < |w.things| ==> !Holds(w.things[k], w.pets[i].id)
    ensures var v := CheckFrom(w, hero, from, rolls, s); |v.pets| == |w.pets| && v.pets[i] == w.pets[i]
    decreases |w.things| - s
  {
    if s < |w.things| {
      TugKeeps(w, s, hero, from, rolls[s]);
      TugElsewhere(w, s, hero, from, rolls[s], i);
      PetUntouched(Tug(w, s, hero, from, rolls[s]), hero, from, rolls, s + 1, i);
    }
  }

  /** So is a thing already passed, or not a leash in use. */
  lemma {:induction false} ThingUntouched(w: World, hero: Coord, from: Coord, rolls: seq<Roll>, s: nat, j: nat)
    requires Linked(w) && |rolls| == |w.things| && s <= |w.things| && j < |w.things| && (j < s || !InUse(w.things[j]))
    ensures var v := CheckFrom(w, hero, from, rolls, s); |v.things| == |w.things| && v.things[j] == w.things[j]
    decreases |w.things| - s
  {
    if s < |w.things| {
      TugKeeps(w, s, hero, from, rolls[s]);
      TugOtherThings(w, s, hero, from, rolls[s], j);
      ThingUntouched(Tug(w, s, hero, from, rolls[s]), hero, from, rolls, s + 1, j);
    }
  }

  lemma SameIds(w: World, s: nat, hero: Coord, from: Coord, r: Roll)
    requires Linked(w) && s < |w.things|
    ensures var v := Tug(w, s, hero, from, r); forall i :: 0 <= i < |w.pets| ==> v.pets[i].id == w.pets[i].id
  {
    if InUse(w.things[s]) {
      TugIs(w, s, hero, from, r);
    }
  }

  lemma TugOther(w: World, s: nat, hero: Coord, from: Coord, r: Roll, j: nat)
    requires Linked(w) && s < |w.things| && j < |w.things| && s != j && InUse(w.things[j])
    ensures var u, i := Tug(w, s, hero, from, r), PetOf(w, j);
            Linked(u) && u.things[j] == w.things[j] && u.pets[i] == w.pets[i] && PetOf(u, j) == i
  {
    var u, i := Tug(w, s, hero, from, r), PetOf(w, j);
    TugKeeps(w, s, hero, from, r);
    assert InUse(w.things[s]) ==> w.things[s].leashmon != w.things[j].leashmon;
    TugElsewhere(w, s, hero, from, r, i);
    SameIds(w, s, hero, from, r);
    assert u.pets[PetOf(u, j)].id == w.pets[i].id;
  }

  /** Once tugged, a leash and its pet have fared; no later leash holds that pet. */
  lemma TugNow(w: World, hero: Coord, from: Coord, rolls: seq<Roll>, j: nat)
    requires Linked(w) && |rolls| == |w.things| && j < |w.things| && InUse(w.things[j])
    ensures var u, i := Tug(w, j, hero, from, rolls[j]), PetOf(w, j);
            && Linked(u) && Fares(w, u, hero, from, rolls, j)
            && forall k :: j < k < |w.things| ==> !Holds(u.things[k], u.pets[i].id)
  {
    TugKeeps(w, j, hero, from, rolls[j]);
    TugIs(w, j, hero, from, rolls[j]);
    NoOther(w.things, j);
  }

  lemma LeashFaresNow(w: World, hero: Coord, from: Coord, rolls: seq<Roll>, j: nat)
    requires Linked(w) && |rolls| == |w.things| && j < |w.things| && InUse(w.things[j])
    ensures var v := CheckFrom(w, hero, from, rolls, j);
            |v.things| == |w.things| && |v.pets| == |w.pets| && Fares(w, v, hero, from, rolls, j)
  {
    var u := Tug(w, j, hero, from, rolls[j]);
    TugNow(w, hero, from, rolls, j);
    PetUntouched(u, hero, from, rolls, j + 1, PetOf(w, j));
    ThingUntouched(u, hero, from, rolls, j + 1, j);
  }

  lemma {:induction false} LeashFares(w: World, hero: Coord, from: Coord, rolls: seq<Roll>, s: nat, j: nat)
    requires Linked(w) && |rolls| == |w.things| && s <= j < |w.things| && InUse(w.things[j])
    ensures var v := CheckFrom(w, hero, from, rolls, s);
            |v.things| == |w.things| && |v.pets| == |w.pets| && Fares(w, v, hero, from, rolls, j)
    decreases j - s
  {
    if s == j {
      LeashFaresNow(w, hero, from, rolls, j);
    } else {
      TugOther(w, s, hero, from, rolls[s], j);
      LeashFares(Tug(w, s, hero, from, rolls[s]), hero, from, rolls, s + 1, j);
    }
  }

  /** Each leash and its pet fare as if there were no others; everything else is left alone, and leashes and
      pets still correspond. In particular the hero never finds a leash that holds nothing. */
  lemma CheckLeashIs(w: World, hero: Coord, from: Coord, rolls: seq<Roll>)
    requires Linked(w) && |rolls| == |w.things|
    ensures var v := CheckLeash(w, hero, from, rolls);
            && Linked(v) && (Few(w) ==> Few(v)) && |v.things| == |w.things| && |v.pets| == |w.pets|
            && (forall j :: 0 <= j < |w.things| && InUse(w.things[j]) ==> Fares(w, v, hero, from, rolls, j))
            && (forall j :: 0 <= j < |w.things| && !InUse(w.things[j]) ==> v.things[j] == w.things[j])
            && (forall i :: 0 <= i < |w.pets| && !w.pets[i].leashed ==> v.pets[i] == w.pets[i])
  {
    CheckKeeps(w, hero, from, rolls, 0);
    CheckSizes(w, hero, from, rolls, 0);
    forall j | 0 <= j < |w.things| && InUse(w.things[j])
      ensures Fares(w, CheckLeash(w, hero, from, rolls), hero, from, rolls, j)
    {
      LeashFares(w, hero, from, rolls, 0, j);
    }
    forall j | 0 <= j < |w.things| && !InUse(w.things[j])
      ensures CheckLeash(w, hero, from, rolls).things[j] == w.things[j]
    {
      ThingUntouched(w, hero, from, rolls, 0, j);
    }
    forall i | 0 <= i < |w.pets| && !w.pets[i].leashed
      ensures CheckLeash(w, hero, from, rolls).pets[i] == w.pets[i]
    {
      NotHeld(w, i);
      PetUntouched(w, hero, from, rolls, 0, i);
    }
  }

  lemma NotHeld(w: World, i: nat)
    requires Linked(w) && i < |w.pets| && !w.pets[i].leashed
    ensures forall k :: 0 <= k < |w.things| ==> !Holds(w.things[k], w.pets[i].id)
  {
    forall k | 0 <= k < |w.things|
      ensures !Holds(w.things[k], w.pets[i].id)
    {
      if InUse(w.things[k]) {
        assert w.pets[PetOf(w, k)].leashed;
      }
    }
  }

  lemma {:induction false} CheckSizes(w: World, hero: Coord, from: Coord, rolls: seq<Roll>, s: nat)
    requires |rolls| == |w.things| && s <= |w.things|
    ensures var v := CheckFrom(w, hero, from, rolls, s); |v.things| == |w.things| && |v.pets| == |w.pets|
    decreases |w.things| - s
  {
    if s < |w.things| {
      CheckSizes(Tug(w, s, hero, from, rolls[s]), hero, from, rolls, s + 1);
    }
  }

  /** Killed on the leash and brought back by an amulet. */
  predicate Saved(p: Pet, cursed: bool, hero: Coord, from: Coord, r: Roll) {
    Pulled(p, hero, from) && Chokes(p, cursed) && Deadly(p, hero, r) && r.saved > 0
  }

  /** A pet that the hero has left more than five squares behind is still on its leash exactly if it was
      killed and saved and does not resent it; and a tame pet that lives has turned wild exactly if it was
      killed and saved and does. */
  lemma HeldPetsAreClose(w: World, hero: Coord, from: Coord, rolls: seq<Roll>, j: nat)
    requires Linked(w) && |rolls| == |w.things| && j < |w.things| && InUse(w.things[j])
    ensures var v, i := CheckLeash(w, hero, from, rolls), PetOf(w, j);
            var p, t := w.pets[i], w.things[j];
            && |v.things| == |w.things| && |v.pets| == |w.pets| && v.pets[i].at == p.at
            && (InUse(v.things[j]) <==> v.pets[i].leashed)
            && (Dist2(hero, p.at) > Dist2(from, p.at) && DistMin(hero, p.at) > 5 ==>
                  (v.pets[i].leashed <==> Saved(p, t.cursed, hero, from, rolls[j]) && !Resents(p)))
            && (p.tame > 0 && v.pets[i].hp > 0 ==>
                  (v.pets[i].tame == 0 <==> Saved(p, t.cursed, hero, from, rolls[j]) && !p.minion))
            && (p.tame > 0 && v.pets[i].tame == 0 ==> !v.pets[i].leashed)
  {
    LeashFares(w, hero, from, rolls, 0, j);
  }

  /** A dog of tameness 5, left seven squares behind on a cursed leash, has an amulet: it ends wild and loose. */
  lemma SavedDogTurns()
    ensures var dog := Pet(2, true, 5, Coord(17, 10), 9, false, false);
            var v := CheckLeash(World([dog], [Thing(true, 2, true)]), Coord(10, 10), Coord(11, 10), [Roll(1, 20, false)]);
            v == World([dog.(leashed := false, tame := 0, hp := 20)], [Thing(true, 0, true)])
  {
    TugToFar(Pet(2, true, 5, Coord(17, 10), 9, false, false), Thing(true, 2, true), Roll(1, 20, false));
  }

  /** So left, a minion stays tame and on a leash seven squares long. */
  lemma SavedMinionStays()
    ensures var aide := Pet(2, true, 5, Coord(17, 10), 9, false, true);
            var v := CheckLeash(World([aide], [Thing(true, 2, true)]), Coord(10, 10), Coord(11, 10), [Roll(1, 20, false)]);
            v == World([aide.(hp := 20)], [Thing(true, 2, true)])
  {
    TugToFar(Pet(2, true, 5, Coord(17, 10), 9, false, true), Thing(true, 2, true), Roll(1, 20, false));
  }

  lemma TugToFar(p: Pet, t: Thing, r: Roll)
    requires p.id == t.leashmon > 0 && t.leash && t.cursed && p.leashed && p.hp > 0 && !p.breathless
    requires p.at == Coord(17, 10) && r.saved > 0
    ensures var v := CheckLeash(World([p], [t]), Coord(10, 10), Coord(11, 10), [r]);
            && v.pets == [Slain(p, r).(leashed := !Resents(p))]
            && v.things == [if Resents(p) then t.(leashmon := 0) else t]
  {
    var w := World([p], [t]);
    assert Holds(w.things[0], w.pets[0].id) && w.pets[0].leashed;
    assert HasLeash(w.things, p.id) && HasPet(w.pets, t.leashmon);
    assert Linked(w);
    CheckLeashIs(w, Coord(10, 10), Coord(11, 10), [r]);
    assert PetOf(w, 0) == 0;
  }
}
