/** What leashes do when the hero moves (apply.c): pets are called before he leaves a level, and dragged,
    choked or lost as he walks; and what holds over any run of events. */
module LeashWalk {
  import opened Geometry
  import opened Leashes

  // ----- next_to_u -----

  ghost predicate CursedHold(things: seq<Thing>, id: int) {
    exists j :: 0 <= j < |things| && Holds(things[j], id) && things[j].cursed
  }

  /** The loop over leashes for a pet that cannot come: from leash j on, each one that holds it goes slack,
      unless it is cursed. */
  function Slacken(w: World, i: nat, j: nat): (r: (World, bool))
    requires i < |w.pets| && j <= |w.things|
    ensures |r.0.pets| == |w.pets| && |r.0.things| == |w.things|
    decreases |w.things| - j
  {
    if j == |w.things| then (w, true)
    else if !Holds(w.things[j], w.pets[i].id) then Slacken(w, i, j + 1)
    else if w.things[j].cursed then (w, false)
    else Slacken(World(w.pets[i := w.pets[i].(leashed := false)], w.things[j := w.things[j].(leashmon := 0)]), i, j + 1)
  }

  lemma {:induction false} SlackenNone(w: World, i: nat, j: nat)
    requires i < |w.pets| && j <= |w.things|
    requires forall k :: j <= k < |w.things| ==> !Holds(w.things[k], w.pets[i].id)
    ensures Slacken(w, i, j) == (w, true)
    decreases |w.things| - j
  {
    if j < |w.things| {
      SlackenNone(w, i, j + 1);
    }
  }

  /** With one leash to a pet, l, the loop is all or nothing. */
  lemma {:induction false} SlackenIs(w: World, i: nat, j: nat, l: nat)
    requires Linked(w) && i < |w.pets| && w.pets[i].leashed && j <= l < |w.things| && Holds(w.things[l], w.pets[i].id)
    ensures Slacken(w, i, j) == if w.things[l].cursed then (w, false) else (MUnleash(w, w.pets[i].id), true)
    decreases l - j
  {
    var id := w.pets[i].id;
    assert InUse(w.things[l]);
    if j < l {
      assert Holds(w.things[j], id) ==> InUse(w.things[j]);
      SlackenIs(w, i, j + 1, l);
    } else if !w.things[l].cursed {
      var v := World(w.pets[i := w.pets[i].(leashed := false)], w.things[l := w.things[l].(leashmon := 0)]);
      OUnleashIsMUnleash(w, l);
      assert v.pets == Loose(w.pets, id);
      assert v == MUnleash(w, id);
      SlackenNone(v, i, l + 1);
    }
  }

  function Near(hero: Coord, at: Coord): bool {
    Dist2(hero, at) <= 2
  }

  /** One pet of next_to_u's loop; to is where mnexto would put it. */
  function CallOne(w: World, hero: Coord, to: Coord, i: nat): (r: (World, bool))
    requires i < |w.pets|
    ensures |r.0.pets| == |w.pets|
  {
    var p := w.pets[i];
    if p.hp <= 0 || !p.leashed || Near(hero, p.at) then (w, true)
    else
      var moved := w.(pets := w.pets[i := p.(at := to)]);
      if Near(hero, to) then (moved, true) else Slacken(moved, i, 0)
  }

  function CallFrom(w: World, hero: Coord, to: seq<Coord>, burdened: bool, i: nat): (World, bool)
    requires |to| == |w.pets| && i <= |w.pets|
    decreases |w.pets| - i
  {
    if i == |w.pets| then (w, !burdened)
    else
      var (v, ok) := CallOne(w, hero, to[i], i);
      if !ok then (v, false) else CallFrom(v, hero, to, burdened, i + 1)
  }

  /** next_to_u; burdened is whether the steed carries the Amulet. */
  function NextToU(w: World, hero: Coord, to: seq<Coord>, burdened: bool): (World, bool)
    requires |to| == |w.pets|
  {
    CallFrom(w, hero, to, burdened, 0)
  }

  /** A pet that is called: it comes, or is let go where it got to. */
  function Called(p: Pet, hero: Coord, to: Coord): Pet {
    if p.hp <= 0 || !p.leashed || Near(hero, p.at) then p else p.(at := to, leashed := Near(hero, to))
  }

  predicate Strays(p: Pet, hero: Coord, to: Coord) {
    p.hp > 0 && p.leashed && !Near(hero, p.at) && !Near(hero, to)
  }

  lemma MovedLinked(w: World, i: nat, p: Pet)
    requires Linked(w) && i < |w.pets| && p.id == w.pets[i].id && p.leashed == w.pets[i].leashed
    requires p.leashed ==> p.hp > 0
    ensures Linked(w.(pets := w.pets[i := p]))
  {
    var v := w.(pets := w.pets[i := p]);
    forall j | 0 <= j < |v.things| && InUse(v.things[j])
      ensures HasPet(v.pets, v.things[j].leashmon)
    {
      assert HasPet(w.pets, w.things[j].leashmon);
      var k :| 0 <= k < |w.pets| && w.pets[k].id == w.things[j].leashmon && w.pets[k].leashed;
      assert v.pets[k].leashed && v.pets[k].id == w.things[j].leashmon;
    }
  }

  /** Calling one pet in one go. */
  ghost function OneCalled(w: World, hero: Coord, to: Coord, i: nat): (World, bool)
    requires i < |w.pets|
  {
    var p := w.pets[i];
    var moved := w.(pets := w.pets[i := p.(at := to)]);
    if p.hp <= 0 || !p.leashed || Near(hero, p.at) then (w, true)
    else if Near(hero, to) then (moved, true)
    else if CursedHold(w.things, p.id) then (moved, false)
    else (MUnleash(moved, p.id), true)
  }

  lemma CallOneIs(w: World, hero: Coord, to: Coord, i: nat)
    requires Linked(w) && i < |w.pets|
    ensures CallOne(w, hero, to, i) == OneCalled(w, hero, to, i)
  {
    var p := w.pets[i];
    if p.hp > 0 && p.leashed && !Near(hero, p.at) && !Near(hero, to) {
      var moved := w.(pets := w.pets[i := p.(at := to)]);
      MovedLinked(w, i, p.(at := to));
      assert HasLeash(w.things, w.pets[i].id);
      var l :| 0 <= l < |w.things| && Holds(w.things[l], p.id);
      SlackenIs(moved, i, 0, l);
      OnlyHolder(w, p.id, l);
    }
  }

  lemma OnlyHolder(w: World, id: int, l: nat)
    requires Linked(w) && l < |w.things| && id != 0 && Holds(w.things[l], id)
    ensures CursedHold(w.things, id) <==> w.things[l].cursed
  {
    NoOther(w.things, l);
  }

  lemma CallOneLinked(w: World, hero: Coord, to: Coord, i: nat)
    requires Linked(w) && i < |w.pets|
    ensures var v := CallOne(w, hero, to, i).0; Linked(v) && NumberLeashed(v.things) <= NumberLeashed(w.things)
  {
    CallOneIs(w, hero, to, i);
    var p := w.pets[i];
    if p.hp > 0 && p.leashed {
      MovedLinked(w, i, p.(at := to));
      MUnleashKeeps(w.(pets := w.pets[i := p.(at := to)]), p.id);
    }
  }

  /** What calling one pet does: the others and their leashes are left alone. */
  lemma OneCalledShape(w: World, hero: Coord, to: Coord, i: nat)
    requires Distinct(w.pets) && i < |w.pets|
    ensures var (v, ok) := OneCalled(w, hero, to, i);
            && (ok <==> !(Strays(w.pets[i], hero, to) && CursedHold(w.things, w.pets[i].id)))
            && (ok ==> v.pets == w.pets[i := Called(w.pets[i], hero, to)])
            && (v.things == w.things || v.things == Slack(w.things, w.pets[i].id))
  {
    var (v, ok) := OneCalled(w, hero, to, i);
    if ok {
      assert v.pets == w.pets[i := Called(w.pets[i], hero, to)];
    }
  }

  lemma CursedHoldSame(things: seq<Thing>, other: int, id: int)
    requires id != other && id != 0
    ensures CursedHold(Slack(things, other), id) <==> CursedHold(things, id)
  {
    var s := Slack(things, other);
    if CursedHold(things, id) {
      var j :| 0 <= j < |things| && Holds(things[j], id) && things[j].cursed;
      assert Holds(s[j], id) && s[j].cursed;
    }
    if CursedHold(s, id) {
      var j :| 0 <= j < |s| && Holds(s[j], id) && s[j].cursed;
      assert Holds(things[j], id) && things[j].cursed;
    }
  }

  ghost predicate NoneStuck(w: World, hero: Coord, to: seq<Coord>, i: nat)
    requires |to| == |w.pets|
  {
    forall k :: i <= k < |w.pets| ==> !(Strays(w.pets[k], hero, to[k]) && CursedHold(w.things, w.pets[k].id))
  }

  lemma NoneStuckStep(w: World, v: World, hero: Coord, to: seq<Coord>, i: nat)
    requires Distinct(w.pets) && |to| == |w.pets| == |v.pets| && i < |w.pets|
    requires forall k :: i < k < |w.pets| ==> v.pets[k] == w.pets[k]
    requires v.things == w.things || v.things == Slack(w.things, w.pets[i].id)
    ensures NoneStuck(w, hero, to, i) <==>
            !(Strays(w.pets[i], hero, to[i]) && CursedHold(w.things, w.pets[i].id)) && NoneStuck(v, hero, to, i + 1)
  {
    forall k | i < k < |w.pets|
      ensures CursedHold(v.things, w.pets[k].id) <==> CursedHold(w.things, w.pets[k].id)
    {
      CursedHoldSame(w.things, w.pets[i].id, w.pets[k].id);
    }
  }

  lemma {:induction false} CallFromLinked(w: World, hero: Coord, to: seq<Coord>, burdened: bool, i: nat)
    requires Linked(w) && |to| == |w.pets| && i <= |w.pets|
    ensures var v := CallFrom(w, hero, to, burdened, i).0; Linked(v) && NumberLeashed(v.things) <= NumberLeashed(w.things)
    decreases |w.pets| - i
  {
    if i < |w.pets| {
      CallOneLinked(w, hero, to[i], i);
      var (v, ok) := CallOne(w, hero, to[i], i);
      if ok {
        CallFromLinked(v, hero, to, burdened, i + 1);
      }
    }
  }

  lemma {:induction false} CallFromOk(w: World, hero: Coord, to: seq<Coord>, burdened: bool, i: nat)
    requires Linked(w) && |to| == |w.pets| && i <= |w.pets|
    ensures CallFrom(w, hero, to, burdened, i).1 <==> !burdened && NoneStuck(w, hero, to, i)
    decreases |w.pets| - i
  {
    if i < |w.pets| {
      CallOneIs(w, hero, to[i], i);
      OneCalledShape(w, hero, to[i], i);
      CallOneLinked(w, hero, to[i], i);
      var (v, ok) := CallOne(w, hero, to[i], i);
      if ok {
        CallFromOk(v, hero, to, burdened, i + 1);
        NoneStuckStep(w, v, hero, to, i);
      }
    }
  }

  lemma {:induction false} CallFromPets(w: World, hero: Coord, to: seq<Coord>, burdened: bool, i: nat)
    requires Linked(w) && |to| == |w.pets| && i <= |w.pets|
    ensures var (v, ok) := CallFrom(w, hero, to, burdened, i);
            ok ==> |v.pets| == |w.pets| &&
                   forall k :: 0 <= k < |w.pets| ==> v.pets[k] == if k < i then w.pets[k] else Called(w.pets[k], hero, to[k])
    decreases |w.pets| - i
  {
    if i < |w.pets| {
      CallOneIs(w, hero, to[i], i);
      OneCalledShape(w, hero, to[i], i);
      CallOneLinked(w, hero, to[i], i);
      var (v, ok) := CallOne(w, hero, to[i], i);
      if ok {
        CallFromPets(v, hero, to, burdened, i + 1);
      }
    }
  }

  /** The hero may leave exactly when no leashed pet that cannot reach him is on a cursed leash and the
      steed is not carrying the Amulet. Then every living pet still leashed is beside him, and a pet was let
      go exactly if it could not come. Either way leashes and pets still correspond. */
  lemma NextToUIff(w: World, hero: Coord, to: seq<Coord>, burdened: bool)
    requires Linked(w) && |to| == |w.pets|
    ensures var (v, ok) := NextToU(w, hero, to, burdened);
            && Linked(v) && (Few(w) ==> Few(v))
            && (ok <==> !burdened && NoneStuck(w, hero, to, 0))
            && (ok ==> |v.pets| == |w.pets| && forall k :: 0 <= k < |w.pets| ==>
                  && v.pets[k] == Called(w.pets[k], hero, to[k])
                  && (v.pets[k].hp > 0 && v.pets[k].leashed ==> Dist2(hero, v.pets[k].at) <= 2))
  {
    CallFromLinked(w, hero, to, burdened, 0);
    CallFromOk(w, hero, to, burdened, 0);
    CallFromPets(w, hero, to, burdened, 0);
  }

  /** Without the correspondence it would not do: a pet marked leashed that no leash holds is left behind
      without the hero noticing. */
  lemma StrayWithoutLeash()
    ensures exists w: World, hero, to ::
              && |to| == |w.pets| && Distinct(w.pets)
              && var (v, ok) := NextToU(w, hero, to, false);
                 ok && exists k :: 0 <= k < |v.pets| && v.pets[k].hp > 0 && v.pets[k].leashed && Dist2(hero, v.pets[k].at) > 2
  {
    var w := World([Pet(2, true, 5, Coord(10, 10), 4, false, false)], []);
    var hero, to := Coord(1, 1), [Coord(10, 10)];
    assert w.pets[0 := w.pets[0].(at := to[0])] == w.pets;
    SlackenNone(w, 0, 0);
    assert CallOne(w, hero, to[0], 0) == (w, true);
    var (v, ok) := NextToU(w, hero, to, false);
    assert ok && v == w && v.pets[0].leashed && Dist2(hero, v.pets[0].at) > 2;
  }
}
