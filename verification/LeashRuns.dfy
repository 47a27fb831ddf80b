/** Any run of events that touch leashes, their pets, or what the hero carries. */
module LeashRuns {
  import opened Geometry
  import opened Leashes
  import opened LeashWalk
  import opened LeashDrag

  /** The hero applies a leash; a leash or other thing is destroyed, stolen or dropped; a pet comes loose or
      goes wild; it moves, is hurt or healed, or likes the hero more or less; one dies, leaves the level or
      stays behind when the hero does; a creature comes, or is met on a new level; the hero gets a leash or
      other thing; he is about to leave the level; he moves; he dies. Pets that follow him stay in the list. */
  datatype Event =
    | Apply(j: nat, target: Target)
    | Lose(j: nat)
    | ComesLoose(i: nat)
    | Lives(i: nat, at: Coord, hp: int, tame: nat)
    | Gone(i: nat)
    | Comes(p: Pet)
    | Gets(t: Thing)
    | Leaves(hero: Coord, to: seq<Coord>, burdened: bool)
    | Walks(hero: Coord, from: Coord, rolls: seq<Roll>)
    | HeroDies

  function Without<T>(s: seq<T>, i: nat): (r: seq<T>)
    requires i < |s|
    ensures |r| == |s| - 1
  {
    s[..i] + s[i + 1..]
  }

  /** Can the event happen now? Newcomers are not leashed and have ids of their own, what the hero gets is
      not in use, and he cannot apply a leash to a dead creature. */
  ghost predicate Can(w: World, e: Event) {
    match e
    case Apply(j, target) =>
      j < |w.things| && w.things[j].leash && (target.Creature? ==> target.i < |w.pets| && w.pets[target.i].hp > 0)
    case Lose(j) => j < |w.things|
    case ComesLoose(i) => i < |w.pets|
    case Lives(i, _, hp, _) => i < |w.pets| && hp > 0
    case Gone(i) => i < |w.pets|
    case Comes(p) => !p.leashed && p.id > 0 && forall i :: 0 <= i < |w.pets| ==> w.pets[i].id != p.id
    case Gets(t) => !InUse(t)
    case Leaves(_, to, _) => |to| == |w.pets|
    case Walks(_, _, rolls) => |rolls| == |w.things|
    case HeroDies => true
  }

  ghost function Step(w: World, e: Event): World
    requires Can(w, e)
  {
    match e
    case Apply(j, target) => UseLeash(w, j, target).0
    case Lose(j) =>
      var v := if InUse(w.things[j]) then OUnleash(w, j) else w;
      v.(things := Without(v.things, j))
    case ComesLoose(i) => MUnleash(w, w.pets[i].id)
    case Lives(i, at, hp, tame) => w.(pets := w.pets[i := w.pets[i].(at := at, hp := hp, tame := tame)])
    case Gone(i) =>
      var v := if w.pets[i].leashed then MUnleash(w, w.pets[i].id) else w;
      v.(pets := Without(v.pets, i))
    case Comes(p) => w.(pets := [p] + w.pets)
    case Gets(t) => w.(things := [t] + w.things)
    case Leaves(hero, to, burdened) => NextToU(w, hero, to, burdened).0
    case Walks(hero, from, rolls) => CheckLeash(w, hero, from, rolls)
    case HeroDies => UnleashAll(w)
  }

  lemma HasLeashMoved(a: seq<Thing>, b: seq<Thing>, id: int, j: nat, k: nat)
    requires j < |a| && k < |b| && a[j] == b[k] && Holds(a[j], id)
    ensures HasLeash(b, id)
  {
  }

  lemma HasPetMoved(a: seq<Pet>, b: seq<Pet>, id: int, i: nat, k: nat)
    requires i < |a| && k < |b| && a[i] == b[k] && a[i].id == id && a[i].leashed
    ensures HasPet(b, id)
  {
  }

  lemma LoseKeeps(w: World, j: nat)
    requires Linked(w) && j < |w.things| && !InUse(w.things[j])
    ensures Linked(w.(things := Without(w.things, j)))
  {
    var v := w.(things := Without(w.things, j));
    forall i | 0 <= i < |v.pets| && v.pets[i].leashed
      ensures HasLeash(v.things, v.pets[i].id)
    {
      assert HasLeash(w.things, w.pets[i].id);
      var l :| 0 <= l < |w.things| && Holds(w.things[l], w.pets[i].id);
      assert InUse(w.things[l]);
      HasLeashMoved(w.things, v.things, w.pets[i].id, l, if l < j then l else l - 1);
    }
    forall k | 0 <= k < |v.things| && InUse(v.things[k])
      ensures HasPet(v.pets, v.things[k].leashmon)
    {
      assert HasPet(w.pets, w.things[if k < j then k else k + 1].leashmon);
    }
    forall k, l | 0 <= k < l < |v.things| && InUse(v.things[k]) && InUse(v.things[l])
      ensures v.things[k].leashmon != v.things[l].leashmon
    {
      var k', l' := if k < j then k else k + 1, if l < j then l else l + 1;
      assert InUse(w.things[k']) && InUse(w.things[l']);
    }
  }

  lemma GetKeeps(w: World, t: Thing)
    requires Linked(w) && !InUse(t)
    ensures Linked(w.(things := [t] + w.things))
  {
    var v := w.(things := [t] + w.things);
    forall i | 0 <= i < |v.pets| && v.pets[i].leashed
      ensures HasLeash(v.things, v.pets[i].id)
    {
      assert HasLeash(w.things, w.pets[i].id);
      var l :| 0 <= l < |w.things| && Holds(w.things[l], w.pets[i].id);
      HasLeashMoved(w.things, v.things, w.pets[i].id, l, l + 1);
    }
    forall k | 0 <= k < |v.things| && InUse(v.things[k])
      ensures HasPet(v.pets, v.things[k].leashmon)
    {
      assert HasPet(w.pets, w.things[k - 1].leashmon);
    }
    forall k, l | 0 <= k < l < |v.things| && InUse(v.things[k]) && InUse(v.things[l])
      ensures v.things[k].leashmon != v.things[l].leashmon
    {
      assert InUse(w.things[k - 1]) && InUse(w.things[l - 1]);
    }
  }

  lemma GoneKeeps(w: World, i: nat)
    requires Linked(w) && i < |w.pets| && !w.pets[i].leashed
    ensures Linked(w.(pets := Without(w.pets, i)))
  {
    var v := w.(pets := Without(w.pets, i));
    forall k | 0 <= k < |v.pets| && v.pets[k].leashed
      ensures HasLeash(v.things, v.pets[k].id)
    {
      assert HasLeash(w.things, w.pets[if k < i then k else k + 1].id);
    }
    forall j | 0 <= j < |v.things| && InUse(v.things[j])
      ensures HasPet(v.pets, v.things[j].leashmon)
    {
      assert HasPet(w.pets, w.things[j].leashmon);
      var k :| 0 <= k < |w.pets| && w.pets[k].id == w.things[j].leashmon && w.pets[k].leashed;
      HasPetMoved(w.pets, v.pets, w.things[j].leashmon, k, if k < i then k else k - 1);
    }
    forall k, l | 0 <= k < l < |v.pets|
      ensures v.pets[k].id != v.pets[l].id
    {
      assert w.pets[if k < i then k else k + 1].id != w.pets[if l < i then l else l + 1].id;
    }
  }

  lemma ComeKeeps(w: World, p: Pet)
    requires Linked(w) && Can(w, Comes(p))
    ensures Linked(w.(pets := [p] + w.pets))
  {
    var v := w.(pets := [p] + w.pets);
    forall k | 0 <= k < |v.pets| && v.pets[k].leashed
      ensures HasLeash(v.things, v.pets[k].id)
    {
      assert HasLeash(w.things, w.pets[k - 1].id);
    }
    forall j | 0 <= j < |v.things| && InUse(v.things[j])
      ensures HasPet(v.pets, v.things[j].leashmon)
    {
      assert HasPet(w.pets, w.things[j].leashmon);
      var k :| 0 <= k < |w.pets| && w.pets[k].id == w.things[j].leashmon && w.pets[k].leashed;
      HasPetMoved(w.pets, v.pets, w.things[j].leashmon, k, k + 1);
    }
  }

  lemma {:induction false} CountWithout(things: seq<Thing>, j: nat)
    requires j < |things| && !InUse(things[j])
    ensures NumberLeashed(Without(things, j)) == NumberLeashed(things)
  {
    var n := |things| - 1;
    if j < n {
      CountWithout(things[..n], j);
      assert Without(things, j)[..n - 1] == Without(things[..n], j);
    } else {
      assert Without(things, j) == things[..n];
    }
  }

  lemma {:induction false} CountAdded(t: Thing, things: seq<Thing>)
    requires !InUse(t)
    ensures NumberLeashed([t] + things) == NumberLeashed(things)
  {
    if things != [] {
      var n := |things| - 1;
      CountAdded(t, things[..n]);
      assert ([t] + things)[..n + 1] == [t] + things[..n];
    }
  }

  lemma StepKeeps(w: World, e: Event)
    requires Linked(w) && Few(w) && Can(w, e)
    ensures Linked(Step(w, e)) && Few(Step(w, e))
  {
    match e
    case Apply(j, target) => UseLeashKeeps(w, j, target);
    case Lose(j) =>
      if InUse(w.things[j]) {
        OUnleashIsMUnleash(w, j);
        MUnleashKeeps(w, w.things[j].leashmon);
        LoseKeeps(OUnleash(w, j), j);
        CountWithout(OUnleash(w, j).things, j);
      } else {
        LoseKeeps(w, j);
        CountWithout(w.things, j);
      }
    case ComesLoose(i) => MUnleashKeeps(w, w.pets[i].id);
    case Lives(i, at, hp, tame) => MovedLinked(w, i, w.pets[i].(at := at, hp := hp, tame := tame));
    case Gone(i) =>
      if w.pets[i].leashed {
        MUnleashKeeps(w, w.pets[i].id);
        GoneKeeps(MUnleash(w, w.pets[i].id), i);
      } else {
        GoneKeeps(w, i);
      }
    case Comes(p) => ComeKeeps(w, p);
    case Gets(t) =>
      GetKeeps(w, t);
      CountAdded(t, w.things);
    case Leaves(hero, to, burdened) => NextToUIff(w, hero, to, burdened);
    case Walks(hero, from, rolls) => CheckLeashIs(w, hero, from, rolls);
    case HeroDies =>
  }

  /** A run that can happen, and where it leads. */
  ghost predicate CanRun(w: World, events: seq<Event>)
    decreases |events|
  {
    events != [] ==> Can(w, events[0]) && CanRun(Step(w, events[0]), events[1..])
  }

  ghost function Run(w: World, events: seq<Event>): World
    requires CanRun(w, events)
    decreases |events|
  {
    if events == [] then w else Run(Step(w, events[0]), events[1..])
  }

  /** Over any run, leashes in use and leashed pets stay in one-to-one correspondence, and there are never
      more than two of them. */
  lemma {:induction false} RunKeepsLinked(w: World, events: seq<Event>)
    requires Linked(w) && Few(w) && CanRun(w, events)
    ensures var v := Run(w, events);
            Linked(v) && NumberLeashed(v.things) == LeashedPets(v.pets) <= MAXLEASHED
    decreases |events|
  {
    if events == [] {
      CountsAgree(w);
    } else {
      StepKeeps(w, events[0]);
      RunKeepsLinked(Step(w, events[0]), events[1..]);
    }
  }
}
