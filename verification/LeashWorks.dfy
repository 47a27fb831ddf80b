/** The leash functions of apply.c in their own form: loops over the level's monsters and the hero's
    inventory that set leashmon and mleashed in place. The two lists are arrays of records, and a pointer
    into one of them is an index. */
module LeashWorks {
  import opened Geometry
  import opened Leashes
  import opened LeashWalk
  import opened LeashDrag

  class Level {
    const monlist: array<Pet>
    const invent: array<Thing>

    constructor (pets: seq<Pet>, things: seq<Thing>)
      ensures Val() == World(pets, things) && fresh(monlist) && fresh(invent)
    {
      monlist := new Pet[|pets|](i requires 0 <= i < |pets| => pets[i]);
      invent := new Thing[|things|](j requires 0 <= j < |things| => things[j]);
      new;
      assert monlist[..] == pets && invent[..] == things;
    }

    ghost function Val(): World
      reads monlist, invent
    {
      World(monlist[..], invent[..])
    }

    /** number_leashed */
    method Number() returns (n: nat)
      ensures n == NumberLeashed(invent[..])
    {
      n := 0;
      var j := 0;
      while j < invent.Length
        invariant 0 <= j <= invent.Length && n == NumberLeashed(invent[..j])
      {
        assert invent[..j + 1][..j] == invent[..j];
        if invent[j].leash && invent[j].leashmon != 0 {
          n := n + 1;
        }
        j := j + 1;
      }
      assert invent[..j] == invent[..];
    }

    /** o_unleash */
    method Unleash(j: nat)
      requires j < invent.Length
      modifies monlist, invent
      ensures Val() == OUnleash(old(Val()), j)
    {
      ghost var pets := monlist[..];
      var i := 0;
      while i < monlist.Length
        invariant 0 <= i <= monlist.Length && invent[..] == old(invent[..])
        invariant forall k :: 0 <= k < i ==> monlist[k] == LooseOne(pets[k], invent[j].leashmon)
        invariant forall k :: i <= k < monlist.Length ==> monlist[k] == pets[k]
      {
        if monlist[i].id == invent[j].leashmon {
          monlist[i] := monlist[i].(leashed := false);
        }
        i := i + 1;
      }
      assert monlist[..] == Loose(pets, invent[j].leashmon);
      invent[j] := invent[j].(leashmon := 0);
    }

    /** m_unleash */
    method Free(i: nat)
      requires i < monlist.Length && Distinct(monlist[..])
      modifies monlist, invent
      ensures Val() == MUnleash(old(Val()), old(monlist[i].id))
    {
      ghost var things, pets, id := invent[..], monlist[..], monlist[i].id;
      var j := 0;
      while j < invent.Length
        invariant 0 <= j <= invent.Length && monlist[..] == pets
        invariant forall k :: 0 <= k < j ==> invent[k] == SlackOne(things[k], id)
        invariant forall k :: j <= k < invent.Length ==> invent[k] == things[k]
      {
        if invent[j].leash && invent[j].leashmon == monlist[i].id {
          invent[j] := invent[j].(leashmon := 0);
        }
        j := j + 1;
      }
      assert invent[..] == Slack(things, id);
      monlist[i] := monlist[i].(leashed := false);
      assert monlist[..] == Loose(pets, id);
    }

    /** unleash_all */
    method FreeAll()
      modifies monlist, invent
      ensures Val() == UnleashAll(old(Val()))
    {
      ghost var things, pets := invent[..], monlist[..];
      var j := 0;
      while j < invent.Length
        invariant 0 <= j <= invent.Length && monlist[..] == pets
        invariant forall k :: 0 <= k < j ==> invent[k] == SlackAny(things[k])
        invariant forall k :: j <= k < invent.Length ==> invent[k] == things[k]
      {
        if invent[j].leash {
          invent[j] := invent[j].(leashmon := 0);
        }
        j := j + 1;
      }
      assert invent[..] == AllSlack(things);
      var i := 0;
      while i < monlist.Length
        invariant 0 <= i <= monlist.Length && invent[..] == AllSlack(things)
        invariant forall k :: 0 <= k < i ==> monlist[k] == pets[k].(leashed := false)
        invariant forall k :: i <= k < monlist.Length ==> monlist[k] == pets[k]
      {
        monlist[i] := monlist[i].(leashed := false);
        i := i + 1;
      }
      assert monlist[..] == AllLoose(pets);
    }

    /** use_leash, once the hero has said where. */
    method Use(j: nat, target: Target) returns (time: nat)
      requires j < invent.Length && (target.Creature? ==> target.i < monlist.Length)
      modifies monlist, invent
      ensures (Val(), time) == UseLeash(old(Val()), j, target)
    {
      time := 0;
      if invent[j].leashmon == 0 {
        var n := Number();
        if n >= MAXLEASHED {
          return;
        }
      }
      if !target.Creature? || monlist[target.i].tame == 0 {
        return;
      }
      var i := target.i;
      if invent[j].leashmon == 0 {
        if !monlist[i].leashed {
          monlist[i] := monlist[i].(leashed := true);
          invent[j] := invent[j].(leashmon := monlist[i].id);
          time := 1;
        }
      } else if invent[j].leashmon == monlist[i].id {
        time := 1;
        if !invent[j].cursed {
          monlist[i] := monlist[i].(leashed := false);
          invent[j] := invent[j].(leashmon := 0);
        }
      }
    }

    /** The leashes of a pet that cannot come go slack; false when one is cursed. */
    method SlackenFor(i: nat) returns (ok: bool)
      requires i < monlist.Length
      modifies monlist, invent
      ensures (Val(), ok) == Slacken(old(Val()), i, 0)
    {
      var j := 0;
      while j < invent.Length
        invariant 0 <= j <= invent.Length
        invariant Slacken(Val(), i, j) == Slacken(old(Val()), i, 0)
      {
        if invent[j].leash && invent[j].leashmon == monlist[i].id {
          if invent[j].cursed {
            return false;
          }
          ghost var w := Val();
          monlist[i] := monlist[i].(leashed := false);
          invent[j] := invent[j].(leashmon := 0);
          assert Val() == World(w.pets[i := w.pets[i].(leashed := false)], w.things[j := w.things[j].(leashmon := 0)]);
        }
        j := j + 1;
      }
      return true;
    }

    method Call(i: nat, hero: Coord, to: Coord) returns (ok: bool)
      requires i < monlist.Length
      modifies monlist, invent
      ensures (Val(), ok) == CallOne(old(Val()), hero, to, i)
    {
      ok := true;
      if monlist[i].hp > 0 && monlist[i].leashed && !Near(hero, monlist[i].at) {
        monlist[i] := monlist[i].(at := to);
        if !Near(hero, to) {
          ok := SlackenFor(i);
        }
      }
    }

    /** next_to_u */
    method NextToHero(hero: Coord, to: seq<Coord>, burdened: bool) returns (ok: bool)
      requires |to| == monlist.Length
      modifies monlist, invent
      ensures (Val(), ok) == NextToU(old(Val()), hero, to, burdened)
    {
      var i := 0;
      while i < monlist.Length
        invariant 0 <= i <= monlist.Length
        invariant CallFrom(Val(), hero, to, burdened, i) == CallFrom(old(Val()), hero, to, burdened, 0)
      {
        var come := Call(i, hero, to[i]);
        if !come {
          return false;
        }
        i := i + 1;
      }
      return !burdened;
    }

    method FindLiving(id: int) returns (found: Option<nat>)
      ensures found == FindAlive(monlist[..], id, 0)
    {
      var i := 0;
      while i < monlist.Length
        invariant 0 <= i <= monlist.Length
        invariant FindAlive(monlist[..], id, i) == FindAlive(monlist[..], id, 0)
      {
        if monlist[i].hp > 0 && monlist[i].id == id {
          return Some(i);
        }
        i := i + 1;
      }
      return None;
    }

    /** xkilled, with the amulet that may undo it. */
    method Kill(i: nat, r: Roll)
      requires i < monlist.Length && Distinct(monlist[..])
      modifies monlist, invent
      ensures var w := old(Val());
              var p, v := w.pets[i], w.(pets := w.pets[i := Slain(w.pets[i], r)]);
              Val() == if LetGo(p, r) && p.leashed then MUnleash(v, p.id) else v
    {
      var p := monlist[i];
      var resents := p.tame > 0 && !p.minion;
      monlist[i] := p.(hp := r.saved, tame := if r.saved > 0 && resents then 0 else p.tame);
      if (r.saved == 0 || resents) && p.leashed {
        Free(i);
      }
    }

    /** The leash chokes its pet. */
    method Choke(i: nat, hero: Coord, r: Roll)
      requires i < monlist.Length && Distinct(monlist[..])
      modifies monlist, invent
      ensures Val() == Choked(old(Val()), i, hero, r)
    {
      var p := monlist[i];
      if DistMin(hero, p.at) > 5 || p.hp - r.hurt <= 0 {
        Kill(i, r);
      } else {
        monlist[i] := p.(hp := p.hp - r.hurt, tame := if p.tame > 1 && r.vexed then p.tame - 1 else p.tame);
      }
    }

    method Pull(j: nat, hero: Coord, from: Coord, r: Roll)
      requires j < invent.Length && Distinct(monlist[..])
      modifies monlist, invent
      ensures Val() == Tug(old(Val()), j, hero, from, r)
    {
      if !invent[j].leash || invent[j].leashmon == 0 {
        return;
      }
      var found := FindLiving(invent[j].leashmon);
      if found.None? {
        invent[j] := invent[j].(leashmon := 0);
        return;
      }
      var p := monlist[found.value];
      if Dist2(hero, p.at) > Dist2(from, p.at) && DistMin(hero, p.at) > 3 {
        if invent[j].cursed && !p.breathless {
          Choke(found.value, hero, r);
        } else if DistMin(hero, p.at) > 5 {
          Free(found.value);
        }
      }
    }

    /** check_leash */
    method Check(hero: Coord, from: Coord, rolls: seq<Roll>)
      requires |rolls| == invent.Length && Distinct(monlist[..])
      modifies monlist, invent
      ensures Val() == CheckLeash(old(Val()), hero, from, rolls)
    {
      var j := 0;
      while j < invent.Length
        invariant 0 <= j <= invent.Length && Distinct(monlist[..])
        invariant CheckFrom(Val(), hero, from, rolls, j) == CheckFrom(old(Val()), hero, from, rolls, 0)
      {
        StillDistinct(Val(), j, hero, from, rolls[j]);
        Pull(j, hero, from, rolls[j]);
        j := j + 1;
      }
    }
  }

  lemma StillDistinct(w: World, j: nat, hero: Coord, from: Coord, r: Roll)
    requires Distinct(w.pets) && j < |w.things|
    ensures Distinct(Tug(w, j, hero, from, r).pets)
  {
    var v := Tug(w, j, hero, from, r);
    assert forall i :: 0 <= i < |v.pets| ==> v.pets[i].id == w.pets[i].id;
  }
}
