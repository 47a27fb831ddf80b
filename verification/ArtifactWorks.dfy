/** artifact.c and bones.c in their own form: objects and the existence array changed in place, object
    chains walked with their contents. */
module ArtifactWorks {
  import opened ArtifactRegistry
  import opened Oprops

  class Item {
    var otyp: Kind
    var special: bool
    var name: string
    var art: nat
    var oprops: set<Prop>
    var cursed: bool
    var blessed: bool
    var spe: int

    /** mksobj: a new object; its properties, blessing and enchantment come from dice. */
    constructor (otyp: Kind, oprops: set<Prop>, cursed: bool, blessed: bool, spe: int)
      ensures Val() == Newborn(otyp, oprops)
      ensures this.cursed == cursed && this.blessed == blessed && this.spe == spe
    {
      this.otyp, special, name, art := otyp, false, "", 0;
      this.oprops, this.cursed, this.blessed, this.spe := oprops, cursed, blessed, spe;
    }

    function Val(): Fields
      reads this
    {
      Fields(otyp, special, name, art, oprops)
    }

    /** The object as far as its properties are concerned. */
    function Bare(types: Kind -> ObjType): Obj
      reads this
    {
      Obj(types(otyp), art != 0, oprops, cursed, blessed, spe)
    }
  }

  /** An object chain (nobj) whose objects may hold chains of their own (cobj). */
  datatype Chain = End | Link(o: Item, contents: Chain, next: Chain)

  /** The objects of a chain, each after what it contains. */
  function Flat(c: Chain): seq<Item> {
    match c
    case End => []
    case Link(o, contents, next) => Flat(contents) + ([o] + Flat(next))
  }

  ghost predicate NoDup(items: seq<Item>) {
    forall i, j :: 0 <= i < j < |items| ==> items[i] != items[j]
  }

  /** The register once the first n objects have been reset in order. */
  function ExistAt(table: seq<Entry>, quest: nat, exist: Register, vals: seq<Fields>, restore: bool, n: nat): (r: Register)
    requires |exist| == |table| && n <= |vals|
    ensures |r| == |table|
  {
    if n == 0 then exist
    else Reset(table, quest, ExistAt(table, quest, exist, vals, restore, n - 1), vals[n - 1], restore).1
  }

  function ValueAt(table: seq<Entry>, quest: nat, exist: Register, vals: seq<Fields>, restore: bool, i: nat): Fields
    requires |exist| == |table| && i < |vals|
  {
    Reset(table, quest, ExistAt(table, quest, exist, vals, restore, i), vals[i], restore).0
  }

  /** Object by object, that is ResetAll. */
  lemma {:induction false} ResetAllAt(
      table: seq<Entry>, quest: nat, exist: Register, vals: seq<Fields>, restore: bool, n: nat)
    requires |exist| == |table| && n <= |vals|
    ensures var r := ResetAll(table, quest, exist, vals[..n], restore);
            && r.1 == ExistAt(table, quest, exist, vals, restore, n)
            && forall i :: 0 <= i < n ==> r.0[i] == ValueAt(table, quest, exist, vals, restore, i)
  {
    if n > 0 {
      ResetAllAt(table, quest, exist, vals, restore, n - 1);
      ResetAllConcat(table, quest, exist, vals[..n - 1], [vals[n - 1]], restore);
      assert vals[..n - 1] + [vals[n - 1]] == vals[..n];
      var exist1 := ExistAt(table, quest, exist, vals, restore, n - 1);
      assert [vals[n - 1]][1..] == [];
      assert ResetAll(table, quest, exist1, [vals[n - 1]], restore).0[0] == Reset(table, quest, exist1, vals[n - 1], restore).0;
    }
  }

  class Artifacts {
    const table: seq<Entry>
    const quest: nat
    const exist: array<bool>
    const types: Kind -> ObjType

    constructor (table: seq<Entry>, quest: nat, types: Kind -> ObjType)
      requires |table| >= 1
      ensures this.table == table && this.quest == quest && this.types == types && exist.Length == |table| && fresh(exist)
      ensures forall m :: 0 <= m < |table| ==> !exist[m]
    {
      this.table, this.quest, this.types := table, quest, types;
      exist := new bool[|table|](_ => false);
    }

    method Exists(otyp: Kind, name: string) returns (found: bool)
      requires exist.Length == |table| >= 1
      ensures found == ExistArtifact(table, exist[..], otyp, name)
    {
      LookupFinds(table, otyp, name, 0);
      if name == "" {
        return false;
      }
      var m := 1;
      while m < |table|
        invariant 1 <= m <= |table|
        invariant Lookup(table, otyp, name, 0) == Lookup(table, otyp, name, m)
      {
        if table[m].otyp == otyp && table[m].name == name {
          return exist[m];
        }
        m := m + 1;
      }
      return false;
    }

    /** artifact_exists */
    method SetExists(o: Item, name: string, mod: bool)
      requires exist.Length == |table| >= 1
      modifies o`art, o`oprops, exist
      ensures (o.Val(), exist[..]) == ArtifactExists(table, old(exist[..]), old(o.Val()), name, mod)
    {
      LookupFinds(table, o.otyp, name, 0);
      if name == "" {
        return;
      }
      var m := 1;
      while m < |table|
        invariant 1 <= m <= |table|
        invariant Lookup(table, o.otyp, name, 0) == Lookup(table, o.otyp, name, m)
        invariant o.Val() == old(o.Val()) && exist[..] == old(exist[..])
      {
        if table[m].otyp == o.otyp && table[m].name == name {
          if mod {
            o.oprops := {};
          }
          o.art := if mod then m else 0;
          exist[m] := mod;
          return;
        }
        m := m + 1;
      }
    }

    method NameObject(o: Item, name: string)
      requires exist.Length == |table| >= 1
      modifies o, exist
      ensures (o.Val(), exist[..]) == Oname(table, old(exist[..]), old(o.Val()), name)
    {
      var taken := Exists(o.otyp, name);
      if o.art != 0 || taken {
        return;
      }
      o.name := name;
      SetExists(o, name, true);
    }

    method Choose(otyp: Kind, unique: bool, alignment: int, gifts: nat, role: int, pick: nat) returns (choice: nat)
      requires exist.Length == |table| >= 1
      ensures var s := EligibleSet(table, exist[..], otyp, unique, alignment, gifts);
              choice == Choice(s, OwnSet(table, s, alignment, role), |table|, pick)
    {
      var made := exist[..];
      ghost var s := EligibleSet(table, made, otyp, unique, alignment, gifts);
      ghost var own := OwnSet(table, s, alignment, role);
      var eligible, n, first := Gather(made, otyp, unique, alignment, gifts, role, s, own);
      if first != 0 {
        FirstOwn(s, own, |table|, pick, first);
        return first;
      }
      NoneOwn(s, own, |table|, pick);
      choice := if n == 0 then 0 else eligible[pick % n];
    }

    /** The loop that gathers eligible artifacts, up to the first of the hero's role if an alignment is asked
        for; s is the set of them all, own of those of the hero's role. */
    method Gather(made: Register, otyp: Kind, unique: bool, alignment: int, gifts: nat, role: int,
                  ghost s: set<nat>, ghost own: set<nat>)
      returns (eligible: array<nat>, n: nat, first: nat)
      requires |made| == |table| >= 1 && 0 !in s
      requires forall m: nat :: m in s <==> m < |table| && Eligible(table, made, otyp, unique, alignment, gifts, m)
      requires forall m: nat :: m in own <==> m in s && alignment != A_NONE && table[m].role == role
      ensures fresh(eligible) && n <= eligible.Length
      ensures first != 0 ==> first in own && forall k :: 0 <= k < first ==> k !in own
      ensures first == 0 ==> eligible[..n] == Below(s, |table|) && forall k :: 0 <= k < |table| ==> k !in own
    {
      eligible := new nat[|table| - 1];
      n, first := 0, 0;
      var m := 1;
      assert Below(s, 1) == Below(s, 0);
      while m < |table|
        invariant 1 <= m <= |table| && n < m && eligible.Length == |table| - 1
        invariant eligible[..n] == Below(s, m)
        invariant forall k :: 0 <= k < m ==> k !in own
      {
        var yes := Eligible(table, made, otyp, unique, alignment, gifts, m);
        assert yes <==> m in s;
        if yes {
          if alignment != A_NONE && table[m].role == role {
            first := m;
            return;
          }
          ghost var before := eligible[..n];
          eligible[n] := m;
          n := n + 1;
          assert eligible[..n] == before + [m];
        }
        m := m + 1;
      }
    }

    /** create_oprop's loop: picks properties until some die says to stop; false when the dice run out. */
    method GrowProps(o: Item, detrimentalToo: bool, dice: seq<nat>) returns (done: bool, rest: seq<nat>)
      modifies o`oprops
      ensures var r := Grow(types(o.otyp), old(o.oprops), detrimentalToo, dice);
              done == r.Some? && (done ==> r.value == (o.oprops, rest))
    {
      rest := dice;
      while true
        invariant Grow(types(o.otyp), old(o.oprops), detrimentalToo, dice) == Grow(types(o.otyp), o.oprops, detrimentalToo, rest)
        decreases |rest|
      {
        if rest == [] {
          return false, [];
        }
        if o.oprops != {} {
          if rest[0] % 250 != 0 {
            return true, rest[1..];
          }
          rest := rest[1..];
          if rest == [] {
            return false, [];
          }
        }
        var j := Face(rest[0]);
        rest := rest[1..];
        if j in o.oprops || j == Vorpal || (Detrimental(j) && !detrimentalToo) {
          continue;
        }
        var kept := RestrictOprops(types(o.otyp), {j});
        o.oprops := o.oprops + kept;
      }
    }

    method Spruce(o: Item, detrimentalToo: bool, dice: seq<nat>) returns (done: bool)
      modifies o`oprops, o`cursed, o`blessed
      ensures var r := Spruced(old(o.Bare(types)), detrimentalToo, dice);
              done == r.Some? && (done ==> o.Bare(types) == r.value)
    {
      var t := types(o.otyp);
      if o.art != 0 || t.unique || !Bears(t) {
        return true;
      }
      var rest;
      done, rest := GrowProps(o, detrimentalToo, dice);
      if done && detrimentalToo && o.oprops * {Fumbling, Hunger, Aggravate} != {} {
        if rest == [] {
          return false;
        }
        if rest[0] % 10 != 0 {
          o.blessed, o.cursed := false, true;
        }
      }
    }

    /** create_oprop for an object that exists; false when the dice run out. */
    method CreateOprop(o: Item, detrimentalToo: bool, dice: seq<nat>) returns (done: bool)
      modifies o`oprops, o`cursed, o`blessed, o`spe
      ensures var r := Created(old(o.Bare(types)), detrimentalToo, dice);
              done == r.Some? && (done ==> o.Bare(types) == r.value)
    {
      var t, rest := types(o.otyp), dice;
      if !detrimentalToo {
        if o.cursed {
          o.cursed := false;
        } else if t.oclass != Coin {
          o.blessed := true;
        }
        if Enchanted(t) {
          if o.spe < 0 {
            o.spe := 0;
          } else if o.spe == 0 {
            if dice == [] {
              return false;
            }
            o.spe := 1 + dice[0] % 2;
            rest := dice[1..];
          }
        }
      }
      done := Spruce(o, detrimentalToo, rest);
    }

    /** mk_artifact on an object, no alignment asked for: it becomes an eligible artifact of its type, or,
        where there is none, loses its properties and is given new ones. */
    method MakeOf(o: Item, pick: nat, dice: seq<nat>) returns (done: bool)
      requires exist.Length == |table| && TableOk(table)
      modifies o, exist
      ensures var was, registered := old(o.Val()), old(exist[..]);
              var unique := types(was.otyp).unique;
              var s := EligibleSet(table, registered, was.otyp, unique, A_NONE, 0);
              var m := Choice(s, {}, |table|, pick);
              if was.art != 0 then o.Val() == was && exist[..] == registered
              else if s != {} then
                o.Val() == was.(name := table[m].name, art := m, oprops := {}) && exist[..] == registered[m := true]
              else
                exist[..] == registered && o.Val() == was.(oprops := o.oprops) &&
                var r := Created(old(o.Bare(types)).(oprops := {}), false, dice);
                done == r.Some? && (done ==> o.Bare(types) == r.value)
    {
      if o.art != 0 {
        return true;
      }
      o.oprops := {};
      var m := Choose(o.otyp, types(o.otyp).unique, A_NONE, 0, 0, pick);
      assert OwnSet(table, EligibleSet(table, exist[..], o.otyp, types(o.otyp).unique, A_NONE, 0), A_NONE, 0) == {};
      if m != 0 {
        MakeIsArtifact(table, exist[..], o.Val(), m);
        NameObject(o, table[m].name);
        o.art := m;
        exist[m] := true;
        done := true;
      } else {
        done := CreateOprop(o, false, dice);
      }
    }

    /** mk_artifact for an alignment: a new object, made an artifact of that alignment if one is eligible, and
        otherwise a weapon of some other kind with new properties. */
    method MakeGift(
        alignment: int, gifts: nat, role: int, pick: nat, other: Kind, oprops: set<Prop>, cursed: bool, blessed: bool,
        spe: int, dice: seq<nat>)
      returns (o: Item, done: bool)
      requires exist.Length == |table| && TableOk(table) && alignment != A_NONE
      modifies exist
      ensures var s := EligibleSet(table, old(exist[..]), STRANGE, false, alignment, gifts);
              var m := Choice(s, OwnSet(table, s, alignment, role), |table|, pick);
              && fresh(o)
              && (if s != {} then
                    done && exist[..] == old(exist[..])[m := true] &&
                    o.Val() == Newborn(table[m].otyp, {}).(name := table[m].name, art := m)
                  else
                    exist[..] == old(exist[..]) && o.Val() == Newborn(other, {}).(oprops := o.oprops) &&
                    var r := Created(Obj(types(other), false, oprops, cursed, blessed, spe), false, dice);
                    done == r.Some? && (done ==> o.Bare(types) == r.value))
    {
      var m := Choose(STRANGE, false, alignment, gifts, role, pick);
      if m == 0 {
        o := new Item(other, oprops, cursed, blessed, spe);
        done := CreateOprop(o, false, dice);
      } else {
        o := new Item(table[m].otyp, oprops, cursed, blessed, spe);
        MakeIsArtifact(table, exist[..], o.Val(), m);
        NameObject(o, table[m].name);
        o.art := m;
        exist[m] := true;
        done := true;
      }
    }

    /** resetobjs for one object. */
    method ResetOne(o: Item, restore: bool)
      requires exist.Length == |table| >= 1
      modifies o, exist
      ensures (o.Val(), exist[..]) == Reset(table, quest, old(exist[..]), old(o.Val()), restore)
    {
      var known := Exists(o.otyp, o.name);
      if (!o.otyp.Corpse? || !o.special) && !o.otyp.Statue? &&
         (o.art == 0 || (restore && (known || o.art == quest))) {
        o.art := 0;
        o.name := "";
      } else if o.art != 0 && restore {
        SetExists(o, o.name, true);
      }
      if !restore && o.art == THIEFBANE {
        o.art := 0;
        o.name := "";
      }
    }

    /** The whole walk, contents first, is the same as resetting the flattened chain in order. */
    method ResetChain(chain: Chain, restore: bool, ghost vals: seq<Fields>)
      requires exist.Length == |table| >= 1 && NoDup(Flat(chain))
      requires |vals| == |Flat(chain)| && forall i :: 0 <= i < |vals| ==> Flat(chain)[i].Val() == vals[i]
      modifies Flat(chain), exist
      ensures var r := ResetAll(table, quest, old(exist[..]), vals, restore);
              exist[..] == r.1 && forall i :: 0 <= i < |vals| ==> Flat(chain)[i].Val() == r.0[i]
    {
      FlatOccupies(chain, Flat(chain), 0);
      ghost var w := TheWalk(Flat(chain), vals, table, quest, exist[..], restore);
      assert w.At(0, exist);
      ResetObjects(chain, restore, w, 0);
    }

    /** resetobjs on a part of the whole walk: its objects are those from index lo on. */
    method ResetObjects(chain: Chain, restore: bool, ghost w: Walk, ghost lo: nat)
      requires exist.Length == |table| >= 1 && w.Steps(table, quest, restore) && NoDup(w.all)
      requires Occupies(chain, w.all, lo) && lo + Size(chain) <= |w.all|
      requires w.At(lo, exist)
      modifies w.all, exist
      ensures w.At(lo + Size(chain), exist)
      decreases chain, 1
    {
      var c := chain;
      ghost var n: nat, hi := lo, lo + Size(chain);
      while c.Link?
        invariant n + Size(c) == hi && Occupies(c, w.all, n) && w.At(n, exist)
        invariant c == chain || c < chain
        decreases c
      {
        ResetLink(c, restore, w, n);
        n := n + Size(c.contents) + 1;
        c := c.next;
      }
    }

    /** One turn of the loop: the contents, then the object itself. */
    method ResetLink(c: Chain, restore: bool, ghost w: Walk, ghost n: nat)
      requires exist.Length == |table| >= 1 && w.Steps(table, quest, restore) && NoDup(w.all)
      requires c.Link? && Occupies(c, w.all, n) && n + Size(c) <= |w.all|
      requires w.At(n, exist)
      modifies w.all, exist
      ensures w.At(n + Size(c.contents) + 1, exist)
      decreases c, 0
    {
      ghost var k := n + Size(c.contents);
      ResetObjects(c.contents, restore, w, n);
      assert w.all[k].Val() == w.vals[k];
      assert Reset(table, quest, w.regs[k], w.vals[k], restore) == (w.out[k], w.regs[k + 1]);
      ResetOne(c.o, restore);
    }
  }

  /** How many objects a chain holds, contents included. */
  function Size(c: Chain): nat {
    match c
    case End => 0
    case Link(_, contents, next) => Size(contents) + 1 + Size(next)
  }

  /** The chain's objects, each after what it contains, are those of all from index lo on. */
  ghost predicate Occupies(c: Chain, all: seq<Item>, lo: nat) {
    c.Link? ==>
      var k := lo + Size(c.contents);
      k < |all| && all[k] == c.o && Occupies(c.contents, all, lo) && Occupies(c.next, all, k + 1)
  }

  lemma {:induction false} FlatSize(c: Chain)
    ensures |Flat(c)| == Size(c)
  {
    if c.Link? {
      FlatSize(c.contents);
      FlatSize(c.next);
    }
  }

  lemma {:induction false} FlatOccupies(c: Chain, all: seq<Item>, lo: nat)
    requires lo + |Flat(c)| <= |all| && forall i :: 0 <= i < |Flat(c)| ==> all[lo + i] == Flat(c)[i]
    ensures |Flat(c)| == Size(c) && Occupies(c, all, lo)
  {
    FlatSize(c);
    if c.Link? {
      var inner, k := Flat(c.contents), |Flat(c.contents)|;
      FlatSize(c.contents);
      forall i | 0 <= i < k
        ensures all[lo + i] == inner[i]
      {
        assert Flat(c)[i] == inner[i];
      }
      FlatOccupies(c.contents, all, lo);
      assert all[lo + k] == Flat(c)[k] == c.o;
      forall i | 0 <= i < |Flat(c.next)|
        ensures all[lo + k + 1 + i] == Flat(c.next)[i]
      {
        assert all[lo + (k + 1 + i)] == Flat(c)[k + 1 + i];
      }
      FlatOccupies(c.next, all, lo + k + 1);
    }
  }

  /** A walk over objects: their first values, their last, and the register between them. */
  datatype Walk = Walk(all: seq<Item>, vals: seq<Fields>, out: seq<Fields>, regs: seq<Register>) {
    ghost predicate Steps(table: seq<Entry>, quest: nat, restore: bool) {
      && |vals| == |all| == |out| && |regs| == |all| + 1
      && (forall i :: 0 <= i < |regs| ==> |regs[i]| == |table|)
      && (forall i :: 0 <= i < |all| ==> Reset(table, quest, regs[i], vals[i], restore) == (out[i], regs[i + 1]))
    }

    /** The first n objects have been reset, the rest not. */
    ghost predicate At(n: nat, exist: array<bool>)
      reads all, exist
    {
      && |vals| == |all| == |out| && |regs| == |all| + 1 && n <= |all| && exist[..] == regs[n]
      && (forall i :: 0 <= i < n ==> all[i].Val() == out[i])
      && (forall i :: n <= i < |all| ==> all[i].Val() == vals[i])
    }
  }

  /** The walk that resets each object in turn; it is ResetAll. */
  ghost function TheWalk(all: seq<Item>, vals: seq<Fields>, table: seq<Entry>, quest: nat, exist: Register, restore: bool)
    : (w: Walk)
    requires |exist| == |table| && |all| == |vals|
    ensures w.Steps(table, quest, restore) && w.all == all && w.vals == vals && w.regs[0] == exist
    ensures (w.out, w.regs[|vals|]) == ResetAll(table, quest, exist, vals, restore)
  {
    var regs := seq(|vals| + 1, i requires 0 <= i <= |vals| => ExistAt(table, quest, exist, vals, restore, i));
    var w := Walk(all, vals, ResetAll(table, quest, exist, vals, restore).0, regs);
    ResetAllAt(table, quest, exist, vals, restore, |vals|);
    assert vals[..|vals|] == vals;
    assert forall i :: 0 <= i < |all| ==> w.out[i] == ValueAt(table, quest, exist, vals, restore, i);
    assert forall i :: 0 <= i < |regs| ==> regs[i] == ExistAt(table, quest, exist, vals, restore, i);
    w
  }
}
