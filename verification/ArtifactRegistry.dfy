/** The register of artifacts already made (artifact.c) and the re-registration of those that come back
    in bones (bones.c): what each operation does to an object and to the register. */
module ArtifactRegistry {
  import opened Oprops

  datatype Kind = Corpse | Statue | Other(n: nat)

  /** An object's type, whether it is a special monster's corpse, its name ("" for none), its artifact
      index and its other properties. */
  datatype Fields = Fields(otyp: Kind, special: bool, name: string, art: nat, oprops: set<Prop>)

  /** One line of the artifact list. */
  datatype Entry = Entry(otyp: Kind, name: string, nogen: bool, alignment: int, role: int, hostileRace: bool)

  type Register = seq<bool>

  const A_NONE := -128
  const STRANGE := Other(0)
  const THIEFBANE := 4

  /** Entry 0 is a dummy; no two others share both type and name. */
  ghost predicate TableOk(table: seq<Entry>) {
    && |table| >= 1
    && (forall m :: 1 <= m < |table| ==> table[m].name != "" && table[m].otyp.Other? && table[m].otyp != STRANGE)
    && (forall m, k :: 1 <= m < k < |table| ==> table[m].otyp != table[k].otyp || table[m].name != table[k].name)
  }

  predicate Matches(e: Entry, otyp: Kind, name: string) {
    e.otyp == otyp && e.name == name
  }

  /** The first artifact of that type and name from index k on; 0 if there is none. */
  function Lookup(table: seq<Entry>, otyp: Kind, name: string, k: nat): nat
    requires k <= |table|
    decreases |table| - k
  {
    if k == |table| then 0
    else if k > 0 && Matches(table[k], otyp, name) then k
    else Lookup(table, otyp, name, k + 1)
  }

  lemma {:induction false} LookupIsIt(table: seq<Entry>, m: nat, k: nat)
    requires TableOk(table) && 1 <= m < |table| && k <= m
    ensures Lookup(table, table[m].otyp, table[m].name, k) == m
    decreases m - k
  {
    if k < m {
      LookupIsIt(table, m, k + 1);
    }
  }

  lemma {:induction false} LookupFinds(table: seq<Entry>, otyp: Kind, name: string, k: nat)
    requires k <= |table|
    ensures var m := Lookup(table, otyp, name, k);
            m < |table| || m == 0
    ensures var m := Lookup(table, otyp, name, k);
            m != 0 ==> k <= m < |table| && Matches(table[m], otyp, name)
    decreases |table| - k
  {
    if k < |table| {
      LookupFinds(table, otyp, name, k + 1);
    }
  }

  function ExistArtifact(table: seq<Entry>, exist: Register, otyp: Kind, name: string): bool
    requires |exist| == |table|
  {
    LookupFinds(table, otyp, name, 0);
    var m := Lookup(table, otyp, name, 0);
    name != "" && m != 0 && exist[m]
  }

  /** artifact_exists: register or unregister an object under its artifact name. */
  function ArtifactExists(table: seq<Entry>, exist: Register, o: Fields, name: string, mod: bool): (r: (Fields, Register))
    requires |exist| == |table|
    ensures |r.1| == |exist|
  {
    LookupFinds(table, o.otyp, name, 0);
    var m := Lookup(table, o.otyp, name, 0);
    if name == "" || m == 0 then (o, exist)
    else (o.(art := if mod then m else 0, oprops := if mod then {} else o.oprops), exist[m := mod])
  }

  /** resetobjs for one object. */
  function Reset(table: seq<Entry>, quest: nat, exist: Register, o: Fields, restore: bool): (r: (Fields, Register))
    requires |exist| == |table|
    ensures |r.1| == |exist|
  {
    var ordinary := !o.otyp.Statue? && !(o.otyp.Corpse? && o.special);
    if ordinary && (o.art == 0 || (restore && (ExistArtifact(table, exist, o.otyp, o.name) || o.art == quest)))
    then (o.(art := 0, name := ""), exist)
    else if o.art != 0 && restore then ArtifactExists(table, exist, o, o.name, true)
    else if !restore && o.art == THIEFBANE then (o.(art := 0, name := ""), exist)
    else (o, exist)
  }

  function ResetAll(table: seq<Entry>, quest: nat, exist: Register, objs: seq<Fields>, restore: bool)
    : (r: (seq<Fields>, Register))
    requires |exist| == |table|
    ensures |r.0| == |objs| && |r.1| == |exist|
    decreases |objs|
  {
    if objs == [] then ([], exist) else
    var (o, exist1) := Reset(table, quest, exist, objs[0], restore);
    var (rest, exist2) := ResetAll(table, quest, exist1, objs[1..], restore);
    ([o] + rest, exist2)
  }

  /** An artifact bears its artifact's type and name. */
  ghost predicate Christened(table: seq<Entry>, o: Fields) {
    o.art != 0 ==> o.art < |table| && Matches(table[o.art], o.otyp, o.name)
  }

  /** No artifact exists twice, each is registered, bears its own name, and has no other properties. */
  ghost predicate Unique(table: seq<Entry>, objs: seq<Fields>, exist: Register) {
    && |exist| == |table|
    && (forall i :: 0 <= i < |objs| && objs[i].art != 0 ==>
          Christened(table, objs[i]) && exist[objs[i].art] && objs[i].oprops == {})
    && (forall i, j :: 0 <= i < j < |objs| && objs[i].art != 0 ==> objs[i].art != objs[j].art)
  }

  lemma ResetKeepsUnique(table: seq<Entry>, quest: nat, objs: seq<Fields>, exist: Register, o: Fields)
    requires TableOk(table) && Unique(table, objs, exist) && Christened(table, o)
    ensures var (o', exist') := Reset(table, quest, exist, o, true); Unique(table, objs + [o'], exist')
  {
    if o.art != 0 {
      LookupIsIt(table, o.art, 0);
    }
  }

  /** Everything a bones level brings back, duplicates and all, joins the game without doubling any
      artifact. */
  lemma {:induction false} RestoreKeepsUnique(
      table: seq<Entry>, quest: nat, objs: seq<Fields>, exist: Register, bones: seq<Fields>)
    requires TableOk(table) && Unique(table, objs, exist)
    requires forall i :: 0 <= i < |bones| ==> Christened(table, bones[i])
    ensures var (bones', exist') := ResetAll(table, quest, exist, bones, true); Unique(table, objs + bones', exist')
    decreases |bones|
  {
    if bones == [] {
      assert objs + [] == objs;
    } else {
      ResetKeepsUnique(table, quest, objs, exist, bones[0]);
      var (o, exist1) := Reset(table, quest, exist, bones[0], true);
      RestoreKeepsUnique(table, quest, objs + [o], exist1, bones[1..]);
      var (rest, _) := ResetAll(table, quest, exist1, bones[1..], true);
      assert objs + ([o] + rest) == (objs + [o]) + rest;
    }
  }

  /** A restored artifact is kept exactly when it is not the hero's own quest artifact and the register
      has not seen it: of several copies, the first. */
  lemma RestoredKeptIff(table: seq<Entry>, quest: nat, exist: Register, o: Fields)
    requires TableOk(table) && |exist| == |table| && Christened(table, o) && o.art != 0
    ensures var (o', exist') := Reset(table, quest, exist, o, true);
            && (o'.art == o.art <==> !exist[o.art] && o.art != quest)
            && (o'.art != o.art ==> o'.art == 0 && o'.name == "" && exist' == exist)
            && (o'.art == o.art ==> exist' == exist[o.art := true] && o'.oprops == {})
  {
    LookupIsIt(table, o.art, 0);
  }

  /** Saving bones leaves names and artifacts such that another game can restore them. */
  lemma {:induction false} SavedAreChristened(table: seq<Entry>, quest: nat, exist: Register, objs: seq<Fields>)
    requires |exist| == |table|
    requires forall i :: 0 <= i < |objs| ==> Christened(table, objs[i])
    ensures var (saved, exist') := ResetAll(table, quest, exist, objs, false);
            exist' == exist && forall i :: 0 <= i < |saved| ==> Christened(table, saved[i]) && saved[i].art != THIEFBANE
  {
    if objs != [] {
      SavedAreChristened(table, quest, exist, objs[1..]);
      var (o, exist1) := Reset(table, quest, exist, objs[0], false);
      assert exist1 == exist && Christened(table, o) && o.art != THIEFBANE;
    }
  }

  lemma {:induction false} ResetAllConcat(
      table: seq<Entry>, quest: nat, exist: Register, a: seq<Fields>, b: seq<Fields>, restore: bool)
    requires |exist| == |table|
    ensures var (a', exist1) := ResetAll(table, quest, exist, a, restore);
            var (b', exist2) := ResetAll(table, quest, exist1, b, restore);
            ResetAll(table, quest, exist, a + b, restore) == (a' + b', exist2)
    decreases |a|
  {
    if a == [] {
      assert a + b == b;
      assert ResetAll(table, quest, exist, a, restore).0 + ResetAll(table, quest, exist, b, restore).0
          == ResetAll(table, quest, exist, b, restore).0;
    } else {
      var (o, exist1) := Reset(table, quest, exist, a[0], restore);
      ResetAllConcat(table, quest, exist1, a[1..], b, restore);
      assert (a + b)[1..] == a[1..] + b;
      var (a', exist2) := ResetAll(table, quest, exist1, a[1..], restore);
      var (b', _) := ResetAll(table, quest, exist2, b, restore);
      assert [o] + (a' + b') == ([o] + a') + b';
    }
  }

  // ----- making and naming -----

  /** Which artifacts mk_artifact may make of an object type, or for an alignment. */
  predicate Eligible(table: seq<Entry>, exist: Register, otyp: Kind, unique: bool, alignment: int, gifts: nat, m: nat)
    requires |exist| == |table|
  {
    var byAlign := alignment != A_NONE;
    1 <= m < |table| && !exist[m] && (!table[m].nogen || unique) &&
    (if byAlign
     then (table[m].alignment == alignment || (table[m].alignment == A_NONE && gifts > 0)) && !table[m].hostileRace
     else table[m].otyp == otyp)
  }

  function EligibleSet(table: seq<Entry>, exist: Register, otyp: Kind, unique: bool, alignment: int, gifts: nat): set<nat>
    requires |exist| == |table|
  {
    set m: nat | m < |table| && Eligible(table, exist, otyp, unique, alignment, gifts, m)
  }

  /** The members of a set below k, in order. */
  function Below(s: set<nat>, k: nat): seq<nat> {
    if k == 0 then [] else Below(s, k - 1) + (if k - 1 in s then [k - 1] else [])
  }

  lemma {:induction false} BelowIs(s: set<nat>, k: nat)
    ensures var ms := Below(s, k);
            && (forall m :: 0 <= m < k && m in s ==> m in ms)
            && (forall i :: 0 <= i < |ms| ==> ms[i] < k && ms[i] in s)
            && (forall i, j :: 0 <= i < j < |ms| ==> ms[i] < ms[j])
  {
    if k > 0 {
      BelowIs(s, k - 1);
      var less := Below(s, k - 1);
      forall m | 0 <= m < k && m in s
        ensures m in Below(s, k)
      {
        if m < k - 1 {
          assert m in less;
        } else {
          assert Below(s, k)[|less|] == m;
        }
      }
    }
  }

  /** The artifact that mk_artifact makes: the first of those meant for the hero's role if there are any,
      else one picked by die from all eligible; 0 when there is none. */
  function Choice(s: set<nat>, own: set<nat>, size: nat, pick: nat): (m: nat)
    requires own <= s && forall k :: k in s ==> k < size
    ensures if s == {} then m == 0 else m in s
  {
    BelowIs(own, size);
    BelowIs(s, size);
    if own != {} then
      var first :| first in own;
      assert first in Below(own, size);
      Below(own, size)[0]
    else if s == {} then 0
    else
      var any :| any in s;
      assert any in Below(s, size);
      var ms := Below(s, size);
      ms[pick % |ms|]
  }

  /** With an alignment given, the eligible artifacts of the hero's role. */
  function OwnSet(table: seq<Entry>, s: set<nat>, alignment: int, role: int): (own: set<nat>)
    requires forall k :: k in s ==> k < |table|
  {
    set m | m in s && alignment != A_NONE && table[m].role == role
  }

  lemma FirstOwn(s: set<nat>, own: set<nat>, size: nat, pick: nat, m: nat)
    requires own <= s && m in own && (forall k :: k in s ==> k < size) && forall k :: 0 <= k < m ==> k !in own
    ensures Choice(s, own, size, pick) == m
  {
    BelowIs(own, size);
    assert m in Below(own, size);
  }

  lemma NoneOwn(s: set<nat>, own: set<nat>, size: nat, pick: nat)
    requires own <= s && (forall k :: k in s ==> k < size) && forall k :: 0 <= k < size ==> k !in own
    ensures var ms := Below(s, size); Choice(s, own, size, pick) == if ms == [] then 0 else ms[pick % |ms|]
  {
    assert own == {};
    BelowIs(s, size);
    if k :| k in s {
      assert k in Below(s, size);
    }
  }

  /** oname: give a name, unless the object is an artifact already or the name is a taken artifact's. */
  function Oname(table: seq<Entry>, exist: Register, o: Fields, name: string): (r: (Fields, Register))
    requires |exist| == |table|
    ensures |r.1| == |exist|
  {
    if o.art != 0 || ExistArtifact(table, exist, o.otyp, name) then (o, exist)
    else ArtifactExists(table, exist, o.(name := name), name, true)
  }

  lemma MakeIsArtifact(table: seq<Entry>, exist: Register, o: Fields, m: nat)
    requires TableOk(table) && |exist| == |table| && 1 <= m < |table|
    requires o.art == 0 && o.otyp == table[m].otyp && !exist[m]
    ensures Oname(table, exist, o, table[m].name) ==
            (o.(name := table[m].name, art := m, oprops := {}), exist[m := true])
  {
    LookupIsIt(table, m, 0);
  }

  lemma OnameKeepsUnique(table: seq<Entry>, objs: seq<Fields>, exist: Register, i: nat, name: string)
    requires TableOk(table) && Unique(table, objs, exist) && i < |objs|
    ensures var (o', exist') := Oname(table, exist, objs[i], name); Unique(table, objs[i := o'], exist')
  {
    var m := Lookup(table, objs[i].otyp, name, 0);
    LookupFinds(table, objs[i].otyp, name, 0);
    if m != 0 {
      LookupIsIt(table, m, 0);
    }
  }

  lemma OnameStripped(table: seq<Entry>, objs: seq<Fields>, exist: Register, i: nat, name: string)
    requires TableOk(table) && Unique(table, objs, exist) && i < |objs|
    ensures var (o', exist') := Oname(table, exist, objs[i].(oprops := {}), name); Unique(table, objs[i := o'], exist')
  {
    var stripped := objs[i := objs[i].(oprops := {})];
    OnameKeepsUnique(table, stripped, exist, i, name);
    var o' := Oname(table, exist, stripped[i], name).0;
    assert stripped[i := o'] == objs[i := o'];
  }

  /** Unmaking an artifact (a refused wish) frees its index. */
  lemma UnmakeKeepsUnique(table: seq<Entry>, objs: seq<Fields>, exist: Register, i: nat)
    requires TableOk(table) && Unique(table, objs, exist) && i < |objs| && objs[i].art != 0
    ensures var (o', exist') := ArtifactExists(table, exist, objs[i], objs[i].name, false);
            Unique(table, objs[i := o'], exist') && o'.art == 0 && !exist'[objs[i].art]
  {
    LookupIsIt(table, objs[i].art, 0);
  }

  /** What happens to objects, one event at a time: an ordinary object appears or has properties added,
      an artifact is made of an object or from nothing, one is named, unmade or destroyed, or a bones
      level is restored. An event that the rules do not allow changes nothing. */
  datatype Event =
    | Appear(otyp: Kind, special: bool, name: string, oprops: set<Prop>)
    | AddProps(i: nat, oprops: set<Prop>)
    | Make(i: nat, unique: bool, m: nat)
    | Gift(alignment: int, gifts: nat, m: nat, oprops: set<Prop>)
    | Name(i: nat, name: string)
    | Unmake(i: nat)
    | Destroy(i: nat)
    | Bones(bones: seq<Fields>)

  datatype Game = Game(objs: seq<Fields>, exist: Register)

  function Newborn(otyp: Kind, oprops: set<Prop>): Fields {
    Fields(otyp, false, "", 0, oprops)
  }

  ghost function Step(table: seq<Entry>, quest: nat, g: Game, e: Event): (g': Game)
    requires |g.exist| == |table|
    ensures |g'.exist| == |table|
  {
    match e
    case Appear(otyp, special, name, oprops) => g.(objs := g.objs + [Fields(otyp, special, name, 0, oprops)])
    case AddProps(i, oprops) =>
      if i < |g.objs| && g.objs[i].art == 0 then g.(objs := g.objs[i := g.objs[i].(oprops := oprops)]) else g
    case Make(i, unique, m) =>
      if i < |g.objs| && g.objs[i].art == 0 && Eligible(table, g.exist, g.objs[i].otyp, unique, A_NONE, 0, m) then
        var (o, exist) := Oname(table, g.exist, g.objs[i].(oprops := {}), table[m].name);
        Game(g.objs[i := o], exist)
      else g
    case Gift(alignment, gifts, m, oprops) =>
      if alignment != A_NONE && Eligible(table, g.exist, STRANGE, false, alignment, gifts, m) then
        var (o, exist) := Oname(table, g.exist, Newborn(table[m].otyp, oprops), table[m].name);
        Game(g.objs + [o], exist)
      else g
    case Name(i, name) =>
      if i < |g.objs| then
        var (o, exist) := Oname(table, g.exist, g.objs[i], name);
        Game(g.objs[i := o], exist)
      else g
    case Unmake(i) =>
      if i < |g.objs| && g.objs[i].art != 0 then
        var (o, exist) := ArtifactExists(table, g.exist, g.objs[i], g.objs[i].name, false);
        Game(g.objs[i := o], exist)
      else g
    case Destroy(i) => if i < |g.objs| then g.(objs := g.objs[..i] + g.objs[i + 1..]) else g
    case Bones(bones) =>
      if forall k :: 0 <= k < |bones| ==> Christened(table, bones[k]) then
        var (bones', exist) := ResetAll(table, quest, g.exist, bones, true);
        Game(g.objs + bones', exist)
      else g
  }

  lemma StepKeepsUnique(table: seq<Entry>, quest: nat, g: Game, e: Event)
    requires TableOk(table) && Unique(table, g.objs, g.exist)
    ensures var g' := Step(table, quest, g, e); Unique(table, g'.objs, g'.exist)
  {
    match e
    case Appear(otyp, special, name, oprops) =>
    case AddProps(i, oprops) =>
    case Make(i, unique, m) =>
      if i < |g.objs| && g.objs[i].art == 0 && Eligible(table, g.exist, g.objs[i].otyp, unique, A_NONE, 0, m) {
        OnameStripped(table, g.objs, g.exist, i, table[m].name);
      }
    case Gift(alignment, gifts, m, oprops) =>
      if alignment != A_NONE && Eligible(table, g.exist, STRANGE, false, alignment, gifts, m) {
        var o := Newborn(table[m].otyp, oprops);
        assert (g.objs + [o])[|g.objs| := Oname(table, g.exist, o, table[m].name).0] == g.objs + [Oname(table, g.exist, o, table[m].name).0];
        OnameKeepsUnique(table, g.objs + [o], g.exist, |g.objs|, table[m].name);
      }
    case Name(i, name) => if i < |g.objs| { OnameKeepsUnique(table, g.objs, g.exist, i, name); }
    case Unmake(i) => if i < |g.objs| && g.objs[i].art != 0 { UnmakeKeepsUnique(table, g.objs, g.exist, i); }
    case Destroy(i) =>
    case Bones(bones) =>
      if forall k :: 0 <= k < |bones| ==> Christened(table, bones[k]) {
        RestoreKeepsUnique(table, quest, g.objs, g.exist, bones);
      }
  }

  ghost function Run(table: seq<Entry>, quest: nat, g: Game, events: seq<Event>): Game
    requires |g.exist| == |table|
    decreases |events|
  {
    if events == [] then g else Run(table, quest, Step(table, quest, g, events[0]), events[1..])
  }

  /** Over any sequence of events no artifact is ever doubled, every one is registered, and none keeps
      object properties. */
  lemma {:induction false} RunKeepsUnique(table: seq<Entry>, quest: nat, g: Game, events: seq<Event>)
    requires TableOk(table) && Unique(table, g.objs, g.exist)
    ensures var g' := Run(table, quest, g, events); Unique(table, g'.objs, g'.exist)
    decreases |events|
  {
    if events != [] {
      StepKeepsUnique(table, quest, g, events[0]);
      RunKeepsUnique(table, quest, Step(table, quest, g, events[0]), events[1..]);
    }
  }
}
