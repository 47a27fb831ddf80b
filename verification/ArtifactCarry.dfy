/** What carrying artifacts confers (artifact.c, set_artifact_intrinsic with W_ART): bits switched on and
    off one object at a time, against what the whole inventory should confer. Bit masks are sets of
    named bits. */
module ArtifactCarry {
  import opened Geometry

  datatype Prop =
    | FireRes | ColdRes | ShockRes | Antimagic | DisintRes | PoisonRes
    | Searching | HallucRes | Telepat | Displaced | Regeneration | TeleportControl | Warning | WarnOfMon
    | EnergyRegeneration | HalfSpellDamage | HalfPhysicalDamage
    | Invis | Levitation | Conflict

  datatype Damage = AdPhys | AdFire | AdCold | AdElec | AdMagm | AdDisn | AdDrst

  /** The bits of an extrinsic mask: carrying, invoking, and the worn slots. */
  datatype Source = W_ART | W_ARTI | Worn(slot: nat)

  datatype Spfx = Search | HalRes | Esp | Displ | Regen | TCtrl | Warn | WarnS | ERegen | HSpDam | HPhDam

  /** The carrying columns of an artifact: cspfx, mtype, the cary damage type, and the property its
      invocation toggles, if that is a property at all. */
  datatype Carry = Carry(cspfx: set<Spfx>, mtype: nat, cary: Damage, invoked: Option<Prop>)

  /** artilist.h, by artifact index; the others confer nothing by being carried. */
  function Artilist(m: nat): Carry {
    if m == 23 then Carry({Esp, HSpDam}, 0, AdMagm, Some(Invis))             // Orb of Detection
    else if m == 24 then Carry({Displ, ERegen}, 0, AdPhys, Some(Levitation)) // Heart of Ahriman
    else if m == 25 then Carry({}, 0, AdMagm, Some(Conflict))                // Sceptre of Might
    else if m == 26 then Carry({Displ, Search, Warn}, 0, AdMagm, None)       // Iron Ball of Liberation
    else if m == 28 then Carry({Esp}, 0, AdMagm, None)                       // Magic Mirror of Merlin
    else if m == 29 then Carry({}, 0, AdMagm, None)                          // Eyes of the Overworld
    else if m == 30 then Carry({}, 1, AdFire, None)                          // Mitre of Holiness
    else if m == 31 then Carry({Esp}, 0, AdPhys, None)                       // Longbow of Diana
    else if m == 32 then Carry({Warn, TCtrl, HPhDam}, 0, AdPhys, None)       // Master Key of Thievery
    else if m == 34 then Carry({Esp, HSpDam}, 0, AdMagm, None)               // Yendorian Express Card
    else if m == 35 then Carry({Warn, HSpDam, HPhDam}, 0, AdPhys, None)      // Orb of Fate
    else if m == 36 then Carry({ERegen, HSpDam}, 0, AdMagm, None)            // Eye of the Aethiopica
    else Carry({}, 0, AdPhys, None)
  }

  /** An object: its identity, its artifact index (0: none), and whether it has other properties. */
  datatype Obj = Obj(id: nat, art: nat, oprops: bool)

  type Extrinsics = map<Prop, set<Source>>

  function Bits(ext: Extrinsics, p: Prop): set<Source> {
    if p in ext then ext[p] else {}
  }

  function DamageProp(d: Damage): Option<Prop> {
    match d
    case AdPhys => None
    case AdFire => Some(FireRes)
    case AdCold => Some(ColdRes)
    case AdElec => Some(ShockRes)
    case AdMagm => Some(Antimagic)
    case AdDisn => Some(DisintRes)
    case AdDrst => Some(PoisonRes)
  }

  /** The property a carrying bit drives; a warning artifact with a monster type warns of that. */
  function SpfxProp(f: Spfx, mtype: nat): Prop {
    match f
    case Search => Searching
    case HalRes => HallucRes
    case Esp => Telepat
    case Displ => Displaced
    case Regen => Regeneration
    case TCtrl => TeleportControl
    case Warn => if mtype != 0 then WarnOfMon else Warning
    case WarnS => if mtype != 0 then WarnOfMon else Warning
    case ERegen => EnergyRegeneration
    case HSpDam => HalfSpellDamage
    case HPhDam => HalfPhysicalDamage
  }

  predicate Drives(spfx: set<Spfx>, mtype: nat, p: Prop) {
    exists f :: f in spfx && SpfxProp(f, mtype) == p
  }

  /** Carrying this object ought to confer p; the hero's own quest artifact resists magic besides. */
  predicate Grants(o: Obj, quest: nat, p: Prop) {
    o.art != 0 &&
    var c := Artilist(o.art);
    DamageProp(c.cary) == Some(p) || (p == Antimagic && o.art == quest) || Drives(c.cspfx, c.mtype, p)
  }

  /** The union recomputed from scratch over what is carried. */
  ghost predicate Conferred(invent: seq<Obj>, quest: nat, p: Prop) {
    exists o :: o in invent && Grants(o, quest, p)
  }

  ghost predicate Consistent(invent: seq<Obj>, quest: nat, ext: Extrinsics) {
    forall p :: W_ART in Bits(ext, p) <==> Conferred(invent, quest, p)
  }

  // ----- the incremental rules -----

  function OtherCspfx(invent: seq<Obj>): set<Spfx> {
    if invent == [] then {}
    else (if invent[0].art != 0 then Artilist(invent[0].art).cspfx else {}) + OtherCspfx(invent[1..])
  }

  /** Another carried artifact has the same carrying damage type, or is the quest artifact when that
      type is magic. */
  predicate SameElsewhere(rest: seq<Obj>, quest: nat, d: Damage) {
    exists o :: o in rest && o.art != 0 && (Artilist(o.art).cary == d || (d == AdMagm && o.art == quest))
  }

  predicate MagicElsewhere(rest: seq<Obj>) {
    exists o :: o in rest && o.art != 0 && Artilist(o.art).cary == AdMagm
  }

  predicate DamageBit(o: Obj, rest: seq<Obj>, quest: nat, on: bool, p: Prop) {
    var d := Artilist(o.art).cary;
    DamageProp(d) == Some(p) && (on || !SameElsewhere(rest, quest, d))
  }

  predicate QuestBit(o: Obj, rest: seq<Obj>, quest: nat, on: bool, p: Prop) {
    p == Antimagic && o.art == quest && (on || !MagicElsewhere(rest))
  }

  predicate CspfxBit(o: Obj, rest: seq<Obj>, on: bool, p: Prop) {
    var c := Artilist(o.art);
    Drives(if on then c.cspfx else c.cspfx - OtherCspfx(rest), c.mtype, p)
  }

  /** The bits that putting o down clears, the rest of the inventory being given. */
  predicate Clears(o: Obj, rest: seq<Obj>, quest: nat, p: Prop) {
    o.art != 0 &&
    (DamageBit(o, rest, quest, false, p) || QuestBit(o, rest, quest, false, p) || CspfxBit(o, rest, false, p))
  }

  /** The bits that picking o up, or putting it down, switches. */
  predicate Hit(o: Obj, rest: seq<Obj>, quest: nat, on: bool, p: Prop) {
    DamageBit(o, rest, quest, on, p) || QuestBit(o, rest, quest, on, p) || CspfxBit(o, rest, on, p)
  }

  lemma HitIs(o: Obj, rest: seq<Obj>, quest: nat, on: bool, p: Prop)
    requires o.art != 0
    ensures Hit(o, rest, quest, on, p) <==> if on then Grants(o, quest, p) else Clears(o, rest, quest, p)
  {
  }

  function Switched(bits: set<Source>, hit: bool, on: bool): set<Source> {
    if !hit then bits else if on then bits + {W_ART} else bits - {W_ART}
  }

  predicate DrivesAny(spfx: set<Spfx>, mtype: nat, p: Prop) {
    DrivesSense(spfx, mtype, p) || DrivesPower(spfx, mtype, p)
  }

  predicate DrivesSense(spfx: set<Spfx>, mtype: nat, p: Prop) {
    || (Search in spfx && SpfxProp(Search, mtype) == p) || (HalRes in spfx && SpfxProp(HalRes, mtype) == p)
    || (Esp in spfx && SpfxProp(Esp, mtype) == p) || (Displ in spfx && SpfxProp(Displ, mtype) == p)
    || (Regen in spfx && SpfxProp(Regen, mtype) == p) || (TCtrl in spfx && SpfxProp(TCtrl, mtype) == p)
  }

  predicate DrivesPower(spfx: set<Spfx>, mtype: nat, p: Prop) {
    || (Warn in spfx && SpfxProp(Warn, mtype) == p) || (WarnS in spfx && SpfxProp(WarnS, mtype) == p)
    || (ERegen in spfx && SpfxProp(ERegen, mtype) == p) || (HSpDam in spfx && SpfxProp(HSpDam, mtype) == p)
    || (HPhDam in spfx && SpfxProp(HPhDam, mtype) == p)
  }

  lemma DrivesCases(spfx: set<Spfx>, mtype: nat, p: Prop)
    ensures Drives(spfx, mtype, p) == DrivesAny(spfx, mtype, p)
  {
    if Drives(spfx, mtype, p) {
      var f :| f in spfx && SpfxProp(f, mtype) == p;
      match f {
        case Search => case HalRes => case Esp => case Displ => case Regen => case TCtrl =>
        case Warn => case WarnS => case ERegen => case HSpDam => case HPhDam =>
      }
    }
  }

  /** Putting down an artifact also ends the property it was invoked for. */
  predicate EndsInvocation(o: Obj, ext: Extrinsics, p: Prop) {
    o.art != 0 && Artilist(o.art).invoked == Some(p) && W_ARTI in Bits(ext, p)
  }

  /** One mask after an object is put down, or picked up. */
  function BitsAfter(o: Obj, rest: seq<Obj>, quest: nat, on: bool, ext: Extrinsics, p: Prop): set<Source> {
    if on then Bits(ext, p) + (if Grants(o, quest, p) then {W_ART} else {})
    else Bits(ext, p) - (if Clears(o, rest, quest, p) then {W_ART} else {})
                      - (if EndsInvocation(o, ext, p) then {W_ARTI} else {})
  }

  ghost predicate Updated(o: Obj, rest: seq<Obj>, quest: nat, on: bool, ext: Extrinsics, ext': Extrinsics) {
    forall p :: Bits(ext', p) == BitsAfter(o, rest, quest, on, ext, p)
  }

  lemma {:induction false} OtherCspfxUnion(rest: seq<Obj>, f: Spfx)
    ensures f in OtherCspfx(rest) <==> exists o :: o in rest && o.art != 0 && f in Artilist(o.art).cspfx
  {
    if rest != [] {
      OtherCspfxUnion(rest[1..], f);
      assert rest == [rest[0]] + rest[1..];
    }
  }

  /** In this game's list no carrying artifact warns of a monster type, or by the symbol bit. */
  lemma CarriedWarningsArePlain(m: nat)
    ensures var c := Artilist(m); WarnS !in c.cspfx && (Warn in c.cspfx ==> c.mtype == 0)
  {
  }

  /** Two carried artifacts that drive one property do so through the same bit. */
  lemma SameBit(m: nat, m': nat, f: Spfx)
    requires f in Artilist(m).cspfx
    ensures f in Artilist(m').cspfx <==> Drives(Artilist(m').cspfx, Artilist(m').mtype, SpfxProp(f, Artilist(m).mtype))
  {
    CarriedWarningsArePlain(m);
    CarriedWarningsArePlain(m');
  }

  lemma BitElsewhere(m: nat, rest: seq<Obj>, f: Spfx)
    requires f in Artilist(m).cspfx
    ensures f in OtherCspfx(rest) <==>
            exists x :: x in rest && x.art != 0 &&
                        Drives(Artilist(x.art).cspfx, Artilist(x.art).mtype, SpfxProp(f, Artilist(m).mtype))
  {
    OtherCspfxUnion(rest, f);
    forall x | x in rest { SameBit(m, x.art, f); }
  }

  /** So masking out the bits that others give is exact. */
  lemma SpfxExact(o: Obj, rest: seq<Obj>, p: Prop)
    requires o.art != 0
    ensures var c := Artilist(o.art);
            Drives(c.cspfx - OtherCspfx(rest), c.mtype, p) <==>
            Drives(c.cspfx, c.mtype, p) &&
            !exists x :: x in rest && x.art != 0 && Drives(Artilist(x.art).cspfx, Artilist(x.art).mtype, p)
  {
    forall f | f in Artilist(o.art).cspfx { BitElsewhere(o.art, rest, f); }
  }

  /** Dropping one of two quest artifacts, when it is not magical itself and nothing magical is left,
      takes magic resistance away although another quest artifact is still carried. */
  predicate QuestDoubled(o: Obj, rest: seq<Obj>, quest: nat) {
    o.art == quest != 0 && Artilist(o.art).cary != AdMagm && !MagicElsewhere(rest) &&
    exists x :: x in rest && x.art == quest
  }

  lemma ClearsExact(o: Obj, rest: seq<Obj>, quest: nat, p: Prop)
    requires quest != 0 && !(p == Antimagic && QuestDoubled(o, rest, quest))
    ensures Clears(o, rest, quest, p) <==> Grants(o, quest, p) && !Conferred(rest, quest, p)
  {
    if o.art != 0 {
      SpfxExact(o, rest, p);
      if p != Antimagic {
        PlainExact(o, rest, quest, p);
      }
    }
  }

  lemma PlainExact(o: Obj, rest: seq<Obj>, quest: nat, p: Prop)
    requires o.art != 0 && p != Antimagic
    ensures Clears(o, rest, quest, p) <==> Grants(o, quest, p) && !Conferred(rest, quest, p)
  {
    SpfxExact(o, rest, p);
  }

  /** Picking an artifact up keeps the carrying bits equal to the recomputed union, and touches no
      other bit. */
  lemma PickUpConsistent(o: Obj, rest: seq<Obj>, quest: nat, ext: Extrinsics, ext': Extrinsics)
    requires Consistent(rest, quest, ext) && Updated(o, rest, quest, true, ext, ext')
    ensures Consistent(rest + [o], quest, ext')
    ensures forall p :: Bits(ext', p) - {W_ART} == Bits(ext, p) - {W_ART}
  {
    forall p ensures Conferred(rest + [o], quest, p) <==> Conferred(rest, quest, p) || Grants(o, quest, p) {
      if Grants(o, quest, p) {
        assert o in rest + [o];
      }
    }
  }

  /** Putting one down keeps them equal exactly when it is not a doubled quest artifact. */
  lemma PutDownConsistentIff(o: Obj, rest: seq<Obj>, quest: nat, ext: Extrinsics, ext': Extrinsics)
    requires quest != 0 && Updated(o, rest, quest, false, ext, ext')
    requires forall p :: W_ART in Bits(ext, p) <==> Conferred(rest, quest, p) || Grants(o, quest, p)
    ensures Consistent(rest, quest, ext') <==> !QuestDoubled(o, rest, quest)
    ensures forall p :: Bits(ext', p) - {W_ART, W_ARTI} == Bits(ext, p) - {W_ART, W_ARTI}
    ensures forall p :: W_ARTI in Bits(ext', p) <==> W_ARTI in Bits(ext, p) && !EndsInvocation(o, ext, p)
  {
    forall p | !(p == Antimagic && QuestDoubled(o, rest, quest))
      ensures W_ART in Bits(ext', p) <==> Conferred(rest, quest, p)
    {
      ClearsExact(o, rest, quest, p);
    }
    if QuestDoubled(o, rest, quest) {
      var x :| x in rest && x.art == quest;
      assert Grants(x, quest, Antimagic) && Conferred(rest, quest, Antimagic);
      assert Clears(o, rest, quest, Antimagic);
      assert W_ART !in Bits(ext', Antimagic);
    }
  }

  // ----- whole runs -----

  datatype Event = PickUp(o: Obj) | PutDown(index: nat)

  datatype Pack = Pack(invent: seq<Obj>, ext: Extrinsics)

  function Without(invent: seq<Obj>, i: nat): seq<Obj>
    requires i < |invent|
  {
    invent[..i] + invent[i + 1..]
  }

  function Apply(o: Obj, rest: seq<Obj>, quest: nat, on: bool, ext: Extrinsics): (ext': Extrinsics)
    ensures Updated(o, rest, quest, on, ext, ext')
  {
    map p: Prop | true :: BitsAfter(o, rest, quest, on, ext, p)
  }

  /** Putting down something that is not there does nothing. */
  function Step(s: Pack, quest: nat, e: Event): Pack {
    match e
    case PickUp(o) => Pack(s.invent + [o], Apply(o, s.invent, quest, true, s.ext))
    case PutDown(i) =>
      if i >= |s.invent| then s
      else Pack(Without(s.invent, i), Apply(s.invent[i], Without(s.invent, i), quest, false, s.ext))
  }

  function Run(s: Pack, quest: nat, events: seq<Event>): Pack
    decreases |events|
  {
    if events == [] then s else Run(Step(s, quest, events[0]), quest, events[1..])
  }

  predicate OneQuest(invent: seq<Obj>, quest: nat) {
    forall i, j :: 0 <= i < j < |invent| ==> !(invent[i].art == quest && invent[j].art == quest)
  }

  /** The quest artifact is one of a kind all along the run. */
  predicate AlwaysOneQuest(s: Pack, quest: nat, events: seq<Event>)
    decreases |events|
  {
    OneQuest(s.invent, quest) && (events != [] ==> AlwaysOneQuest(Step(s, quest, events[0]), quest, events[1..]))
  }

  lemma WithoutSplits(invent: seq<Obj>, i: nat, quest: nat)
    requires i < |invent| && OneQuest(invent, quest)
    ensures forall x :: x in invent <==> x == invent[i] || x in Without(invent, i)
    ensures forall x :: x in Without(invent, i) ==> !(x.art == quest && invent[i].art == quest)
  {
    var rest := Without(invent, i);
    assert invent == invent[..i] + [invent[i]] + invent[i + 1..];
    forall x | x in rest ensures !(x.art == quest && invent[i].art == quest) {
      var k :| 0 <= k < |rest| && rest[k] == x;
      assert x == invent[if k < i then k else k + 1];
    }
  }

  lemma ConferredWithout(invent: seq<Obj>, i: nat, quest: nat)
    requires i < |invent|
    ensures forall p :: Conferred(invent, quest, p) <==>
                        Conferred(Without(invent, i), quest, p) || Grants(invent[i], quest, p)
  {
    var rest := Without(invent, i);
    assert invent == invent[..i] + [invent[i]] + invent[i + 1..];
    assert forall x :: x in invent <==> x == invent[i] || x in rest;
  }

  lemma StepConsistent(s: Pack, quest: nat, e: Event)
    requires quest != 0 && Consistent(s.invent, quest, s.ext) && OneQuest(s.invent, quest)
    ensures var s' := Step(s, quest, e);
            && Consistent(s'.invent, quest, s'.ext)
            && forall p :: Bits(s'.ext, p) - {W_ART, W_ARTI} == Bits(s.ext, p) - {W_ART, W_ARTI}
  {
    var s' := Step(s, quest, e);
    match e
    case PickUp(o) => PickUpConsistent(o, s.invent, quest, s.ext, s'.ext);
    case PutDown(i) =>
      if i < |s.invent| {
        WithoutSplits(s.invent, i, quest);
        PutDownConsistentIff(s.invent[i], Without(s.invent, i), quest, s.ext, s'.ext);
      }
  }

  /** After any sequence of pick-ups and put-downs the carrying bits are exactly what the artifacts now
      carried confer, and no worn source bit has been touched. */
  lemma {:induction false} RunConsistent(s: Pack, quest: nat, events: seq<Event>)
    requires quest != 0 && Consistent(s.invent, quest, s.ext) && AlwaysOneQuest(s, quest, events)
    ensures var s' := Run(s, quest, events);
            && Consistent(s'.invent, quest, s'.ext)
            && forall p :: Bits(s'.ext, p) - {W_ART, W_ARTI} == Bits(s.ext, p) - {W_ART, W_ARTI}
    decreases |events|
  {
    if events != [] {
      StepConsistent(s, quest, events[0]);
      RunConsistent(Step(s, quest, events[0]), quest, events[1..]);
    }
  }

  /** The hero's inventory and extrinsic masks, changed in place. */
  class Hero {
    const quest: nat
    var invent: seq<Obj>
    var ext: Extrinsics

    constructor (quest: nat)
      ensures this.quest == quest && invent == [] && ext == map[]
    {
      this.quest := quest;
      invent := [];
      ext := map[];
    }

    method SetSource(p: Prop, on: bool)
      modifies this`ext
      ensures forall q :: Bits(ext, q) == Switched(Bits(old(ext), q), q == p, on)
    {
      ext := ext[p := if on then Bits(ext, p) + {W_ART} else Bits(ext, p) - {W_ART}];
    }

    /** The search for another artifact that confers the same intrinsic. */
    method FindSame(otmp: Obj, d: Damage) returns (found: bool)
      requires forall o :: o in invent ==> o.id != otmp.id
      ensures found == SameElsewhere(invent, quest, d)
    {
      for i := 0 to |invent|
        invariant !SameElsewhere(invent[..i], quest, d)
      {
        var o := invent[i];
        if o.id != otmp.id && o.art != 0 && (Artilist(o.art).cary == d || (d == AdMagm && o.art == quest)) {
          return true;
        }
        assert invent[..i + 1] == invent[..i] + [o];
      }
      assert invent[..|invent|] == invent;
      return false;
    }

    method FindMagic(otmp: Obj) returns (found: bool)
      requires forall o :: o in invent ==> o.id != otmp.id
      ensures found == MagicElsewhere(invent)
    {
      for i := 0 to |invent|
        invariant !MagicElsewhere(invent[..i])
      {
        var o := invent[i];
        if o.id != otmp.id && o.art != 0 && Artilist(o.art).cary == AdMagm {
          return true;
        }
        assert invent[..i + 1] == invent[..i] + [o];
      }
      assert invent[..|invent|] == invent;
      return false;
    }

    method MaskOthers(otmp: Obj, spfx: set<Spfx>) returns (left: set<Spfx>)
      requires forall o :: o in invent ==> o.id != otmp.id
      ensures left == spfx - OtherCspfx(invent)
    {
      left := spfx;
      for i := 0 to |invent|
        invariant left - OtherCspfx(invent[i..]) == spfx - OtherCspfx(invent)
      {
        assert invent[i..][1..] == invent[i + 1..];
        if invent[i].id != otmp.id && invent[i].art != 0 {
          left := left - Artilist(invent[i].art).cspfx;
        }
      }
    }

    method SetSpfx(f: Spfx, spfx: set<Spfx>, mtype: nat, on: bool)
      modifies this`ext
      ensures forall p :: Bits(ext, p) == Switched(Bits(old(ext), p), f in spfx && SpfxProp(f, mtype) == p, on)
    {
      if f in spfx {
        SetSource(SpfxProp(f, mtype), on);
      }
    }

    /** Effects from the cary field. */
    method SetDamage(otmp: Obj, on: bool)
      requires (forall o :: o in invent ==> o.id != otmp.id) && otmp.art != 0
      modifies this`ext
      ensures forall p :: Bits(ext, p) == Switched(Bits(old(ext), p), DamageBit(otmp, invent, quest, on, p), on)
    {
      var mask := DamageProp(Artilist(otmp.art).cary);
      if mask.Some? && !on {
        var same := FindSame(otmp, Artilist(otmp.art).cary);
        if same {
          mask := None;
        }
      }
      if mask.Some? {
        SetSource(mask.value, on);
      }
    }

    /** The quest artifact grants magic resistance when carried by its role. */
    method SetQuest(otmp: Obj, on: bool)
      requires (forall o :: o in invent ==> o.id != otmp.id) && otmp.art != 0
      modifies this`ext
      ensures forall p :: Bits(ext, p) == Switched(Bits(old(ext), p), QuestBit(otmp, invent, quest, on, p), on)
    {
      if otmp.art == quest {
        if on {
          SetSource(Antimagic, true);
        } else {
          var magic := FindMagic(otmp);
          if !magic {
            SetSource(Antimagic, false);
          }
        }
      }
    }

    method SetSenses(spfx: set<Spfx>, mtype: nat, on: bool)
      modifies this`ext
      ensures forall p :: Bits(ext, p) == Switched(Bits(old(ext), p), DrivesSense(spfx, mtype, p), on)
    {
      SetSpfx(Search, spfx, mtype, on);
      SetSpfx(HalRes, spfx, mtype, on);
      SetSpfx(Esp, spfx, mtype, on);
      SetSpfx(Displ, spfx, mtype, on);
      SetSpfx(Regen, spfx, mtype, on);
      SetSpfx(TCtrl, spfx, mtype, on);
    }

    method SetPowers(spfx: set<Spfx>, mtype: nat, on: bool)
      modifies this`ext
      ensures forall p :: Bits(ext, p) == Switched(Bits(old(ext), p), DrivesPower(spfx, mtype, p), on)
    {
      SetSpfx(Warn, spfx, mtype, on);
      SetSpfx(WarnS, spfx, mtype, on);
      SetSpfx(ERegen, spfx, mtype, on);
      SetSpfx(HSpDam, spfx, mtype, on);
      SetSpfx(HPhDam, spfx, mtype, on);
    }

    /** Intrinsics from the cspfx field; there could be more than one. */
    method SetCspfx(otmp: Obj, on: bool)
      requires (forall o :: o in invent ==> o.id != otmp.id) && otmp.art != 0
      modifies this`ext
      ensures forall p :: Bits(ext, p) == Switched(Bits(old(ext), p), CspfxBit(otmp, invent, on, p), on)
    {
      var oart := Artilist(otmp.art);
      var spfx := oart.cspfx;
      if spfx != {} && !on {
        spfx := MaskOthers(otmp, spfx);
      }
      forall p ensures Drives(spfx, oart.mtype, p) == DrivesAny(spfx, oart.mtype, p) {
        DrivesCases(spfx, oart.mtype, p);
      }
      assert on ==> spfx == oart.cspfx;
      SetSenses(spfx, oart.mtype, on);
      SetPowers(spfx, oart.mtype, on);
    }

    /** The carried bits: three groups of rules, each of which may switch some. */
    method SetCarried(otmp: Obj, on: bool)
      requires (forall o :: o in invent ==> o.id != otmp.id) && otmp.art != 0
      modifies this`ext
      ensures forall p :: Bits(ext, p) == Switched(Bits(old(ext), p), Hit(otmp, invent, quest, on, p), on)
    {
      SetDamage(otmp, on);
      SetQuest(otmp, on);
      SetCspfx(otmp, on);
    }

    /** An invoked power ends with the carrying. */
    method EndInvoked(otmp: Obj)
      requires otmp.art != 0
      modifies this`ext
      ensures forall p :: Bits(ext, p) == Bits(old(ext), p) - if EndsInvocation(otmp, old(ext), p) then {W_ARTI} else {}
    {
      var invoked := Artilist(otmp.art).invoked;
      if invoked.Some? && W_ARTI in Bits(ext, invoked.value) {
        ext := ext[invoked.value := Bits(ext, invoked.value) - {W_ARTI}];
      }
    }

    /** set_artifact_intrinsic(otmp, on, W_ART), with otmp itself not in the inventory. */
    method CarryIntrinsic(otmp: Obj, on: bool)
      requires (forall o :: o in invent ==> o.id != otmp.id) && quest != 0
      modifies this`ext
      ensures Updated(otmp, invent, quest, on, old(ext), ext)
    {
      if otmp.art == 0 {
        return;
      }
      SetCarried(otmp, on);
      forall p
        ensures W_ARTI in Bits(ext, p) <==> W_ARTI in Bits(old(ext), p)
        ensures Hit(otmp, invent, quest, on, p) <==> if on then Grants(otmp, quest, p) else Clears(otmp, invent, quest, p)
      {
        HitIs(otmp, invent, quest, on, p);
      }
      if !on {
        EndInvoked(otmp);
      }
    }

    method PickUpObject(o: Obj)
      requires forall x :: x in invent ==> x.id != o.id
      requires quest != 0
      modifies this
      ensures invent == old(invent) + [o] && Updated(o, old(invent), quest, true, old(ext), ext)
      ensures Consistent(old(invent), quest, old(ext)) ==> Consistent(invent, quest, ext)
    {
      CarryIntrinsic(o, true);
      if Consistent(invent, quest, old(ext)) {
        PickUpConsistent(o, invent, quest, old(ext), ext);
      }
      invent := invent + [o];
    }

    method PutDownObject(i: nat)
      requires i < |invent| && quest != 0
      requires forall j, k :: 0 <= j < k < |invent| ==> invent[j].id != invent[k].id
      modifies this
      ensures invent == Without(old(invent), i)
      ensures Updated(old(invent)[i], invent, quest, false, old(ext), ext)
      ensures Consistent(old(invent), quest, old(ext)) ==>
                (Consistent(invent, quest, ext) <==> !QuestDoubled(old(invent)[i], invent, quest))
    {
      var o := invent[i];
      ghost var had := invent;
      invent := invent[..i] + invent[i + 1..];
      CarryIntrinsic(o, false);
      if Consistent(had, quest, old(ext)) {
        ConferredWithout(had, i, quest);
        PutDownConsistentIff(o, invent, quest, old(ext), ext);
      }
    }
  }
}
