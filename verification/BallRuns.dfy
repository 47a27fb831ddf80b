/** The blind hero's ledger over whole runs: ball.c's moves with what the hero feels in them and between
    them (display.c, hack.c). */
module BallRuns {
  import opened Geometry
  import opened BallDrag
  import opened BallFloor
  import opened BallMemory
  import opened BallAndChain

  // ----- feeling a square -----

  /** Both pieces lie there, and two looks beneath them, as of a hallucinating hero, differ. */
  predicate TwoFaced(f: Floor, p: Coord, belowBall: Glyph, belowChain: Glyph) {
    PiecesAt(f, p) == Pieces(true, true) && belowBall != belowChain
  }

  /** The underlying memory, once a square has been felt. */
  function Rebased(f: Floor, under: Memory, p: Coord, shown: Glyph, belowBall: Glyph, belowChain: Glyph): Memory {
    under[p := if p == f.chain then belowChain else if !f.carried && p == f.ball then belowBall else shown]
  }

  ghost predicate SameElsewhere(under: Memory, under': Memory, p: Coord) {
    forall q :: q != p ==> MemAt(under', q) == MemAt(under, q)
  }

  /** A felt chain beneath the ball has the ball felt too: so the chain can be pulled away. */
  predicate ChainSafe(m: Mind) {
    m.order == BallOnTop && m.felt.chain ==> m.felt.ball
  }

  lemma FeelKeeps(s: State, under: Memory, p: Coord, shown: Glyph, belowBall: Glyph, belowChain: Glyph)
    requires Kept(s, under) && !TwoFaced(s.floor, p, belowBall, belowChain)
    ensures var s' := Feel(s, p, shown, belowBall, belowChain);
            Kept(s', Rebased(s.floor, under, p, shown, belowBall, belowChain)) && (ChainSafe(s.mind) ==> ChainSafe(s'.mind))
  {
    var m, f, m' := s.mind, s.floor, Feel(s, p, shown, belowBall, belowChain).mind;
    var under' := Rebased(f, under, p, shown, belowBall, belowChain);
    assert forall q :: q != p ==> MemAt(m'.mem, q) == MemAt(m.mem, q) && MemAt(under', q) == MemAt(under, q);
    assert Ledger(m', f, under');
    if !f.carried {
      OrderDiffers(f);
    }
  }

  /** Feeling a square keeps a ledger that differs there alone, exactly if it is not two-faced. */
  lemma FeelKeptIff(s: State, under: Memory, p: Coord, shown: Glyph, belowBall: Glyph, belowChain: Glyph)
    requires Kept(s, under)
    ensures (exists under' :: SameElsewhere(under, under', p) && Kept(Feel(s, p, shown, belowBall, belowChain), under'))
            <==> !TwoFaced(s.floor, p, belowBall, belowChain)
  {
    if !TwoFaced(s.floor, p, belowBall, belowChain) {
      FeelKeeps(s, under, p, shown, belowBall, belowChain);
      assert SameElsewhere(under, Rebased(s.floor, under, p, shown, belowBall, belowChain), p);
    }
  }

  // ----- one move -----

  /** A move_bc that does not move the ball alone, nor lifts a piece from under the hero. */
  lemma CallKeeps(s: State, under: Memory, c: Call)
    requires Kept(s, under) && !s.floor.carried && Proper(s.floor, c) && ChainSafe(s.mind)
    requires c.control != BALL_ONLY && !Astray(s, under, c)
    ensures var s' := Called(s, c);
            Kept(s', UnderCall(s, under, c)) && !s'.floor.carried && ChainSafe(s'.mind)
  {
    BlindMoveKeptIff(s, under, c);
    BlindMoveSenses(s, c);
    CalledPlaces(s, c);
    if c.control.chain {
      MovedChainOnTop(s, c);
    }
  }

  lemma MovedChainOnTop(s: State, c: Call)
    requires c.control.chain
    ensures Called(s, c).mind.order != BallOnTop
  {
    var f := if c.control.ball then Shift(s.floor, Ball, c.ball) else s.floor;
    FirstOfStack(PileAt(Take(f, Chain).piles, c.chain), Chain);
  }

  /** Jerked back to a free square the hero lands on both pieces and feels them, and whatever he had
      forgotten there is put right. */
  lemma LandingJerkKeeps(s: State, under: Memory)
    requires Kept(s, under) && !s.floor.carried && !s.aloft
    ensures var s', c := JerkBack(s, false), s.floor.chain;
            && Kept(s', under[c := Below(s, c)]) && !s'.floor.carried && ChainSafe(s'.mind)
            && s'.mind.felt == Pieces(true, true)
  {
    var c, s1 := s.floor.chain, Newsym(s.(hero := s.floor.chain), s.hero);
    var under1 := if s.hero == c then under[c := Below(s, c)] else under;
    LeavingKeeps(s, under);
    PulledOverKeeps(s1, under1);
    assert JerkBack(s, false) == Called(s1, JerkCall(s1));
    assert under1[c := Below(s, c)] == under[c := Below(s, c)];
  }

  /** The hero is moved to the chain and his old square looked at. */
  lemma LeavingKeeps(s: State, under: Memory)
    requires Kept(s, under) && !s.floor.carried && !s.aloft
    ensures var c, s1 := s.floor.chain, Newsym(s.(hero := s.floor.chain), s.hero);
            Kept(s1, if s.hero == c then under[c := Below(s, c)] else under) && s1.floor == s.floor
  {
    var c, s0 := s.floor.chain, s.(hero := s.floor.chain);
    assert Kept(s0, under);
    if s.hero == c {
      FeelKeeps(s0, under, c, Shown(s0, c), Below(s0, c), Below(s0, c));
    }
  }

  lemma PulledOverKeeps(s: State, under: Memory)
    requires Kept(s, under) && !s.floor.carried && !s.aloft && s.hero == s.floor.chain
    ensures var s', c := Called(s, JerkCall(s)), s.floor.chain;
            && Kept(s', under[c := Below(s, c)]) && !s'.floor.carried && s'.mind.felt == Pieces(true, true)
  {
    BlindMoveKeptIff(s, under, JerkCall(s));
    BlindMoveSenses(s, JerkCall(s));
    CalledPlaces(s, JerkCall(s));
  }

  function JerkCall(s: State): Call {
    Call(s.hero, BALL_ONLY, s.floor.chain, s.floor.chain)
  }

  /** Where a monster on the chain's square keeps the hero off it, the ball alone is pulled there. That
      forgets exactly if the ball was felt beneath an unfelt chain, with a difference to forget, or was
      pulled from under the hero's feet to a square that hides something else; and it leaves a felt chain
      beneath a ball that is not felt, unless he stands where the ball was or comes to lie. */
  lemma JerkKeptIff(s: State, under: Memory)
    requires Kept(s, under) && !s.floor.carried && !s.aloft
    ensures var s', f := JerkBack(s, true), s.floor;
            && !s'.floor.carried
            && (Kept(s', UnderCall(s, under, JerkCall(s))) <==>
                  && (BallForgotten(s.mind, f, under) ==> s.hero == f.ball)
                  && (s.hero == f.ball != f.chain ==> Below(s, s.hero) == MemAt(under, f.chain)))
            && (ChainSafe(s'.mind) <==> s.mind.felt.chain ==> s.hero in {f.ball, f.chain})
  {
    var call := JerkCall(s);
    assert JerkBack(s, true) == Called(s, call);
    BlindMoveKeptIff(s, under, call);
    BlindMoveSenses(s, call);
    CalledPlaces(s, call);
    FirstOfStack(PileAt(TakeFrom(s.floor.piles, Ball, s.floor.ball), s.floor.chain), Ball);
  }

  /** A move is a single step where a stubborn pet sends the hero back, and levitation is one thing. */
  predicate Possible(s: State, m: Move) {
    (m.thwarted ==> DistMin(m.dest, s.hero) <= 1) && m.env.levitation == s.aloft
  }

  /** The only moves that may do harm: a jerk that leaves the hero where he was, with the chain felt, or the
      ball felt on its square or lying at his feet; and a ball dragged from under a hero who is then sent
      back. */
  predicate Harmless(s: State, m: Move)
    requires Charted(m.env.terrain) && IsOk(m.dest) && OnMap(LinksOf(s)) && !s.floor.carried
  {
    var f, felt := s.floor, SlideUndone(s, m.env, m.dest, m.allowDrag).mind.felt;
    match Outcome(s, m.env, m.dest, m.allowDrag)
    case Refused => true
    case Jerked(_) => m.env.victimRemains ==> !felt.chain && (felt.ball ==> f.ball != f.chain) && s.hero != f.ball
    case Going(control, _, _, _) => m.thwarted && control.ball && !s.aloft ==> s.hero != f.ball
  }

  predicate Undoes(s: State, m: Move)
    requires Charted(m.env.terrain) && IsOk(m.dest) && OnMap(LinksOf(s))
  {
    Dist2(m.dest, s.floor.chain) > 2 && DistMin(m.dest, s.floor.ball) <= 2 &&
    Slide(m.env, LinksOf(s), m.dest, m.allowDrag).None?
  }

  function UndoCall(s: State): Call {
    Call(s.hero, CHAIN_ONLY, s.floor.ball, s.floor.chain)
  }

  function UnderUndone(s: State, under: Memory, m: Move): Memory
    requires Charted(m.env.terrain) && IsOk(m.dest) && OnMap(LinksOf(s))
  {
    if Undoes(s, m) then UnderCall(s, under, UndoCall(s)) else under
  }

  lemma UndoneKeeps(s: State, under: Memory, m: Move)
    requires Charted(m.env.terrain) && IsOk(m.dest) && OnMap(LinksOf(s))
    requires Kept(s, under) && !s.floor.carried && ChainSafe(s.mind)
    ensures var s' := SlideUndone(s, m.env, m.dest, m.allowDrag);
            && Kept(s', UnderUndone(s, under, m)) && !s'.floor.carried && ChainSafe(s'.mind)
            && LinksOf(s') == LinksOf(s) && s'.aloft == s.aloft
  {
    SlideUndoneStays(s, m.env, m.dest, m.allowDrag);
    if Undoes(s, m) {
      CallKeeps(s, under, UndoCall(s));
    }
  }

  function GoingCall(s: State, m: Move, d: Drag): Call
    requires d.Going?
  {
    Call(if m.thwarted then s.hero else m.dest, d.control, d.ball, d.chain)
  }

  /** A blind hero on the ground feels the square he steps on, before the pieces follow. */
  function UnderArrival(s: State, under: Memory, dest: Coord): Memory {
    if dest == s.hero || s.aloft then under
    else Rebased(s.floor, under, dest, Shown(s, dest), Below(s, dest), Below(s, dest))
  }

  lemma ArrivalKeeps(s: State, under: Memory, dest: Coord)
    requires Kept(s, under) && ChainSafe(s.mind)
    ensures var s' := Arrive(s, dest);
            Kept(s', UnderArrival(s, under, dest)) && ChainSafe(s'.mind) && s'.floor == s.floor
  {
    if dest != s.hero {
      var s1 := s.(hero := dest);
      assert Newsym(s1, s.hero) == s1 && Kept(s1, under);
      if !s.aloft {
        FeelKeeps(s1, under, dest, Shown(s1, dest), Below(s1, dest), Below(s1, dest));
      }
    }
  }

  /** The memory beneath the pieces after a move: amended where the hero has felt his own square. */
  function UnderMove(s: State, under: Memory, m: Move): Memory
    requires Charted(m.env.terrain) && IsOk(m.dest) && OnMap(LinksOf(s)) && !s.floor.carried
  {
    var s1, under1 := SlideUndone(s, m.env, m.dest, m.allowDrag), UnderUndone(s, under, m);
    match Outcome(s, m.env, m.dest, m.allowDrag)
    case Refused => under1
    case Jerked(_) =>
      if m.env.victimRemains then UnderCall(s1, under1, JerkCall(s1)) else under1[s.floor.chain := Below(s1, s.floor.chain)]
    case d =>
      var c := GoingCall(s, m, d);
      UnderCall(Arrive(s1, c.hero), UnderArrival(s1, under1, c.hero), c)
  }

  /** A ball is not dragged off the square that the hero steps on. */
  lemma SteppedOnStays(env: Surroundings, w: Links, dest: Coord, allowDrag: bool)
    requires Charted(env.terrain) && IsOk(dest) && OnMap(w)
    ensures BallMustMove(env, w, dest, allowDrag) ==> dest != w.ball && dest != w.chain
  {
    if dest == w.ball {
      Dist2Shape(dest, w.ball);
    }
  }

  lemma NotAstray(s: State, under: Memory, m: Move)
    requires Charted(m.env.terrain) && IsOk(m.dest) && OnMap(LinksOf(s)) && !s.floor.carried
    requires Possible(s, m) && Harmless(s, m) && Outcome(s, m.env, m.dest, m.allowDrag).Going?
    ensures !Astray(SlideUndone(s, m.env, m.dest, m.allowDrag), under, GoingCall(s, m, Outcome(s, m.env, m.dest, m.allowDrag)))
  {
    SteppedOnStays(m.env, LinksOf(s), m.dest, m.allowDrag);
    AdjacentIffDist2(m.dest, s.hero);
    AdjacentIffDist2(m.dest, m.dest);
  }

  /** A blind hero's move keeps the ledger, whatever comes of it but harm. */
  lemma MoveKeeps(s: State, under: Memory, m: Move)
    requires Charted(m.env.terrain) && IsOk(m.dest) && OnMap(LinksOf(s))
    requires Kept(s, under) && !s.floor.carried && ChainSafe(s.mind) && Possible(s, m) && Harmless(s, m)
    ensures var s' := MoveState(s, m);
            Kept(s', UnderMove(s, under, m)) && !s'.floor.carried && ChainSafe(s'.mind)
  {
    UndoneKeeps(s, under, m);
    match Outcome(s, m.env, m.dest, m.allowDrag)
    case Refused =>
    case Jerked(_) => JerkedKeeps(s, under, m);
    case d => GoingKeeps(s, under, m, d);
  }

  lemma GoingKeeps(s: State, under: Memory, m: Move, d: Drag)
    requires Charted(m.env.terrain) && IsOk(m.dest) && OnMap(LinksOf(s))
    requires Kept(s, under) && !s.floor.carried && ChainSafe(s.mind) && Possible(s, m) && Harmless(s, m)
    requires d == Outcome(s, m.env, m.dest, m.allowDrag) && d.Going?
    ensures var s' := MoveState(s, m);
            Kept(s', UnderMove(s, under, m)) && !s'.floor.carried && ChainSafe(s'.mind)
  {
    var s1, under1 := SlideUndone(s, m.env, m.dest, m.allowDrag), UnderUndone(s, under, m);
    UndoneKeeps(s, under, m);
    GoingIsCalled(s, m, d);
    var c := GoingCall(s, m, d);
    ArrivalKeeps(s1, under1, c.hero);
    NotAstray(s, UnderArrival(s1, under1, c.hero), m);
    StillNotAstray(s1, UnderArrival(s1, under1, c.hero), c);
    CallKeeps(Arrive(s1, c.hero), UnderArrival(s1, under1, c.hero), c);
  }

  lemma StillNotAstray(s: State, under: Memory, c: Call)
    requires !Astray(s, under, c)
    ensures !Astray(Arrive(s, c.hero), under, c)
  {
    assert Below(Arrive(s, c.hero), c.hero) == Below(s, c.hero);
  }

  lemma GoingIsCalled(s: State, m: Move, d: Drag)
    requires Charted(m.env.terrain) && IsOk(m.dest) && OnMap(LinksOf(s)) && s.blind && !s.floor.carried
    requires d == Outcome(s, m.env, m.dest, m.allowDrag) && d.Going?
    ensures var s1 := SlideUndone(s, m.env, m.dest, m.allowDrag);
            var c := GoingCall(s, m, d);
            MoveState(s, m) == Called(Arrive(s1, c.hero), c) && Proper(s1.floor, c)
  {
    StaysForGoing(s, m, d);
    var s1 := SlideUndone(s, m.env, m.dest, m.allowDrag);
    assert MoveState(s, m) == Finish(s1, if m.thwarted then s.hero else m.dest, d);
  }

  lemma StaysForGoing(s: State, m: Move, d: Drag)
    requires Charted(m.env.terrain) && IsOk(m.dest) && OnMap(LinksOf(s)) && s.blind && !s.floor.carried
    requires d == Outcome(s, m.env, m.dest, m.allowDrag) && d.Going?
    ensures var s1 := SlideUndone(s, m.env, m.dest, m.allowDrag);
            && AfterDrag(s, m.env, m.dest, m.allowDrag) == s1 && s1.blind && LinksOf(s1) == LinksOf(s) && !s1.floor.carried
            && (d.control.ball || d.ball == s.floor.ball) && (d.control.chain || d.chain == s.floor.chain)
  {
    if Undoes(s, m) {
      CalledPlaces(s, UndoCall(s));
    }
  }

  lemma JerkedKeeps(s: State, under: Memory, m: Move)
    requires Charted(m.env.terrain) && IsOk(m.dest) && OnMap(LinksOf(s))
    requires Kept(s, under) && !s.floor.carried && ChainSafe(s.mind) && Possible(s, m) && Harmless(s, m)
    requires Outcome(s, m.env, m.dest, m.allowDrag).Jerked?
    ensures var s' := MoveState(s, m);
            Kept(s', UnderMove(s, under, m)) && !s'.floor.carried && ChainSafe(s'.mind)
  {
    var s1, under1 := SlideUndone(s, m.env, m.dest, m.allowDrag), UnderUndone(s, under, m);
    UndoneKeeps(s, under, m);
    assert MoveState(s, m) == JerkBack(s1, m.env.victimRemains);
    if m.env.victimRemains {
      OrderDiffers(s1.floor);
      JerkKeptIff(s1, under1);
    } else {
      LandingJerkKeeps(s1, under1);
    }
  }

  // ----- runs -----

  datatype Event = Walks(m: Move) | Feels(p: Coord, shown: Glyph, belowBall: Glyph, belowChain: Glyph) | Floats(aloft: bool)

  ghost predicate Chained(s: State) {
    OnMap(LinksOf(s)) && Settled(s.floor) && !s.floor.carried
  }

  ghost predicate Can(s: State, e: Event)
    requires Chained(s)
  {
    match e
    case Walks(m) => Charted(m.env.terrain) && IsOk(m.dest) && Possible(s, m) && Harmless(s, m)
    case Feels(p, _, belowBall, belowChain) => !s.aloft && !TwoFaced(s.floor, p, belowBall, belowChain)
    case Floats(_) => true
  }

  ghost function Step(s: State, e: Event): (s': State)
    requires Chained(s) && Can(s, e)
    ensures Chained(s')
  {
    match e
    case Walks(m) =>
      MoveStateSettles(s, m);
      MoveState(s, m)
    case Feels(p, shown, belowBall, belowChain) => Feel(s, p, shown, belowBall, belowChain)
    case Floats(aloft) => s.(aloft := aloft)
  }

  ghost function UnderStep(s: State, under: Memory, e: Event): Memory
    requires Chained(s) && Can(s, e)
  {
    match e
    case Walks(m) => UnderMove(s, under, m)
    case Feels(p, shown, belowBall, belowChain) => Rebased(s.floor, under, p, shown, belowBall, belowChain)
    case Floats(_) => under
  }

  ghost predicate CanRun(s: State, events: seq<Event>)
    requires Chained(s)
    decreases |events|
  {
    events != [] ==> Can(s, events[0]) && CanRun(Step(s, events[0]), events[1..])
  }

  ghost function Run(s: State, events: seq<Event>): (s': State)
    requires Chained(s) && CanRun(s, events)
    ensures Chained(s')
    decreases |events|
  {
    if events == [] then s else Run(Step(s, events[0]), events[1..])
  }

  /** The memory beneath the pieces after a run: only what was felt has changed it. */
  ghost function UnderRun(s: State, under: Memory, events: seq<Event>): Memory
    requires Chained(s) && CanRun(s, events)
    decreases |events|
  {
    if events == [] then under else UnderRun(Step(s, events[0]), UnderStep(s, under, events[0]), events[1..])
  }

  lemma {:induction false} RunKeepsLedger(s: State, under: Memory, events: seq<Event>)
    requires Chained(s) && Kept(s, under) && ChainSafe(s.mind) && CanRun(s, events)
    ensures Kept(Run(s, events), UnderRun(s, under, events)) && ChainSafe(Run(s, events).mind)
    decreases |events|
  {
    if events != [] {
      match events[0] {
        case Walks(m) => MoveKeeps(s, under, m);
        case Feels(p, shown, belowBall, belowChain) => FeelKeeps(s, under, p, shown, belowBall, belowChain);
        case Floats(_) =>
      }
      RunKeepsLedger(Step(s, events[0]), UnderStep(s, under, events[0]), events[1..]);
    }
  }

  /** The hero about to go blind (set_bc), and then blind. */
  ghost function GoBlind(s: State): (s': State)
    requires !s.blind && !s.swallowed && Chained(s)
    ensures Chained(s')
  {
    SetBcFloor(s, false);
    SetBc(s, false).(blind := true)
  }

  /** From the moment the hero goes blind, over any walks, dragging, jerks, floating and feeling: when the
      pieces come off, he remembers what was beneath them when he could last see, as amended by what he has
      felt since. */
  lemma BlindnessRestores(s: State, events: seq<Event>)
    requires !s.blind && !s.swallowed && Chained(s) && CanRun(GoBlind(s), events)
    ensures Restores(Run(GoBlind(s), events), UnderRun(GoBlind(s), Beneath(s), events))
  {
    SetBcOpensLedger(s, false);
    RunKeepsLedger(GoBlind(s), Beneath(s), events);
    UnplaceRestores(Run(GoBlind(s), events), UnderRun(GoBlind(s), Beneath(s), events));
  }

  ghost function Fettered(s: State): (s': State)
    requires s.blind && !s.swallowed && Lifted(s.floor) && !s.floor.carried && IsOk(s.hero)
    ensures Chained(s')
  {
    PunishBlindOpensLedger(s);
    PunishBlind(s)
  }

  /** And so from the moment he is punished while blind, with what he then remembered, or on the ground
      felt, of his own square. */
  lemma PunishmentRestores(s: State, events: seq<Event>)
    requires s.blind && !s.swallowed && Lifted(s.floor) && !s.floor.carried && IsOk(s.hero)
    requires CanRun(Fettered(s), events)
    ensures Restores(Run(Fettered(s), events), UnderRun(Fettered(s), Grounded(s), events))
  {
    PunishBlindOpensLedger(s);
    RunKeepsLedger(Fettered(s), Grounded(s), events);
    UnplaceRestores(Run(Fettered(s), events), UnderRun(Fettered(s), Grounded(s), events));
  }
}
