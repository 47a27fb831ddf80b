/** ball.c's operations on the hero, the level's piles and the remembered objects, each proved to do
    what BallDrag and BallMemory say it does. */
module BallAndChain {
  import opened Geometry
  import opened BallDrag
  import opened BallFloor
  import opened BallMemory

  function LinksOf(s: State): Links {
    Links(s.hero, s.floor.ball, s.floor.chain)
  }

  const CHAIN_ONLY := Pieces(false, true)
  const BALL_ONLY := Pieces(true, false)

  /** The state once drag_ball has given up sliding the chain: lifted for the slide and put back. */
  function SlideUndone(s: State, env: Surroundings, dest: Coord, allowDrag: bool): State
    requires Charted(env.terrain) && OnMap(LinksOf(s)) && IsOk(dest)
  {
    var f := s.floor;
    if Dist2(dest, f.chain) > 2 && DistMin(dest, f.ball) <= 2 && Slide(env, LinksOf(s), dest, allowDrag).None?
    then MoveBc(MoveBc(s, true, CHAIN_ONLY, f.ball, f.chain), false, CHAIN_ONLY, f.ball, f.chain)
    else s
  }

  /** The hero goes to the chain unless a monster is still there; the ball follows. */
  function JerkBack(s: State, victimRemains: bool): State {
    PulledOver(if victimRemains then s else Dragged(s))
  }

  function Dragged(s: State): (s': State)
    ensures s' == s.(hero := s.floor.chain, mind := s'.mind)
  {
    Newsym(s.(hero := s.floor.chain), s.hero)
  }

  function PulledOver(s: State): State {
    var f := s.floor;
    MoveBc(MoveBc(s, true, BALL_ONLY, f.ball, f.chain), false, BALL_ONLY, f.chain, f.chain)
  }

  function Outcome(s: State, env: Surroundings, dest: Coord, allowDrag: bool): Drag
    requires Charted(env.terrain) && IsOk(dest) && IsOk(s.hero) && IsOk(s.floor.chain)
    requires !s.floor.carried ==> IsOk(s.floor.ball)
  {
    if s.floor.carried then DragCarriedBall(LinksOf(s), dest)
    else DragFloorBall(env, LinksOf(s), dest, allowDrag)
  }

  function AfterDrag(s: State, env: Surroundings, dest: Coord, allowDrag: bool): State
    requires Charted(env.terrain) && IsOk(dest) && IsOk(s.hero) && IsOk(s.floor.chain)
    requires !s.floor.carried ==> IsOk(s.floor.ball)
  {
    var f, out := s.floor, Outcome(s, env, dest, allowDrag);
    if f.carried || !BallMustMove(env, LinksOf(s), dest, allowDrag)
    then MoveBc(s, true, out.control, f.ball, f.chain)
    else AfterHaul(SlideUndone(s, env, dest, allowDrag), env, dest)
  }

  function AfterHaul(s: State, env: Surroundings, dest: Coord): State
    requires Charted(env.terrain) && IsOk(dest) && OnMap(LinksOf(s))
  {
    match Haul(env, LinksOf(s), dest)
    case Refused => s
    case Jerked(_) => JerkBack(s, env.victimRemains)
    case Going(control, _, _, _) => MoveBc(s, true, control, s.floor.ball, s.floor.chain)
  }

  lemma SlideUndoneStays(s: State, env: Surroundings, dest: Coord, allowDrag: bool)
    requires Charted(env.terrain) && IsOk(dest) && OnMap(LinksOf(s)) && Settled(s.floor)
    ensures var s' := SlideUndone(s, env, dest, allowDrag);
            && Settled(s'.floor) && LinksOf(s') == LinksOf(s) && s'.blind == s.blind
            && s'.floor.carried == s.floor.carried && SameOthers(s.floor.piles, s'.floor.piles)
  {
    var f := s.floor;
    MoveBcFloor(s, true, CHAIN_ONLY, f.ball, f.chain);
    MoveBcFloor(MoveBc(s, true, CHAIN_ONLY, f.ball, f.chain), false, CHAIN_ONLY, f.ball, f.chain);
  }

  lemma JerkBackSettles(s: State, victimRemains: bool)
    requires Settled(s.floor) && !s.floor.carried
    ensures var s' := JerkBack(s, victimRemains);
            Settled(s'.floor) && SameOthers(s.floor.piles, s'.floor.piles) && s'.blind == s.blind
  {
    var f := s.floor;
    var s1 := if victimRemains then s else Dragged(s);
    MoveBcFloor(s1, true, BALL_ONLY, f.ball, f.chain);
    MoveBcFloor(MoveBc(s1, true, BALL_ONLY, f.ball, f.chain), false, BALL_ONLY, f.chain, f.chain);
  }

  lemma PendingMeansLifted(f: Floor)
    ensures !(Settled(f) && Lifted(f))
  {
    if Settled(f) {
      assert Count(PileAt(f.piles, f.chain), Chain) == 1;
    }
  }

  /** A lift is pending, or everything is back on the floor, as the answer says; other objects stay. */
  ghost predicate Pending(s: State, s': State, going: bool) {
    && (Lifted(s'.floor) <==> !s.blind && going)
    && (Settled(s'.floor) <==> s.blind || !going)
    && SameOthers(s.floor.piles, s'.floor.piles)
    && s'.blind == s.blind && s'.floor.carried == s.floor.carried
  }

  lemma MoveBcPending(s: State, control: Pieces)
    requires Settled(s.floor)
    ensures Pending(s, MoveBc(s, true, control, s.floor.ball, s.floor.chain), true)
  {
    var s' := MoveBc(s, true, control, s.floor.ball, s.floor.chain);
    MoveBcFloor(s, true, control.(ball := false), s.floor.ball, s.floor.chain);
    assert s'.floor == MoveBc(s, true, control.(ball := false), s.floor.ball, s.floor.chain).floor;
    PendingMeansLifted(s'.floor);
  }

  lemma HaulPending(s: State, env: Surroundings, dest: Coord)
    requires Charted(env.terrain) && IsOk(dest) && OnMap(LinksOf(s)) && Settled(s.floor) && !s.floor.carried
    ensures Pending(s, AfterHaul(s, env, dest), Haul(env, LinksOf(s), dest).Going?)
  {
    match Haul(env, LinksOf(s), dest)
    case Refused => PendingMeansLifted(s.floor);
    case Jerked(_) =>
      JerkBackSettles(s, env.victimRemains);
      PendingMeansLifted(JerkBack(s, env.victimRemains).floor);
    case Going(control, _, _, _) => MoveBcPending(s, control);
  }

  /** drag_ball returns TRUE exactly with a lift pending: for a sighted hero both pieces are then in
      no pile, and otherwise each is back in one. Other objects stay put throughout. */
  lemma LiftPendingIffGoing(s: State, env: Surroundings, dest: Coord, allowDrag: bool)
    requires Charted(env.terrain) && IsOk(dest) && OnMap(LinksOf(s)) && Settled(s.floor)
    ensures Pending(s, AfterDrag(s, env, dest, allowDrag), Outcome(s, env, dest, allowDrag).Going?)
  {
    if s.floor.carried || !BallMustMove(env, LinksOf(s), dest, allowDrag) {
      MoveBcPending(s, Outcome(s, env, dest, allowDrag).control);
    } else {
      SlideUndoneStays(s, env, dest, allowDrag);
      HaulPending(SlideUndone(s, env, dest, allowDrag), env, dest);
    }
  }

  /** The hero has stepped: his old square and, by vision_recalc, his new one are looked at. */
  function Arrive(s: State, dest: Coord): (s': State)
    ensures s' == s.(hero := dest, mind := s'.mind)
  {
    if dest == s.hero then s else Newsym(Newsym(s.(hero := dest), s.hero), dest)
  }

  /** A walking move as a whole: drag_ball, then on TRUE the hero steps and move_bc puts down. */
  function WalkState(s: State, env: Surroundings, dest: Coord, allowDrag: bool): State
    requires Charted(env.terrain) && IsOk(dest) && OnMap(LinksOf(s))
  {
    Finish(AfterDrag(s, env, dest, allowDrag), dest, Outcome(s, env, dest, allowDrag))
  }

  function Finish(s: State, dest: Coord, d: Drag): State {
    match d
    case Going(control, ball, chain, _) => MoveBc(Arrive(s, dest), false, control, ball, chain)
    case _ => s
  }

  /** After a whole move the pieces lie in one pile each, at the squares the movement rules give;
      so whatever BallDrag proves of every run of walks holds of the level itself. */
  lemma WalkStateSettles(s: State, env: Surroundings, dest: Coord, allowDrag: bool)
    requires Charted(env.terrain) && IsOk(dest) && OnMap(LinksOf(s))
    requires Settled(s.floor) && !s.floor.carried
    ensures var s' := WalkState(s, env, dest, allowDrag);
            && Settled(s'.floor) && SameOthers(s.floor.piles, s'.floor.piles)
            && LinksOf(s') == Walk(env, LinksOf(s), dest, allowDrag) && !s'.floor.carried
  {
    FinishSettles(s, env, dest, allowDrag, dest);
  }

  /** The end of a move that leaves the hero, if he goes, at the given square. */
  lemma FinishSettles(s: State, env: Surroundings, dest: Coord, allowDrag: bool, to: Coord)
    requires Charted(env.terrain) && IsOk(dest) && OnMap(LinksOf(s))
    requires Settled(s.floor) && !s.floor.carried
    ensures var d := Outcome(s, env, dest, allowDrag);
            var s' := Finish(AfterDrag(s, env, dest, allowDrag), to, d);
            && Settled(s'.floor) && SameOthers(s.floor.piles, s'.floor.piles) && !s'.floor.carried
            && LinksOf(s') == Settle(LinksOf(s), to, d)
  {
    LiftPendingIffGoing(s, env, dest, allowDrag);
    AfterDragPlaces(s, env, dest, allowDrag);
    var s', d := AfterDrag(s, env, dest, allowDrag), Outcome(s, env, dest, allowDrag);
    if d.Going? {
      GoingStaysPut(s, env, dest, allowDrag);
      FinishPlaces(Arrive(s', to), d.control, d.ball, d.chain);
    }
  }

  lemma GoingStaysPut(s: State, env: Surroundings, dest: Coord, allowDrag: bool)
    requires Charted(env.terrain) && IsOk(dest) && OnMap(LinksOf(s)) && !s.floor.carried
    ensures var d := Outcome(s, env, dest, allowDrag);
            d.Going? ==> (d.control.ball || d.ball == s.floor.ball) && (d.control.chain || d.chain == s.floor.chain)
  {
  }

  /** A piece not in control is passed its own square. */
  lemma FinishPlaces(s: State, control: Pieces, ball: Coord, chain: Coord)
    requires !s.floor.carried && if s.blind then Settled(s.floor) else Lifted(s.floor)
    requires control.ball || ball == s.floor.ball
    requires control.chain || chain == s.floor.chain
    ensures var s' := MoveBc(s, false, control, ball, chain);
            && Settled(s'.floor) && SameOthers(s.floor.piles, s'.floor.piles)
            && LinksOf(s') == Links(s.hero, ball, chain) && !s'.floor.carried
  {
    MoveBcFloor(s, false, control, ball, chain);
  }

  lemma JerkBackPlaces(s: State, victimRemains: bool)
    requires !s.floor.carried
    ensures var s', f := JerkBack(s, victimRemains), s.floor;
            LinksOf(s') == Links(if victimRemains then s.hero else f.chain, f.chain, f.chain) && !s'.floor.carried
  {
  }

  lemma AfterDragPlaces(s: State, env: Surroundings, dest: Coord, allowDrag: bool)
    requires Charted(env.terrain) && IsOk(dest) && OnMap(LinksOf(s))
    requires Settled(s.floor) && !s.floor.carried
    ensures LinksOf(AfterDrag(s, env, dest, allowDrag)) == match Outcome(s, env, dest, allowDrag)
            case Jerked(settled) => settled
            case _ => LinksOf(s)
  {
    if BallMustMove(env, LinksOf(s), dest, allowDrag) {
      SlideUndoneStays(s, env, dest, allowDrag);
      HaulPlaces(SlideUndone(s, env, dest, allowDrag), env, dest);
    }
  }

  lemma HaulPlaces(s: State, env: Surroundings, dest: Coord)
    requires Charted(env.terrain) && IsOk(dest) && OnMap(LinksOf(s)) && !s.floor.carried
    ensures LinksOf(AfterHaul(s, env, dest)) == match Haul(env, LinksOf(s), dest)
            case Jerked(settled) => settled
            case _ => LinksOf(s)
  {
    JerkBackPlaces(s, env.victimRemains);
  }

  /** A thwarted move: move_bc puts down for dest, but the hero is back on his square. */
  function ThwartedState(s: State, env: Surroundings, dest: Coord, allowDrag: bool): State
    requires Charted(env.terrain) && IsOk(dest) && OnMap(LinksOf(s))
  {
    Finish(AfterDrag(s, env, dest, allowDrag), s.hero, Outcome(s, env, dest, allowDrag))
  }

  lemma ThwartedStateSettles(s: State, env: Surroundings, dest: Coord, allowDrag: bool)
    requires Charted(env.terrain) && IsOk(dest) && OnMap(LinksOf(s))
    requires Settled(s.floor) && !s.floor.carried
    ensures var s' := ThwartedState(s, env, dest, allowDrag);
            && Settled(s'.floor) && SameOthers(s.floor.piles, s'.floor.piles)
            && LinksOf(s') == Thwarted(env, LinksOf(s), dest, allowDrag) && !s'.floor.carried
  {
    FinishSettles(s, env, dest, allowDrag, s.hero);
  }

  function MoveState(s: State, m: Move): State
    requires Charted(m.env.terrain) && IsOk(m.dest) && OnMap(LinksOf(s))
  {
    if m.thwarted then ThwartedState(s, m.env, m.dest, m.allowDrag) else WalkState(s, m.env, m.dest, m.allowDrag)
  }

  lemma MoveStateSettles(s: State, m: Move)
    requires Charted(m.env.terrain) && IsOk(m.dest) && OnMap(LinksOf(s))
    requires Settled(s.floor) && !s.floor.carried
    ensures var s' := MoveState(s, m);
            && Settled(s'.floor) && SameOthers(s.floor.piles, s'.floor.piles)
            && LinksOf(s') == Moved(LinksOf(s), m) && OnMap(LinksOf(s')) && !s'.floor.carried
  {
    WalkStateSettles(s, m.env, m.dest, m.allowDrag);
    ThwartedStateSettles(s, m.env, m.dest, m.allowDrag);
    MovedStaysOnMap(LinksOf(s), m);
  }

  /** The level after a whole run of walking moves. */
  ghost function RunState(s: State, moves: seq<Move>): State
    requires OnMap(LinksOf(s)) && Playable(moves) && Settled(s.floor) && !s.floor.carried
    decreases |moves|
  {
    if moves == [] then s else
    MoveStateSettles(s, moves[0]);
    RunState(MoveState(s, moves[0]), moves[1..])
  }

  /** Over any run, sighted or blind: the pieces end in one pile each, where the movement rules say, and
      every other object is where it was. */
  lemma {:induction false} RunStateKeeps(s: State, moves: seq<Move>)
    requires OnMap(LinksOf(s)) && Playable(moves) && Settled(s.floor) && !s.floor.carried
    ensures var s' := RunState(s, moves);
            && Settled(s'.floor) && SameOthers(s.floor.piles, s'.floor.piles)
            && LinksOf(s') == Run(LinksOf(s), moves)
    ensures Linked(LinksOf(s)) && Stepwise(LinksOf(s), moves) ==> Linked(LinksOf(RunState(s, moves)))
    decreases |moves|
  {
    if moves != [] {
      MoveStateSettles(s, moves[0]);
      RunStateKeeps(MoveState(s, moves[0]), moves[1..]);
    }
    if Linked(LinksOf(s)) && Stepwise(LinksOf(s), moves) {
      RunKeepsLinks(LinksOf(s), moves);
    }
  }

  class Punishment {
    var hero: Coord
    var ball: Coord
    var chain: Coord
    var carried: bool
    var blind: bool
    var aloft: bool
    var swallowed: bool
    var seen: set<Coord>
    var covered: set<Coord>
    var piles: Piles
    var mem: Memory
    var bGlyph: Glyph
    var cGlyph: Glyph
    var felt: Pieces
    var order: Order

    function Snap(): State
      reads this
    {
      State(hero, blind, aloft, swallowed, seen, covered, Floor(piles, ball, chain, carried), Mind(mem, bGlyph, cGlyph, felt, order))
    }

    /** remove_object panics unless the object is on the floor. */
    method RemoveObject(it: Item)
      requires Count(PileAt(piles, Where(Snap().floor, it)), it) == 1
      modifies this`piles
      ensures Snap() == old(Snap()).(floor := Take(old(Snap()).floor, it))
    {
      var p := if it == Ball then ball else chain;
      piles := piles[p := Without(PileAt(piles, p), it)];
    }

    /** place_object panics unless the object is free, that is in no pile. */
    method PlaceObject(it: Item, p: Coord)
      requires !it.Other? && OffFloor(piles, it)
      modifies this`piles, this`ball, this`chain
      ensures Snap() == old(Snap()).(floor := Put(old(Snap()).floor, it, p))
    {
      piles := piles[p := Stack(PileAt(piles, p), it)];
      if it == Ball { ball := p; } else { chain := p; }
    }

    method NewSymbol(p: Coord)
      modifies this`mem, this`felt, this`bGlyph, this`cGlyph
      ensures Snap() == Newsym(old(Snap()), p)
    {
      if blind {
        if p == hero && !aloft {
          FeelLocation(p);
        }
      } else if p in seen {
        mem := mem[p := Shown(Snap(), p)];
      }
    }

    /** feel_location for a hero on the ground. */
    method FeelLocation(p: Coord)
      modifies this`mem, this`felt, this`bGlyph, this`cGlyph
      ensures var s := old(Snap()); Snap() == Feel(s, p, Shown(s, p), Below(s, p), Below(s, p))
    {
      var shown, below := Shown(Snap(), p), Below(Snap(), p);
      mem := mem[p := shown];
      if chain == p {
        felt := felt.(chain := true);
        cGlyph := below;
      }
      if !carried && ball == p {
        felt := felt.(ball := true);
        bGlyph := below;
      }
    }

    method MapObject(it: Item)
      requires !it.Other?
      modifies this`mem
      ensures Snap().mind == MapPiece(old(Snap()).mind, Snap().floor, it)
    {
      var p := if it == Ball then ball else chain;
      mem := mem[p := Face(it, |PileAt(piles, p)| > 1)];
    }

    /** movobj, for a blind hero. */
    method MoveObject(it: Item, p: Coord)
      requires blind && !it.Other? && OnFloor(piles, it, Where(Snap().floor, it))
      modifies this`piles, this`ball, this`chain, this`mem, this`felt, this`bGlyph, this`cGlyph
      ensures Snap() == MovObj(old(Snap()), it, p)
    {
      TakeFromKeeps(piles, it, if it == Ball then ball else chain);
      RemoveObject(it);
      NewSymbol(if it == Ball then ball else chain);
      PlaceObject(it, p);
      NewSymbol(p);
    }

    method ComputeOrder() returns (o: Order)
      ensures o == BcOrder(Snap())
    {
      if chain != ball || carried || swallowed {
        return Differ;
      }
      var pile := PileAt(piles, ball);
      var i := 0;
      while i < |pile|
        invariant 0 <= i <= |pile|
        invariant FirstOf(pile) == FirstOf(pile[i..])
      {
        if pile[i] == Chain {
          return ChainOnTop;
        }
        if pile[i] == Ball {
          return BallOnTop;
        }
        assert pile[i..][1..] == pile[i + 1..];
        i := i + 1;
      }
      return Differ;
    }

    method PlaceBc()
      requires Lifted(Snap().floor)
      modifies this
      ensures Snap() == Place(old(Snap()))
    {
      PutOnKeeps(piles, Ball, hero);
      if carried {
        order := Differ;
      } else {
        PlaceObject(Ball, hero);
        order := ChainOnTop;
      }
      PlaceObject(Chain, hero);
      cGlyph := MemAt(mem, hero);
      bGlyph := cGlyph;
      NewSymbol(hero);
    }

    method UnplaceBc()
      requires !swallowed ==> Settled(Snap().floor)
      modifies this
      ensures Snap() == Unplace(old(Snap()))
    {
      if swallowed {
        return;
      }
      if !carried {
        TakeFromKeeps(piles, Ball, ball);
        UnplaceIron();
      }
      RemoveObject(Chain);
      if blind && felt.chain {
        mem := mem[chain := cGlyph];
      }
      NewSymbol(chain);
      felt := NONE;
    }

    /** The ball of it. */
    method UnplaceIron()
      requires !carried && Settled(Snap().floor)
      modifies this`piles, this`mem, this`felt, this`bGlyph, this`cGlyph
      ensures Snap() == UnplaceBall(old(Snap()))
    {
      RemoveObject(Ball);
      if blind && felt.ball {
        mem := mem[ball := bGlyph];
      }
      NewSymbol(ball);
    }

    method SetBc(alreadyBlind: bool)
      requires !swallowed ==> Settled(Snap().floor)
      modifies this
      ensures Snap() == BallMemory.SetBc(old(Snap()), alreadyBlind)
    {
      ghost var f := Snap().floor;
      var onFloor := !carried;
      order := ComputeOrder();
      felt := Pieces(onFloor, true);
      if alreadyBlind || swallowed {
        bGlyph := MemAt(mem, hero);
        cGlyph := bGlyph;
        return;
      }
      LiftBothLifts(f);
      if !carried { OrderDiffers(f); }
      LookUnder();
      if order == Differ {
        PutApart();
      } else {
        PutStacked();
      }
    }

    method LookUnder()
      requires Settled(Snap().floor)
      modifies this
      ensures Snap() == PeekUnder(old(Snap()))
    {
      TakeFromKeeps(piles, Chain, chain);
      RemoveObject(Chain);
      if !carried {
        RemoveObject(Ball);
      }
      NewSymbol(chain);
      cGlyph := MemAt(mem, chain);
    }

    method PutApart()
      requires Lifted(Snap().floor)
      modifies this
      ensures Snap() == RestoreApart(old(Snap()))
    {
      PutOnKeeps(piles, Chain, chain);
      PlaceObject(Chain, chain);
      NewSymbol(chain);
      if !carried {
        NewSymbol(ball);
        bGlyph := MemAt(mem, ball);
        PlaceObject(Ball, ball);
        NewSymbol(ball);
      }
    }

    method PutStacked()
      requires Lifted(Snap().floor) && !carried
      modifies this
      ensures Snap() == RestoreStacked(old(Snap()))
    {
      bGlyph := cGlyph;
      PutOnKeeps(piles, Chain, chain);
      PutOnKeeps(piles, Ball, ball);
      if order == ChainOnTop {
        PlaceObject(Ball, ball);
        PlaceObject(Chain, chain);
      } else {
        PlaceObject(Chain, chain);
        PlaceObject(Ball, ball);
      }
      NewSymbol(ball);
    }

    method MoveBc(before: bool, control: Pieces, ballTo: Coord, chainTo: Coord)
      requires carried ==> !control.ball
      requires if blind || before then Settled(Snap().floor) else Lifted(Snap().floor)
      modifies this
      ensures Snap() == BallMemory.MoveBc(old(Snap()), before, control, ballTo, chainTo)
    {
      if blind {
        if !before {
          MoveBlind(control, ballTo, chainTo);
        }
      } else if before {
        LiftPieces(control);
      } else {
        PutPieces(control, ballTo, chainTo);
      }
    }

    /** The sighted halves of move_bc. */
    method LiftPieces(control: Pieces)
      requires Settled(Snap().floor)
      modifies this
      ensures Snap() == Lift(old(Snap()), control)
    {
      if control == NONE {
        order := ComputeOrder();
      }
      LiftFromSight();
    }

    method LiftFromSight()
      requires Settled(Snap().floor)
      modifies this
      ensures Snap() == LiftSeen(old(Snap()))
    {
      TakeFromKeeps(piles, Chain, chain);
      RemoveObject(Chain);
      NewSymbol(chain);
      if !carried {
        RemoveObject(Ball);
        NewSymbol(ball);
      }
    }

    method PutPieces(control: Pieces, ballTo: Coord, chainTo: Coord)
      requires Lifted(Snap().floor)
      modifies this
      ensures Snap() == PutDown(old(Snap()), control, ballTo, chainTo)
    {
      PutOnKeeps(piles, Chain, chainTo);
      PutOnKeeps(piles, Ball, ballTo);
      var onFloor := !carried;
      if control.chain || (control == NONE && order == ChainOnTop) {
        if onFloor { PlaceObject(Ball, ballTo); }
        PlaceObject(Chain, chainTo);
      } else {
        PlaceObject(Chain, chainTo);
        if onFloor { PlaceObject(Ball, ballTo); }
      }
      NewSymbol(chainTo);
      if onFloor { NewSymbol(ballTo); }
    }

    /** The blind half. */
    method MoveBlind(control: Pieces, ballTo: Coord, chainTo: Coord)
      requires blind && Settled(Snap().floor) && (carried ==> !control.ball)
      modifies this
      ensures Snap() == BlindMove(old(Snap()), control, ballTo, chainTo)
    {
      Leave(control, ballTo, chainTo);
      MovePieces(control, ballTo, chainTo);
      order := ComputeOrder();
    }

    /** What is remembered where the pieces leave, and saved where they will arrive. */
    method Leave(control: Pieces, ballTo: Coord, chainTo: Coord)
      modifies this`mem, this`felt, this`bGlyph, this`cGlyph
      ensures var s := old(Snap()); Snap() == s.(mind := BlindMind(s.mind, s.floor, control, ballTo, chainTo))
    {
      if control.ball && control.chain {
        LeaveBoth();
        bGlyph := MemAt(mem, ballTo);
        cGlyph := MemAt(mem, chainTo);
      } else if control.ball {
        LeaveBall();
        bGlyph := if ballTo != chainTo then MemAt(mem, ballTo) else cGlyph;
      } else if control.chain {
        LeaveChain();
        cGlyph := if ballTo != chainTo then MemAt(mem, chainTo) else bGlyph;
      }
    }

    method MovePieces(control: Pieces, ballTo: Coord, chainTo: Coord)
      requires blind && Settled(Snap().floor) && (carried ==> !control.ball)
      modifies this`piles, this`ball, this`chain, this`mem, this`felt, this`bGlyph, this`cGlyph
      ensures Snap() == MovPieces(old(Snap()), control, ballTo, chainTo)
    {
      if control.ball {
        ShiftSettles(Snap().floor, Ball, ballTo);
        MoveObject(Ball, ballTo);
      }
      if control.chain {
        MoveObject(Chain, chainTo);
      }
    }

    method LeaveBoth()
      modifies this`mem, this`felt
      ensures Snap().mind == BothLeave(old(Snap()).mind, Snap().floor)
    {
      if felt.ball { mem := mem[ball := bGlyph]; }
      if felt.chain { mem := mem[chain := cGlyph]; }
      felt := NONE;
    }

    method LeaveBall()
      modifies this`mem, this`felt
      ensures Snap().mind == BallLeaves(old(Snap()).mind, Snap().floor)
    {
      if felt.ball {
        if order == Differ {
          mem := mem[ball := bGlyph];
        } else if order == BallOnTop {
          if felt.chain { MapObject(Chain); } else { mem := mem[ball := bGlyph]; }
        }
        felt := felt.(ball := false);
      }
    }

    method LeaveChain()
      modifies this`mem, this`felt
      ensures Snap().mind == ChainLeaves(old(Snap()).mind, Snap().floor)
    {
      if felt.chain {
        if order == Differ {
          mem := mem[chain := cGlyph];
        } else if order == ChainOnTop {
          if felt.ball { MapObject(Ball); } else { mem := mem[chain := cGlyph]; }
        }
        felt := felt.(chain := false);
      }
    }

    /** Should be called before the hero moves to dest. */
    method DragBall(env: Surroundings, dest: Coord, allowDrag: bool)
      returns (placeAgain: bool, control: Pieces, ballTo: Coord, chainTo: Coord, delay: bool)
      requires Charted(env.terrain) && IsOk(dest) && IsOk(hero) && IsOk(chain) && (!carried ==> IsOk(ball))
      requires Settled(Snap().floor)
      modifies this
      ensures Snap() == AfterDrag(old(Snap()), env, dest, allowDrag)
      ensures placeAgain <==> Outcome(old(Snap()), env, dest, allowDrag).Going?
      ensures placeAgain ==> Going(control, ballTo, chainTo, delay) == Outcome(old(Snap()), env, dest, allowDrag)
    {
      ghost var s, w := Snap(), LinksOf(Snap());
      ballTo, chainTo := ball, chain;
      control, delay := NONE, false;
      if Dist2(dest, chain) <= 2 {
        MoveBc(true, control, ballTo, chainTo);
        return true, control, ballTo, chainTo, delay;
      }
      if carried || DistMin(dest, ball) <= 2 {
        control := CHAIN_ONLY;
        if carried {
          MoveBc(true, control, ballTo, chainTo);
          AdjacentIffDist2(dest, chain);
          if DistMin(dest, chain) > 1 {
            chainTo := hero;
          }
          return true, control, ballTo, chainTo, delay;
        }
        var skip: bool;
        skip, chainTo := SlideOrUndo(env, dest, allowDrag);
        if !skip {
          return true, control, ballTo, chainTo, delay;
        }
      }
      SlideUndoneStays(s, env, dest, allowDrag);
      placeAgain, control, ballTo, chainTo, delay := HaulBall(env, dest);
    }

    /** Lifts for the chain to slide; where it cannot, puts down again. */
    method SlideOrUndo(env: Surroundings, dest: Coord, allowDrag: bool) returns (skip: bool, chainTo: Coord)
      requires Charted(env.terrain) && IsOk(dest) && OnMap(LinksOf(Snap())) && Settled(Snap().floor)
      requires !carried && Dist2(dest, chain) > 2 && DistMin(dest, ball) <= 2
      modifies this
      ensures var s := old(Snap());
              && (skip <==> Slide(env, LinksOf(s), dest, allowDrag).None?)
              && (skip ==> Snap() == SlideUndone(s, env, dest, allowDrag))
              && (!skip ==> Slide(env, LinksOf(s), dest, allowDrag) == Some(chainTo) &&
                            Snap() == BallMemory.MoveBc(s, true, CHAIN_ONLY, s.floor.ball, s.floor.chain))
    {
      MoveBcFloor(Snap(), true, CHAIN_ONLY, ball, chain);
      MoveBc(true, CHAIN_ONLY, ball, chain);
      skip, chainTo := SlideChain(env, dest, allowDrag);
      if skip {
        MoveBc(false, CHAIN_ONLY, ball, chain);
      }
    }

    /** The "drag" label: the ball has to come too. */
    method HaulBall(env: Surroundings, dest: Coord)
      returns (placeAgain: bool, control: Pieces, ballTo: Coord, chainTo: Coord, delay: bool)
      requires Charted(env.terrain) && IsOk(dest) && OnMap(LinksOf(Snap()))
      requires Settled(Snap().floor) && !carried
      modifies this
      ensures Snap() == AfterHaul(old(Snap()), env, dest)
      ensures placeAgain <==> Haul(env, LinksOf(old(Snap())), dest).Going?
      ensures placeAgain ==> Going(control, ballTo, chainTo, delay) == Haul(env, LinksOf(old(Snap())), dest)
    {
      ballTo, chainTo := ball, chain;
      control, delay := NONE, false;
      if env.overloaded && Dist2(dest, hero) <= 2 {
        return false, control, ballTo, chainTo, delay;
      }
      if Sinks(env, Links(hero, ball, chain)) && !env.levitation {
        Jerk(env.victimRemains);
        return false, BALL_ONLY, chain, chain, delay;
      }
      control := Pieces(true, true);
      MoveBc(true, control, ballTo, chainTo);
      if Dist2(dest, hero) > 2 {
        ballTo, chainTo := dest, dest;
      } else {
        ballTo, chainTo := chain, hero;
      }
      return true, control, ballTo, chainTo, true;
    }

    method Jerk(victimRemains: bool)
      requires Settled(Snap().floor) && !carried
      modifies this
      ensures Snap() == JerkBack(old(Snap()), victimRemains)
    {
      if !victimRemains {
        DragHero();
      }
      PullBall();
    }

    method DragHero()
      modifies this
      ensures Snap() == Dragged(old(Snap()))
    {
      var was := hero;
      hero := chain;
      NewSymbol(was);
    }

    method PullBall()
      requires Settled(Snap().floor) && !carried
      modifies this
      ensures Snap() == PulledOver(old(Snap()))
    {
      MoveBcFloor(Snap(), true, BALL_ONLY, ball, chain);
      MoveBc(true, BALL_ONLY, ball, chain);
      MoveBc(false, BALL_ONLY, chain, chain);
    }

    /** The hero ends a knight's move from the ball, with two squares between. */
    method SlideKnight(env: Surroundings, dest: Coord, temp: Coord, temp2: Coord, allowDrag: bool)
      returns (skip: bool, chainTo: Coord)
      requires Charted(env.terrain) && OnMap(LinksOf(Snap())) && IsOk(temp) && IsOk(temp2)
      requires Dist2(dest, temp) == 1 && Dist2(dest, temp2) == 2
      ensures skip <==> KnightSlide(env, LinksOf(Snap()), temp, temp2, allowDrag).None?
      ensures !skip ==> KnightSlide(env, LinksOf(Snap()), temp, temp2, allowDrag) == Some(chainTo)
    {
      var t := env.terrain;
      var inRock := ChainRock(t, hero) || ChainRock(t, chain) || ChainRock(t, ball);
      skip, chainTo := false, chain;
      if ChainRock(t, temp) && !ChainRock(t, temp2) && !inRock {
        if allowDrag {
          if Dist2(hero, ball) == 5 && Dist2(dest, temp) == 1 { return true, chainTo; }
          if Dist2(hero, ball) == 4 && Dist2(dest, temp) == 2 { return true, chainTo; }
        }
        chainTo := temp2;
      } else if !ChainRock(t, temp) && ChainRock(t, temp2) && !inRock {
        if allowDrag {
          if Dist2(hero, ball) == 5 && Dist2(dest, temp2) == 1 { return true, chainTo; }
          if Dist2(hero, ball) == 4 && Dist2(dest, temp2) == 2 { return true, chainTo; }
        }
        chainTo := temp;
      } else if ChainRock(t, temp) && ChainRock(t, temp2) && !inRock {
        skip := true;
      } else if Dist2(temp, chain) < Dist2(temp2, chain) ||
                (Dist2(temp, chain) == Dist2(temp2, chain) && env.coin) {
        chainTo := temp;
      } else {
        chainTo := temp2;
      }
    }

    method SlideKnightsMove(env: Surroundings, dest: Coord, allowDrag: bool) returns (skip: bool, chainTo: Coord)
      requires Charted(env.terrain) && IsOk(dest) && OnMap(LinksOf(Snap())) && Dist2(dest, ball) == 5 && DistMin(dest, ball) <= 2
      ensures var k := KnightSlide(env, LinksOf(Snap()), BesideHero(dest, ball), BesideBall(dest, ball), allowDrag);
              (skip <==> k.None?) && (!skip ==> k == Some(chainTo))
    {
      var temp, temp2: Coord;
      Dist2Shape(dest, ball);
      if Abs(dest.x - ball.x) == 1 {
        temp, temp2 := Coord(dest.x, (ball.y + dest.y) / 2), Coord(ball.x, (ball.y + dest.y) / 2);
      } else {
        temp, temp2 := Coord((ball.x + dest.x) / 2, dest.y), Coord((ball.x + dest.x) / 2, ball.y);
      }
      KnightSquares(dest, ball);
      skip, chainTo := SlideKnight(env, dest, temp, temp2, allowDrag);
    }

    /** The hero has gone round a corner from the ball, straight away from the chain. */
    method SlideRound(env: Surroundings, dest: Coord) returns (skip: bool, chainTo: Coord)
      requires Charted(env.terrain) && IsOk(dest) && OnMap(LinksOf(Snap())) && Dist2(dest, chain) == 4
      ensures chainTo == Corner(dest, ball, chain)
      ensures IsOk(chainTo) && (skip <==> ChainRock(env.terrain, chainTo) && !AlreadyInRock(env.terrain, LinksOf(Snap())))
    {
      var t := env.terrain;
      Dist2Of4(dest, chain);
      if chain.y == dest.y {
        chainTo := Coord(ball.x, chain.y);
      } else {
        chainTo := Coord(chain.x, ball.y);
      }
      skip := ChainRock(t, chainTo) && !(ChainRock(t, hero) || ChainRock(t, chain) || ChainRock(t, ball));
    }

    /** The switch on the distance to the ball; skip asks for the ball to be dragged instead. */
    method SlideChain(env: Surroundings, dest: Coord, allowDrag: bool) returns (skip: bool, chainTo: Coord)
      requires Charted(env.terrain) && IsOk(dest) && OnMap(LinksOf(Snap()))
      requires !carried && Dist2(dest, chain) > 2 && DistMin(dest, ball) <= 2
      ensures skip <==> Slide(env, LinksOf(Snap()), dest, allowDrag).None?
      ensures !skip ==> Slide(env, LinksOf(Snap()), dest, allowDrag) == Some(chainTo)
    {
      var t := env.terrain;
      var inRock := ChainRock(t, hero) || ChainRock(t, chain) || ChainRock(t, ball);
      var d := Dist2(dest, ball);
      Dist2Shape(dest, ball);
      skip, chainTo := false, chain;
      if d == 8 {
        chainTo := Coord((ball.x + dest.x) / 2, (ball.y + dest.y) / 2);
        skip := ChainRock(t, chainTo) && !inRock;
      } else if d == 5 {
        skip, chainTo := SlideKnightsMove(env, dest, allowDrag);
      } else if d == 4 {
        if !InMiddle(dest, ball, chain) {
          chainTo := Coord((dest.x + ball.x) / 2, (dest.y + ball.y) / 2);
          skip := ChainRock(t, chainTo) && !inRock;
        }
      } else if d == 2 && Dist2(dest, chain) == 4 {
        skip, chainTo := SlideRound(env, dest);
      } else if d == 2 || d == 1 || d == 0 {
        if !InMiddle(dest, ball, chain) {
          chainTo := if InMiddle(dest, ball, hero) then hero else dest;
        }
      } else {
        assert false;  // "bad chain movement"
      }
    }
  }
}
