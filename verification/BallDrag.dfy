/** Where drag_ball (ball.c) sends the hero, the iron ball and the chain: the movement rules as
    functions of the three positions, and what every run of moves keeps. */
module BallDrag {
  import opened Geometry

  /** The two-bit mask bc_control: which pieces a move shifts. */
  datatype Pieces = Pieces(ball: bool, chain: bool)

  datatype Links = Links(hero: Coord, ball: Coord, chain: Coord)

  datatype TrapKind = Pit | SpikedPit | Hole | Trapdoor | OtherTrap

  /** What drag_ball asks the rest of the game: the level, the load, the coin rn2(2), and whether a
      monster on the chain's square is still there after the ball has hit it. */
  datatype Surroundings = Surroundings(
    terrain: Terrain, traps: map<Coord, TrapKind>,
    overloaded: bool, levitation: bool, coin: bool, victimRemains: bool)

  /** Refused and Jerked are the FALSE returns; Going is the TRUE return with its out-parameters. */
  datatype Drag =
    | Refused
    | Jerked(settled: Links)
    | Going(control: Pieces, ball: Coord, chain: Coord, delay: bool)

  ghost predicate OnMap(w: Links) {
    IsOk(w.hero) && IsOk(w.ball) && IsOk(w.chain)
  }

  /** The chain touches both ends. */
  predicate Linked(w: Links) {
    DistMin(w.chain, w.hero) <= 1 && DistMin(w.chain, w.ball) <= 1
  }

  predicate ChainRock(t: Terrain, p: Coord)
    requires p in t
  {
    t[p].typ < POOL || (t[p].typ == DOOR && t[p].mask & (D_CLOSED | D_LOCKED) != 0)
  }

  ghost predicate OffRock(t: Terrain, w: Links)
    requires Charted(t) && OnMap(w)
  {
    !ChainRock(t, w.hero) && !ChainRock(t, w.ball) && !ChainRock(t, w.chain)
  }

  predicate InMiddle(dest: Coord, ball: Coord, p: Coord) {
    DistMin(dest, p) <= 1 && DistMin(p, ball) <= 1
  }

  function Midpoint(p: Coord, q: Coord): Coord {
    Coord((p.x + q.x) / 2, (p.y + q.y) / 2)
  }

  /** At a knight's move from the ball two squares lie between: one beside the hero, one beside the
      ball on the hero's diagonal. */
  function BesideHero(dest: Coord, ball: Coord): Coord {
    if Abs(dest.x - ball.x) == 1 then Coord(dest.x, (ball.y + dest.y) / 2)
    else Coord((ball.x + dest.x) / 2, dest.y)
  }

  function BesideBall(dest: Coord, ball: Coord): Coord {
    if Abs(dest.x - ball.x) == 1 then Coord(ball.x, (ball.y + dest.y) / 2)
    else Coord((ball.x + dest.x) / 2, ball.y)
  }

  /** The square beside the hero is one step straight away, the one beside the ball one diagonally. */
  lemma KnightSquares(dest: Coord, ball: Coord)
    requires DistMin(dest, ball) <= 2 && Dist2(dest, ball) == 5
    ensures Dist2(dest, BesideHero(dest, ball)) == 1 && Dist2(dest, BesideBall(dest, ball)) == 2
  {
    Dist2Shape(dest, ball);
    Dist2Shape(dest, BesideHero(dest, ball));
    Dist2Shape(dest, BesideBall(dest, ball));
  }

  /** The chain swings round the corner it shares with the ball. */
  function Corner(dest: Coord, ball: Coord, chain: Coord): Coord {
    if chain.y == dest.y then Coord(ball.x, chain.y) else Coord(chain.x, ball.y)
  }

  function Unless(blocked: bool, p: Coord): Option<Coord> {
    if blocked then None else Some(p)
  }

  predicate AlreadyInRock(t: Terrain, w: Links)
    requires Charted(t) && OnMap(w)
  {
    ChainRock(t, w.hero) || ChainRock(t, w.chain) || ChainRock(t, w.ball)
  }

  /** The chain's next square when the ball stays; None when only dragging the ball keeps the chain
      out of rock. */
  function Slide(env: Surroundings, w: Links, dest: Coord, allowDrag: bool): Option<Coord>
    requires Charted(env.terrain) && OnMap(w) && IsOk(dest)
    requires DistMin(dest, w.ball) <= 2
  {
    var t, d := env.terrain, Dist2(dest, w.ball);
    Dist2Shape(dest, w.ball);
    if d == 5 then
      KnightSlide(env, w, BesideHero(dest, w.ball), BesideBall(dest, w.ball), allowDrag)
    else if d == 8 || (d == 4 && !InMiddle(dest, w.ball, w.chain)) then
      Unless(!AlreadyInRock(t, w) && ChainRock(t, Midpoint(dest, w.ball)), Midpoint(dest, w.ball))
    else if d == 2 && Dist2(dest, w.chain) == 4 then
      var p := Corner(dest, w.ball, w.chain);
      Unless(!AlreadyInRock(t, w) && ChainRock(t, p), p)
    else if InMiddle(dest, w.ball, w.chain) then Some(w.chain)
    else if InMiddle(dest, w.ball, w.hero) then Some(w.hero)
    else Some(dest)
  }

  /** An on-foot move that was itself a knight's move or two squares from the ball drags the ball
      rather than squeeze the chain past a rock. */
  function KnightSlide(env: Surroundings, w: Links, near: Coord, far: Coord, allowDrag: bool): Option<Coord>
    requires Charted(env.terrain) && OnMap(w) && IsOk(near) && IsOk(far)
  {
    var t, was := env.terrain, Dist2(w.hero, w.ball);
    var dNear, dFar := Dist2(near, w.chain), Dist2(far, w.chain);
    if AlreadyInRock(t, w) || (!ChainRock(t, near) && !ChainRock(t, far)) then
      Some(if dNear < dFar || (dNear == dFar && env.coin) then near else far)
    else if ChainRock(t, near) && ChainRock(t, far) then None
    else if ChainRock(t, near) then Unless(allowDrag && was == 5, far)
    else Unless(allowDrag && was == 4, near)
  }

  /** The chain hangs in water that is not mere continuation of the ball's, or in a pit or hole. */
  predicate Sinks(env: Surroundings, w: Links)
    requires Charted(env.terrain) && OnMap(w)
  {
    var t := env.terrain;
    || (IsPool(t, w.chain) &&
        (t[w.chain].typ == POOL || !IsPool(t, w.ball) || t[w.ball].typ == POOL))
    || (w.chain in env.traps && !env.traps[w.chain].OtherTrap?)
  }

  /** The ball has to come too: the chain cannot simply stay or slide. */
  predicate BallMustMove(env: Surroundings, w: Links, dest: Coord, allowDrag: bool)
    requires Charted(env.terrain) && OnMap(w) && IsOk(dest)
  {
    Dist2(dest, w.chain) > 2 &&
    (DistMin(dest, w.ball) > 2 || Slide(env, w, dest, allowDrag).None?)
  }

  /** A ball that has to come, cannot: too heavy a load for one step, or the chain is stuck. */
  predicate HoldsBack(env: Surroundings, w: Links, dest: Coord)
    requires Charted(env.terrain) && OnMap(w)
  {
    || (env.overloaded && Dist2(dest, w.hero) <= 2)
    || (Sinks(env, w) && !env.levitation)
  }

  function DragFloorBall(env: Surroundings, w: Links, dest: Coord, allowDrag: bool): Drag
    requires Charted(env.terrain) && OnMap(w) && IsOk(dest)
  {
    if Dist2(dest, w.chain) <= 2 then
      Going(Pieces(false, false), w.ball, w.chain, false)
    else if !BallMustMove(env, w, dest, allowDrag) then
      Going(Pieces(false, true), w.ball, Slide(env, w, dest, allowDrag).value, false)
    else Haul(env, w, dest)
  }

  /** The ball comes along: onto the chain's square, with the chain onto the hero's, or both straight
      to a hero who is leaving by more than a step. */
  function Haul(env: Surroundings, w: Links, dest: Coord): Drag
    requires Charted(env.terrain) && OnMap(w) && IsOk(dest)
  {
    if env.overloaded && Dist2(dest, w.hero) <= 2 then
      Refused
    else if Sinks(env, w) && !env.levitation then
      Jerked(Links(if env.victimRemains then w.hero else w.chain, w.chain, w.chain))
    else if Dist2(dest, w.hero) > 2 then
      Going(Pieces(true, true), dest, dest, true)
    else
      Going(Pieces(true, true), w.chain, w.hero, true)
  }

  /** A carried ball never leaves the pack; the chain follows to the hero's old square. */
  function DragCarriedBall(w: Links, dest: Coord): Drag {
    if Dist2(dest, w.chain) <= 2 then Going(Pieces(false, false), w.ball, w.chain, false)
    else Going(Pieces(false, true), w.ball, w.hero, false)
  }

  /** Where everything is after the move: settled on FALSE, put down with the hero at dest on TRUE. */
  function Settle(w: Links, dest: Coord, d: Drag): Links {
    match d
    case Refused => w
    case Jerked(settled) => settled
    case Going(_, ball, chain, _) => Links(dest, ball, chain)
  }

  /** One walking move (hack.c, trap.c). */
  function Walk(env: Surroundings, w: Links, dest: Coord, allowDrag: bool): Links
    requires Charted(env.terrain) && OnMap(w) && IsOk(dest)
  {
    Settle(w, dest, DragFloorBall(env, w, dest, allowDrag))
  }

  lemma MidpointBetween(dest: Coord, ball: Coord)
    requires IsOk(dest) && IsOk(ball)
    requires DistMin(dest, ball) <= 2 && Dist2(dest, ball) in {4, 8}
    ensures InMiddle(dest, ball, Midpoint(dest, ball)) && IsOk(Midpoint(dest, ball))
  {
    Dist2Shape(dest, ball);
  }

  /** Whenever the chain slides, it lands on the map and touches both the hero's new square and the
      ball, wherever it started. */
  lemma SlideLinks(env: Surroundings, w: Links, dest: Coord, allowDrag: bool)
    requires Charted(env.terrain) && OnMap(w) && IsOk(dest)
    requires DistMin(dest, w.ball) <= 2
    requires Slide(env, w, dest, allowDrag).Some?
    ensures var p := Slide(env, w, dest, allowDrag).value;
            IsOk(p) && InMiddle(dest, w.ball, p)
  {
    var d := Dist2(dest, w.ball);
    Dist2Shape(dest, w.ball);
    if d in {4, 8} {
      MidpointBetween(dest, w.ball);
    }
    if Dist2(dest, w.chain) == 4 && d == 2 {
      Dist2Of4(dest, w.chain);
    }
  }

  lemma Dist2Of4(p: Coord, q: Coord)
    requires Dist2(p, q) == 4
    ensures p.x == q.x || p.y == q.y
  {
    if DistMin(p, q) > 2 {
      FarDist2(p, q);
    } else {
      Dist2Shape(p, q);
    }
  }

  /** Sliding never puts the chain into rock or a closed door. */
  lemma SlideOffRock(env: Surroundings, w: Links, dest: Coord, allowDrag: bool)
    requires Charted(env.terrain) && OnMap(w) && IsOk(dest)
    requires DistMin(dest, w.ball) <= 2
    requires OffRock(env.terrain, w) && !ChainRock(env.terrain, dest)
    requires Slide(env, w, dest, allowDrag).Some?
    ensures var p := Slide(env, w, dest, allowDrag).value; IsOk(p) && !ChainRock(env.terrain, p)
  {
    SlideLinks(env, w, dest, allowDrag);
  }

  /** Over open floor the ball never has to move while it is within two squares. */
  lemma OpenFloorNeverDrags(env: Surroundings, w: Links, dest: Coord, allowDrag: bool)
    requires Charted(env.terrain) && OnMap(w) && IsOk(dest)
    requires forall p :: IsOk(p) ==> !ChainRock(env.terrain, p)
    ensures BallMustMove(env, w, dest, allowDrag) <==> Dist2(dest, w.chain) > 2 && DistMin(dest, w.ball) > 2
  {
    if DistMin(dest, w.ball) <= 2 {
      Dist2Shape(dest, w.ball);
      if Dist2(dest, w.ball) in {4, 8} {
        MidpointBetween(dest, w.ball);
      }
      if Dist2(dest, w.chain) == 4 {
        Dist2Of4(dest, w.chain);
      }
    }
  }

  lemma HaulKeepsLinked(env: Surroundings, w: Links, dest: Coord)
    requires Charted(env.terrain) && OnMap(w) && IsOk(dest)
    requires Linked(w)
    ensures var w' := Settle(w, dest, Haul(env, w, dest)); OnMap(w') && Linked(w')
  {
    AdjacentIffDist2(dest, w.hero);
  }

  lemma WalkStaysOnMap(env: Surroundings, w: Links, dest: Coord, allowDrag: bool)
    requires Charted(env.terrain) && OnMap(w) && IsOk(dest)
    ensures OnMap(Walk(env, w, dest, allowDrag))
  {
    if DistMin(dest, w.ball) <= 2 && Slide(env, w, dest, allowDrag).Some? {
      SlideLinks(env, w, dest, allowDrag);
    }
  }

  /** Every outcome leaves hero, chain and ball linked: on TRUE with the hero at dest, on FALSE where
      they settled. No distance bound on the move is needed. */
  lemma WalkKeepsLinked(env: Surroundings, w: Links, dest: Coord, allowDrag: bool)
    requires Charted(env.terrain) && OnMap(w) && IsOk(dest)
    requires Linked(w)
    ensures var w' := Walk(env, w, dest, allowDrag); OnMap(w') && Linked(w')
  {
    if Dist2(dest, w.chain) <= 2 {
      AdjacentIffDist2(dest, w.chain);
    } else if BallMustMove(env, w, dest, allowDrag) {
      HaulKeepsLinked(env, w, dest);
    } else {
      SlideLinks(env, w, dest, allowDrag);
    }
  }

  lemma WalkKeepsOffRock(env: Surroundings, w: Links, dest: Coord, allowDrag: bool)
    requires Charted(env.terrain) && OnMap(w) && IsOk(dest)
    requires OffRock(env.terrain, w) && !ChainRock(env.terrain, dest)
    ensures var w' := Walk(env, w, dest, allowDrag); OnMap(w') && OffRock(env.terrain, w')
  {
    if DistMin(dest, w.ball) <= 2 && Slide(env, w, dest, allowDrag).Some? {
      SlideOffRock(env, w, dest, allowDrag);
    }
  }

  /** A move that ends where it began: drag_ball has answered for dest, and a pet there will not be
      displaced (hack.c). */
  function Thwarted(env: Surroundings, w: Links, dest: Coord, allowDrag: bool): Links
    requires Charted(env.terrain) && OnMap(w) && IsOk(dest)
  {
    match DragFloorBall(env, w, dest, allowDrag)
    case Going(_, ball, chain, _) => Links(w.hero, ball, chain)
    case d => Settle(w, dest, d)
  }

  /** A single step has left the chain behind. */
  predicate Taut(w: Links, dest: Coord) {
    Linked(w) && DistMin(dest, w.hero) <= 1 && DistMin(dest, w.chain) > 1
  }

  lemma MidpointTouchesOld(w: Links, dest: Coord)
    requires Taut(w, dest) && IsOk(dest) && OnMap(w)
    requires DistMin(dest, w.ball) == 2 && Abs(dest.x - w.ball.x) != 1 && Abs(dest.y - w.ball.y) != 1
    ensures DistMin(Midpoint(dest, w.ball), w.hero) <= 1
  {
  }

  /** Which of the squares between touch the hero's old square, for a tall knight's move and a wide one. */
  lemma TallKnight(w: Links, dest: Coord)
    requires Taut(w, dest) && Abs(dest.x - w.ball.x) == 1 && Abs(dest.y - w.ball.y) == 2
    ensures var near, far := BesideHero(dest, w.ball), BesideBall(dest, w.ball);
            && DistMin(near, w.hero) <= 1
            && (DistMin(far, w.hero) > 1 ==> Stretched(w, near, far))
  {
    var up := (w.ball.y + dest.y) / 2;
    assert up == w.ball.y + 1 || up == w.ball.y - 1;
    assert w.chain.y == w.ball.y || w.chain.y == up;
  }

  lemma WideKnight(w: Links, dest: Coord)
    requires Taut(w, dest) && Abs(dest.x - w.ball.x) == 2 && Abs(dest.y - w.ball.y) == 1
    ensures var near, far := BesideHero(dest, w.ball), BesideBall(dest, w.ball);
            && DistMin(near, w.hero) <= 1
            && (DistMin(far, w.hero) > 1 ==> Stretched(w, near, far))
  {
    var across := (w.ball.x + dest.x) / 2;
    assert across == w.ball.x + 1 || across == w.ball.x - 1;
    assert w.chain.x == w.ball.x || w.chain.x == across;
  }

  /** The hero came from a knight's move, and near is straight beside the chain, far diagonally. */
  predicate Stretched(w: Links, near: Coord, far: Coord) {
    && DistMin(w.hero, w.ball) == 2 && Abs(w.hero.x - w.ball.x) + Abs(w.hero.y - w.ball.y) == 3
    && Abs(near.x - w.chain.x) + Abs(near.y - w.chain.y) == 1
    && Abs(far.x - w.chain.x) == 1 && Abs(far.y - w.chain.y) == 1
  }

  /** At a knight's move the square beside the hero's step touches his old square, and so does the other,
      except after a step from a knight's move, when it is also the one farther from the chain. */
  lemma KnightTouchesOld(w: Links, dest: Coord)
    requires Taut(w, dest) && IsOk(dest) && OnMap(w) && Dist2(dest, w.ball) == 5 && DistMin(dest, w.ball) <= 2
    ensures var near, far := BesideHero(dest, w.ball), BesideBall(dest, w.ball);
            && DistMin(near, w.hero) <= 1
            && (DistMin(far, w.hero) > 1 ==> Dist2(w.hero, w.ball) == 5 && Dist2(near, w.chain) == 1 && Dist2(far, w.chain) == 2)
  {
    Dist2Shape(dest, w.ball);
    if Abs(dest.x - w.ball.x) == 1 {
      TallKnight(w, dest);
    } else {
      WideKnight(w, dest);
    }
    if DistMin(BesideBall(dest, w.ball), w.hero) > 1 {
      Dist2Shape(w.hero, w.ball);
      Dist2Shape(BesideHero(dest, w.ball), w.chain);
      Dist2Shape(BesideBall(dest, w.ball), w.chain);
    }
  }

  lemma CornerTouchesOld(w: Links, dest: Coord)
    requires Taut(w, dest) && Dist2(dest, w.ball) == 2 && Dist2(dest, w.chain) == 4 && DistMin(dest, w.ball) <= 1
    ensures DistMin(Corner(dest, w.ball, w.chain), w.hero) <= 1
  {
    Dist2Shape(dest, w.ball);
    Dist2Of4(dest, w.chain);
    if DistMin(dest, w.chain) <= 2 {
      Dist2Shape(dest, w.chain);
    } else {
      FarDist2(dest, w.chain);
    }
  }

  /** Wherever the chain slides to, it touches the hero's old square too. */
  lemma SlideTouchesOld(env: Surroundings, w: Links, dest: Coord)
    requires Charted(env.terrain) && OnMap(w) && IsOk(dest) && Taut(w, dest) && DistMin(dest, w.ball) <= 2
    requires Slide(env, w, dest, true).Some?
    ensures DistMin(Slide(env, w, dest, true).value, w.hero) <= 1
  {
    var d := Dist2(dest, w.ball);
    Dist2Shape(dest, w.ball);
    if d == 5 {
      KnightTouchesOld(w, dest);
    } else if d == 8 || d == 4 {
      MidpointTouchesOld(w, dest);
    } else if d == 2 && Dist2(dest, w.chain) == 4 {
      CornerTouchesOld(w, dest);
    }
  }

  /** So a thwarted single step leaves the links whole, because it may drag. */
  lemma ThwartedKeepsLinked(env: Surroundings, w: Links, dest: Coord)
    requires Charted(env.terrain) && OnMap(w) && IsOk(dest)
    requires Linked(w) && DistMin(dest, w.hero) <= 1
    ensures Linked(Thwarted(env, w, dest, true))
  {
    AdjacentIffDist2(dest, w.hero);
    AdjacentIffDist2(dest, w.chain);
    if Dist2(dest, w.chain) > 2 && !BallMustMove(env, w, dest, true) {
      SlideLinks(env, w, dest, true);
      SlideTouchesOld(env, w, dest);
    }
  }

  lemma ThwartedKeepsOffRock(env: Surroundings, w: Links, dest: Coord, allowDrag: bool)
    requires Charted(env.terrain) && OnMap(w) && IsOk(dest)
    requires OffRock(env.terrain, w) && !ChainRock(env.terrain, dest)
    ensures var w' := Thwarted(env, w, dest, allowDrag); OnMap(w') && OffRock(env.terrain, w')
  {
    WalkKeepsOffRock(env, w, dest, allowDrag);
  }

  lemma ThwartedStaysOnMap(env: Surroundings, w: Links, dest: Coord, allowDrag: bool)
    requires Charted(env.terrain) && OnMap(w) && IsOk(dest)
    ensures OnMap(Thwarted(env, w, dest, allowDrag))
  {
    WalkStaysOnMap(env, w, dest, allowDrag);
  }

  /** A walking move; thwarted says that a pet on dest cannot be displaced. */
  datatype Move = Move(env: Surroundings, dest: Coord, allowDrag: bool, thwarted: bool)

  ghost predicate Playable(moves: seq<Move>) {
    forall i :: 0 <= i < |moves| ==> Charted(moves[i].env.terrain) && IsOk(moves[i].dest)
  }

  function Moved(w: Links, m: Move): Links
    requires Charted(m.env.terrain) && OnMap(w) && IsOk(m.dest)
  {
    if m.thwarted then Thwarted(m.env, w, m.dest, m.allowDrag) else Walk(m.env, w, m.dest, m.allowDrag)
  }

  lemma MovedStaysOnMap(w: Links, m: Move)
    requires Charted(m.env.terrain) && OnMap(w) && IsOk(m.dest)
    ensures OnMap(Moved(w, m))
  {
    WalkStaysOnMap(m.env, w, m.dest, m.allowDrag);
    ThwartedStaysOnMap(m.env, w, m.dest, m.allowDrag);
  }

  /** The positions after a whole run of walking moves. */
  ghost function Run(w: Links, moves: seq<Move>): (w': Links)
    requires OnMap(w) && Playable(moves)
    ensures OnMap(w')
    decreases |moves|
  {
    if moves == [] then w else
    MovedStaysOnMap(w, moves[0]);
    Run(Moved(w, moves[0]), moves[1..])
  }

  /** Thwarted moves are single steps that may drag, as all of the hero's own steps are. */
  ghost predicate Stepwise(w: Links, moves: seq<Move>)
    requires OnMap(w) && Playable(moves)
    decreases |moves|
  {
    moves != [] ==>
      (moves[0].thwarted ==> moves[0].allowDrag && DistMin(moves[0].dest, w.hero) <= 1) &&
      (MovedStaysOnMap(w, moves[0]); Stepwise(Moved(w, moves[0]), moves[1..]))
  }

  /** Over any run of moves, with loads, traps, water, coins, victims and stubborn pets all arbitrary, the
      links hold. */
  lemma {:induction false} RunKeepsLinks(w: Links, moves: seq<Move>)
    requires OnMap(w) && Playable(moves) && Linked(w) && Stepwise(w, moves)
    ensures Linked(Run(w, moves))
    decreases |moves|
  {
    if moves != [] {
      var m := moves[0];
      MovedStaysOnMap(w, m);
      if m.thwarted {
        ThwartedKeepsLinked(m.env, w, m.dest);
      } else {
        WalkKeepsLinked(m.env, w, m.dest, m.allowDrag);
      }
      RunKeepsLinks(Moved(w, m), moves[1..]);
    }
  }

  /** And with a fixed map whose open squares the hero keeps to, no piece enters rock. */
  lemma {:induction false} RunKeepsOffRock(t: Terrain, w: Links, moves: seq<Move>)
    requires OnMap(w) && Playable(moves) && Charted(t) && OffRock(t, w)
    requires forall m :: m in moves ==> m.env.terrain == t && m.dest in t && !ChainRock(t, m.dest)
    ensures OffRock(t, Run(w, moves))
    decreases |moves|
  {
    if moves != [] {
      var m := moves[0];
      WalkKeepsOffRock(m.env, w, m.dest, m.allowDrag);
      ThwartedKeepsOffRock(m.env, w, m.dest, m.allowDrag);
      MovedStaysOnMap(w, m);
      RunKeepsOffRock(t, Moved(w, m), moves[1..]);
    }
  }

  /** With the ball in the pack the chain still touches the hero after a single step. */
  lemma CarriedStepKeepsChain(w: Links, dest: Coord)
    requires DistMin(dest, w.hero) <= 1
    ensures var g := DragCarriedBall(w, dest);
            g.Going? && DistMin(dest, g.chain) <= 1 && !g.control.ball && g.ball == w.ball
  {
    AdjacentIffDist2(dest, w.chain);
  }

  /** teleds (teleport.c): drag when the ball stays in reach or dragging is allowed for one step,
      otherwise lift both pieces and set them down under the hero. The hero lands on dest whatever
      drag_ball answered. */
  predicate TeledsDrags(w: Links, dest: Coord, allowDrag: bool) {
    DistMin(dest, w.ball) <= 2 || (allowDrag && DistMin(w.hero, dest) <= 1)
  }

  function Teleds(env: Surroundings, w: Links, dest: Coord, allowDrag: bool): Links
    requires Charted(env.terrain) && OnMap(w) && IsOk(dest)
  {
    if TeledsDrags(w, dest, allowDrag) then
      match DragFloorBall(env, w, dest, allowDrag)
      case Refused => w.(hero := dest)
      case Jerked(settled) => settled.(hero := dest)
      case Going(_, ball, chain, _) => Links(dest, ball, chain)
    else Links(dest, dest, dest)
  }

  /** Teleporting ignores a FALSE from drag_ball, so the links survive exactly when the ball was not
      held back. */
  lemma TeledsLinkedIff(env: Surroundings, w: Links, dest: Coord, allowDrag: bool)
    requires Charted(env.terrain) && OnMap(w) && IsOk(dest)
    requires Linked(w)
    ensures Linked(Teleds(env, w, dest, allowDrag)) <==>
            !(TeledsDrags(w, dest, allowDrag) && BallMustMove(env, w, dest, allowDrag) && HoldsBack(env, w, dest))
  {
    AdjacentIffDist2(dest, w.chain);
    AdjacentIffDist2(dest, w.hero);
    WalkKeepsLinked(env, w, dest, allowDrag);
  }

  // ----- runs of walks and teleports -----

  datatype Leg = Step(m: Move) | Jump(env: Surroundings, dest: Coord, allowDrag: bool)

  ghost predicate Charts(leg: Leg) {
    match leg
    case Step(m) => Charted(m.env.terrain) && IsOk(m.dest)
    case Jump(env, dest, _) => Charted(env.terrain) && IsOk(dest)
  }

  function Gone(w: Links, leg: Leg): Links
    requires Charts(leg) && OnMap(w)
  {
    match leg
    case Step(m) => Moved(w, m)
    case Jump(env, dest, allowDrag) => Teleds(env, w, dest, allowDrag)
  }

  lemma GoneStaysOnMap(w: Links, leg: Leg)
    requires Charts(leg) && OnMap(w)
    ensures OnMap(Gone(w, leg))
  {
    match leg
    case Step(m) => MovedStaysOnMap(w, m);
    case Jump(env, dest, allowDrag) => WalkStaysOnMap(env, w, dest, allowDrag);
  }

  /** The legs of a journey: as in walking, a thwarted move is a single step that may drag. */
  ghost predicate Journey(w: Links, legs: seq<Leg>)
    requires OnMap(w)
    decreases |legs|
  {
    legs != [] ==>
      && Charts(legs[0])
      && (legs[0].Step? && legs[0].m.thwarted ==> legs[0].m.allowDrag && DistMin(legs[0].m.dest, w.hero) <= 1)
      && (GoneStaysOnMap(w, legs[0]); Journey(Gone(w, legs[0]), legs[1..]))
  }

  ghost predicate LinkedThroughout(w: Links, legs: seq<Leg>)
    requires OnMap(w) && Journey(w, legs)
    decreases |legs|
  {
    Linked(w) && (legs != [] ==> (GoneStaysOnMap(w, legs[0]); LinkedThroughout(Gone(w, legs[0]), legs[1..])))
  }

  /** teleds drags for this leg, and the ball that has to come cannot. */
  predicate HeldBack(w: Links, leg: Leg)
    requires Charts(leg) && OnMap(w)
  {
    leg.Jump? && TeledsDrags(w, leg.dest, leg.allowDrag) && BallMustMove(leg.env, w, leg.dest, leg.allowDrag) &&
    HoldsBack(leg.env, w, leg.dest)
  }

  ghost predicate NeverHeldBack(w: Links, legs: seq<Leg>)
    requires OnMap(w) && Journey(w, legs)
    decreases |legs|
  {
    legs != [] ==> !HeldBack(w, legs[0]) && (GoneStaysOnMap(w, legs[0]); NeverHeldBack(Gone(w, legs[0]), legs[1..]))
  }

  /** Over any run of walks and teleports the links hold all along, exactly if no teleport was held back. */
  lemma {:induction false} JourneyLinkedIff(w: Links, legs: seq<Leg>)
    requires OnMap(w) && Journey(w, legs) && Linked(w)
    ensures LinkedThroughout(w, legs) <==> NeverHeldBack(w, legs)
    decreases |legs|
  {
    if legs != [] {
      GoneStaysOnMap(w, legs[0]);
      GoneLinkedIff(w, legs[0]);
      var w' := Gone(w, legs[0]);
      if Linked(w') {
        JourneyLinkedIff(w', legs[1..]);
      }
    }
  }

  lemma GoneLinkedIff(w: Links, leg: Leg)
    requires Charts(leg) && OnMap(w) && Linked(w)
    requires leg.Step? && leg.m.thwarted ==> leg.m.allowDrag && DistMin(leg.m.dest, w.hero) <= 1
    ensures Linked(Gone(w, leg)) <==> !HeldBack(w, leg)
  {
    match leg
    case Step(m) =>
      if m.thwarted {
        ThwartedKeepsLinked(m.env, w, m.dest);
      } else {
        WalkKeepsLinked(m.env, w, m.dest, m.allowDrag);
      }
    case Jump(env, dest, allowDrag) => TeledsLinkedIff(env, w, dest, allowDrag);
  }

  /** An overloaded hero knocked one square away from a taut chain loses it. */
  lemma TeledsCanBreakTheLink(env: Surroundings)
    requires Charted(env.terrain) && env.overloaded
    ensures var w := Links(Coord(12, 5), Coord(10, 5), Coord(11, 5));
            Linked(w) && !Linked(Teleds(env, w, Coord(13, 5), true))
  {
  }
}
