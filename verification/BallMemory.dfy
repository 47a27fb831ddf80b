/** What the hero remembers at the ball's and chain's squares: the effect of each operation of ball.c
    on that memory, and the ledger a blind hero keeps of it. */
module BallMemory {
  import opened Geometry
  import opened BallDrag
  import opened BallFloor

  datatype Look = NoObject | IronBall | IronChain | Thing(obj: int, mon: int)

  /** The remembered object of one square (mem_obj and its three companions in rm.h). */
  datatype Glyph = Glyph(look: Look, stacks: bool, soko: bool)

  type Memory = map<Coord, Glyph>

  /** Level memory, the glyphs saved under ball and chain, which pieces are felt, and u.bc_order. */
  datatype Mind = Mind(mem: Memory, bGlyph: Glyph, cGlyph: Glyph, felt: Pieces, order: Order)

  /** All that ball.c reads and writes. A sighted hero sees the squares of seen; water or lava hides the
      objects on those of covered; a hero aloft levitates and cannot feel the floor. */
  datatype State = State(
    hero: Coord, blind: bool, aloft: bool, swallowed: bool, seen: set<Coord>, covered: set<Coord>, floor: Floor, mind: Mind)

  const NONE := Pieces(false, false)

  const NOTHING := Glyph(NoObject, false, false)

  function MemAt(mem: Memory, p: Coord): Glyph {
    if p in mem then mem[p] else NOTHING
  }

  function Face(it: Item, covered: bool): Glyph {
    match it
    case Ball => Glyph(IronBall, covered, false)
    case Chain => Glyph(IronChain, covered, false)
    case Other(_, boulder, obj, mon, prize, _, _) => Glyph(Thing(obj, mon), !boulder && covered, prize)
  }

  /** What map_location remembers of a square ... */
  function Shown(s: State, p: Coord): Glyph {
    var pile := PileAt(s.floor.piles, p);
    if pile == [] || p in s.covered then NOTHING else Face(pile[0], |pile| > 1)
  }

  /** ... and what topobj_at finds there beneath ball and chain. */
  function Below(s: State, p: Coord): Glyph {
    var pile := Rest(PileAt(s.floor.piles, p));
    if pile == [] || !pile[0].Other? || p in s.covered then NOTHING
    else Glyph(Thing(pile[0].obj, pile[0].num), !pile[0].flat && |pile| > 1, pile[0].prize)
  }

  /** The pieces of the floor whose coordinates these are. */
  function PiecesAt(f: Floor, p: Coord): Pieces {
    Pieces(!f.carried && p == f.ball, p == f.chain)
  }

  function Sensed(m: Mind, p: Coord, shown: Glyph, on: Pieces, belowBall: Glyph, belowChain: Glyph): Mind {
    m.(mem := m.mem[p := shown], felt := Pieces(m.felt.ball || on.ball, m.felt.chain || on.chain),
       bGlyph := if on.ball then belowBall else m.bGlyph, cGlyph := if on.chain then belowChain else m.cGlyph)
  }

  /** feel_location at a square in reach: what is shown is remembered, and for each piece there what is
      beneath it. */
  function Feel(s: State, p: Coord, shown: Glyph, belowBall: Glyph, belowChain: Glyph): State {
    s.(mind := Sensed(s.mind, p, shown, PiecesAt(s.floor, p), belowBall, belowChain))
  }

  /** newsym refreshes a seen square. A blind hero feels his own, unless aloft, and remembers the others. */
  function Newsym(s: State, p: Coord): (s': State)
    ensures s' == s.(mind := s'.mind) && s'.mind.order == s.mind.order
    ensures !s.blind ==> s'.mind == s.mind.(mem := s'.mind.mem)
  {
    if s.blind then if p == s.hero && !s.aloft then Feel(s, p, Shown(s, p), Below(s, p), Below(s, p)) else s
    else if p in s.seen then s.(mind := s.mind.(mem := s.mind.mem[p := Shown(s, p)]))
    else s
  }

  function BcOrder(s: State): Order {
    if s.swallowed then Differ else OrderOf(s.floor)
  }

  /** A sighted hero's pieces are both lifted before any move ... */
  function Lift(s: State, control: Pieces): State {
    LiftSeen(if control == NONE then s.(mind := s.mind.(order := BcOrder(s))) else s)
  }

  function LiftSeen(s: State): State {
    var s' := Newsym(s.(floor := Take(s.floor, Chain)), s.floor.chain);
    if s.floor.carried then s' else Newsym(s'.(floor := Take(s'.floor, Ball)), s.floor.ball)
  }

  /** ... and put down afterwards: a moved chain on top, or an unmoved one that was on top. */
  function PutDown(s: State, control: Pieces, ball: Coord, chain: Coord): State {
    var chainLast := control.chain || (control == NONE && s.mind.order == ChainOnTop);
    var s' := Newsym(s.(floor := PutBoth(s.floor, chainLast, ball, chain)), chain);
    if s.floor.carried then s' else Newsym(s', ball)
  }

  function DropBall(m: Mind, f: Floor): Mind { m.(mem := m.mem[f.ball := m.bGlyph]) }

  function DropChain(m: Mind, f: Floor): Mind { m.(mem := m.mem[f.chain := m.cGlyph]) }

  /** map_object: the square is remembered as showing this piece. */
  function MapPiece(m: Mind, f: Floor, it: Item): Mind {
    var p := Where(f, it);
    m.(mem := m.mem[p := Face(it, |PileAt(f.piles, p)| > 1)])
  }

  /** What a blind hero remembers where a piece has just been pulled away. */
  function BallLeaves(m: Mind, f: Floor): Mind {
    if !m.felt.ball then m
    else
      (match m.order
       case Differ => DropBall(m, f)
       case BallOnTop => if m.felt.chain then MapPiece(m, f, Chain) else DropBall(m, f)
       case ChainOnTop => m).(felt := m.felt.(ball := false))
  }

  function ChainLeaves(m: Mind, f: Floor): Mind {
    if !m.felt.chain then m
    else
      (match m.order
       case Differ => DropChain(m, f)
       case ChainOnTop => if m.felt.ball then MapPiece(m, f, Ball) else DropChain(m, f)
       case BallOnTop => m).(felt := m.felt.(chain := false))
  }

  function BothLeave(m: Mind, f: Floor): Mind {
    var m1 := if m.felt.ball then DropBall(m, f) else m;
    (if m.felt.chain then DropChain(m1, f) else m1).(felt := NONE)
  }

  /** The blind hero's mind after pieces move: memory is restored where they left, and saved where
      they arrive. */
  function BlindMind(m: Mind, f: Floor, control: Pieces, ball: Coord, chain: Coord): Mind {
    match control
    case Pieces(true, true) =>
      var m' := BothLeave(m, f);
      m'.(bGlyph := MemAt(m'.mem, ball), cGlyph := MemAt(m'.mem, chain))
    case Pieces(true, false) =>
      var m' := BallLeaves(m, f);
      m'.(bGlyph := if ball != chain then MemAt(m'.mem, ball) else m'.cGlyph)
    case Pieces(false, true) =>
      var m' := ChainLeaves(m, f);
      m'.(cGlyph := if ball != chain then MemAt(m'.mem, chain) else m'.bGlyph)
    case Pieces(false, false) => m
  }

  /** movobj: at either end the square is looked at, and felt if it is a blind hero's own. */
  function MovObj(s: State, it: Item, p: Coord): (s': State)
    ensures s'.floor == Shift(s.floor, it, p)
    ensures s' == s.(floor := s'.floor, mind := s'.mind) && s'.mind.order == s.mind.order
  {
    var s1 := Newsym(s.(floor := Take(s.floor, it)), Where(s.floor, it));
    Newsym(s1.(floor := Put(s1.floor, it, p)), p)
  }

  function BlindMove(s: State, control: Pieces, ball: Coord, chain: Coord): State {
    var s' := MovPieces(s.(mind := BlindMind(s.mind, s.floor, control, ball, chain)), control, ball, chain);
    s'.(mind := s'.mind.(order := BcOrder(s')))
  }

  function MovPieces(s: State, control: Pieces, ball: Coord, chain: Coord): (s': State)
    ensures s' == s.(floor := s'.floor, mind := s'.mind) && s'.mind.order == s.mind.order
  {
    var s1 := if control.ball then MovObj(s, Ball, ball) else s;
    if control.chain then MovObj(s1, Chain, chain) else s1
  }

  function MoveBc(s: State, before: bool, control: Pieces, ball: Coord, chain: Coord): State {
    if s.blind then (if before then s else BlindMove(s, control, ball, chain))
    else if before then Lift(s, control) else PutDown(s, control, ball, chain)
  }

  /** Lifting and putting down alternate for a sighted hero; a blind hero's pieces never leave the
      floor. No other object moves either way. */
  lemma MoveBcFloor(s: State, before: bool, control: Pieces, ball: Coord, chain: Coord)
    requires s.floor.carried ==> !control.ball
    requires if s.blind || before then Settled(s.floor) else Lifted(s.floor)
    ensures var s' := MoveBc(s, before, control, ball, chain);
            && (if !s.blind && before then Lifted(s'.floor) else Settled(s'.floor))
            && SameOthers(s.floor.piles, s'.floor.piles)
            && s'.floor.carried == s.floor.carried && s'.blind == s.blind
  {
    if !s.blind {
      if before { LiftBothLifts(s.floor); }
      else {
        PutBothSettles(s.floor, control.chain || (control == NONE && s.mind.order == ChainOnTop), ball, chain);
      }
    } else if !before {
      if control.ball { ShiftSettles(s.floor, Ball, ball); }
      if control.chain { ShiftSettles(if control.ball then Shift(s.floor, Ball, ball) else s.floor, Chain, chain); }
    }
  }

  /** A sighted hero who moves neither piece finds the same one on top. */
  lemma UnmovedKeepsOrder(s: State)
    requires !s.blind && !s.swallowed && Settled(s.floor)
    ensures BcOrder(MoveBc(MoveBc(s, true, NONE, s.floor.ball, s.floor.chain), false, NONE, s.floor.ball, s.floor.chain))
            == BcOrder(s)
  {
    LiftPutKeepsOrder(s.floor);
  }

  /** A blind hero's memory departs from the underlying one only at felt pieces, and each saved glyph
      is the underlying one at its piece. */
  ghost predicate Ledger(m: Mind, f: Floor, under: Memory) {
    && (forall p :: MemAt(m.mem, p) != MemAt(under, p) ==>
          (m.felt.ball && !f.carried && p == f.ball) || (m.felt.chain && p == f.chain))
    && (!f.carried ==> m.bGlyph == MemAt(under, f.ball))
    && m.cGlyph == MemAt(under, f.chain)
  }

  /** The recorded order says whether the pieces share a square. */
  predicate OrderKnown(m: Mind, f: Floor) {
    m.order == Differ <==> f.carried || f.ball != f.chain
  }

  /** The ball pulled from under a chain that is not felt: nothing corrects the memory there. */
  predicate BallForgotten(m: Mind, f: Floor, under: Memory) {
    m.felt.ball && m.order == ChainOnTop && !m.felt.chain && MemAt(m.mem, f.ball) != MemAt(under, f.ball)
  }

  predicate ChainForgotten(m: Mind, f: Floor, under: Memory) {
    m.felt.chain && m.order == BallOnTop && !m.felt.ball && MemAt(m.mem, f.chain) != MemAt(under, f.chain)
  }

  /** A carried ball's stale coordinates can be mistaken for the chain's new square. */
  predicate StaleBallGlyph(m: Mind, f: Floor, under: Memory, chain: Coord) {
    f.carried && chain == f.ball && m.bGlyph != MemAt(under, chain)
  }

  /** The upper of two stacked pieces is felt whenever the lower is. */
  predicate UpperFelt(m: Mind) {
    (m.order == ChainOnTop && m.felt.ball ==> m.felt.chain) &&
    (m.order == BallOnTop && m.felt.chain ==> m.felt.ball)
  }

  lemma BothMoveKeepsLedger(m: Mind, f: Floor, under: Memory, ball: Coord, chain: Coord)
    requires !f.carried && Ledger(m, f, under)
    ensures Ledger(BlindMind(m, f, Pieces(true, true), ball, chain), f.(ball := ball, chain := chain), under)
  {
    assert forall p :: MemAt(BothLeave(m, f).mem, p) == MemAt(under, p);
  }

  /** Only a forgotten ball leaves a square misremembered besides the felt chain's. */
  lemma BallMoveDeparts(m: Mind, f: Floor, under: Memory, ball: Coord)
    requires !f.carried && Ledger(m, f, under) && OrderKnown(m, f)
    ensures var m' := BlindMind(m, f, Pieces(true, false), ball, f.chain);
            && (forall p :: MemAt(m'.mem, p) != MemAt(under, p) ==>
                  (m.felt.chain && p == f.chain) || (BallForgotten(m, f, under) && p == f.ball))
            && m'.bGlyph == MemAt(under, ball)
  {
  }

  lemma BallMoveKeepsLedgerIff(m: Mind, f: Floor, under: Memory, ball: Coord)
    requires !f.carried && Ledger(m, f, under) && OrderKnown(m, f)
    ensures Ledger(BlindMind(m, f, Pieces(true, false), ball, f.chain), f.(ball := ball), under)
            <==> !BallForgotten(m, f, under)
  {
    BallMoveDeparts(m, f, under, ball);
    if BallForgotten(m, f, under) {
      assert MemAt(BallLeaves(m, f).mem, f.chain) != MemAt(under, f.chain);
    }
  }

  lemma ChainMoveDeparts(m: Mind, f: Floor, under: Memory, chain: Coord)
    requires Ledger(m, f, under) && OrderKnown(m, f)
    ensures var m' := BlindMind(m, f, Pieces(false, true), f.ball, chain);
            && (forall p :: MemAt(m'.mem, p) != MemAt(under, p) ==>
                  (m.felt.ball && !f.carried && p == f.ball) || (ChainForgotten(m, f, under) && p == f.chain))
            && (m'.cGlyph == MemAt(under, chain) <==> !StaleBallGlyph(m, f, under, chain))
  {
  }

  lemma ChainMoveKeepsLedgerIff(m: Mind, f: Floor, under: Memory, chain: Coord)
    requires Ledger(m, f, under) && OrderKnown(m, f)
    ensures Ledger(BlindMind(m, f, Pieces(false, true), f.ball, chain), f.(chain := chain), under)
            <==> !ChainForgotten(m, f, under) && !StaleBallGlyph(m, f, under, chain)
  {
    ChainMoveDeparts(m, f, under, chain);
    if ChainForgotten(m, f, under) {
      assert MemAt(ChainLeaves(m, f).mem, f.chain) != MemAt(under, f.chain);
      assert m.felt.chain && !ChainLeaves(m, f).felt.chain;
    }
  }

  /** Pieces in place, order recorded, memory in order. */
  ghost predicate Kept(s: State, under: Memory) {
    s.blind && !s.swallowed && Settled(s.floor) && s.mind.order == BcOrder(s) && Ledger(s.mind, s.floor, under)
  }

  /** The underlying memory once a square has been felt, with the pieces as they lie now. */
  function Amended(f: Floor, under: Memory, p: Coord, shown: Glyph, below: Glyph): Memory {
    under[p := if PiecesAt(f, p) == NONE then shown else below]
  }

  /** Away from a felt square the ledger is as it was; a piece noted there must have stayed there. */
  ghost predicate LedgerElsewhere(m: Mind, f: Floor, under: Memory, h: Coord) {
    && (forall p :: p != h && MemAt(m.mem, p) != MemAt(under, p) ==>
          (m.felt.ball && !f.carried && p == f.ball) || (m.felt.chain && p == f.chain))
    && (!f.carried && f.ball != h ==> m.bGlyph == MemAt(under, f.ball))
    && (f.chain != h ==> m.cGlyph == MemAt(under, f.chain))
  }

  lemma SensedLedgerIff(m: Mind, f: Floor, under: Memory, h: Coord, shown: Glyph, below: Glyph, on: Pieces)
    requires (PiecesAt(f, h).ball ==> on.ball) && (PiecesAt(f, h).chain ==> on.chain)
    ensures var m' := Sensed(m, h, shown, on, below, below);
            Ledger(m', f, Amended(f, under, h, shown, below)) <==> LedgerElsewhere(m', f, under, h)
  {
    var m', under' := Sensed(m, h, shown, on, below, below), Amended(f, under, h, shown, below);
    assert forall p :: p != h ==> MemAt(under', p) == MemAt(under, p);
    assert MemAt(under', h) == if PiecesAt(f, h) == NONE then shown else below;
    assert MemAt(m'.mem, h) == shown;
    if LedgerElsewhere(m', f, under, h) {
      assert Ledger(m', f, under');
    }
  }

  /** The second move_bc of a move, with the hero at his new square; a piece not in control is passed its
      present one. */
  datatype Call = Call(hero: Coord, control: Pieces, ball: Coord, chain: Coord)

  predicate Proper(f: Floor, c: Call) {
    (c.control.ball || c.ball == f.ball) && (c.control.chain || c.chain == f.chain) && !(f.carried && c.control.ball)
  }

  function Called(s: State, c: Call): State {
    BlindMove(s.(hero := c.hero), c.control, c.ball, c.chain)
  }

  /** A piece is lifted from the hero's own square or put down there, and he feels it. */
  predicate Touches(s: State, c: Call) {
    !s.aloft && ((c.control.ball && c.hero in {s.floor.ball, c.ball}) || (c.control.chain && c.hero in {s.floor.chain, c.chain}))
  }

  /** The pieces he then takes to lie there. */
  function Stirred(f: Floor, c: Call): Pieces {
    Pieces(!f.carried && c.hero in {f.ball, c.ball}, c.hero in {f.chain, c.chain})
  }

  /** The memory beneath the pieces after such a call. */
  function UnderCall(s: State, under: Memory, c: Call): Memory {
    var s' := Called(s, c);
    if Touches(s, c) then Amended(s'.floor, under, c.hero, Shown(s', c.hero), Below(s', c.hero)) else under
  }

  /** Neither lifting nor putting down a piece changes what lies beneath. */
  lemma BelowStays(s: State, f: Floor, p: Coord)
    requires SameOthers(s.floor.piles, f.piles)
    ensures Below(s.(floor := f), p) == Below(s, p)
  {
  }

  lemma ShiftSameOthers(f: Floor, it: Item, p: Coord)
    requires !it.Other?
    ensures SameOthers(f.piles, Take(f, it).piles) && SameOthers(f.piles, Shift(f, it, p).piles)
  {
    RestOfWithout(PileAt(f.piles, Where(f, it)), it);
    RestOfStack(PileAt(Take(f, it).piles, p), it);
  }

  lemma SensedTwice(m: Mind, h: Coord, shown: Glyph, shown': Glyph, on: Pieces, on': Pieces, below: Glyph)
    ensures Sensed(Sensed(m, h, shown, on, below, below), h, shown', on', below, below)
            == Sensed(m, h, shown', Pieces(on.ball || on'.ball, on.chain || on'.chain), below, below)
  {
    assert m.mem[h := shown][h := shown'] == m.mem[h := shown'];
  }

  /** All that movobj does to a blind hero's mind. */
  lemma MovObjSenses(s: State, it: Item, p: Coord)
    requires s.blind && !it.Other? && (it == Ball ==> !s.floor.carried)
    ensures var s', h := MovObj(s, it, p), s.hero;
            var on := Pieces(it == Ball || PiecesAt(s.floor, h).ball, it == Chain || PiecesAt(s.floor, h).chain);
            && Below(s', h) == Below(s, h)
            && s'.mind == if !s.aloft && h in {Where(s.floor, it), p}
                          then Sensed(s.mind, h, Shown(s', h), on, Below(s, h), Below(s, h)) else s.mind
  {
    var h, s0 := s.hero, s.(floor := Take(s.floor, it));
    var s1, s' := Newsym(s0, Where(s.floor, it)), MovObj(s, it, p);
    ShiftSameOthers(s.floor, it, p);
    BelowStays(s, s0.floor, h);
    BelowStays(s, s'.floor, h);
    if !s.aloft && Where(s.floor, it) == h {
      SensedTwice(s.mind, h, Shown(s0, h), Shown(s', h), PiecesAt(s0.floor, h), PiecesAt(s'.floor, h), Below(s, h));
    }
  }

  lemma MovPiecesSenses(s: State, c: Call)
    requires s.blind && Proper(s.floor, c) && s.hero == c.hero
    ensures var s', h := MovPieces(s, c.control, c.ball, c.chain), c.hero;
            && Below(s', h) == Below(s, h)
            && s'.mind == if Touches(s, c) then Sensed(s.mind, h, Shown(s', h), Stirred(s.floor, c), Below(s, h), Below(s, h))
                          else s.mind
  {
    if c.control.ball {
      MovObjSenses(s, Ball, c.ball);
      if c.control.chain {
        BothMoveSenses(s, c);
      }
    } else if c.control.chain {
      MovObjSenses(s, Chain, c.chain);
    }
  }

  lemma BothMoveSenses(s: State, c: Call)
    requires s.blind && !s.floor.carried && s.hero == c.hero && c.control == Pieces(true, true)
    ensures var s', h := MovPieces(s, c.control, c.ball, c.chain), c.hero;
            && Below(s', h) == Below(s, h)
            && s'.mind == if Touches(s, c) then Sensed(s.mind, h, Shown(s', h), Stirred(s.floor, c), Below(s, h), Below(s, h))
                          else s.mind
  {
    var h, s1 := c.hero, MovObj(s, Ball, c.ball);
    var s2 := MovObj(s1, Chain, c.chain);
    MovObjSenses(s, Ball, c.ball);
    MovObjSenses(s1, Chain, c.chain);
    var on1 := Pieces(true, PiecesAt(s.floor, h).chain);
    var on2 := Pieces(PiecesAt(s1.floor, h).ball, true);
    SensedTwice(s.mind, h, Shown(s1, h), Shown(s2, h), on1, on2, Below(s, h));
  }

  /** All that a blind move_bc does to the mind: what BlindMind says, and what is felt. */
  lemma BlindMoveSenses(s: State, c: Call)
    requires s.blind && Proper(s.floor, c)
    ensures var s', h, m := Called(s, c), c.hero, BlindMind(s.mind, s.floor, c.control, c.ball, c.chain);
            && Below(s', h) == Below(s, h)
            && s'.mind == (if Touches(s, c) then Sensed(m, h, Shown(s', h), Stirred(s.floor, c), Below(s, h), Below(s, h)) else m)
                          .(order := BcOrder(s'))
  {
    var s0 := s.(hero := c.hero, mind := BlindMind(s.mind, s.floor, c.control, c.ball, c.chain));
    var s1, s' := MovPieces(s0, c.control, c.ball, c.chain), Called(s, c);
    MovPiecesSenses(s0, c);
    assert Touches(s0, c) == Touches(s, c) && Below(s0, c.hero) == Below(s, c.hero);
    assert s' == s1.(mind := s1.mind.(order := BcOrder(s')));
    assert Shown(s', c.hero) == Shown(s1, c.hero) && Below(s', c.hero) == Below(s1, c.hero);
  }

  /** A piece lifted from under the hero and put elsewhere is noted with what lay beneath it before. */
  predicate Astray(s: State, under: Memory, c: Call) {
    !s.aloft &&
    ((c.control.ball && s.floor.ball == c.hero && c.ball != c.hero && Below(s, c.hero) != MemAt(under, c.ball)) ||
     (c.control.chain && s.floor.chain == c.hero && c.chain != c.hero && Below(s, c.hero) != MemAt(under, c.chain)))
  }

  /** Exactly when a blind move_bc keeps the ledger: nothing is forgotten but what the hero feels again. */
  predicate Remembers(s: State, under: Memory, c: Call) {
    var m, f := s.mind, s.floor;
    && !Astray(s, under, c)
    && match c.control
       case Pieces(true, false) => BallForgotten(m, f, under) ==> !s.aloft && c.hero == f.ball
       case Pieces(false, true) =>
         && (ChainForgotten(m, f, under) ==> !s.aloft && c.hero == f.chain)
         && (StaleBallGlyph(m, f, under, c.chain) ==> !s.aloft && c.hero in {f.chain, c.chain})
       case _ => true
  }

  lemma BlindMoveKeptIff(s: State, under: Memory, c: Call)
    requires Kept(s, under) && Proper(s.floor, c)
    ensures Kept(Called(s, c), UnderCall(s, under, c)) <==> Remembers(s, under, c)
    ensures UpperFelt(s.mind) && !s.floor.carried && !Astray(s, under, c) ==> Remembers(s, under, c)
  {
    var m, f := s.mind, s.floor;
    MoveBcFloor(s.(hero := c.hero), false, c.control, c.ball, c.chain);
    if !f.carried {
      OrderDiffers(f);
    }
    BlindMoveSenses(s, c);
    if Touches(s, c) {
      TouchingMoveKeptIff(s, under, c);
    } else {
      QuietMoveKeptIff(s, under, c);
    }
  }

  /** The mind's part of it, where the hero feels nothing ... */
  lemma QuietMoveKeptIff(s: State, under: Memory, c: Call)
    requires Ledger(s.mind, s.floor, under) && OrderKnown(s.mind, s.floor) && Proper(s.floor, c) && !Touches(s, c)
    ensures Ledger(BlindMind(s.mind, s.floor, c.control, c.ball, c.chain), s.floor.(ball := c.ball, chain := c.chain), under)
            <==> Remembers(s, under, c)
  {
    match c.control
    case Pieces(true, true) => BothMoveKeepsLedger(s.mind, s.floor, under, c.ball, c.chain);
    case Pieces(true, false) => BallMoveKeepsLedgerIff(s.mind, s.floor, under, c.ball);
    case Pieces(false, true) => ChainMoveKeepsLedgerIff(s.mind, s.floor, under, c.chain);
    case Pieces(false, false) =>
  }

  /** ... and where he does. */
  lemma TouchingMoveKeptIff(s: State, under: Memory, c: Call)
    requires s.blind && Ledger(s.mind, s.floor, under) && OrderKnown(s.mind, s.floor) && Proper(s.floor, c) && Touches(s, c)
    ensures var s' := Called(s, c);
            Ledger(s'.mind, s'.floor, UnderCall(s, under, c)) <==> Remembers(s, under, c)
  {
    var m := BlindMind(s.mind, s.floor, c.control, c.ball, c.chain);
    var s', f' := Called(s, c), s.floor.(ball := c.ball, chain := c.chain);
    BlindMoveSenses(s, c);
    var m' := Sensed(m, c.hero, Shown(s', c.hero), Stirred(s.floor, c), Below(s, c.hero), Below(s, c.hero));
    SensedLedgerIff(m, f', under, c.hero, Shown(s', c.hero), Below(s, c.hero), Stirred(s.floor, c));
    ElsewhereIff(s, under, c, m, m', Shown(s', c.hero));
    CalledPlaces(s, c);
    LedgerApart(m', s'.mind, f', s'.floor, UnderCall(s, under, c));
  }

  lemma CalledPlaces(s: State, c: Call)
    requires Proper(s.floor, c)
    ensures var f' := Called(s, c).floor; f' == s.floor.(piles := f'.piles, ball := c.ball, chain := c.chain)
  {
  }

  /** The ledger speaks neither of the order nor of other objects. */
  lemma LedgerApart(m: Mind, m': Mind, f: Floor, f': Floor, under: Memory)
    requires m' == m.(order := m'.order) && f' == f.(piles := f'.piles)
    ensures Ledger(m, f, under) <==> Ledger(m', f', under)
  {
  }

  lemma ElsewhereIff(s: State, under: Memory, c: Call, m: Mind, m': Mind, shown: Glyph)
    requires Ledger(s.mind, s.floor, under) && OrderKnown(s.mind, s.floor) && Proper(s.floor, c) && Touches(s, c)
    requires m == BlindMind(s.mind, s.floor, c.control, c.ball, c.chain)
    requires m' == Sensed(m, c.hero, shown, Stirred(s.floor, c), Below(s, c.hero), Below(s, c.hero))
    ensures LedgerElsewhere(m', s.floor.(ball := c.ball, chain := c.chain), under, c.hero) <==> Remembers(s, under, c)
  {
    if !c.control.ball {
      ChainElsewhereIff(s, under, c, m, m', shown);
    } else if c.control.chain {
      BothMoveKeepsLedger(s.mind, s.floor, under, c.ball, c.chain);
    } else {
      BallElsewhereIff(s, under, c, m, m', shown);
    }
  }

  lemma BallElsewhereIff(s: State, under: Memory, c: Call, m: Mind, m': Mind, shown: Glyph)
    requires Ledger(s.mind, s.floor, under) && OrderKnown(s.mind, s.floor) && Proper(s.floor, c) && Touches(s, c)
    requires m == BlindMind(s.mind, s.floor, c.control, c.ball, c.chain)
    requires m' == Sensed(m, c.hero, shown, Stirred(s.floor, c), Below(s, c.hero), Below(s, c.hero))
    requires c.control == Pieces(true, false)
    ensures LedgerElsewhere(m', s.floor.(ball := c.ball, chain := c.chain), under, c.hero) <==> Remembers(s, under, c)
  {
    BallMoveDeparts(s.mind, s.floor, under, c.ball);
    assert BallForgotten(s.mind, s.floor, under) ==> MemAt(m.mem, s.floor.ball) != MemAt(under, s.floor.ball);
  }

  lemma ChainElsewhereIff(s: State, under: Memory, c: Call, m: Mind, m': Mind, shown: Glyph)
    requires Ledger(s.mind, s.floor, under) && OrderKnown(s.mind, s.floor) && Proper(s.floor, c) && Touches(s, c)
    requires m == BlindMind(s.mind, s.floor, c.control, c.ball, c.chain)
    requires m' == Sensed(m, c.hero, shown, Stirred(s.floor, c), Below(s, c.hero), Below(s, c.hero))
    requires c.control == Pieces(false, true)
    ensures LedgerElsewhere(m', s.floor.(ball := c.ball, chain := c.chain), under, c.hero) <==> Remembers(s, under, c)
  {
    ChainMoveDeparts(s.mind, s.floor, under, c.chain);
    assert ChainForgotten(s.mind, s.floor, under) ==> MemAt(m.mem, s.floor.chain) != MemAt(under, s.floor.chain);
  }

  /** unplacebc: both pieces come off the level and nothing is felt any more. */
  function Unplace(s: State): State {
    if s.swallowed then s else UnplaceChain(UnplaceBall(s))
  }

  function UnplaceBall(s: State): State {
    if s.floor.carried then s
    else
      var m := if s.blind && s.mind.felt.ball then DropBall(s.mind, s.floor) else s.mind;
      Newsym(s.(floor := Take(s.floor, Ball), mind := m), s.floor.ball)
  }

  function UnplaceChain(s: State): State {
    var m := if s.blind && s.mind.felt.chain then DropChain(s.mind, s.floor) else s.mind;
    var s' := Newsym(s.(floor := Take(s.floor, Chain), mind := m), s.floor.chain);
    s'.(mind := s'.mind.(felt := NONE))
  }

  /** placebc: both pieces go down under the hero, the chain on top, and the memory there is saved. */
  function Place(s: State): State {
    var f := if s.floor.carried then Put(s.floor, Chain, s.hero) else Put(Put(s.floor, Ball, s.hero), Chain, s.hero);
    var g := MemAt(s.mind.mem, s.hero);
    var m := s.mind.(order := if s.floor.carried then Differ else ChainOnTop, bGlyph := g, cGlyph := g);
    Newsym(s.(floor := f, mind := m), s.hero)
  }

  /** Both pieces are felt from now on, and the glyph beneath each is saved (set_bc): read off the
      square of a hero already blind, or looked at by lifting both and putting them back. */
  function SetBc(s: State, alreadyBlind: bool): State {
    var m := s.mind.(order := BcOrder(s), felt := Pieces(!s.floor.carried, true));
    if alreadyBlind || s.swallowed then
      s.(mind := m.(bGlyph := MemAt(m.mem, s.hero), cGlyph := MemAt(m.mem, s.hero)))
    else
      var s' := PeekUnder(s.(mind := m));
      if BcOrder(s) == Differ then RestoreApart(s') else RestoreStacked(s')
  }

  function PeekUnder(s: State): State {
    var s' := Newsym(s.(floor := LiftBoth(s.floor)), s.floor.chain);
    s'.(mind := s'.mind.(cGlyph := MemAt(s'.mind.mem, s.floor.chain)))
  }

  function RestoreApart(s: State): State {
    var s1 := Newsym(s.(floor := Put(s.floor, Chain, s.floor.chain)), s.floor.chain);
    if s.floor.carried then s1
    else
      var s2 := Newsym(s1, s.floor.ball);
      var m := s2.mind.(bGlyph := MemAt(s2.mind.mem, s.floor.ball));
      Newsym(s2.(floor := Put(s2.floor, Ball, s.floor.ball), mind := m), s.floor.ball)
  }

  function RestoreStacked(s: State): State {
    var m := s.mind.(bGlyph := s.mind.cGlyph);
    Newsym(s.(floor := PutBoth(s.floor, s.mind.order == ChainOnTop, s.floor.ball, s.floor.chain), mind := m), s.floor.ball)
  }

  /** What a sighted hero would remember were the pieces not there. */
  function Beneath(s: State): Memory {
    var s' := Newsym(s.(floor := LiftBoth(s.floor)), s.floor.chain);
    if s.floor.carried then s'.mind.mem else Newsym(s', s.floor.ball).mind.mem
  }

  /** A blind hero on the ground with a piece under him. */
  predicate StandsOnPiece(s: State) {
    !s.aloft && PiecesAt(s.floor, s.hero) != NONE
  }

  /** The memory unplacebc leaves behind: what was underneath, but what he now feels where he stands. */
  function Restored(s: State, under: Memory): Memory {
    if StandsOnPiece(s) then under[s.hero := Shown(s.(floor := LiftBoth(s.floor)), s.hero)] else under
  }

  /** With the ball off the level the ledger is the chain's alone. */
  ghost predicate ChainLedger(m: Mind, f: Floor, under: Memory) {
    && (forall p :: MemAt(m.mem, p) != MemAt(under, p) ==> m.felt.chain && p == f.chain)
    && m.cGlyph == MemAt(under, f.chain)
  }

  function UnderBall(s: State, under: Memory): Memory {
    var s' := UnplaceBall(s);
    if s.aloft || s.floor.carried || s.hero != s.floor.ball then under
    else under[s.hero := if s.hero == s.floor.chain then Below(s', s.hero) else Shown(s', s.hero)]
  }

  lemma UnplaceBallKeeps(s: State, under: Memory)
    requires Kept(s, under)
    ensures ChainLedger(UnplaceBall(s).mind, s.floor, UnderBall(s, under))
  {
    var m, f, under' := s.mind, s.floor, UnderBall(s, under);
    if !f.carried {
      var m1 := if m.felt.ball then DropBall(m, f) else m;
      var s1 := s.(floor := Take(f, Ball), mind := m1);
      assert ChainLedger(m1, f, under);
      if !s.aloft && s.hero == f.ball {
        assert forall p :: p != s.hero ==> MemAt(under', p) == MemAt(under, p);
        assert UnplaceBall(s).mind.mem == m1.mem[s.hero := Shown(s1, s.hero)];
        assert Shown(UnplaceBall(s), s.hero) == Shown(s1, s.hero) && Below(UnplaceBall(s), s.hero) == Below(s1, s.hero);
      }
    }
  }

  lemma UnplaceChainKeeps(s: State, under: Memory)
    requires s.blind && ChainLedger(s.mind, s.floor, under)
    ensures var s' := UnplaceChain(s);
            forall p :: MemAt(s'.mind.mem, p)
                        == if !s.aloft && s.hero == s.floor.chain && p == s.hero then Shown(s', p) else MemAt(under, p)
  {
    var m := if s.mind.felt.chain then DropChain(s.mind, s.floor) else s.mind;
    var s1 := s.(floor := Take(s.floor, Chain), mind := m);
    assert forall p :: MemAt(m.mem, p) == MemAt(under, p);
    assert Shown(UnplaceChain(s), s.hero) == Shown(s1, s.hero);
  }

  /** What the hero remembers once the pieces are off the level. */
  ghost predicate Restores(s: State, under: Memory) {
    forall p :: MemAt(Unplace(s).mind.mem, p) == MemAt(Restored(s, under), p)
  }

  lemma UnplaceRestores(s: State, under: Memory)
    requires Kept(s, under)
    ensures Restores(s, under)
    ensures var s' := Unplace(s); Lifted(s'.floor) && SameOthers(s.floor.piles, s'.floor.piles) && s'.mind.felt == NONE
  {
    UnplaceLifts(s);
    UnplaceBallKeeps(s, under);
    UnplaceChainKeeps(UnplaceBall(s), UnderBall(s, under));
    RestoredIs(s, under);
  }

  lemma RestoredIs(s: State, under: Memory)
    requires !s.swallowed
    ensures forall p :: (if !s.aloft && s.hero == s.floor.chain && p == s.hero then Shown(Unplace(s), p)
                         else MemAt(UnderBall(s, under), p)) == MemAt(Restored(s, under), p)
  {
    BareShown(s, s.hero);
  }

  /** Whatever the order in which the pieces come off, the same is left to be shown. */
  lemma BareShown(s: State, p: Coord)
    requires !s.swallowed
    ensures Shown(Unplace(s), p) == Shown(s.(floor := LiftBoth(s.floor)), p)
    ensures p != s.floor.chain ==> Shown(UnplaceBall(s), p) == Shown(s.(floor := LiftBoth(s.floor)), p)
  {
    WithoutSwap(PileAt(s.floor.piles, p), Ball, Chain);
  }

  lemma UnplaceLifts(s: State)
    requires !s.swallowed && Settled(s.floor)
    ensures Lifted(Unplace(s).floor) && SameOthers(s.floor.piles, Unplace(s).floor.piles)
  {
    var f := s.floor;
    if f.carried {
      TakeFromKeeps(f.piles, Chain, f.chain);
    } else {
      TakeFromKeeps(f.piles, Ball, f.ball);
      TakeFromKeeps(TakeFrom(f.piles, Ball, f.ball), Chain, f.chain);
    }
  }

  /** Once nothing is felt, placing the pieces starts a ledger of the memory as it stands, or as the hero
      amends it by feeling what he stands on. */
  lemma PlaceOpensLedger(s: State)
    requires s.blind && !s.swallowed && Lifted(s.floor) && s.mind.felt == NONE
    ensures Kept(Place(s), Grounded(s))
  {
    PutBothSettles(s.floor, true, s.hero, s.hero);
    BelowStays(s, Place(s).floor, s.hero);
    if !s.floor.carried {
      FirstOfStack(Stack(PileAt(s.floor.piles, s.hero), Ball), Chain);
    }
  }

  function Grounded(s: State): Memory {
    if s.aloft then s.mind.mem else s.mind.mem[s.hero := Below(s, s.hero)]
  }

  /** read.c and artifact.c punish a blind hero: place, set up, and look once more. Without the last look
      the pieces' own picture would be saved as what lies beneath. */
  function PunishBlind(s: State): State {
    var s' := SetBc(Place(s), true);
    Newsym(s', s'.hero)
  }

  lemma PunishBlindOpensLedger(s: State)
    requires s.blind && !s.swallowed && Lifted(s.floor)
    ensures var s' := PunishBlind(s);
            && Kept(s', Grounded(s)) && s'.mind.felt == Pieces(!s.floor.carried, true)
            && (!s.aloft ==> SetBc(Place(s), true).mind.cGlyph == Shown(Place(s), s.hero))
  {
    var h, f := s.hero, Place(s).floor;
    PutBothSettles(s.floor, true, h, h);
    BelowStays(s, f, h);
    if !s.aloft {
      var m := SetBc(Place(s), true).mind;
      SensedLedgerIff(m, f, Grounded(s), h, Shown(Place(s), h), Below(s, h), PiecesAt(f, h));
      assert Amended(f, Grounded(s), h, Shown(Place(s), h), Below(s, h)) == Grounded(s);
    }
  }

  lemma SetBcFloor(s: State, alreadyBlind: bool)
    requires !s.swallowed && Settled(s.floor)
    ensures var s' := SetBc(s, alreadyBlind);
            && Settled(s'.floor) && SameOthers(s.floor.piles, s'.floor.piles) && BcOrder(s') == BcOrder(s)
            && s'.floor == s.floor.(piles := s'.floor.piles) && s'.mind.order == BcOrder(s)
  {
    var f := s.floor;
    if !alreadyBlind {
      LiftBothLifts(f);
      PutBothSettles(LiftBoth(f), BcOrder(s) == ChainOnTop, f.ball, f.chain);
      LiftPutKeepsOrder(f);
    }
  }

  lemma SetBcLedger(s: State)
    requires !s.swallowed && Settled(s.floor) && !s.blind
    ensures Ledger(SetBc(s, false).mind, s.floor, Beneath(s))
  {
    if !s.floor.carried {
      OrderDiffers(s.floor);
    }
    if s.floor.carried {
      CarriedLedger(s);
    } else if BcOrder(s) != Differ {
      StackedLedger(s);
    } else {
      ApartLedger(s);
    }
  }

  lemma StackedLedger(s: State)
    requires !s.swallowed && !s.blind && BcOrder(s) != Differ
    ensures Ledger(SetBc(s, false).mind, s.floor, Beneath(s))
  {
  }

  lemma CarriedLedger(s: State)
    requires !s.swallowed && !s.blind && s.floor.carried
    ensures Ledger(SetBc(s, false).mind, s.floor, Beneath(s))
  {
  }

  lemma ApartLedger(s: State)
    requires !s.swallowed && !s.blind && !s.floor.carried && BcOrder(s) == Differ && s.floor.ball != s.floor.chain
    ensures Ledger(SetBc(s, false).mind, s.floor, Beneath(s))
  {
    var s0 := PeekUnder(s.(mind := s.mind.(order := Differ, felt := Pieces(true, true))));
    ApartGlyph(s0);
    assert SetBc(s, false) == RestoreApart(s0);
    assert Newsym(s0, s.floor.ball).mind.mem == Beneath(s);
  }

  lemma ApartGlyph(s: State)
    requires !s.blind && !s.floor.carried && s.floor.ball != s.floor.chain
    ensures var s', mem := RestoreApart(s), Newsym(s, s.floor.ball).mind.mem;
            && s'.mind.bGlyph == MemAt(mem, s.floor.ball) && s'.mind.cGlyph == s.mind.cGlyph && s'.mind.felt == s.mind.felt
            && forall p :: p != s.floor.ball && p != s.floor.chain ==> MemAt(s'.mind.mem, p) == MemAt(s.mind.mem, p)
  {
    assert PileAt(Put(s.floor, Chain, s.floor.chain).piles, s.floor.ball) == PileAt(s.floor.piles, s.floor.ball);
  }

  /** Going blind opens a ledger of the memory beneath both pieces; being punished while blind, of the
      memory as it stands. Both pieces start out felt. */
  lemma SetBcOpensLedger(s: State, alreadyBlind: bool)
    requires !s.swallowed && Settled(s.floor) && s.blind == alreadyBlind
    requires alreadyBlind ==> s.floor.chain == s.hero && (s.floor.carried || s.floor.ball == s.hero)
    ensures var s' := SetBc(s, alreadyBlind).(blind := true);
            && Kept(s', if alreadyBlind then s.mind.mem else Beneath(s)) && UpperFelt(s'.mind)
            && SameOthers(s.floor.piles, s'.floor.piles) && BcOrder(s') == BcOrder(s)
  {
    SetBcFloor(s, alreadyBlind);
    if !alreadyBlind {
      SetBcLedger(s);
      var s' := SetBc(s, false);
      assert Ledger(s'.mind, s'.floor, Beneath(s));
    }
  }

  ghost function RunCalls(s: State, calls: seq<Call>): State
    decreases |calls|
  {
    if calls == [] then s else RunCalls(Called(s, calls[0]), calls[1..])
  }

  ghost function UnderCalls(s: State, under: Memory, calls: seq<Call>): Memory
    decreases |calls|
  {
    if calls == [] then under else UnderCalls(Called(s, calls[0]), UnderCall(s, under, calls[0]), calls[1..])
  }

  ghost predicate AllRemember(s: State, under: Memory, calls: seq<Call>)
    decreases |calls|
  {
    calls != [] ==>
      && Proper(s.floor, calls[0]) && Remembers(s, under, calls[0])
      && AllRemember(Called(s, calls[0]), UnderCall(s, under, calls[0]), calls[1..])
  }

  /** After any run of blind moves none of which forgets, lifting the pieces gives back the memory the run
      began with, amended by what the hero felt under himself. */
  lemma {:induction false} BlindRunRestores(s: State, under: Memory, calls: seq<Call>)
    requires Kept(s, under) && AllRemember(s, under, calls)
    ensures Restores(RunCalls(s, calls), UnderCalls(s, under, calls))
    decreases |calls|
  {
    if calls == [] {
      UnplaceRestores(s, under);
    } else {
      var s1, under1 := Called(s, calls[0]), UnderCall(s, under, calls[0]);
      BlindMoveKeptIff(s, under, calls[0]);
      assert RunCalls(s, calls) == RunCalls(s1, calls[1..]);
      assert UnderCalls(s, under, calls) == UnderCalls(s1, under1, calls[1..]);
      BlindRunRestores(s1, under1, calls[1..]);
    }
  }

  /** One-piece moves can forget: the ball is jerked onto the square of a felt chain where a monster keeps
      the hero away, and then the chain slides out from under the ball, which is no longer felt. */
  lemma BlindRunCanForget(s: State, under: Memory, dest: Coord, next: Coord)
    requires Kept(s, under) && !s.floor.carried && s.floor.ball != s.floor.chain
    requires s.mind.felt == Pieces(true, true)
    requires MemAt(s.mind.mem, s.floor.chain) != MemAt(under, s.floor.chain)
    requires s.hero !in {s.floor.ball, s.floor.chain} && dest !in {s.floor.chain, next}
    ensures var s1 := Called(s, Call(s.hero, Pieces(true, false), s.floor.chain, s.floor.chain));
            && Kept(s1, under) && !UpperFelt(s1.mind)
            && !Kept(Called(s1, Call(dest, Pieces(false, true), s.floor.chain, next)), under)
  {
    var c := Call(s.hero, Pieces(true, false), s.floor.chain, s.floor.chain);
    OrderDiffers(s.floor);
    BlindMoveKeptIff(s, under, c);
    BlindMoveSenses(s, c);
    var s1 := Called(s, c);
    FirstOfStack(PileAt(TakeFrom(s.floor.piles, Ball, s.floor.ball), s.floor.chain), Ball);
    assert s1.mind.order == BallOnTop;
    BlindMoveKeptIff(s1, under, Call(dest, Pieces(false, true), s.floor.chain, next));
  }
}
