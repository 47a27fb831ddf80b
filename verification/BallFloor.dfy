/** The iron ball and chain as objects in the level's piles: how ball.c lifts them and sets them down,
    and what every lift and put-down keeps. */
module BallFloor {
  import opened Geometry

  /** Of an object, mon is the monster number that map_object remembers; num the one topobj_at gives, and
      flat says whether topobj_at never shows it as covering others: it compares its object number, one
      higher, with the numbers of corpses, statues, figurines and boulders. */
  datatype Item = Ball | Chain | Other(id: nat, boulder: bool, obj: int, mon: int, prize: bool, num: int, flat: bool)

  datatype Order = Differ | ChainOnTop | BallOnTop

  type Piles = map<Coord, seq<Item>>

  /** A piece off the floor keeps the coordinates it last had. */
  datatype Floor = Floor(piles: Piles, ball: Coord, chain: Coord, carried: bool)

  function PileAt(piles: Piles, p: Coord): seq<Item> {
    if p in piles then piles[p] else []
  }

  function Without(pile: seq<Item>, it: Item): seq<Item> {
    if pile == [] then []
    else if pile[0] == it then Without(pile[1..], it)
    else [pile[0]] + Without(pile[1..], it)
  }

  predicate BoulderOnTop(pile: seq<Item>) {
    pile != [] && pile[0].Other? && pile[0].boulder
  }

  /** A new object goes on top, or just beneath a boulder that is on top. */
  function Stack(pile: seq<Item>, it: Item): seq<Item> {
    if BoulderOnTop(pile) then [pile[0]] + ([it] + pile[1..]) else [it] + pile
  }

  /** Which of the two pieces comes first in a pile. */
  function FirstOf(pile: seq<Item>): Order {
    if pile == [] then Differ
    else if pile[0] == Chain then ChainOnTop
    else if pile[0] == Ball then BallOnTop
    else FirstOf(pile[1..])
  }

  function OrderOf(f: Floor): Order {
    if f.chain != f.ball || f.carried then Differ else FirstOf(PileAt(f.piles, f.ball))
  }

  function TakeFrom(piles: Piles, it: Item, p: Coord): Piles {
    piles[p := Without(PileAt(piles, p), it)]
  }

  function PutOn(piles: Piles, it: Item, p: Coord): Piles {
    piles[p := Stack(PileAt(piles, p), it)]
  }

  function Where(f: Floor, it: Item): Coord {
    if it == Ball then f.ball else f.chain
  }

  function Take(f: Floor, it: Item): Floor {
    f.(piles := TakeFrom(f.piles, it, Where(f, it)))
  }

  function Put(f: Floor, it: Item, p: Coord): Floor {
    if it == Ball then f.(piles := PutOn(f.piles, it, p), ball := p)
    else f.(piles := PutOn(f.piles, it, p), chain := p)
  }

  function Shift(f: Floor, it: Item, p: Coord): Floor {
    Put(Take(f, it), it, p)
  }

  function LiftBoth(f: Floor): Floor {
    if f.carried then Take(f, Chain) else Take(Take(f, Chain), Ball)
  }

  function PutBoth(f: Floor, chainLast: bool, ball: Coord, chain: Coord): Floor {
    if f.carried then Put(f, Chain, chain)
    else if chainLast then Put(Put(f, Ball, ball), Chain, chain)
    else Put(Put(f, Chain, chain), Ball, ball)
  }

  function Count(pile: seq<Item>, it: Item): nat {
    if pile == [] then 0 else (if pile[0] == it then 1 else 0) + Count(pile[1..], it)
  }

  ghost predicate OnFloor(piles: Piles, it: Item, p: Coord) {
    forall q :: Count(PileAt(piles, q), it) == if q == p then 1 else 0
  }

  ghost predicate OffFloor(piles: Piles, it: Item) {
    forall q :: Count(PileAt(piles, q), it) == 0
  }

  /** Each floor piece lies in exactly one pile, once, at its own coordinates. */
  ghost predicate Settled(f: Floor) {
    OnFloor(f.piles, Chain, f.chain) &&
    (if f.carried then OffFloor(f.piles, Ball) else OnFloor(f.piles, Ball, f.ball))
  }

  ghost predicate Lifted(f: Floor) {
    OffFloor(f.piles, Chain) && OffFloor(f.piles, Ball)
  }

  function Rest(pile: seq<Item>): seq<Item> {
    Without(Without(pile, Ball), Chain)
  }

  /** Every other object stays in its pile, in its place. */
  ghost predicate SameOthers(piles: Piles, piles': Piles) {
    forall p :: Rest(PileAt(piles, p)) == Rest(PileAt(piles', p))
  }

  lemma {:induction false} WithoutCount(pile: seq<Item>, it: Item, x: Item)
    ensures Count(Without(pile, it), x) == if x == it then 0 else Count(pile, x)
  {
    if pile != [] {
      WithoutCount(pile[1..], it, x);
      if pile[0] != it {
        assert Without(pile, it)[1..] == Without(pile[1..], it);
      }
    }
  }

  lemma {:induction false} WithoutSwap(pile: seq<Item>, it: Item, it': Item)
    ensures Without(Without(pile, it), it') == Without(Without(pile, it'), it)
  {
    if pile != [] {
      WithoutSwap(pile[1..], it, it');
      assert ([pile[0]] + Without(pile[1..], it))[1..] == Without(pile[1..], it);
      assert ([pile[0]] + Without(pile[1..], it'))[1..] == Without(pile[1..], it');
    }
  }

  lemma {:induction false} WithoutTwice(pile: seq<Item>, it: Item)
    ensures Without(Without(pile, it), it) == Without(pile, it)
  {
    if pile != [] {
      WithoutTwice(pile[1..], it);
      assert ([pile[0]] + Without(pile[1..], it))[1..] == Without(pile[1..], it);
    }
  }

  lemma StackCount(pile: seq<Item>, it: Item, x: Item)
    requires !it.Other?
    ensures Count(Stack(pile, it), x) == Count(pile, x) + if x == it then 1 else 0
  {
    var tail := if BoulderOnTop(pile) then pile[1..] else pile;
    assert ([it] + tail)[1..] == tail;
    assert BoulderOnTop(pile) ==> Stack(pile, it)[1..] == [it] + tail;
  }

  lemma StackWithout(pile: seq<Item>, it: Item)
    ensures Without(Stack(pile, it), it) == Without(pile, it)
  {
    var tail := if BoulderOnTop(pile) then pile[1..] else pile;
    assert ([it] + tail)[1..] == tail;
    assert BoulderOnTop(pile) ==> Stack(pile, it)[1..] == [it] + tail;
  }

  lemma RestOfStack(pile: seq<Item>, it: Item)
    requires !it.Other?
    ensures Rest(Stack(pile, it)) == Rest(pile)
  {
    StackWithout(pile, it);
    WithoutSwap(Stack(pile, it), Ball, Chain);
    WithoutSwap(pile, Ball, Chain);
  }

  lemma RestOfWithout(pile: seq<Item>, it: Item)
    requires !it.Other?
    ensures Rest(Without(pile, it)) == Rest(pile)
  {
    WithoutSwap(pile, Ball, Chain);
    WithoutTwice(pile, it);
    WithoutSwap(Without(pile, it), Ball, Chain);
  }

  lemma TakeFromKeeps(piles: Piles, it: Item, p: Coord)
    requires !it.Other? && OnFloor(piles, it, p)
    ensures var piles' := TakeFrom(piles, it, p);
            && OffFloor(piles', it) && SameOthers(piles, piles')
            && (forall q, x :: x != it ==> Count(PileAt(piles', q), x) == Count(PileAt(piles, q), x))
  {
    var piles' := TakeFrom(piles, it, p);
    forall q, x
      ensures Count(PileAt(piles', q), x) == if x == it then 0 else Count(PileAt(piles, q), x)
    {
      WithoutCount(PileAt(piles, p), it, x);
      assert Count(PileAt(piles, q), it) == if q == p then 1 else 0;
    }
    RestOfWithout(PileAt(piles, p), it);
  }

  lemma PutOnKeeps(piles: Piles, it: Item, p: Coord)
    requires !it.Other? && OffFloor(piles, it)
    ensures var piles' := PutOn(piles, it, p);
            && OnFloor(piles', it, p) && SameOthers(piles, piles')
            && (forall q, x :: x != it ==> Count(PileAt(piles', q), x) == Count(PileAt(piles, q), x))
  {
    var piles' := PutOn(piles, it, p);
    forall q, x
      ensures Count(PileAt(piles', q), x) == Count(PileAt(piles, q), x) + if x == it && q == p then 1 else 0
    {
      StackCount(PileAt(piles, p), it, x);
    }
    forall q ensures Count(PileAt(piles', q), it) == if q == p then 1 else 0 {
      assert Count(PileAt(piles, q), it) == 0;
    }
    RestOfStack(PileAt(piles, p), it);
  }

  /** A sighted hero's move: first both pieces leave every pile ... */
  lemma LiftBothLifts(f: Floor)
    requires Settled(f)
    ensures Lifted(LiftBoth(f)) && SameOthers(f.piles, LiftBoth(f).piles)
  {
    TakeFromKeeps(f.piles, Chain, f.chain);
    if !f.carried {
      TakeFromKeeps(TakeFrom(f.piles, Chain, f.chain), Ball, f.ball);
    }
  }

  /** ... then each is in exactly one pile again, where the move put it. */
  lemma PutBothSettles(f: Floor, chainLast: bool, ball: Coord, chain: Coord)
    requires Lifted(f)
    ensures var f' := PutBoth(f, chainLast, ball, chain);
            && Settled(f') && SameOthers(f.piles, f'.piles)
            && f'.chain == chain && (!f.carried ==> f'.ball == ball)
  {
    PutOnKeeps(f.piles, Ball, ball);
    PutOnKeeps(f.piles, Chain, chain);
    if !f.carried {
      PutOnKeeps(PutOn(f.piles, Ball, ball), Chain, chain);
      PutOnKeeps(PutOn(f.piles, Chain, chain), Ball, ball);
    }
  }

  /** A blind hero's pieces shift one at a time and never leave the floor. */
  lemma ShiftSettles(f: Floor, it: Item, p: Coord)
    requires Settled(f)
    requires it == Chain || (it == Ball && !f.carried)
    ensures Settled(Shift(f, it, p)) && SameOthers(f.piles, Shift(f, it, p).piles)
  {
    TakeFromKeeps(f.piles, it, Where(f, it));
    PutOnKeeps(TakeFrom(f.piles, it, Where(f, it)), it, p);
  }

  lemma {:induction false} FirstOfContains(pile: seq<Item>)
    ensures FirstOf(pile) == Differ <==> Count(pile, Ball) == 0 && Count(pile, Chain) == 0
  {
    if pile != [] {
      FirstOfContains(pile[1..]);
    }
  }

  lemma FirstOfStack(pile: seq<Item>, it: Item)
    requires !it.Other?
    ensures FirstOf(Stack(pile, it)) == if it == Ball then BallOnTop else ChainOnTop
  {
    if BoulderOnTop(pile) {
      assert Stack(pile, it)[1..] == [it] + pile[1..];
    }
  }

  /** The pieces are recorded as apart exactly when the ball is carried or lies elsewhere. */
  lemma OrderDiffers(f: Floor)
    requires Settled(f)
    ensures OrderOf(f) == Differ <==> f.carried || f.ball != f.chain
  {
    if !f.carried {
      FirstOfContains(PileAt(f.piles, f.ball));
    }
  }

  /** Putting both pieces back where they were, the one that was on top last, keeps it on top. */
  lemma LiftPutKeepsOrder(f: Floor)
    requires Settled(f)
    ensures OrderOf(PutBoth(LiftBoth(f), OrderOf(f) == ChainOnTop, f.ball, f.chain)) == OrderOf(f)
  {
    if !f.carried {
      var up := LiftBoth(f);
      OrderDiffers(f);
      FirstOfStack(Stack(PileAt(up.piles, f.ball), Ball), Chain);
      FirstOfStack(Stack(PileAt(up.piles, f.ball), Chain), Ball);
    }
  }
}
