/** A closing or opening drawbridge and the two creatures it may catch (dbridge.c): what becomes of
    each, as a function of the dice. Creatures are monsters; the hero is not one of them here. */
module Drawbridge {
  import opened Geometry

  /** What the rules ask of a monster's kind and condition. saver: it wears an amulet of life saving
      that will work. */
  datatype Monster = Monster(
    id: nat, noncorporeal: bool, passesWalls: bool, swimmer: bool, flyer: bool, floater: bool, likesLava: bool,
    huge: bool, speed: nat, worm: bool, canMove: bool, asleep: bool, confused: bool, stunned: bool, saver: bool)

  /** struct entity: void when its edata is null. */
  datatype Record = Void | Live(mon: Monster, at: Coord)

  /** A living monster of the level's list whose cell of the grid another has taken. */
  datatype Hidden = Hidden(mon: Monster, at: Coord)

  /** The two occupant records, the level's monster grid, the monsters hidden from it, and the dice still
      to be thrown. */
  datatype World = World(occ: seq<Record>, grid: map<Coord, Monster>, hidden: seq<Hidden>, dice: seq<nat>)

  const DB_NORTH: bv8 := 0
  const DB_SOUTH: bv8 := 1
  const DB_EAST: bv8 := 2
  const DB_WEST: bv8 := 3
  const W_NONDIGGABLE: bv8 := 8

  function At(t: Terrain, p: Coord): Square {
    if p in t then t[p] else Square(0, 0)
  }

  predicate IsDrawbridge(sq: Square) {
    sq.typ == DRAWBRIDGE_UP || sq.typ == DRAWBRIDGE_DOWN
  }

  /** A drawbridge at p whose direction bits are dir. */
  predicate Faces(t: Terrain, p: Coord, dir: bv8) {
    IsDrawbridge(At(t, p)) && At(t, p).mask & DB_DIR == dir
  }

  /** The drawbridge that a door or raised-portcullis square belongs to: its four neighbours are asked
      in the order east, west, north, south. */
  function FindDrawbridge(t: Terrain, p: Coord): Option<Coord> {
    if IsDrawbridge(At(t, p)) then Some(p)
    else if At(t, p).typ != DOOR && At(t, p).typ != DBWALL then None
    else if Faces(t, Coord(p.x + 1, p.y), DB_WEST) then Some(Coord(p.x + 1, p.y))
    else if Faces(t, Coord(p.x - 1, p.y), DB_EAST) then Some(Coord(p.x - 1, p.y))
    else if Faces(t, Coord(p.x, p.y - 1), DB_SOUTH) then Some(Coord(p.x, p.y - 1))
    else if Faces(t, Coord(p.x, p.y + 1), DB_NORTH) then Some(Coord(p.x, p.y + 1))
    else None
  }

  function WallFor(t: Terrain, p: Coord): Coord {
    var dir := At(t, p).mask & DB_DIR;
    if dir == DB_NORTH then Coord(p.x, p.y - 1)
    else if dir == DB_SOUTH then Coord(p.x, p.y + 1)
    else if dir == DB_EAST then Coord(p.x + 1, p.y)
    else Coord(p.x - 1, p.y)
  }

  /** Another drawbridge, asked before this one, claims the same wall. */
  predicate ClaimedBefore(t: Terrain, b: Coord) {
    var p, dir := WallFor(t, b), At(t, b).mask & DB_DIR;
    var east := Faces(t, Coord(p.x + 1, p.y), DB_WEST);
    var west := Faces(t, Coord(p.x - 1, p.y), DB_EAST);
    var north := Faces(t, Coord(p.x, p.y - 1), DB_SOUTH);
    (dir == DB_EAST && east) || (dir == DB_SOUTH && (east || west)) || (dir == DB_NORTH && (east || west || north))
  }

  /** From a drawbridge to its wall and back again, exactly when no other drawbridge claims that wall
      first. */
  lemma WallRoundTripIff(t: Terrain, b: Coord)
    requires IsDrawbridge(At(t, b)) && At(t, WallFor(t, b)).typ in {DOOR, DBWALL}
    ensures FindDrawbridge(t, WallFor(t, b)) == Some(b) <==> !ClaimedBefore(t, b)
  {
    var dir := At(t, b).mask & DB_DIR;
    assert dir == DB_NORTH || dir == DB_SOUTH || dir == DB_EAST || dir == DB_WEST;
  }

  /** A drawbridge at b with its own wall, down with an open door or up with a closed portcullis. */
  ghost predicate Spans(t: Terrain, b: Coord) {
    && IsDrawbridge(At(t, b)) && b in t && WallFor(t, b) in t
    && At(t, WallFor(t, b)).typ in {DOOR, DBWALL}
    && FindDrawbridge(t, WallFor(t, b)) == Some(b)
  }

  /** The square a creature caught at p would be carried or jump to. */
  function Partner(t: Terrain, p: Coord): Coord {
    var q := FindDrawbridge(t, p).GetOr(p);
    if q == p then WallFor(t, p) else q
  }

  predicate Automiss(m: Monster) {
    m.passesWalls || m.noncorporeal
  }

  predicate Survives(t: Terrain, m: Monster, p: Coord)
    requires p in t
  {
    if m.noncorporeal then true
    else if IsPool(t, p) then m.swimmer || m.flyer || m.floater
    else if IsLava(t, p) then m.likesLava || m.flyer
    else if t[p].typ == DBWALL then m.passesWalls
    else true
  }

  /** "Won't budge". */
  predicate Immune(t: Terrain, r: Record)
    requires r.Live? ==> r.at in t
  {
    r.Live? && Automiss(r.mon) && Survives(t, r.mon, r.at)
  }

  /** How many of the eight faces miss. */
  function Misses(t: Terrain, m: Monster, p: Coord): int
    requires p in t
  {
    (if m.flyer && m.canMove && !m.asleep then 5 else if m.floater then 3 else 0)
    - (if t[p].typ == DBWALL then 3 else 0)
  }

  predicate Mobile(m: Monster) {
    m.canMove && !m.asleep && m.speed != 0 && !m.worm
  }

  function JumpChance(t: Terrain, m: Monster, p: Coord): int
    requires p in t
  {
    4 - (if m.confused then 2 else 0) - (if m.stunned then 3 else 0) - (if t[p].typ == DBWALL then 2 else 0)
  }

  /** rnd(x) from the next die. */
  function Rnd(dice: seq<nat>, x: nat): int
    requires dice != [] && x > 0
  {
    dice[0] % x + 1
  }

  /** How a caught creature fares before anyone else is asked. */
  datatype Fate = Stay | Crushed | Hold | Move

  /** A throw: the answer and the dice left, or None when they have run out. */
  type Throw<T> = Option<(T, seq<nat>)>

  function Missed(t: Terrain, m: Monster, p: Coord, dice: seq<nat>): Throw<bool>
    requires p in t
  {
    if Automiss(m) then Some((true, dice))
    else if dice == [] then None
    else Some((Misses(t, m, p) >= Rnd(dice, 8), dice[1..]))
  }

  function Jumps(t: Terrain, m: Monster, p: Coord, dice: seq<nat>): Throw<bool>
    requires p in t
  {
    if !Mobile(m) then Some((false, dice))
    else if dice == [] then None
    else Some((JumpChance(t, m, p) >= Rnd(dice, 10), dice[1..]))
  }

  function FateOf(t: Terrain, m: Monster, p: Coord, dice: seq<nat>): (f: Throw<Fate>)
    requires p in t
    ensures f.Some? ==> |f.value.1| <= |dice| && (!Automiss(m) ==> |f.value.1| < |dice|)
  {
    var portcullis := t[p].typ == DBWALL;
    match Missed(t, m, p, dice)
    case None => None
    case Some((missed, dice1)) =>
      if missed && Survives(t, m, p) then Some((Stay, dice1))
      else if missed && !portcullis then Some((Move, dice1))
      else if !missed && t[p].typ == DRAWBRIDGE_DOWN then Some((Crushed, dice1))
      else
        match Jumps(t, m, p, dice1)
        case None => None
        case Some((jumps, dice2)) =>
          Some((if portcullis then (if jumps then Move else Crushed) else (if jumps then Hold else Move), dice2))
  }

  /** e_at: the first live record at p. */
  function EntityAt(w: World, p: Coord): Option<nat>
    requires |w.occ| == 2
  {
    if w.occ[0].Live? && w.occ[0].at == p then Some(0)
    else if w.occ[1].Live? && w.occ[1].at == p then Some(1)
    else None
  }

  /** A death empties the record and the square, unless an amulet saves the monster: then it stays on
      its square, without record and without amulet. */
  function Die(w: World, e: nat): World
    requires |w.occ| == 2 && e < 2 && w.occ[e].Live?
  {
    var m, p, o := w.occ[e].mon, w.occ[e].at, 1 - e;
    var occ := w.occ[e := Void];
    w.(occ := if occ[o].Live? && occ[o].mon.id == m.id then occ[o := Void] else occ,
       grid := if m.saver then w.grid[p := m.(saver := false, canMove := true)] else w.grid - {p})
  }

  /** The grid cell at p is written over; a monster that was in it lives on, hidden. */
  function MoveTo(w: World, e: nat, p: Coord): World
    requires |w.occ| == 2 && e < 2 && w.occ[e].Live?
  {
    var r, left := w.occ[e], w.grid - {w.occ[e].at};
    w.(occ := w.occ[e := Live(r.mon, p)], grid := left[p := r.mon],
       hidden := if p in left then w.hidden + [Hidden(left[p], p)] else w.hidden)
  }

  /** Wherever it ended up, it survives there or dies. */
  function Land(t: Terrain, w: World, e: nat): World
    requires |w.occ| == 2 && e < 2 && w.occ[e].Live? && w.occ[e].at in t
  {
    if Survives(t, w.occ[e].mon, w.occ[e].at) then w else Die(w, e)
  }

  /** Live records stand on the bridge's two squares; they are of different monsters on different
      squares. */
  ghost predicate OnSpan(t: Terrain, b: Coord, w: World) {
    && |w.occ| == 2
    && (forall e | 0 <= e < 2 :: w.occ[e].Live? ==> w.occ[e].at in {b, WallFor(t, b)})
  }

  ghost predicate Apart(w: World)
    requires |w.occ| == 2
  {
    w.occ[0].Live? && w.occ[1].Live? ==> w.occ[0].at != w.occ[1].at && w.occ[0].mon.id != w.occ[1].mon.id
  }

  ghost predicate Safe(t: Terrain, r: Record) {
    r.Live? ==> r.at in t && Survives(t, r.mon, r.at)
  }

  /** The record is as it was, or has been dealt with: void, or the same monster somewhere it survives. */
  ghost predicate Settled(t: Terrain, was: Record, now: Record) {
    now == was || (Safe(t, now) && (now.Live? ==> was.Live? && now.mon == was.mon))
  }

  /** What every call of do_entity for record e keeps. */
  ghost predicate Resolved(t: Terrain, b: Coord, w: World, w': World, e: nat)
    requires |w.occ| == 2 && e < 2
  {
    && OnSpan(t, b, w') && Apart(w') && |w'.dice| <= |w.dice|
    && Safe(t, w'.occ[e]) && Settled(t, w.occ[e], w'.occ[e]) && Settled(t, w.occ[1 - e], w'.occ[1 - e])
    && (w.occ[e].Live? && !Automiss(w.occ[e].mon) ==> |w'.dice| < |w.dice|)
  }

  function Rank(r: Record): nat {
    if r.Live? && Automiss(r.mon) then 1 else 0
  }

  /** The two squares are each other's partner, and nothing that passes walls minds the second. */
  lemma SpanSquares(t: Terrain, b: Coord, r: Record)
    requires Spans(t, b)
    ensures var p := WallFor(t, b);
            b != p && Partner(t, b) == p && Partner(t, p) == b &&
            (r.Live? && r.at == p && Automiss(r.mon) ==> Immune(t, r))
  {
  }

  /** The creature goes to a free square q and lands. */
  function Arrive(t: Terrain, b: Coord, w: World, e: nat, q: Coord): (w': World)
    requires b in t && WallFor(t, b) in t && OnSpan(t, b, w) && e < 2 && Apart(w) && w.occ[e].Live?
    requires q in {b, WallFor(t, b)} && EntityAt(w, q).None?
    ensures OnSpan(t, b, w') && Apart(w') && w'.dice == w.dice && Safe(t, w'.occ[e])
    ensures w'.occ[e].Live? ==> w'.occ[e].mon == w.occ[e].mon
    ensures w'.occ[1 - e] == w.occ[1 - e]
  {
    Land(t, MoveTo(w, e, q), e)
  }

  /** do_entity. None: the dice ran out, so this was not a whole run. */
  function DoEntity(t: Terrain, b: Coord, w: World, e: nat): (r: Option<World>)
    requires Spans(t, b) && OnSpan(t, b, w) && e < 2
    requires Apart(w) || Immune(t, w.occ[e])
    ensures r.Some? && Apart(w) ==> Resolved(t, b, w, r.value, e)
    decreases |w.dice|, Rank(w.occ[e]), 2
  {
    SpanSquares(t, b, w.occ[e]);
    if w.occ[e].Void? || Immune(t, w.occ[e]) then Some(w)
    else
      var m, p := w.occ[e].mon, w.occ[e].at;
      match FateOf(t, m, p, w.dice)
      case None => None
      case Some((fate, dice)) =>
        var w1 := w.(dice := dice);
        match fate
        case Stay => Some(w1)
        case Crushed => Some(Die(w1, e))
        case Hold => Some(Land(t, w1, e))
        case Move => Relocate(t, b, w1, e, |w.dice|)
  }

  /** The attempt to change squares: held up only by someone who will not budge. bound is how many
      dice there were before the creature's own throws. */
  function Relocate(t: Terrain, b: Coord, w: World, e: nat, ghost bound: nat): (r: Option<World>)
    requires Spans(t, b) && OnSpan(t, b, w) && e < 2 && Apart(w)
    requires w.occ[e].Live? && !Immune(t, w.occ[e])
    requires |w.dice| < bound || (|w.dice| == bound && Automiss(w.occ[e].mon))
    ensures r.Some? ==>
      && OnSpan(t, b, r.value) && Apart(r.value) && |r.value.dice| <= |w.dice| && Safe(t, r.value.occ[e])
      && Settled(t, w.occ[e], r.value.occ[e]) && Settled(t, w.occ[1 - e], r.value.occ[1 - e])
    decreases bound, Rank(w.occ[e]), 1
  {
    SpanSquares(t, b, w.occ[e]);
    SpanSquares(t, b, w.occ[1 - e]);
    var p := w.occ[e].at;
    var q := Partner(t, p);
    if EntityAt(w, q).None? then Some(Arrive(t, b, w, e, q))
    else if Immune(t, w.occ[1 - e]) then Some(Land(t, w, e))
    else
      match Clear(t, b, w, 1 - e, q)
      case None => None
      case Some(w') =>
        if EntityAt(w', p) != Some(e) then Some(w') else Some(Arrive(t, b, w', e, q))
  }

  /** The standoff: the other creature acts until it has left q. */
  function Clear(t: Terrain, b: Coord, w: World, o: nat, q: Coord): (r: Option<World>)
    requires Spans(t, b) && OnSpan(t, b, w) && o < 2 && Apart(w)
    requires w.occ[o].Live? && w.occ[o].at == q && !Immune(t, w.occ[o])
    ensures r.Some? ==>
      && OnSpan(t, b, r.value) && Apart(r.value) && |r.value.dice| <= |w.dice|
      && EntityAt(r.value, q) != Some(o)
      && Settled(t, w.occ[o], r.value.occ[o]) && Settled(t, w.occ[1 - o], r.value.occ[1 - o])
    decreases |w.dice|, Rank(w.occ[o]), 3
  {
    match DoEntity(t, b, w, o)
    case None => None
    case Some(w') =>
      if EntityAt(w', q) == Some(o) then Clear(t, b, w', o, q) else Some(w')
  }

  // ----- closing the bridge -----

  function CloseTerrain(t: Terrain, b: Coord): Terrain {
    t[b := Square(DRAWBRIDGE_UP, At(t, b).mask)][WallFor(t, b) := Square(DBWALL, W_NONDIGGABLE)]
  }

  ghost predicate Closed(t: Terrain, b: Coord) {
    Spans(t, b) && t[b].typ == DRAWBRIDGE_UP && t[WallFor(t, b)].typ == DBWALL
  }

  lemma CloseTerrainSpans(t: Terrain, b: Coord)
    requires Spans(t, b)
    ensures Closed(CloseTerrain(t, b), b) && WallFor(CloseTerrain(t, b), b) == WallFor(t, b)
  {
    var t', p := CloseTerrain(t, b), WallFor(t, b);
    assert b != p;
    assert forall q, dir :: q != p ==> (Faces(t', q, dir) <==> Faces(t, q, dir));
  }

  function Occupant(grid: map<Coord, Monster>, p: Coord): Record {
    if p in grid then Live(grid[p], p) else Void
  }

  /** The monsters on the two squares are two monsters. */
  ghost predicate TwoMonsters(grid: map<Coord, Monster>, b: Coord, p: Coord) {
    b in grid && p in grid ==> grid[b].id != grid[p].id
  }

  /** Both occupants are looked up, the one on the bridge acts, the one at the portcullis is looked up
      again and acts. */
  function Close(t: Terrain, b: Coord, grid: map<Coord, Monster>, dice: seq<nat>): Option<World>
    requires Closed(t, b) && TwoMonsters(grid, b, WallFor(t, b))
  {
    var p := WallFor(t, b);
    var w := World([Occupant(grid, b), Occupant(grid, p)], grid, [], dice);
    SpanSquares(t, b, Void);
    match DoEntity(t, b, w, 0)
    case None => None
    case Some(w1) =>
      FirstActKeeps(t, b, w);
      var w2 := w1.(occ := w1.occ[1 := Occupant(w1.grid, p)]);
      DoEntity(t, b, w2, 1)
  }

  /** Live records agree with the grid, and the two squares hold two monsters. */
  ghost predicate Mapped(t: Terrain, b: Coord, w: World)
    requires |w.occ| == 2
  {
    && (forall e | 0 <= e < 2 :: w.occ[e].Live? ==> w.occ[e].at in w.grid && w.grid[w.occ[e].at] == w.occ[e].mon)
    && TwoMonsters(w.grid, b, WallFor(t, b))
  }

  /** A vulnerable monster on the portcullis square (an amulet wearer, or any when all is true) has a
      live record there. */
  ghost predicate Owned(t: Terrain, b: Coord, w: World, all: bool)
    requires |w.occ| == 2
  {
    var p := WallFor(t, b);
    p in w.grid && !Automiss(w.grid[p]) && (all || w.grid[p].saver) ==> EntityAt(w, p).Some?
  }

  ghost predicate NoSavers(w: World)
    requires |w.occ| == 2
  {
    forall e | 0 <= e < 2 :: w.occ[e].Live? && !Automiss(w.occ[e].mon) ==> !w.occ[e].mon.saver
  }

  /** Whoever is on the two squares is the monster m itself, or has one of the given names. */
  ghost predicate Familiar(t: Terrain, b: Coord, w: World, m: Monster, ids: set<nat>) {
    forall q :: q in {b, WallFor(t, b)} && q in w.grid ==> w.grid[q] == m || w.grid[q].id in ids
  }

  /** What is watched for: owned(all), familiar(m, ids), and openness. */
  datatype Watch = Watch(all: bool, m: Monster, ids: set<nat>, open: bool)

  ghost predicate Tracked(t: Terrain, b: Coord, w: World, k: Watch)
    requires |w.occ| == 2
  {
    Mapped(t, b, w) && Owned(t, b, w, k.all) && (k.all ==> NoSavers(w)) && Familiar(t, b, w, k.m, k.ids) && !k.m.saver
  }

  /** Nobody is hidden in the portcullis, nor can be: whoever is there has a live record, unless all is
      over, and is not to be killed and saved there. */
  ghost predicate Open(t: Terrain, b: Coord, w: World)
    requires |w.occ| == 2
  {
    var p := WallFor(t, b);
    && (forall i :: 0 <= i < |w.hidden| ==> w.hidden[i].at != p)
    && (p in w.grid ==> EntityAt(w, p).Some? || (w.occ[0].Void? && w.occ[1].Void?))
    && (forall e | 0 <= e < 2 :: w.occ[e].Live? && w.occ[e].at == p ==> Automiss(w.occ[e].mon) || !w.occ[e].mon.saver)
  }

  ghost predicate Watched(t: Terrain, b: Coord, w: World, k: Watch)
    requires |w.occ| == 2
  {
    Tracked(t, b, w, k) && (k.open ==> Open(t, b, w))
  }

  lemma DieTracked(t: Terrain, b: Coord, w: World, e: nat, k: Watch)
    requires Spans(t, b) && OnSpan(t, b, w) && Apart(w) && e < 2 && w.occ[e].Live?
    requires Tracked(t, b, w, k)
    ensures Tracked(t, b, Die(w, e), k)
  {
    SpanSquares(t, b, w.occ[e]);
    assert w.occ[1 - e].Live? ==> w.occ[1 - e].at != w.occ[e].at;
  }

  lemma MoveTracked(t: Terrain, b: Coord, w: World, e: nat, q: Coord, k: Watch)
    requires Spans(t, b) && OnSpan(t, b, w) && Apart(w) && e < 2 && w.occ[e].Live?
    requires q in {b, WallFor(t, b)} && EntityAt(w, q).None?
    requires Tracked(t, b, w, k)
    ensures Tracked(t, b, MoveTo(w, e, q), k)
  {
    SpanSquares(t, b, w.occ[e]);
    assert w.occ[1 - e].Void?;
  }

  lemma ArriveTracked(t: Terrain, b: Coord, w: World, e: nat, q: Coord, k: Watch)
    requires Spans(t, b) && OnSpan(t, b, w) && Apart(w) && e < 2 && w.occ[e].Live?
    requires q in {b, WallFor(t, b)} && EntityAt(w, q).None?
    requires Tracked(t, b, w, k)
    ensures Tracked(t, b, Arrive(t, b, w, e, q), k)
  {
    MoveTracked(t, b, w, e, q, k);
    var w' := MoveTo(w, e, q);
    if !Survives(t, w'.occ[e].mon, q) {
      DieTracked(t, b, w', e, k);
    }
  }

  /** Who dies in an open portcullis leaves it. */
  lemma DieOpen(t: Terrain, b: Coord, w: World, e: nat, k: Watch)
    requires Spans(t, b) && OnSpan(t, b, w) && Apart(w) && e < 2 && w.occ[e].Live?
    requires Tracked(t, b, w, k) && Open(t, b, w)
    requires Automiss(w.occ[e].mon) ==> w.occ[e].at == b
    ensures Open(t, b, Die(w, e))
  {
    SpanSquares(t, b, w.occ[e]);
  }

  /** Who arrives finds nobody unrecorded there; and if it dies there and is saved, all is over. */
  lemma ArriveOpen(t: Terrain, b: Coord, w: World, e: nat, q: Coord)
    requires Closed(t, b) && OnSpan(t, b, w) && Apart(w) && e < 2 && w.occ[e].Live?
    requires q in {b, WallFor(t, b)} && EntityAt(w, q).None?
    requires Open(t, b, w)
    ensures Open(t, b, Arrive(t, b, w, e, q))
  {
    SpanSquares(t, b, w.occ[e]);
    assert w.occ[1 - e].Void?;
  }

  lemma DieKeepsTrack(t: Terrain, b: Coord, w: World, e: nat, k: Watch)
    requires Spans(t, b) && OnSpan(t, b, w) && Apart(w) && e < 2 && w.occ[e].Live?
    requires Automiss(w.occ[e].mon) ==> w.occ[e].at == b
    requires Watched(t, b, w, k)
    ensures Watched(t, b, Die(w, e), k)
  {
    DieTracked(t, b, w, e, k);
    if k.open {
      DieOpen(t, b, w, e, k);
    }
  }

  lemma ArriveKeepsTrack(t: Terrain, b: Coord, w: World, e: nat, q: Coord, k: Watch)
    requires Closed(t, b) && OnSpan(t, b, w) && Apart(w) && e < 2 && w.occ[e].Live?
    requires q in {b, WallFor(t, b)} && EntityAt(w, q).None?
    requires Watched(t, b, w, k)
    ensures Watched(t, b, Arrive(t, b, w, e, q), k)
  {
    ArriveTracked(t, b, w, e, q, k);
    if k.open {
      ArriveOpen(t, b, w, e, q);
    }
  }

  lemma {:induction false} DoEntityKeepsTrack(t: Terrain, b: Coord, w: World, e: nat, k: Watch)
    requires Closed(t, b) && OnSpan(t, b, w) && e < 2 && Apart(w)
    requires Watched(t, b, w, k)
    ensures var r := DoEntity(t, b, w, e); r.Some? ==> Watched(t, b, r.value, k)
    decreases |w.dice|, Rank(w.occ[e]), 2
  {
    SpanSquares(t, b, w.occ[e]);
    if w.occ[e].Live? && !Immune(t, w.occ[e]) {
      var f := FateOf(t, w.occ[e].mon, w.occ[e].at, w.dice);
      if f.Some? {
        var w1 := w.(dice := f.value.1);
        if f.value.0 == Move {
          RelocateKeepsTrack(t, b, w1, e, |w.dice|, k);
        } else {
          DieKeepsTrack(t, b, w1, e, k);
        }
      }
    }
  }

  lemma {:induction false} RelocateKeepsTrack(t: Terrain, b: Coord, w: World, e: nat, bound: nat, k: Watch)
    requires Closed(t, b) && OnSpan(t, b, w) && e < 2 && Apart(w)
    requires w.occ[e].Live? && !Immune(t, w.occ[e])
    requires |w.dice| < bound || (|w.dice| == bound && Automiss(w.occ[e].mon))
    requires Watched(t, b, w, k)
    ensures var r := Relocate(t, b, w, e, bound); r.Some? ==> Watched(t, b, r.value, k)
    decreases bound, Rank(w.occ[e]), 1
  {
    SpanSquares(t, b, w.occ[e]);
    SpanSquares(t, b, w.occ[1 - e]);
    var p := w.occ[e].at;
    var q := Partner(t, p);
    if EntityAt(w, q).None? {
      ArriveKeepsTrack(t, b, w, e, q, k);
    } else if Immune(t, w.occ[1 - e]) {
      DieKeepsTrack(t, b, w, e, k);
    } else {
      ClearKeepsTrack(t, b, w, 1 - e, q, k);
      var r := Clear(t, b, w, 1 - e, q);
      if r.Some? && EntityAt(r.value, p) == Some(e) {
        ArriveKeepsTrack(t, b, r.value, e, q, k);
      }
    }
  }

  lemma {:induction false} ClearKeepsTrack(t: Terrain, b: Coord, w: World, o: nat, q: Coord, k: Watch)
    requires Closed(t, b) && OnSpan(t, b, w) && o < 2 && Apart(w)
    requires w.occ[o].Live? && w.occ[o].at == q && !Immune(t, w.occ[o])
    requires Watched(t, b, w, k)
    ensures var r := Clear(t, b, w, o, q); r.Some? ==> Watched(t, b, r.value, k)
    decreases |w.dice|, Rank(w.occ[o]), 3
  {
    DoEntityKeepsTrack(t, b, w, o, k);
    var r := DoEntity(t, b, w, o);
    if r.Some? && EntityAt(r.value, q) == Some(o) {
      ClearKeepsTrack(t, b, r.value, o, q, k);
    }
  }

  const NOBODY := Monster(0, false, false, false, false, false, false, false, 0, false, false, false, false, false, false)

  function Ids(grid: map<Coord, Monster>, b: Coord, p: Coord): set<nat> {
    (if b in grid then {grid[b].id} else {}) + (if p in grid then {grid[p].id} else {})
  }

  lemma FirstActKeeps(t: Terrain, b: Coord, w: World)
    requires Closed(t, b) && TwoMonsters(w.grid, b, WallFor(t, b))
    requires w.occ == [Occupant(w.grid, b), Occupant(w.grid, WallFor(t, b))]
    ensures var r := DoEntity(t, b, w, 0);
            r.Some? ==>
              var p := WallFor(t, b);
              var w2 := r.value.(occ := r.value.occ[1 := Occupant(r.value.grid, p)]);
              && OnSpan(t, b, w2) && (Apart(w2) || Immune(t, w2.occ[1])) && Mapped(t, b, w2)
              && (!Immune(t, w2.occ[1]) && w2.occ[0].Live? ==> w2.occ[0].at == b)
  {
    SpanSquares(t, b, Void);
    DoEntityKeepsTrack(t, b, w, 0, Watch(false, NOBODY, Ids(w.grid, b, WallFor(t, b)), false));
  }
}
