/** Level squares and the two distances the game measures them with (hacklib.c), the terrain
    codes and masks of rm.h, and the terrain tests shared by the modules. */
module Geometry {

  datatype Option<+T> = None | Some(value: T) {
    function GetOr(default: T): T {
      if None? then default else value
    }
  }

  datatype Coord = Coord(x: int, y: int)

  const COLNO := 80
  const ROWNO := 21

  predicate IsOk(p: Coord) {
    1 <= p.x <= COLNO - 1 && 0 <= p.y <= ROWNO - 1
  }

  function Abs(n: int): nat {
    if n < 0 then -n else n
  }

  function DistMin(p: Coord, q: Coord): nat {
    var dx, dy := Abs(p.x - q.x), Abs(p.y - q.y);
    if dx < dy then dy else dx
  }

  function Dist2(p: Coord, q: Coord): int {
    (p.x - q.x) * (p.x - q.x) + (p.y - q.y) * (p.y - q.y)
  }

  /** Within two king-steps the squared distance takes six values, and each one fixes the shape of
      the offset. */
  lemma Dist2Shape(p: Coord, q: Coord)
    requires DistMin(p, q) <= 2
    ensures Dist2(p, q) in {0, 1, 2, 4, 5, 8}
    ensures DistMin(p, q) <= 1 <==> Dist2(p, q) <= 2
    ensures Dist2(p, q) == 8 <==> Abs(p.x - q.x) == 2 && Abs(p.y - q.y) == 2
    ensures Dist2(p, q) == 5 <==> Abs(p.x - q.x) + Abs(p.y - q.y) == 3
    ensures Dist2(p, q) == 4 <==> Abs(p.x - q.x) + Abs(p.y - q.y) == 2 && (p.x == q.x || p.y == q.y)
    ensures Dist2(p, q) == 2 <==> Abs(p.x - q.x) == 1 && Abs(p.y - q.y) == 1
    ensures Dist2(p, q) == 1 <==> Abs(p.x - q.x) + Abs(p.y - q.y) == 1
  {
    var dx, dy := p.x - q.x, p.y - q.y;
    assert dx == -2 || dx == -1 || dx == 0 || dx == 1 || dx == 2;
    assert dy == -2 || dy == -1 || dy == 0 || dy == 1 || dy == 2;
  }

  lemma FarDist2(p: Coord, q: Coord)
    requires DistMin(p, q) > 2
    ensures Dist2(p, q) > 8
  {
    var dx, dy := Abs(p.x - q.x), Abs(p.y - q.y);
    assert Dist2(p, q) == dx * dx + dy * dy;
    if dx > 2 {
      assert dx * dx >= 3 * dx;
    } else {
      assert dy * dy >= 3 * dy;
    }
  }

  /** Adjacency (one king-step) is squared distance at most two, at any range. */
  lemma AdjacentIffDist2(p: Coord, q: Coord)
    ensures DistMin(p, q) <= 1 <==> Dist2(p, q) <= 2
  {
    if DistMin(p, q) <= 2 {
      Dist2Shape(p, q);
    } else {
      FarDist2(p, q);
    }
  }

  // Location types (rm.h), as the codes the source compares.
  const DBWALL := 12
  const POOL := 17
  const MOAT := 18
  const WATER := 19
  const DRAWBRIDGE_UP := 20
  const LAVAPOOL := 21
  const DOOR := 23
  const DRAWBRIDGE_DOWN := 35

  // Door and drawbridge bits of the shared flags field.
  const D_CLOSED: bv8 := 4
  const D_LOCKED: bv8 := 8
  const DB_DIR: bv8 := 3
  const DB_UNDER: bv8 := 28
  const DB_MOAT: bv8 := 0
  const DB_LAVA: bv8 := 4

  /** What is really there: the location type and the flags that doormask and drawbridgemask share. */
  datatype Square = Square(typ: int, mask: bv8)

  type Terrain = map<Coord, Square>

  ghost predicate Charted(t: Terrain) {
    forall p :: IsOk(p) ==> p in t
  }

  predicate IsPool(t: Terrain, p: Coord)
    requires p in t
  {
    t[p].typ in {POOL, MOAT, WATER} || (t[p].typ == DRAWBRIDGE_UP && t[p].mask & DB_UNDER == DB_MOAT)
  }

  predicate IsLava(t: Terrain, p: Coord)
    requires p in t
  {
    t[p].typ == LAVAPOOL || (t[p].typ == DRAWBRIDGE_UP && t[p].mask & DB_UNDER == DB_LAVA)
  }
}
