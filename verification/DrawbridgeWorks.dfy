/** dbridge.c's own form: two occupant records, the level and the dice, updated in place. */
module DrawbridgeWorks {
  import opened Geometry
  import opened Drawbridge
  import opened DrawbridgeSafety

  datatype Closing = Blocked | Jammed | OutOfDice | Shut

  class Works {
    var terrain: Terrain
    var occupants: seq<Record>
    var grid: map<Coord, Monster>
    var dice: seq<nat>

    /** Which living monsters have lost their cell of the grid since the bridge began to move. */
    ghost var hidden: seq<Hidden>

    ghost function Snap(): World
      reads this
    {
      World(occupants, grid, hidden, dice)
    }

    /** e_at */
    method FindEntity(p: Coord) returns (e: Option<nat>)
      requires |occupants| == 2
      ensures e == EntityAt(Snap(), p)
    {
      var i := 0;
      while i < 2
        invariant 0 <= i <= 2
        invariant forall k :: 0 <= k < i ==> !(occupants[k].Live? && occupants[k].at == p)
      {
        if occupants[i].Live? && occupants[i].at == p {
          return Some(i);
        }
        i := i + 1;
      }
      return None;
    }

    method SetEntity(p: Coord, e: nat)
      requires |occupants| == 2 && e < 2
      modifies this`occupants
      ensures occupants == old(occupants)[e := Occupant(grid, p)]
    {
      occupants := occupants[e := if p in grid then Live(grid[p], p) else Void];
    }

    method KillEntity(e: nat)
      requires |occupants| == 2 && e < 2 && occupants[e].Live?
      modifies this`occupants, this`grid
      ensures Snap() == Die(old(Snap()), e)
    {
      var m, p := occupants[e].mon, occupants[e].at;
      if m.saver {
        grid := grid[p := m.(saver := false, canMove := true)];
      } else {
        grid := grid - {p};
      }
      occupants := occupants[e := Void];
      var i := 0;
      while i < 2
        invariant 0 <= i <= 2 && |occupants| == 2
        invariant grid == Die(old(Snap()), e).grid && occupants[e] == Void
        invariant occupants[1 - e] == if i <= 1 - e then old(occupants)[1 - e] else Die(old(Snap()), e).occ[1 - e]
      {
        if i != e && occupants[i].Live? && occupants[i].mon.id == m.id {
          occupants := occupants[i := Void];
        }
        i := i + 1;
      }
    }

    /** rnd(x); false when the dice have run out. */
    method Throw(x: nat) returns (ok: bool, n: int)
      requires x > 0
      modifies this`dice
      ensures ok <==> old(dice) != []
      ensures ok ==> n == Rnd(old(dice), x) && dice == old(dice)[1..]
      ensures !ok ==> dice == old(dice)
    {
      if dice == [] {
        return false, 0;
      }
      n := dice[0] % x + 1;
      dice := dice[1..];
      return true, n;
    }

    method MissesEntity(m: Monster, p: Coord) returns (ok: bool, missed: bool)
      requires p in terrain
      modifies this`dice
      ensures if ok then Missed(terrain, m, p, old(dice)) == Some((missed, dice))
              else Missed(terrain, m, p, old(dice)).None?
    {
      if Automiss(m) {
        return true, true;
      }
      var misses := 0;
      if m.flyer && m.canMove && !m.asleep {
        misses := 5;
      } else if m.floater {
        misses := 3;
      }
      if terrain[p].typ == DBWALL {
        misses := misses - 3;
      }
      var n;
      ok, n := Throw(8);
      missed := misses >= n;
    }

    method EntityJumps(m: Monster, p: Coord) returns (ok: bool, jumps: bool)
      requires p in terrain
      modifies this`dice
      ensures if ok then Jumps(terrain, m, p, old(dice)) == Some((jumps, dice))
              else Jumps(terrain, m, p, old(dice)).None?
    {
      if !m.canMove || m.asleep || m.speed == 0 || m.worm {
        return true, false;
      }
      var tmp := 4;
      if m.confused {
        tmp := tmp - 2;
      }
      if m.stunned {
        tmp := tmp - 3;
      }
      if terrain[p].typ == DBWALL {
        tmp := tmp - 2;
      }
      var n;
      ok, n := Throw(10);
      jumps := tmp >= n;
    }

    method LandEntity(e: nat)
      requires |occupants| == 2 && e < 2 && occupants[e].Live? && occupants[e].at in terrain
      modifies this`occupants, this`grid
      ensures Snap() == Land(terrain, old(Snap()), e)
    {
      if !Survives(terrain, occupants[e].mon, occupants[e].at) {
        KillEntity(e);
      }
    }

    method PlaceEntity(e: nat, q: Coord)
      requires |occupants| == 2 && e < 2 && occupants[e].Live?
      modifies this`occupants, this`grid, this`hidden
      ensures Snap() == MoveTo(old(Snap()), e, q)
    {
      grid := grid - {occupants[e].at};
      hidden := if q in grid then hidden + [Hidden(grid[q], q)] else hidden;
      grid := grid[q := occupants[e].mon];
      occupants := occupants[e := Live(occupants[e].mon, q)];
    }

    /** Whether, and how, the creature means to change squares. */
    method Decide(m: Monster, p: Coord) returns (ok: bool, fate: Fate)
      requires p in terrain
      modifies this`dice
      ensures if ok then FateOf(terrain, m, p, old(dice)) == Some((fate, dice))
              else FateOf(terrain, m, p, old(dice)).None?
    {
      var atPortcullis := terrain[p].typ == DBWALL;
      var missed, jumps;
      fate := Stay;
      ok, missed := MissesEntity(m, p);
      if !ok {
        return;
      }
      if missed {
        if Survives(terrain, m, p) {
          return;
        }
        if !atPortcullis {
          fate := Move;
          return;
        }
      } else if terrain[p].typ == DRAWBRIDGE_DOWN {
        fate := Crushed;
        return;
      }
      ok, jumps := EntityJumps(m, p);
      if atPortcullis {
        fate := if jumps then Move else Crushed;
      } else {
        fate := if jumps then Hold else Move;
      }
    }

    /** do_entity; ok is false when the dice ran out before it was over. */
    method DoEntity(b: Coord, e: nat) returns (ok: bool)
      requires Spans(terrain, b) && OnSpan(terrain, b, Snap()) && e < 2
      requires Apart(Snap()) || Immune(terrain, occupants[e])
      modifies this`occupants, this`grid, this`hidden, this`dice
      ensures ok ==> Drawbridge.DoEntity(terrain, b, old(Snap()), e) == Some(Snap())
      ensures !ok ==> Drawbridge.DoEntity(terrain, b, old(Snap()), e).None?
      decreases |dice|, Rank(occupants[e]), 2
    {
      SpanSquares(terrain, b, occupants[e]);
      if occupants[e].Void? || Immune(terrain, occupants[e]) {
        return true;
      }
      ghost var bound := |dice|;
      var fate;
      ok, fate := Decide(occupants[e].mon, occupants[e].at);
      if !ok || fate == Stay {
        return;
      }
      if fate == Crushed {
        KillEntity(e);
      } else if fate == Hold {
        LandEntity(e);
      } else {
        ok := RelocateEntity(b, e, bound);
      }
    }

    method RelocateEntity(b: Coord, e: nat, ghost bound: nat) returns (ok: bool)
      requires Spans(terrain, b) && OnSpan(terrain, b, Snap()) && e < 2 && Apart(Snap())
      requires occupants[e].Live? && !Immune(terrain, occupants[e])
      requires |dice| < bound || (|dice| == bound && Automiss(occupants[e].mon))
      modifies this`occupants, this`grid, this`hidden, this`dice
      ensures ok ==> Relocate(terrain, b, old(Snap()), e, bound) == Some(Snap())
      ensures !ok ==> Relocate(terrain, b, old(Snap()), e, bound).None?
      decreases bound, Rank(occupants[e]), 1
    {
      SpanSquares(terrain, b, occupants[e]);
      SpanSquares(terrain, b, occupants[1 - e]);
      var p := occupants[e].at;
      var q := OtherSquare(p);
      var relocates, here := true, Some(e);
      var there := FindEntity(q);
      if there.Some? {
        var other := there.value;
        if Survives(terrain, occupants[other].mon, q) && Automiss(occupants[other].mon) {
          relocates := false;
        } else {
          ok := ClearEntity(b, other, q);
          if !ok {
            return;
          }
          here := FindEntity(p);
        }
      }
      if here == Some(e) {
        FinishEntity(e, q, relocates);
      }
      return true;
    }

    /** Where the creature would go. */
    method OtherSquare(p: Coord) returns (q: Coord)
      ensures q == Partner(terrain, p)
    {
      q := p;
      var bridge := FindDrawbridge(terrain, p);
      if bridge.Some? {
        q := bridge.value;
      }
      if q == p {
        q := WallFor(terrain, q);
      }
    }

    /** It goes there if it means to and the square is free, and lands where it is. */
    method FinishEntity(e: nat, q: Coord, relocates: bool)
      requires |occupants| == 2 && e < 2 && occupants[e].Live? && occupants[e].at in terrain && q in terrain
      modifies this`occupants, this`grid, this`hidden
      ensures var w := old(Snap());
              Snap() == Land(terrain, if relocates && EntityAt(w, q).None? then MoveTo(w, e, q) else w, e)
    {
      var there := FindEntity(q);
      if relocates && there.None? {
        PlaceEntity(e, q);
      }
      LandEntity(e);
    }

    /** The loop of the standoff. */
    method ClearEntity(b: Coord, o: nat, q: Coord) returns (ok: bool)
      requires Spans(terrain, b) && OnSpan(terrain, b, Snap()) && o < 2 && Apart(Snap())
      requires occupants[o].Live? && occupants[o].at == q && !Immune(terrain, occupants[o])
      modifies this`occupants, this`grid, this`hidden, this`dice
      ensures ok ==> Clear(terrain, b, old(Snap()), o, q) == Some(Snap())
      ensures !ok ==> Clear(terrain, b, old(Snap()), o, q).None?
      decreases |dice|, Rank(occupants[o]), 3
    {
      ghost var r := Clear(terrain, b, Snap(), o, q);
      var there := Some(o);
      while there == Some(o)
        invariant OnSpan(terrain, b, Snap()) && Apart(Snap()) && there == EntityAt(Snap(), q)
        invariant there == Some(o) ==> !Immune(terrain, occupants[o]) && Clear(terrain, b, Snap(), o, q) == r
        invariant there == Some(o) ==>
          |dice| < old(|dice|) || (|dice| == old(|dice|) && Rank(occupants[o]) <= old(Rank(occupants[o])))
        invariant there != Some(o) ==> r == Some(Snap())
        decreases if there == Some(o) then 1 else 0, |dice|
      {
        ok := DoEntity(b, o);
        if !ok {
          return;
        }
        there := FindEntity(q);
      }
      return true;
    }

    /** close_drawbridge: a huge monster on the span blocks it, and one time in five it jams. */
    method CloseDrawbridge(b: Coord) returns (c: Closing)
      requires Spans(terrain, b) && TwoMonsters(grid, b, WallFor(terrain, b)) && terrain[b].typ == DRAWBRIDGE_DOWN
      requires |occupants| == 2
      modifies this
      ensures c.Blocked? <==> b in old(grid) && old(grid)[b].huge
      ensures c.Blocked? || c.Jammed? ==> terrain == old(terrain) && grid == old(grid)
      ensures c.Jammed? ==> old(dice) != [] && old(dice)[0] % 5 == 0
      ensures c.Shut? ==>
        && terrain == CloseTerrain(old(terrain), b) && Closed(terrain, b) && old(dice) != []
        && Close(terrain, b, old(grid), old(dice)[1..]) == Some(Snap())
      ensures c.Shut? && !Endangered(terrain, b, old(grid)) ==> Clean(terrain, b, Snap())
    {
      if b in grid && grid[b].huge {
        return Blocked;
      }
      var ok, n := Throw(5);
      if !ok {
        return OutOfDice;
      }
      if n == 1 {
        return Jammed;
      }
      var p := WallFor(terrain, b);
      CloseTerrainSpans(terrain, b);
      terrain := terrain[b := Square(DRAWBRIDGE_UP, At(terrain, b).mask)][p := Square(DBWALL, W_NONDIGGABLE)];
      SpanSquares(terrain, b, Void);
      hidden := [];
      SetEntity(b, 0);
      SetEntity(p, 1);
      ghost var w := Snap();
      FirstActKeeps(terrain, b, w);
      if !Endangered(terrain, b, grid) {
        SafeUnlessEndangered(terrain, b, grid, dice);
      }
      ok := DoEntity(b, 0);
      if !ok {
        return OutOfDice;
      }
      SetEntity(p, 1);
      ok := DoEntity(b, 1);
      return if ok then Shut else OutOfDice;
    }
  }
}
