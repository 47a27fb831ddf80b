/** Exactly when a closing drawbridge is sure to leave nobody vulnerable alive in the portcullis. */
module DrawbridgeSafety {
  import opened Geometry
  import opened Drawbridge

  /** Whoever is left alive on the portcullis square, in the grid or hidden from it, passes walls or has no
      body. */
  ghost predicate Clean(t: Terrain, b: Coord, w: World) {
    && CleanCell(t, b, w)
    && (forall i :: 0 <= i < |w.hidden| && w.hidden[i].at == WallFor(t, b) ==> Automiss(w.hidden[i].mon))
  }

  ghost predicate CleanCell(t: Terrain, b: Coord, w: World) {
    var p := WallFor(t, b);
    p in w.grid ==> Automiss(w.grid[p])
  }

  predicate CanJump(t: Terrain, m: Monster, p: Coord)
    requires p in t
  {
    Mobile(m) && JumpChance(t, m, p) > 0
  }

  /** No throw of the dice keeps this monster on the bridge square: it always makes for the portcullis. */
  predicate Rams(t: Terrain, m: Monster, b: Coord)
    requires b in t
  {
    if Automiss(m) then !Survives(t, m, b)
    else !(Misses(t, m, b) > 0 && Survives(t, m, b)) && !CanJump(t, m, b)
  }

  /** Life saving can leave somebody in the portcullis: a vulnerable wearer there; or a vulnerable wearer who
      can wait on the bridge for the one at the portcullis to jump. */
  predicate Endangered(t: Terrain, b: Coord, grid: map<Coord, Monster>)
    requires b in t && WallFor(t, b) in t
  {
    var p := WallFor(t, b);
    p in grid && !Automiss(grid[p]) &&
    (grid[p].saver ||
     (b in grid && !Automiss(grid[b]) && grid[b].saver && Survives(t, grid[b], b) && !Rams(t, grid[b], b)
      && CanJump(t, grid[p], p)))
  }

  /** A rammer leaves the bridge square, and whoever was vulnerable at the portcullis leaves that. */
  lemma RammerLeaves(t: Terrain, b: Coord, w: World)
    requires Closed(t, b) && OnSpan(t, b, w) && Apart(w)
    requires w.occ[0].Live? && w.occ[0].at == b && Rams(t, w.occ[0].mon, b)
    requires w.occ[1].Live? ==> w.occ[1].at == WallFor(t, b) && !Automiss(w.occ[1].mon)
    ensures var r := DoEntity(t, b, w, 0);
            r.Some? ==> EntityAt(r.value, b) != Some(0) && EntityAt(r.value, WallFor(t, b)) != Some(1)
  {
    SpanSquares(t, b, w.occ[0]);
    var f := FateOf(t, w.occ[0].mon, b, w.dice);
    if f.Some? {
      assert f.value.0 == Move;
      var r := Relocate(t, b, w.(dice := f.value.1), 0, |w.dice|);
    }
  }

  /** Nothing happens at the portcullis when nobody is there and the bridge's occupant stays. */
  lemma StayingTouchesNothing(t: Terrain, b: Coord, w: World)
    requires Closed(t, b) && OnSpan(t, b, w) && Apart(w) && Mapped(t, b, w)
    requires w.occ[0].Live? ==> w.occ[0].at == b
    requires w.occ[1].Void? || Automiss(w.occ[1].mon)
    requires w.occ[1] == Occupant(w.grid, WallFor(t, b))
    ensures var r := DoEntity(t, b, w, 0);
            r.Some? && (w.occ[1].Live? || (r.value.occ[0].Live? && r.value.occ[0].at == b)) ==>
              Occupant(r.value.grid, WallFor(t, b)) == w.occ[1]
  {
    SpanSquares(t, b, w.occ[0]);
    SpanSquares(t, b, w.occ[1]);
  }

  /** A vulnerable monster in a closed portcullis that cannot jump is crushed at once. */
  lemma HelplessIsCrushed(t: Terrain, b: Coord, w: World)
    requires Closed(t, b) && OnSpan(t, b, w) && Apart(w)
    requires w.occ[1].Live? && w.occ[1].at == WallFor(t, b) && !Automiss(w.occ[1].mon)
    requires !CanJump(t, w.occ[1].mon, WallFor(t, b))
    ensures var r := DoEntity(t, b, w, 1); r.Some? ==> r.value == Die(w.(dice := r.value.dice), 1)
  {
    var f := FateOf(t, w.occ[1].mon, WallFor(t, b), w.dice);
    assert f.Some? ==> f.value.0 == Crushed;
  }

  /** The second act, when the vulnerable monster at the portcullis wears no amulet and either nobody
      vulnerable who does is recorded, or it cannot jump. */
  lemma SecondActCleans(t: Terrain, b: Coord, w: World)
    requires Closed(t, b) && OnSpan(t, b, w) && Apart(w) && Mapped(t, b, w)
    requires w.occ[1] == Occupant(w.grid, WallFor(t, b)) && w.occ[1].Live? && !Automiss(w.occ[1].mon)
    requires w.occ[0].Live? ==> w.occ[0].at == b
    requires !w.occ[1].mon.saver
    requires NoSavers(w) || !CanJump(t, w.occ[1].mon, WallFor(t, b))
    ensures var r := DoEntity(t, b, w, 1); r.Some? ==> CleanCell(t, b, r.value)
  {
    SpanSquares(t, b, Void);
    if NoSavers(w) {
      DoEntityKeepsTrack(t, b, w, 1, Watch(true, NOBODY, Ids(w.grid, b, WallFor(t, b)), false));
    } else {
      HelplessIsCrushed(t, b, w);
    }
  }

  /** After the first act, a vulnerable monster at the portcullis wears no amulet unless the one that
      began there did and nobody rammed it. */
  lemma FirstActSavers(t: Terrain, b: Coord, w: World)
    requires Closed(t, b) && TwoMonsters(w.grid, b, WallFor(t, b))
    requires w.occ == [Occupant(w.grid, b), Occupant(w.grid, WallFor(t, b))]
    ensures var r, p := DoEntity(t, b, w, 0), WallFor(t, b);
            r.Some? && p in r.value.grid && !Automiss(r.value.grid[p]) && r.value.grid[p].saver ==>
              p in w.grid && !Automiss(w.grid[p]) && w.grid[p].saver && !(b in w.grid && Rams(t, w.grid[b], b))
  {
    var p := WallFor(t, b);
    SpanSquares(t, b, w.occ[0]);
    DoEntityKeepsTrack(t, b, w, 0, Watch(false, NOBODY, Ids(w.grid, b, p), false));
    if b in w.grid && Rams(t, w.grid[b], b) && (p in w.grid ==> !Automiss(w.grid[p])) {
      RammerLeaves(t, b, w);
    }
  }

  /** If the bridge's vulnerable amulet wearer is still there after the first act and someone
      vulnerable is at the portcullis, then it is the amulet-less one that began there. */
  lemma FirstActWaiter(t: Terrain, b: Coord, w: World)
    requires Closed(t, b) && TwoMonsters(w.grid, b, WallFor(t, b))
    requires w.occ == [Occupant(w.grid, b), Occupant(w.grid, WallFor(t, b))]
    requires !Endangered(t, b, w.grid)
    ensures var r, p := DoEntity(t, b, w, 0), WallFor(t, b);
            r.Some? && p in r.value.grid && !Automiss(r.value.grid[p])
            && r.value.occ[0].Live? && r.value.occ[0].at == b
            && !Automiss(r.value.occ[0].mon) && r.value.occ[0].mon.saver ==>
              !CanJump(t, r.value.grid[p], p)
  {
    var r, p := DoEntity(t, b, w, 0), WallFor(t, b);
    SpanSquares(t, b, w.occ[0]);
    if r.Some? && p in r.value.grid && !Automiss(r.value.grid[p])
       && r.value.occ[0].Live? && r.value.occ[0].at == b
       && !Automiss(r.value.occ[0].mon) && r.value.occ[0].mon.saver {
      var w1 := r.value;
      if p !in w.grid || Automiss(w.grid[p]) {
        StayingTouchesNothing(t, b, w);
      } else {
        if Rams(t, w.grid[b], b) {
          RammerLeaves(t, b, w);
        }
        DoEntityKeepsTrack(t, b, w, 0, Watch(false, w.grid[p], {w.grid[b].id}, false));
      }
    }
  }

  /** Where no amulet wearer is vulnerable at the portcullis, nobody gets hidden there. */
  lemma NobodyHidden(t: Terrain, b: Coord, grid: map<Coord, Monster>, dice: seq<nat>)
    requires Closed(t, b) && TwoMonsters(grid, b, WallFor(t, b))
    requires var p := WallFor(t, b); p in grid && !Automiss(grid[p]) ==> !grid[p].saver
    ensures var r := Close(t, b, grid, dice); r.Some? ==> Open(t, b, r.value)
  {
    var p := WallFor(t, b);
    var w := World([Occupant(grid, b), Occupant(grid, p)], grid, [], dice);
    SpanSquares(t, b, Void);
    FirstActKeeps(t, b, w);
    DoEntityKeepsTrack(t, b, w, 0, Watch(false, NOBODY, Ids(grid, b, p), true));
    var r := DoEntity(t, b, w, 0);
    if r.Some? {
      var w2 := r.value.(occ := r.value.occ[1 := Occupant(r.value.grid, p)]);
      assert Open(t, b, w2);
      if !Immune(t, w2.occ[1]) {
        DoEntityKeepsTrack(t, b, w2, 1, Watch(false, NOBODY, Ids(w2.grid, b, p), true));
      }
    }
  }

  lemma SafeUnlessEndangered(t: Terrain, b: Coord, grid: map<Coord, Monster>, dice: seq<nat>)
    requires Closed(t, b) && TwoMonsters(grid, b, WallFor(t, b))
    requires !Endangered(t, b, grid)
    ensures var r := Close(t, b, grid, dice); r.Some? ==> Clean(t, b, r.value)
  {
    NobodyHidden(t, b, grid, dice);
    CellLeftClean(t, b, grid, dice);
  }

  /** So nobody vulnerable at the portcullis can be saved there, nor change places with one who can. */
  lemma FirstActHarmless(t: Terrain, b: Coord, w: World)
    requires Closed(t, b) && TwoMonsters(w.grid, b, WallFor(t, b))
    requires w.occ == [Occupant(w.grid, b), Occupant(w.grid, WallFor(t, b))]
    requires !Endangered(t, b, w.grid)
    ensures var r, p := DoEntity(t, b, w, 0), WallFor(t, b);
            r.Some? && p in r.value.grid && !Automiss(r.value.grid[p]) ==>
              var w2 := r.value.(occ := r.value.occ[1 := Occupant(r.value.grid, p)]);
              && !r.value.grid[p].saver
              && (NoSavers(w2) || !CanJump(t, r.value.grid[p], p) || (w2.occ[0].Live? && w2.occ[0].at != b))
  {
    FirstActSavers(t, b, w);
    FirstActWaiter(t, b, w);
  }

  lemma CellLeftClean(t: Terrain, b: Coord, grid: map<Coord, Monster>, dice: seq<nat>)
    requires Closed(t, b) && TwoMonsters(grid, b, WallFor(t, b))
    requires !Endangered(t, b, grid)
    ensures var r := Close(t, b, grid, dice); r.Some? ==> CleanCell(t, b, r.value)
  {
    var p := WallFor(t, b);
    var w := World([Occupant(grid, b), Occupant(grid, p)], grid, [], dice);
    SpanSquares(t, b, Void);
    FirstActKeeps(t, b, w);
    var r := DoEntity(t, b, w, 0);
    if r.Some? {
      var w2 := r.value.(occ := r.value.occ[1 := Occupant(r.value.grid, p)]);
      assert Close(t, b, grid, dice) == DoEntity(t, b, w2, 1);
      if w2.occ[1].Live? && !Automiss(w2.occ[1].mon) {
        FirstActHarmless(t, b, w);
        SecondActCleans(t, b, w2);
      } else {
        SecondActIdle(t, b, w2);
      }
    }
  }

  /** Nobody vulnerable is at the portcullis: nothing more happens. */
  lemma SecondActIdle(t: Terrain, b: Coord, w: World)
    requires Closed(t, b) && OnSpan(t, b, w) && (Apart(w) || Immune(t, w.occ[1]))
    requires w.occ[1] == Occupant(w.grid, WallFor(t, b)) && (w.occ[1].Live? ==> Automiss(w.occ[1].mon))
    ensures DoEntity(t, b, w, 1) == Some(w) && CleanCell(t, b, w)
  {
    SpanSquares(t, b, w.occ[1]);
  }

  // ----- the dice that do it -----

  /** Dice on which a vulnerable monster that can stay on the bridge square does. */
  function StayDice(t: Terrain, m: Monster, b: Coord): seq<nat>
    requires b in t
  {
    if Misses(t, m, b) > 0 && Survives(t, m, b) then [0] else [7, 0]
  }

  /** Dice on which a vulnerable monster is hit and fails to jump. */
  function FailDice(m: Monster): seq<nat> {
    if Mobile(m) then [7, 9] else [7]
  }

  lemma StayDiceStay(t: Terrain, b: Coord, m: Monster, rest: seq<nat>)
    requires Closed(t, b) && !Automiss(m) && !Rams(t, m, b)
    ensures var f := FateOf(t, m, b, StayDice(t, m, b) + rest);
            f == Some((Stay, rest)) || f == Some((Hold, rest))
    ensures Survives(t, m, b) || FateOf(t, m, b, StayDice(t, m, b) + rest) == Some((Hold, rest))
  {
    if Misses(t, m, b) > 0 && Survives(t, m, b) {
      assert ([0] + rest)[1..] == rest;
    } else {
      assert ([7, 0] + rest)[1..] == [0] + rest;
      assert ([0] + rest)[1..] == rest;
    }
  }

  lemma FailDiceFail(t: Terrain, p: Coord, m: Monster, rest: seq<nat>)
    requires p in t && !Automiss(m) && t[p].typ in {DRAWBRIDGE_UP, DBWALL}
    ensures FateOf(t, m, p, FailDice(m) + rest) == Some((if t[p].typ == DBWALL then Crushed else Move, rest))
  {
    if Mobile(m) {
      assert ([7, 9] + rest)[1..] == [9] + rest;
      assert ([9] + rest)[1..] == rest;
    } else {
      assert ([7] + rest)[1..] == rest;
    }
  }

  /** The bridge's occupant, if any, can pass the first act without touching the portcullis. */
  function WaitDice(t: Terrain, b: Coord, grid: map<Coord, Monster>): seq<nat>
    requires b in t
  {
    if b in grid && !Automiss(grid[b]) then StayDice(t, grid[b], b) else []
  }

  lemma WaitDiceWait(t: Terrain, b: Coord, w: World, rest: seq<nat>)
    requires Closed(t, b) && TwoMonsters(w.grid, b, WallFor(t, b))
    requires w.occ == [Occupant(w.grid, b), Occupant(w.grid, WallFor(t, b))]
    requires b in w.grid ==> !Rams(t, w.grid[b], b)
    requires w.dice == WaitDice(t, b, w.grid) + rest
    ensures var r := DoEntity(t, b, w, 0);
            && r.Some? && r.value.dice == rest && r.value.occ[1] == w.occ[1]
            && Occupant(r.value.grid, WallFor(t, b)) == w.occ[1]
            && (b in w.grid && Survives(t, w.grid[b], b) ==> r.value.occ[0] == w.occ[0] && r.value.grid == w.grid)
            && (r.value.occ[0] == w.occ[0] || r.value.occ[0].Void?)
  {
    SpanSquares(t, b, w.occ[0]);
    if b in w.grid && !Automiss(w.grid[b]) {
      StayDiceStay(t, b, w.grid[b], rest);
    } else {
      assert w.dice == rest;
    }
  }

  lemma SecondActSaves(t: Terrain, b: Coord, w: World)
    requires Closed(t, b) && OnSpan(t, b, w) && Apart(w)
    requires w.occ[1].Live? && w.occ[1].at == WallFor(t, b) && !Automiss(w.occ[1].mon) && w.occ[1].mon.saver
    requires w.dice == FailDice(w.occ[1].mon)
    ensures var r := DoEntity(t, b, w, 1); r.Some? && !Clean(t, b, r.value)
  {
    SpanSquares(t, b, w.occ[1]);
    assert w.dice == FailDice(w.occ[1].mon) + [];
    FailDiceFail(t, WallFor(t, b), w.occ[1].mon, []);
    assert DoEntity(t, b, w, 1) == Some(Die(w.(dice := []), 1));
  }

  /** A vulnerable amulet wearer at the portcullis is crushed, saved, and still there. */
  lemma WaitedForRemains(t: Terrain, b: Coord, grid: map<Coord, Monster>)
    requires Closed(t, b) && TwoMonsters(grid, b, WallFor(t, b))
    requires var p := WallFor(t, b); p in grid && !Automiss(grid[p]) && grid[p].saver
    requires b in grid ==> !Rams(t, grid[b], b)
    ensures exists dice :: Close(t, b, grid, dice).Some? && !Clean(t, b, Close(t, b, grid, dice).value)
  {
    var p := WallFor(t, b);
    var dice := WaitDice(t, b, grid) + FailDice(grid[p]);
    var w := World([Occupant(grid, b), Occupant(grid, p)], grid, [], dice);
    SpanSquares(t, b, Void);
    WaitDiceWait(t, b, w, FailDice(grid[p]));
    FirstActKeeps(t, b, w);
    var w1 := DoEntity(t, b, w, 0).value;
    var w2 := w1.(occ := w1.occ[1 := Occupant(w1.grid, p)]);
    SecondActSaves(t, b, w2);
    assert Close(t, b, grid, dice) == DoEntity(t, b, w2, 1);
  }

  /** The portcullis's vulnerable occupant, asked to make room, is crushed. */
  lemma CrushedClears(t: Terrain, b: Coord, w: World, rest: seq<nat>)
    requires Closed(t, b) && OnSpan(t, b, w) && Apart(w)
    requires w.occ[1].Live? && w.occ[1].at == WallFor(t, b) && !Automiss(w.occ[1].mon)
    requires w.dice == FailDice(w.occ[1].mon) + rest
    ensures Clear(t, b, w, 1, WallFor(t, b)) == Some(Die(w.(dice := rest), 1))
  {
    SpanSquares(t, b, w.occ[1]);
    FailDiceFail(t, WallFor(t, b), w.occ[1].mon, rest);
    assert DoEntity(t, b, w, 1) == Some(Die(w.(dice := rest), 1));
  }

  /** Dice on which a rammer rams, and on which, saved in the portcullis itself, it is crushed again. */
  function RamDice(m: Monster): seq<nat> {
    if Automiss(m) then [] else FailDice(m)
  }

  function AgainDice(m: Monster): seq<nat> {
    if !Automiss(m) && m.saver then FailDice(m.(saver := false, canMove := true)) else []
  }

  lemma RamDiceRam(t: Terrain, b: Coord, m: Monster, rest: seq<nat>)
    requires Closed(t, b) && Rams(t, m, b)
    ensures FateOf(t, m, b, RamDice(m) + rest) == Some((Move, rest))
  {
    if Automiss(m) {
      assert [] + rest == rest;
    } else {
      FailDiceFail(t, b, m, rest);
    }
  }

  /** The wearer is crushed and saved as the rammer comes, who takes its cell: alive, it is hidden there. */
  lemma RammerHides(t: Terrain, b: Coord, w: World, rest: seq<nat>)
    requires Closed(t, b) && OnSpan(t, b, w) && Apart(w) && w.hidden == []
    requires w.occ[0].Live? && w.occ[0].at == b && Rams(t, w.occ[0].mon, b)
    requires w.occ[1].Live? && w.occ[1].at == WallFor(t, b) && !Automiss(w.occ[1].mon) && w.occ[1].mon.saver
    requires w.dice == RamDice(w.occ[0].mon) + (FailDice(w.occ[1].mon) + rest)
    ensures var p, w1 := WallFor(t, b), Die(w.(dice := rest), 1);
            DoEntity(t, b, w, 0) == Some(Arrive(t, b, w1, 0, p)) && Hiding(t, b, Arrive(t, b, w1, 0, p))
  {
    var p, m := WallFor(t, b), w.occ[0].mon;
    var w0, w1 := w.(dice := FailDice(w.occ[1].mon) + rest), Die(w.(dice := rest), 1);
    SpanSquares(t, b, w.occ[0]);
    SpanSquares(t, b, w.occ[1]);
    RamDiceRam(t, b, m, FailDice(w.occ[1].mon) + rest);
    CrushedClears(t, b, w0, rest);
    assert Die(w0.(dice := rest), 1) == w1;
    assert Relocate(t, b, w0, 0, |w.dice|) == Some(Arrive(t, b, w1, 0, p));
    assert MoveTo(w1, 0, p).hidden == [Hidden(w1.grid[p], p)];
    assert Arrive(t, b, w1, 0, p).hidden[0].at == p;
  }

  /** Somebody vulnerable is hidden in the portcullis. */
  ghost predicate Hiding(t: Terrain, b: Coord, w: World) {
    exists i :: 0 <= i < |w.hidden| && w.hidden[i].at == WallFor(t, b) && !Automiss(w.hidden[i].mon)
  }

  /** The second act on a rammer, or nobody, in the portcullis. */
  lemma SecondActEnds(t: Terrain, b: Coord, w: World)
    requires Closed(t, b) && OnSpan(t, b, w) && (Apart(w) || Immune(t, w.occ[1]))
    requires w.occ[1].Live? ==> w.occ[1].at == WallFor(t, b)
    requires w.occ[1].Live? && !Automiss(w.occ[1].mon) ==> w.dice == FailDice(w.occ[1].mon)
    ensures DoEntity(t, b, w, 1).Some? && DoEntity(t, b, w, 1).value.hidden == w.hidden
  {
    SpanSquares(t, b, w.occ[1]);
    if w.occ[1].Live? && !Automiss(w.occ[1].mon) {
      assert w.dice == FailDice(w.occ[1].mon) + [];
      FailDiceFail(t, WallFor(t, b), w.occ[1].mon, []);
    }
  }

  lemma RammedRemains(t: Terrain, b: Coord, grid: map<Coord, Monster>)
    requires Closed(t, b) && TwoMonsters(grid, b, WallFor(t, b))
    requires var p := WallFor(t, b); p in grid && !Automiss(grid[p]) && grid[p].saver
    requires b in grid && Rams(t, grid[b], b)
    ensures exists dice :: Close(t, b, grid, dice).Some? && !Clean(t, b, Close(t, b, grid, dice).value)
  {
    var p, again := WallFor(t, b), AgainDice(grid[b]);
    var dice := RamDice(grid[b]) + (FailDice(grid[p]) + again);
    var w := World([Occupant(grid, b), Occupant(grid, p)], grid, [], dice);
    SpanSquares(t, b, Void);
    RammerHides(t, b, w, again);
    FirstActKeeps(t, b, w);
    var w1 := DoEntity(t, b, w, 0).value;
    var w2 := w1.(occ := w1.occ[1 := Occupant(w1.grid, p)]);
    SecondActEnds(t, b, w2);
    assert Close(t, b, grid, dice) == DoEntity(t, b, w2, 1);
    assert Close(t, b, grid, dice).Some? && !Clean(t, b, Close(t, b, grid, dice).value);
  }

  /** First family: a vulnerable amulet wearer at the portcullis can always be crushed, saved, and left
      there, seen or hidden. */
  lemma WearerRemains(t: Terrain, b: Coord, grid: map<Coord, Monster>)
    requires Closed(t, b) && TwoMonsters(grid, b, WallFor(t, b))
    requires var p := WallFor(t, b); p in grid && !Automiss(grid[p]) && grid[p].saver
    ensures exists dice :: Close(t, b, grid, dice).Some? && !Clean(t, b, Close(t, b, grid, dice).value)
  {
    if b in grid && Rams(t, grid[b], b) {
      RammedRemains(t, b, grid);
    } else {
      WaitedForRemains(t, b, grid);
    }
  }

  /** The jumper's attempt, the rammer's attempt, and the jumper crushed meanwhile: the rammer ends in
      the portcullis, saved. */
  function DuelDice(grid: map<Coord, Monster>, b: Coord, p: Coord): seq<nat>
    requires b in grid && p in grid
  {
    [7, 0] + (FailDice(grid[b]) + FailDice(grid[p]))
  }

  /** Middle: the creature on the bridge rides in over it, dies there and is saved. */
  lemma DuelMiddle(t: Terrain, b: Coord, w: World)
    requires Closed(t, b) && OnSpan(t, b, w) && Apart(w)
    requires w.occ[1].Live? && w.occ[1].at == WallFor(t, b) && !Automiss(w.occ[1].mon)
    requires w.occ[0].Live? && w.occ[0].at == b && !Automiss(w.occ[0].mon) && w.occ[0].mon.saver
    requires w.dice == FailDice(w.occ[0].mon) + FailDice(w.occ[1].mon)
    ensures var r := Clear(t, b, w, 0, b);
            && r.Some? && EntityAt(r.value, WallFor(t, b)).None?
            && WallFor(t, b) in r.value.grid && !Automiss(r.value.grid[WallFor(t, b)])
  {
    var p := WallFor(t, b);
    SpanSquares(t, b, w.occ[0]);
    FailDiceFail(t, b, w.occ[0].mon, FailDice(w.occ[1].mon));
    var w1 := w.(dice := FailDice(w.occ[1].mon));
    assert w1.dice == FailDice(w.occ[1].mon) + [];
    CrushedClears(t, b, w1, []);
    var w2 := Die(w1.(dice := []), 1);
    assert Relocate(t, b, w1, 0, |w.dice|) == Some(Arrive(t, b, w2, 0, p));
    assert DoEntity(t, b, w, 0) == Some(Arrive(t, b, w2, 0, p));
  }

  /** Second family: the wearer waiting on the bridge ends in the portcullis. */
  lemma WaiterEndsInside(t: Terrain, b: Coord, grid: map<Coord, Monster>)
    requires Closed(t, b) && TwoMonsters(grid, b, WallFor(t, b))
    requires var p := WallFor(t, b);
             && p in grid && !Automiss(grid[p]) && CanJump(t, grid[p], p)
             && b in grid && !Automiss(grid[b]) && grid[b].saver && Survives(t, grid[b], b) && !Rams(t, grid[b], b)
    ensures exists dice :: Close(t, b, grid, dice).Some? && !Clean(t, b, Close(t, b, grid, dice).value)
  {
    var p := WallFor(t, b);
    var duel := DuelDice(grid, b, p);
    var dice := WaitDice(t, b, grid) + duel;
    var w := World([Occupant(grid, b), Occupant(grid, p)], grid, [], dice);
    SpanSquares(t, b, Void);
    WaitDiceWait(t, b, w, duel);
    FirstActKeeps(t, b, w);
    var w1 := DoEntity(t, b, w, 0).value;
    var w2 := w1.(occ := w1.occ[1 := Occupant(w1.grid, p)]);
    assert w2.occ == w.occ && w2.dice == duel;
    var rest := FailDice(grid[b]) + FailDice(grid[p]);
    assert duel[1..][1..] == rest;
    assert FateOf(t, grid[p], p, duel) == Some((Move, rest));
    DuelEnds(t, b, w2, rest);
    assert Close(t, b, grid, dice) == DoEntity(t, b, w2, 1);
    assert Close(t, b, grid, dice).Some? && !Clean(t, b, Close(t, b, grid, dice).value);
  }

  /** The jumper makes its attempt and the duel is on. */
  lemma DuelEnds(t: Terrain, b: Coord, w: World, rest: seq<nat>)
    requires Closed(t, b) && OnSpan(t, b, w) && Apart(w)
    requires w.occ[1].Live? && w.occ[1].at == WallFor(t, b) && !Automiss(w.occ[1].mon)
    requires w.occ[0].Live? && w.occ[0].at == b && !Automiss(w.occ[0].mon) && w.occ[0].mon.saver
    requires rest == FailDice(w.occ[0].mon) + FailDice(w.occ[1].mon)
    requires FateOf(t, w.occ[1].mon, WallFor(t, b), w.dice) == Some((Move, rest)) && |rest| < |w.dice|
    ensures var r := DoEntity(t, b, w, 1);
            && r.Some? && WallFor(t, b) in r.value.grid && !Automiss(r.value.grid[WallFor(t, b)])
  {
    var w1 := w.(dice := rest);
    SpanSquares(t, b, w.occ[1]);
    DuelMiddle(t, b, w1);
    assert Relocate(t, b, w1, 1, |w.dice|) == Clear(t, b, w1, 0, b);
  }

  /** A closed drawbridge is sure to leave nobody vulnerable in its portcullis, whatever the dice,
      exactly when life saving does not endanger it. */
  lemma CloseCleanIff(t: Terrain, b: Coord, grid: map<Coord, Monster>)
    requires Closed(t, b) && TwoMonsters(grid, b, WallFor(t, b))
    ensures (forall dice :: Close(t, b, grid, dice).Some? ==> Clean(t, b, Close(t, b, grid, dice).value))
            <==> !Endangered(t, b, grid)
  {
    var p := WallFor(t, b);
    if Endangered(t, b, grid) {
      if grid[p].saver {
        WearerRemains(t, b, grid);
      } else {
        WaiterEndsInside(t, b, grid);
      }
    } else {
      forall dice ensures Close(t, b, grid, dice).Some? ==> Clean(t, b, Close(t, b, grid, dice).value) {
        SafeUnlessEndangered(t, b, grid, dice);
      }
    }
  }
}
