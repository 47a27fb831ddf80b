/** The discoveries list (artifact.c): a fixed array of artifact numbers, filled from the front, 0 for an
    empty slot. */
module Discovery {

  const NROFARTIFACTS := 36

  /** Where the first empty slot is. */
  function Fill(slots: seq<int>): (n: nat)
    ensures n <= |slots| && (n < |slots| ==> slots[n] == 0)
    ensures forall i :: 0 <= i < n ==> slots[i] != 0
  {
    if slots == [] || slots[0] == 0 then 0 else 1 + Fill(slots[1..])
  }

  /** A list without repetition, then only empty slots. */
  ghost predicate Tidy(slots: seq<int>) {
    && (forall i :: Fill(slots) <= i < |slots| ==> slots[i] == 0)
    && NoRepeat(slots[..Fill(slots)])
  }

  ghost predicate NoRepeat(list: seq<int>) {
    forall i, j :: 0 <= i < j < |list| ==> list[i] != list[j]
  }

  /** A list of discoveries, given one more. */
  function Noted(list: seq<int>, m: int): seq<int> {
    if m in list then list else list + [m]
  }

  lemma {:induction false} FillIs(slots: seq<int>, n: nat)
    requires n <= |slots| && (forall i :: 0 <= i < n ==> slots[i] != 0) && (n < |slots| ==> slots[n] == 0)
    ensures Fill(slots) == n
  {
    if n > 0 {
      FillIs(slots[1..], n - 1);
    }
  }

  predicate Numbers(list: seq<int>) {
    Within(list, NROFARTIFACTS)
  }

  predicate Within(list: seq<int>, n: nat) {
    forall i :: 0 <= i < |list| ==> 1 <= list[i] <= n
  }

  /** Distinct numbers from 1 to n are at most n of them, and n of them are all. */
  lemma {:induction false} Pigeonhole(list: seq<int>, n: nat)
    requires NoRepeat(list) && Within(list, n)
    ensures |list| <= n && (|list| == n ==> forall m :: 1 <= m <= n ==> m in list)
    decreases n
  {
    if list != [] {
      assert 1 <= list[0] <= n;
      if i :| 0 <= i < |list| && list[i] == n {
        var rest := list[..i] + list[i + 1..];
        Pigeonhole(rest, n - 1);
        assert forall m :: m in rest ==> m in list;
      } else {
        Pigeonhole(list, n - 1);
      }
    }
  }

  function AllNoted(list: seq<int>, ms: seq<int>): seq<int>
    decreases |ms|
  {
    if ms == [] then list else AllNoted(Noted(list, ms[0]), ms[1..])
  }

  /** Whatever artifacts are identified, in whatever order, there is a slot for each; afterwards exactly
      those and the earlier ones are on the list, once each. */
  lemma {:induction false} AllHaveSlots(list: seq<int>, ms: seq<int>)
    requires NoRepeat(list) && Numbers(list) && Numbers(ms)
    ensures var after := AllNoted(list, ms);
            && NoRepeat(after) && Numbers(after) && |after| <= NROFARTIFACTS
            && forall m :: m in after <==> m in list || m in ms
    decreases |ms|
  {
    if ms == [] {
      Pigeonhole(list, NROFARTIFACTS);
    } else {
      AllHaveSlots(Noted(list, ms[0]), ms[1..]);
      assert ms == [ms[0]] + ms[1..];
    }
  }

  class Discoveries {
    const artidisco: array<int>

    constructor ()
      ensures Valid() && List() == [] && fresh(artidisco)
    {
      artidisco := new int[NROFARTIFACTS](_ => 0);
    }

    ghost predicate Valid()
      reads artidisco
    {
      artidisco.Length == NROFARTIFACTS && Tidy(artidisco[..])
    }

    ghost function List(): seq<int>
      reads artidisco
    {
      artidisco[..Fill(artidisco[..])]
    }

    /** discover_artifact. False stands for the warning that there is no slot left; artifact numbers never
        lead there. */
    method Discover(m: int) returns (ok: bool)
      requires Valid()
      modifies artidisco
      ensures Valid()
      ensures ok == (m in old(List()) || |old(List())| < NROFARTIFACTS)
      ensures List() == if ok && m != 0 then Noted(old(List()), m) else old(List())
      ensures Numbers(old(List())) && 1 <= m <= NROFARTIFACTS ==> ok && Numbers(List())
    {
      ghost var list := List();
      var i := 0;
      while i < NROFARTIFACTS
        invariant 0 <= i <= |list| && artidisco[..] == old(artidisco[..])
        invariant m !in list[..i]
      {
        if artidisco[i] == 0 || artidisco[i] == m {
          ghost var n := if artidisco[i] == 0 && m != 0 then i + 1 else |list|;
          artidisco[i] := m;
          FillIs(artidisco[..], n);
          return true;
        }
        i := i + 1;
      }
      if 1 <= m <= NROFARTIFACTS && Numbers(list) {
        Pigeonhole(list, NROFARTIFACTS);
      }
      return false;
    }

    /** undiscovered_artifact: for an artifact, not being on the list. (0 counts as undiscovered only when
        the list is full.) */
    method Undiscovered(m: int) returns (r: bool)
      requires Valid()
      ensures r == if m == 0 then |List()| == NROFARTIFACTS else m !in List()
    {
      var i := 0;
      while i < NROFARTIFACTS
        invariant 0 <= i <= |List()|
        invariant m !in List()[..i]
      {
        if artidisco[i] == m {
          return false;
        } else if artidisco[i] == 0 {
          break;
        }
        i := i + 1;
      }
      return true;
    }

    /** disp_artifact_discoveries: the entries shown, in order. */
    method Shown() returns (entries: seq<int>)
      requires Valid()
      ensures entries == List()
    {
      entries := [];
      var i := 0;
      while i < NROFARTIFACTS
        invariant 0 <= i <= |List()| && entries == artidisco[..i]
      {
        if artidisco[i] == 0 {
          break;
        }
        entries := entries + [artidisco[i]];
        i := i + 1;
      }
    }
  }
}
