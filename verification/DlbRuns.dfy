/** Many handles on one library, in any interleaving, behave as many files each of one's own. */
module DlbRuns {
  import opened Geometry
  import opened DlbSpec

  datatype Entry = Entry(name: string, start: int, size: int)

  /** The library as the librarian keeps it, and as if every handle had its own file. */
  datatype LibState = LibState(shared: Shared, handles: map<nat, Handle>)
  type OwnState = map<nat, File>

  datatype Op =
    | Open(h: nat, name: string)
    | Read(h: nat, size: int, quan: int)
    | Seek(h: nat, pos: int, whence: Whence)
    | Gets(h: nat, len: int)

  /** Failed: no such file, or no such handle. Untouched: a line read into no buffer at all. */
  datatype Reply = Opened | Failed | Bytes(bytes: seq<Byte>, items: int) | Sought | Line(line: Option<seq<Byte>>) | Untouched

  /** find_file: the first directory entry of that name. */
  function FindFile(dir: seq<Entry>, name: string): Option<Entry> {
    if dir == [] then None
    else if dir[0].name == name then Some(dir[0])
    else FindFile(dir[1..], name)
  }

  datatype Chunk = Chunk(shared: Shared, handle: Handle, bytes: seq<Byte>)

  /** The loop of lib_dlb_fgets: single-byte reads up to the limit, the end, or a newline. */
  function LibChunk(s: Shared, h: Handle, limit: nat): Chunk
    decreases limit
  {
    if limit == 0 || h.mark >= h.size then Chunk(s, h, [])
    else
      var (s', h', c) := GetByte(s, h);
      if c.None? then Chunk(s', h', [])
      else if c.value == NEWLINE then Chunk(s', h', [NEWLINE])
      else
        var more := LibChunk(s', h', limit - 1);
        more.(bytes := [c.value] + more.bytes)
  }

  /** What a handle has still to read. */
  function Remaining(s: Shared, h: Handle): seq<Byte>
    requires 0 <= h.start && 0 <= h.mark <= h.size && h.start + h.size <= |s.data|
  {
    s.data[h.start + h.mark..h.start + h.size]
  }

  lemma {:induction false} LibChunkTakes(s: Shared, h: Handle, limit: nat)
    requires Within(s, h) && InSync(s)
    ensures var r, rest := LibChunk(s, h, limit), Remaining(s, h);
            var n := ChunkLen(rest, limit);
            && InSync(r.shared) && r.shared.data == s.data
            && r.handle == h.(mark := h.mark + n) && r.bytes == rest[..n]
    decreases limit
  {
    if limit != 0 && h.mark < h.size {
      var rest := Remaining(s, h);
      var (s', h', c) := GetByte(s, h);
      assert c.value == rest[0];
      assert Remaining(s', h') == rest[1..];
      if c.value != NEWLINE {
        LibChunkTakes(s', h', limit - 1);
        assert [rest[0]] + rest[1..][..ChunkLen(rest[1..], limit - 1)] == rest[..ChunkLen(rest, limit)];
      }
    }
  }

  lemma LibChunkIsOwn(s: Shared, h: Handle, limit: nat)
    requires Within(s, h) && InSync(s)
    ensures var r := LibChunk(s, h, limit);
            && InSync(r.shared) && r.shared.data == s.data && Within(s, r.handle)
            && OwnChunk(Own(s, h), limit) == (Own(s, r.handle), r.bytes)
  {
    LibChunkTakes(s, h, limit);
    OwnChunkTakes(s, h, limit, ChunkLen(Remaining(s, h), limit));
  }

  lemma OwnChunkTakes(s: Shared, h: Handle, limit: nat, n: nat)
    requires Within(s, h) && n == ChunkLen(Remaining(s, h), limit)
    ensures h.mark + n <= h.size
    ensures OwnChunk(Own(s, h), limit) == (Own(s, h).(mark := h.mark + n), Remaining(s, h)[..n])
  {
    RemainingTakes(s, h, n);
  }

  lemma RemainingTakes(s: Shared, h: Handle, n: nat)
    requires Within(s, h) && h.mark + n <= h.size
    ensures var f := Own(s, h);
            f.content[h.mark..] == Remaining(s, h) && f.content[h.mark..h.mark + n] == Remaining(s, h)[..n]
  {
    SliceOfSlice(s.data, h.start, h.start + h.size, h.mark, h.size);
    SliceOfSlice(s.data, h.start, h.start + h.size, h.mark, h.mark + n);
    SliceOfSlice(s.data, h.start + h.mark, h.start + h.size, 0, n);
  }

  lemma LibGetsIsOwn(s: Shared, h: Handle, len: int)
    requires Within(s, h) && InSync(s) && h.mark < h.size && len >= 1
    ensures var r := LibChunk(s, h, len - 1);
            && InSync(r.shared) && r.shared.data == s.data && Within(s, r.handle)
            && OwnGets(Own(s, h), len) == (Own(s, r.handle), Some(r.bytes))
  {
    LibChunkIsOwn(s, h, len - 1);
  }

  function OpenHandle(e: Entry): Handle {
    Handle(e.start, e.size, 0)
  }

  ghost predicate Ready(dir: seq<Entry>, st: LibState) {
    && InSync(st.shared)
    && (forall h :: h in st.handles ==> Within(st.shared, st.handles[h]))
    && (forall i :: 0 <= i < |dir| ==> Within(st.shared, OpenHandle(dir[i])))
  }

  lemma {:induction false} FindFileWithin(dir: seq<Entry>, s: Shared, name: string)
    requires forall i :: 0 <= i < |dir| ==> Within(s, OpenHandle(dir[i]))
    ensures var e := FindFile(dir, name); e.Some? ==> Within(s, OpenHandle(e.value)) && e.value.name == name
    ensures FindFile(dir, name).None? <==> forall i :: 0 <= i < |dir| ==> dir[i].name != name
  {
    if dir != [] {
      FindFileWithin(dir[1..], s, name);
      assert forall i :: 0 < i < |dir| ==> dir[i] == dir[1..][i - 1];
    }
  }

  /** One call on the shared library. */
  function LibStep(dir: seq<Entry>, st: LibState, op: Op): (LibState, Reply)
    requires forall h :: h in st.handles ==> 0 <= st.handles[h].start && 0 <= st.handles[h].mark <= st.handles[h].size
  {
    match op
    case Open(h, name) =>
      var e := FindFile(dir, name);
      if e.None? then (st, Failed) else (st.(handles := st.handles[h := OpenHandle(e.value)]), Opened)
    case Read(h, size, quan) =>
      if h !in st.handles then (st, Failed)
      else if size <= 0 || quan <= 0 then (st, Bytes([], 0))
      else
        var r := LibRead(st.shared, st.handles[h], size, quan);
        (LibState(r.shared, st.handles[h := r.handle]), Bytes(r.bytes, r.items))
    case Seek(h, pos, whence) =>
      if h !in st.handles then (st, Failed)
      else (st.(handles := st.handles[h := LibSeek(st.handles[h], pos, whence)]), Sought)
    case Gets(h, len) =>
      if h !in st.handles then (st, Failed)
      else if len <= 0 then (st, Untouched)
      else if st.handles[h].mark >= st.handles[h].size then (st, Line(None))
      else
        var r := LibChunk(st.shared, st.handles[h], len - 1);
        (LibState(r.shared, st.handles[h := r.handle]), Line(Some(r.bytes)))
  }

  /** The same call where every handle has a file of its own; offsets from the end count back. */
  function OwnStep(dir: seq<Entry>, data: seq<Byte>, st: OwnState, op: Op): (OwnState, Reply)
    requires forall h :: h in st ==> OpenFile(st[h])
    requires forall i :: 0 <= i < |dir| ==> Within(Shared(data, 0, 0), OpenHandle(dir[i]))
  {
    match op
    case Open(h, name) =>
      var e := FindFile(dir, name);
      FindFileWithin(dir, Shared(data, 0, 0), name);
      if e.None? then (st, Failed)
      else (st[h := File(data[e.value.start..e.value.start + e.value.size], 0)], Opened)
    case Read(h, size, quan) =>
      if h !in st then (st, Failed)
      else if size <= 0 || quan <= 0 then (st, Bytes([], 0))
      else
        var r := OwnRead(st[h], size, quan);
        (st[h := r.0], Bytes(r.1, OwnItems(st[h], size, quan)))
    case Seek(h, pos, whence) =>
      if h !in st then (st, Failed) else (st[h := OwnSeek(st[h], Meant(pos, whence), whence)], Sought)
    case Gets(h, len) =>
      if h !in st then (st, Failed)
      else if len <= 0 then (st, Untouched)
      else
        var r := OwnGets(st[h], len);
        (st[h := r.0], Line(r.1))
  }

  /** What the shared library stands for. */
  ghost function Separate(st: LibState): OwnState
    requires forall h :: h in st.handles ==> Within(st.shared, st.handles[h])
  {
    map h | h in st.handles :: Own(st.shared, st.handles[h])
  }

  /** Updating one handle, and the shared position, leaves every other private file as it was. */
  lemma UpdateSeparate(dir: seq<Entry>, st: LibState, s': Shared, h: nat, h': Handle)
    requires Ready(dir, st) && s'.data == st.shared.data && InSync(s') && Within(s', h')
    ensures var st' := LibState(s', st.handles[h := h']);
            Ready(dir, st') && Separate(st') == Separate(st)[h := Own(s', h')]
  {
    var st' := LibState(s', st.handles[h := h']);
    assert forall k :: k in st.handles && k != h ==> Own(s', st'.handles[k]) == Own(st.shared, st.handles[k]);
  }

  lemma StepIsSeparate(dir: seq<Entry>, st: LibState, op: Op)
    requires Ready(dir, st)
    ensures var lib, own := LibStep(dir, st, op), OwnStep(dir, st.shared.data, Separate(st), op);
            && Ready(dir, lib.0) && lib.0.shared.data == st.shared.data
            && Separate(lib.0) == own.0 && lib.1 == own.1
  {
    var h := op.h;
    if op.Open? {
      OpenIsSeparate(dir, st, h, op.name);
    } else if h in st.handles {
      match op
      case Read(_, size, quan) =>
        if size > 0 && quan > 0 {
          LibReadIsOwn(st.shared, st.handles[h], size, quan);
          var r := LibRead(st.shared, st.handles[h], size, quan);
          UpdateSeparate(dir, st, r.shared, h, r.handle);
        }
      case Seek(_, pos, whence) =>
        LibSeekIsOwnIff(st.shared, st.handles[h], pos, whence);
        UpdateSeparate(dir, st, st.shared, h, LibSeek(st.handles[h], pos, whence));
      case Gets(_, len) =>
        if len > 0 && st.handles[h].mark < st.handles[h].size {
          GetsIsSeparate(dir, st, h, len);
        } else {
          assert Separate(st)[h := Separate(st)[h]] == Separate(st);
        }
    }
  }

  lemma OpenIsSeparate(dir: seq<Entry>, st: LibState, h: nat, name: string)
    requires Ready(dir, st)
    ensures var op := Open(h, name);
            var lib, own := LibStep(dir, st, op), OwnStep(dir, st.shared.data, Separate(st), op);
            && Ready(dir, lib.0) && lib.0.shared.data == st.shared.data
            && Separate(lib.0) == own.0 && lib.1 == own.1
  {
    FindFileWithin(dir, st.shared, name);
    var e := FindFile(dir, name);
    if e.Some? {
      UpdateSeparate(dir, st, st.shared, h, OpenHandle(e.value));
    }
  }

  lemma GetsIsSeparate(dir: seq<Entry>, st: LibState, h: nat, len: int)
    requires Ready(dir, st) && h in st.handles && len >= 1 && st.handles[h].mark < st.handles[h].size
    ensures var r, own := LibChunk(st.shared, st.handles[h], len - 1), OwnGets(Own(st.shared, st.handles[h]), len);
            var st' := LibState(r.shared, st.handles[h := r.handle]);
            && Ready(dir, st') && r.shared.data == st.shared.data
            && Separate(st') == Separate(st)[h := own.0] && own.1 == Some(r.bytes)
  {
    LibGetsIsOwn(st.shared, st.handles[h], len);
    var r := LibChunk(st.shared, st.handles[h], len - 1);
    ChunkIsSeparate(dir, st, h, r, OwnGets(Own(st.shared, st.handles[h]), len));
  }

  lemma ChunkIsSeparate(dir: seq<Entry>, st: LibState, h: nat, r: Chunk, own: (File, Option<seq<Byte>>))
    requires Ready(dir, st) && InSync(r.shared) && r.shared.data == st.shared.data && Within(r.shared, r.handle)
    requires own == (File(r.shared.data[r.handle.start..r.handle.start + r.handle.size], r.handle.mark), Some(r.bytes))
    ensures var st' := LibState(r.shared, st.handles[h := r.handle]);
            Ready(dir, st') && Separate(st') == Separate(st)[h := own.0] && own.1 == Some(r.bytes)
  {
    UpdateSeparate(dir, st, r.shared, h, r.handle);
  }

  ghost function LibRun(dir: seq<Entry>, st: LibState, ops: seq<Op>): (LibState, seq<Reply>)
    requires Ready(dir, st)
    decreases |ops|
  {
    if ops == [] then (st, []) else
    StepIsSeparate(dir, st, ops[0]);
    var (st1, reply) := LibStep(dir, st, ops[0]);
    var (st2, replies) := LibRun(dir, st1, ops[1..]);
    (st2, [reply] + replies)
  }

  ghost function OwnRun(dir: seq<Entry>, data: seq<Byte>, st: OwnState, ops: seq<Op>): seq<Reply>
    requires forall h :: h in st ==> OpenFile(st[h])
    requires forall i :: 0 <= i < |dir| ==> Within(Shared(data, 0, 0), OpenHandle(dir[i]))
    decreases |ops|
  {
    if ops == [] then [] else
    var (st1, reply) := OwnStep(dir, data, st, ops[0]);
    [reply] + OwnRun(dir, data, st1, ops[1..])
  }

  /** For every interleaving of opens, reads, seeks and line reads over any number of handles, every
      reply is the one a file of one's own would give, and the cached position stays true. */
  lemma {:induction false} RunIsSeparate(dir: seq<Entry>, st: LibState, ops: seq<Op>)
    requires Ready(dir, st)
    ensures Ready(dir, LibRun(dir, st, ops).0)
    ensures LibRun(dir, st, ops).1 == OwnRun(dir, st.shared.data, Separate(st), ops)
    decreases |ops|
  {
    if ops != [] {
      StepIsSeparate(dir, st, ops[0]);
      RunIsSeparate(dir, LibStep(dir, st, ops[0]).0, ops[1..]);
    }
  }
}
