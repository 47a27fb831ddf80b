/** dlb.c's own form: library and handle records updated in place, and callers' buffers. */
module Dlb {
  import opened Geometry
  import opened DlbSpec
  import opened DlbRuns

  /** An open library; pos is where stdio's file really stands. */
  class Library {
    const data: seq<Byte>
    var pos: nat
    var fmark: int
    var dir: seq<Entry>

    constructor (data: seq<Byte>, dir: seq<Entry>)
      ensures this.data == data && this.dir == dir && Snap() == Shared(data, 0, 0)
    {
      this.data := data;
      this.dir := dir;
      pos := 0;
      fmark := 0;
    }

    function Snap(): Shared
      reads this
    {
      Shared(data, pos, fmark)
    }

    /** Seek, if the cached position is elsewhere. */
    method Position(at: nat)
      modifies this`pos, this`fmark
      ensures Snap() == if old(fmark) != at then Shared(data, at, at) else old(Snap())
    {
      if fmark != at {
        pos := at;
        fmark := at;
      }
    }

    /** stdio's fread from the real file. */
    method StdioRead(buf: array<Byte>, off: nat, size: int, quan: int) returns (items: int)
      requires size > 0 && quan > 0 && off + size * quan <= buf.Length
      modifies this`pos, buf
      ensures var got := StdioBytes(old(Snap()), size, quan);
              && got <= size * quan && pos == old(pos) + got && items == got / size
              && buf[..] == old(buf[..off]) + (if pos <= |data| then data[old(pos)..pos] else []) + old(buf[off + got..])
    {
      assert size * quan > 0 by { MulBound(quan, size); }
      var got := if pos >= |data| then 0 else Min(size * quan, |data| - pos);
      ghost var was := buf[..];
      forall i | 0 <= i < got {
        buf[off + i] := data[pos + i];
      }
      assert buf[..off] == was[..off] && buf[off + got..] == was[off + got..];
      assert got > 0 ==> buf[off..off + got] == data[pos..pos + got];
      assert buf[..] == buf[..off] + buf[off..off + got] + buf[off + got..];
      pos := pos + got;
      items := got / size;
    }
  }

  /** The size column of the directory, from its offset column (readlibdir). */
  method ComputeSizes(offsets: array<int>, total: int, sizes: array<int>)
    requires offsets.Length == sizes.Length && offsets != sizes
    modifies sizes
    ensures SizesOf(offsets[..], total, sizes[..])
  {
    var n := offsets.Length;
    for i := 0 to n
      invariant forall k :: 0 <= k < i ==> sizes[k] == End(offsets[..], total, k) - offsets[k]
    {
      if i == n - 1 {
        sizes[i] := total - offsets[i];
      } else {
        sizes[i] := offsets[i + 1] - offsets[i];
      }
    }
  }

  /** The first library with a file of that name, and that file. */
  ghost function FirstIn(libs: seq<Library>, name: string): Option<(Library, Entry)>
    reads libs
  {
    if libs == [] then None
    else if FindFile(libs[0].dir, name).Some? then Some((libs[0], FindFile(libs[0].dir, name).value))
    else FirstIn(libs[1..], name)
  }

  method SearchLibraries(libs: seq<Library>, name: string) returns (found: Option<(Library, Entry)>)
    ensures found == FirstIn(libs, name)
  {
    var i := 0;
    while i < |libs|
      invariant 0 <= i <= |libs|
      invariant FirstIn(libs, name) == FirstIn(libs[i..], name)
    {
      var dir := libs[i].dir;
      var j := 0;
      while j < |dir|
        invariant 0 <= j <= |dir|
        invariant FindFile(dir, name) == FindFile(dir[j..], name)
      {
        if dir[j].name == name {
          return Some((libs[i], dir[j]));
        }
        assert dir[j..][1..] == dir[j + 1..];
        j := j + 1;
      }
      assert libs[i..][1..] == libs[i + 1..];
      i := i + 1;
    }
    return None;
  }

  ghost function Prefixed(bytes: seq<Byte>, c: Chunk): Chunk {
    c.(bytes := bytes + c.bytes)
  }

  lemma PrefixedTwice(a: seq<Byte>, b: seq<Byte>, c: Chunk)
    ensures Prefixed(a, Prefixed(b, c)) == Prefixed(a + b, c)
  {
    assert a + (b + c.bytes) == (a + b) + c.bytes;
  }

  class FileHandle {
    var lib: Library
    var start: int
    var size: int
    var mark: int

    function Val(): Handle
      reads this
    {
      Handle(start, size, mark)
    }

    constructor (lib: Library)
      ensures this.lib == lib
    {
      this.lib := lib;
      start, size, mark := 0, 0, 0;
    }

    method Open(libs: seq<Library>, name: string) returns (ok: bool)
      modifies this
      ensures ok <==> FirstIn(libs, name).Some?
      ensures ok ==> lib == FirstIn(libs, name).value.0 && Val() == OpenHandle(FirstIn(libs, name).value.1)
      ensures !ok ==> Val() == old(Val()) && lib == old(lib)
    {
      var found := SearchLibraries(libs, name);
      if found.None? {
        return false;
      }
      lib := found.value.0;
      start, size, mark := found.value.1.start, found.value.1.size, 0;
      return true;
    }

    /** Reads to buf from off on; the guard is dlb_fread's. */
    method Read(buf: array<Byte>, off: nat, itemSize: int, quan: int) returns (nread: int)
      requires 0 <= start && 0 <= mark <= size
      requires itemSize > 0 && quan > 0 ==> off + itemSize * quan <= buf.Length
      modifies this`mark, lib`pos, lib`fmark, buf
      ensures itemSize <= 0 || quan <= 0 ==>
        nread == 0 && Val() == old(Val()) && lib.Snap() == old(lib.Snap()) && buf[..] == old(buf[..])
      ensures itemSize > 0 && quan > 0 ==>
        var r := LibRead(old(lib.Snap()), old(Val()), itemSize, quan);
        && nread == r.items && Val() == r.handle && lib.Snap() == r.shared
        && off + |r.bytes| <= buf.Length
        && buf[..] == old(buf[..off]) + r.bytes + old(buf[off + |r.bytes|..])
    {
      if itemSize <= 0 || quan <= 0 {
        return 0;
      }
      AskedFits(Val(), itemSize, quan);
      var n := quan;
      if size - mark < itemSize * quan {
        n := (size - mark) / itemSize;
      }
      assert n == Asked(Val(), itemSize, quan);
      if n == 0 {
        assert buf[..] == buf[..off] + [] + buf[off..];
        return 0;
      }
      nread := ReadItems(buf, off, itemSize, n);
    }

    method ReadItems(buf: array<Byte>, off: nat, itemSize: int, n: int) returns (nread: int)
      requires 0 <= start && 0 <= mark && itemSize > 0 && n > 0 && off + itemSize * n <= buf.Length
      modifies this`mark, lib`pos, lib`fmark, buf
      ensures var r := Transfer(old(lib.Snap()), old(Val()), itemSize, n);
              && nread == r.items && Val() == r.handle && lib.Snap() == r.shared
              && off + |r.bytes| <= buf.Length
              && buf[..] == old(buf[..off]) + r.bytes + old(buf[off + |r.bytes|..])
    {
      lib.Position(start + mark);
      nread := lib.StdioRead(buf, off, itemSize, n);
      var nbytes := nread * itemSize;
      mark := mark + nbytes;
      lib.fmark := lib.fmark + nbytes;
    }

    /** One byte to buf[i]. */
    method ReadByte(buf: array<Byte>, i: nat) returns (ok: bool)
      requires 0 <= start && 0 <= mark < size && i < buf.Length
      modifies this`mark, lib`pos, lib`fmark, buf
      ensures var (s', h', c) := GetByte(old(lib.Snap()), old(Val()));
              && lib.Snap() == s' && Val() == h' && (ok <==> c.Some?) && (ok ==> buf[i] == c.value)
      ensures buf[..i] == old(buf[..i])
    {
      GetByteIsRead(lib.Snap(), Val());
      ghost var was := buf[..i];
      var n := Read(buf, i, 1, 1);
      assert buf[..i] == was;
      return n > 0;
    }

    method Seek(pos: int, whence: Whence)
      modifies this`mark
      ensures Val() == LibSeek(old(Val()), pos, whence)
    {
      var cur;
      match whence {
        case SeekCur => cur := mark + pos;
        case SeekEnd => cur := size - pos;
        case SeekSet => cur := pos;
      }
      if cur < 0 {
        cur := 0;
      }
      if cur > size {
        cur := size;
      }
      mark := cur;
    }

    /** A line into buf, which holds len bytes. The reply is the chunk, with its terminator after it in
        the buffer; NULL at the end of the file. */
    method Gets(buf: array<Byte>, len: int) returns (reply: Reply)
      requires 0 <= start && 0 <= mark <= size && len <= buf.Length
      modifies this`mark, lib`pos, lib`fmark, buf
      ensures len <= 0 ==> reply == Untouched && buf[..] == old(buf[..])
      ensures len > 0 && old(mark) >= size ==> reply == Line(None)
      ensures len <= 0 || old(mark) >= size ==> Val() == old(Val()) && lib.Snap() == old(lib.Snap())
      ensures len > 0 && old(mark) < size ==>
        var r := LibChunk(old(lib.Snap()), old(Val()), len - 1);
        && reply == Line(Some(r.bytes)) && Val() == r.handle && lib.Snap() == r.shared
        && |r.bytes| < len && buf[..|r.bytes|] == r.bytes && buf[|r.bytes|] == NUL
    {
      if len <= 0 {
        return Untouched;
      }
      if mark >= size {
        return Line(None);
      }
      var limit := len - 1;
      ghost var r := LibChunk(lib.Snap(), Val(), limit);
      var i, c := 0, NUL;
      while i < limit && mark < size && c != NEWLINE
        invariant 0 <= i <= limit && mark <= size
        invariant c == NEWLINE ==> r == Chunk(lib.Snap(), Val(), buf[..i])
        invariant c != NEWLINE ==> 0 <= mark && r == Prefixed(buf[..i], LibChunk(lib.Snap(), Val(), limit - i))
      {
        ghost var before := buf[..i];
        var ok := ReadByte(buf, i);
        if !ok {
          assert before + [] == before == buf[..i];
          break;
        }
        c := buf[i];
        i := i + 1;
        assert buf[..i] == before + [c];
        PrefixedTwice(before, [c], LibChunk(lib.Snap(), Val(), limit - i));
      }
      ghost var line := buf[..i];
      assert line + [] == line;
      assert r == Chunk(lib.Snap(), Val(), line);
      buf[i] := NUL;
      assert buf[..i] == line;
      return Line(Some(buf[..i]));
    }
  }
}
