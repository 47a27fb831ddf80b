/** The data librarian's files (dlb.c): what a read, a seek or a line read gives, on one shared library
    file with a cached position and on a private file of one's own. */
module DlbSpec {
  import opened Geometry

  type Byte = b: int | 0 <= b < 256

  const NEWLINE: Byte := 10
  const NUL: Byte := 0

  datatype Whence = SeekSet | SeekCur | SeekEnd

  /** The real library file behind stdio: its bytes, stdio's position, and fmark, the librarian's own
      idea of that position. */
  datatype Shared = Shared(data: seq<Byte>, pos: nat, fmark: int)

  /** struct dlb_handle, open on a library. */
  datatype Handle = Handle(start: int, size: int, mark: int)

  function Min(a: int, b: int): int {
    if a < b then a else b
  }

  /** stdio's fread: whole items are counted, but a partial last item is consumed too. */
  function StdioBytes(s: Shared, size: int, quan: int): nat
    requires size > 0 && quan > 0
  {
    if s.pos >= |s.data| then 0 else Min(size * quan, |s.data| - s.pos)
  }

  /** What lib_dlb_fread asks of stdio: no item that would run past the handle's end. */
  function Asked(h: Handle, size: int, quan: int): int
    requires size > 0 && quan > 0 && 0 <= h.mark <= h.size
  {
    if h.size - h.mark < size * quan then (h.size - h.mark) / size else quan
  }

  datatype ReadResult = ReadResult(shared: Shared, handle: Handle, bytes: seq<Byte>, items: int)

  function LibRead(s: Shared, h: Handle, size: int, quan: int): ReadResult
    requires size > 0 && quan > 0 && 0 <= h.mark <= h.size && 0 <= h.start
  {
    var n := Asked(h, size, quan);
    AskedBounds(h, size, quan);
    if n == 0 then ReadResult(s, h, [], 0) else Transfer(s, h, size, n)
  }

  /** Seek if the cached position is elsewhere, read n items, and move every mark on. */
  function Transfer(s: Shared, h: Handle, size: int, n: int): ReadResult
    requires size > 0 && n > 0 && 0 <= h.mark && 0 <= h.start
  {
    var at := h.start + h.mark;
    var s1 := if s.fmark != at then Shared(s.data, at, at) else s;
    var got := StdioBytes(s1, size, n);
    var items := got / size;
    ReadResult(Shared(s.data, s1.pos + got, at + items * size), h.(mark := h.mark + items * size),
               if s1.pos + got <= |s.data| then s.data[s1.pos..s1.pos + got] else [], items)
  }

  function LibSeek(h: Handle, pos: int, whence: Whence): Handle {
    var cur := match whence
      case SeekCur => h.mark + pos
      case SeekEnd => h.size - pos
      case SeekSet => pos;
    var atLeast := if cur < 0 then 0 else cur;
    h.(mark := if atLeast > h.size then h.size else atLeast)
  }

  /** A file of one's own: its bytes and a mark. */
  datatype File = File(content: seq<Byte>, mark: nat)

  ghost predicate OpenFile(f: File) {
    f.mark <= |f.content|
  }

  function OwnItems(f: File, size: int, quan: int): nat
    requires size > 0 && quan > 0 && OpenFile(f)
  {
    Min(quan, (|f.content| - f.mark) / size)
  }

  function OwnRead(f: File, size: int, quan: int): (r: (File, seq<Byte>))
    requires size > 0 && quan > 0 && OpenFile(f)
    ensures OpenFile(r.0)
  {
    ItemsFit(|f.content| - f.mark, size, quan);
    var n := OwnItems(f, size, quan) * size;
    (f.(mark := f.mark + n), f.content[f.mark..f.mark + n])
  }

  /** stdio's fseek, which counts forwards from the end as from anywhere else, kept within the file. */
  function OwnSeek(f: File, pos: int, whence: Whence): File {
    var from := match whence
      case SeekCur => f.mark
      case SeekEnd => |f.content|
      case SeekSet => 0;
    var cur := from + pos;
    f.(mark := if cur < 0 then 0 else if cur > |f.content| then |f.content| else cur)
  }

  lemma ItemsFit(left: int, size: int, quan: int)
    requires left >= 0 && size > 0 && quan > 0
    ensures 0 <= Min(quan, left / size) * size <= left
  {
    var k := Min(quan, left / size);
    assert left / size * size <= left;
    assert k * size <= left / size * size;
  }

  lemma DivLess(a: int, size: int, quan: int)
    requires size > 0 && quan > 0 && 0 <= a
    ensures a < size * quan <==> a / size < quan
  {
    var q := a / size;
    assert a == q * size + a % size;
    if q < quan {
      assert (q + 1) * size <= quan * size;
    } else {
      assert quan * size <= q * size;
    }
  }

  lemma AskedBounds(h: Handle, size: int, quan: int)
    requires size > 0 && quan > 0 && 0 <= h.mark <= h.size
    ensures Asked(h, size, quan) == Min(quan, (h.size - h.mark) / size)
    ensures 0 <= Asked(h, size, quan) * size <= h.size - h.mark
    ensures 0 <= Asked(h, size, quan) <= quan
  {
    DivLess(h.size - h.mark, size, quan);
    ItemsFit(h.size - h.mark, size, quan);
  }

  lemma AskedFits(h: Handle, size: int, quan: int)
    requires size > 0 && quan > 0 && 0 <= h.mark <= h.size
    ensures 0 <= size * Asked(h, size, quan) <= size * quan
  {
    AskedBounds(h, size, quan);
    var n := Asked(h, size, quan);
    assert (quan - n) * size >= 0;
    assert n * size >= 0;
  }

  /** The handle lies within the library file. */
  ghost predicate Within(s: Shared, h: Handle) {
    0 <= h.start && 0 <= h.mark <= h.size && h.start + h.size <= |s.data|
  }

  ghost predicate InSync(s: Shared) {
    s.fmark == s.pos
  }

  /** The private file that a handle stands for. */
  ghost function Own(s: Shared, h: Handle): File
    requires Within(s, h)
  {
    File(s.data[h.start..h.start + h.size], h.mark)
  }

  lemma MulBound(d: int, size: int)
    requires size > 0
    ensures d >= 1 ==> d * size >= size
    ensures d <= -1 ==> d * size <= -size
  {
    if d >= 1 {
      assert (d - 1) * size >= 0;
    } else if d <= -1 {
      assert (-d - 1) * size >= 0;
    }
  }

  lemma DivExact(k: int, size: int)
    requires size > 0
    ensures k * size / size == k && k * size % size == 0
  {
    var q, r := k * size / size, k * size % size;
    assert (k - q) * size == k * size - q * size == r;
    MulBound(k - q, size);
  }

  /** lib_dlb_fread for one single byte. */
  function GetByte(s: Shared, h: Handle): (Shared, Handle, Option<Byte>) {
    var at := h.start + h.mark;
    var pos := if s.fmark != at && at >= 0 then at else s.pos;
    if pos < |s.data| then (Shared(s.data, pos + 1, at + 1), h.(mark := h.mark + 1), Some(s.data[pos]))
    else (Shared(s.data, pos, at), h, None)
  }

  lemma GetByteIsRead(s: Shared, h: Handle)
    requires 0 <= h.start && 0 <= h.mark < h.size
    ensures var r, (s', h', c) := LibRead(s, h, 1, 1), GetByte(s, h);
            && r.shared == s' && r.handle == h' && (r.items == 1 <==> c.Some?) && (r.items == 0 <==> c.None?)
            && (c.Some? ==> r.bytes == [c.value])
  {
  }

  lemma SliceOfSlice(data: seq<Byte>, lo: nat, hi: nat, a: nat, b: nat)
    requires a <= b && lo + b <= hi <= |data|
    ensures data[lo..hi][a..b] == data[lo + a..lo + b]
  {
    assert forall k :: 0 <= k < b - a ==> data[lo..hi][a..b][k] == data[lo + a..lo + b][k];
  }

  /** A read through the shared library returns what a private copy of the slice would, never a byte
      of the next file, and keeps the cached position true. */
  lemma LibReadIsOwn(s: Shared, h: Handle, size: int, quan: int)
    requires size > 0 && quan > 0 && Within(s, h) && InSync(s)
    ensures var r, own := LibRead(s, h, size, quan), OwnRead(Own(s, h), size, quan);
            && InSync(r.shared) && r.shared.data == s.data && Within(s, r.handle)
            && Own(s, r.handle) == own.0 && r.bytes == own.1 && r.items == OwnItems(Own(s, h), size, quan)
            && |r.bytes| == r.items * size
  {
    LibReadTakes(s, h, size, quan);
    AskedBounds(h, size, quan);
    var n := Asked(h, size, quan);
    OwnTakes(s, h, n * size);
    assert n == OwnItems(Own(s, h), size, quan);
  }

  /** All that is asked for is there, so stdio gives it. */
  lemma LibReadTakes(s: Shared, h: Handle, size: int, quan: int)
    requires size > 0 && quan > 0 && Within(s, h) && InSync(s)
    ensures var r, n, at := LibRead(s, h, size, quan), Asked(h, size, quan), h.start + h.mark;
            && 0 <= n * size <= h.size - h.mark && r.items == n && r.handle == h.(mark := h.mark + n * size)
            && InSync(r.shared) && r.shared.data == s.data && r.bytes == s.data[at..at + n * size]
  {
    AskedBounds(h, size, quan);
    var n, at := Asked(h, size, quan), h.start + h.mark;
    if n == 0 {
      assert s.data[at..at] == [];
    } else {
      TransferTakes(s, h, size, n, n * size);
    }
  }

  lemma TransferTakes(s: Shared, h: Handle, size: int, n: int, k: int)
    requires size > 0 && n > 0 && Within(s, h) && InSync(s) && k == n * size && k <= h.size - h.mark
    ensures var at := h.start + h.mark;
            Transfer(s, h, size, n) == ReadResult(Shared(s.data, at + k, at + k), h.(mark := h.mark + k), s.data[at..at + k], n)
  {
    DivExact(n, size);
    MulBound(n, size);
  }

  lemma OwnTakes(s: Shared, h: Handle, k: nat)
    requires Within(s, h) && h.mark + k <= h.size
    ensures var h', at := h.(mark := h.mark + k), h.start + h.mark;
            && Own(s, h') == Own(s, h).(mark := h.mark + k)
            && Own(s, h).content[h.mark..h.mark + k] == s.data[at..at + k]
  {
    SliceOfSlice(s.data, h.start, h.start + h.size, h.mark, h.mark + k);
  }

  /** On a library file shorter than its directory says, the cached position survives a read exactly
      when stdio stops at a whole item. */
  lemma SyncIffWholeItems(s: Shared, h: Handle, size: int, quan: int)
    requires size > 0 && quan > 0 && 0 <= h.mark <= h.size && 0 <= h.start && InSync(s)
    requires Asked(h, size, quan) > 0
    ensures InSync(LibRead(s, h, size, quan).shared) <==>
            StdioBytes(Shared(s.data, h.start + h.mark, 0), size, Asked(h, size, quan)) % size == 0
  {
    AskedBounds(h, size, quan);
    var got := StdioBytes(Shared(s.data, h.start + h.mark, 0), size, Asked(h, size, quan));
    assert got == got / size * size + got % size;
  }

  /** A library cut off three bytes into a file of four: after two items of two bytes are asked for, the
      cached position is one byte behind. */
  lemma CutLibraryLosesSync(data: seq<Byte>)
    requires |data| == 3
    ensures var r := LibRead(Shared(data, 0, 0), Handle(0, 4, 0), 2, 2); r.shared.pos == 3 && r.shared.fmark == 2
  {
  }

  /** The offset that the librarian goes by: from the end it counts backwards. */
  function Meant(pos: int, whence: Whence): int {
    if whence == SeekEnd then -pos else pos
  }

  /** A seek is the private file's to the offset meant; so it is the one asked for exactly when it does not
      count from the end, asks for the end itself, or the file is empty. */
  lemma LibSeekIsOwnIff(s: Shared, h: Handle, pos: int, whence: Whence)
    requires Within(s, h)
    ensures Within(s, LibSeek(h, pos, whence))
    ensures Own(s, LibSeek(h, pos, whence)) == OwnSeek(Own(s, h), Meant(pos, whence), whence)
    ensures Own(s, LibSeek(h, pos, whence)) == OwnSeek(Own(s, h), pos, whence)
            <==> whence != SeekEnd || pos == 0 || h.size == 0
  {
    assert Own(s, LibSeek(h, pos, whence)).content == Own(s, h).content;
  }

  /** Measured from the end the librarian counts backwards; stdio counts forwards. The two agree,
      after clamping, only for the end itself or an empty file. */
  lemma SeekEndIsBackwards(h: Handle, pos: int)
    requires 0 <= h.size
    ensures LibSeek(h, pos, SeekEnd) == LibSeek(h, h.size + pos, SeekSet) <==> pos == 0 || h.size == 0
  {
  }

  /** Four bytes back from the end of a file of ten lies its sixth byte, not its end. */
  lemma SeekEndGoesBack(s: Shared, h: Handle)
    requires Within(s, h) && h.size == 10
    ensures LibSeek(h, 4, SeekEnd).mark == 6 && OwnSeek(Own(s, h), 4, SeekEnd).mark == 10
  {
  }

  // ----- line reads -----

  /** How many bytes a line read takes: to the first newline, the limit, or the end. */
  function ChunkLen(rest: seq<Byte>, limit: nat): (n: nat)
    ensures n <= |rest| && n <= limit
  {
    if limit == 0 || rest == [] then 0
    else if rest[0] == NEWLINE then 1
    else 1 + ChunkLen(rest[1..], limit - 1)
  }

  /** The next bytes of a private file, to the end of a line or the limit. */
  function OwnChunk(f: File, limit: nat): (r: (File, seq<Byte>))
    requires OpenFile(f)
    ensures OpenFile(r.0)
  {
    var n := ChunkLen(f.content[f.mark..], limit);
    (f.(mark := f.mark + n), f.content[f.mark..f.mark + n])
  }

  /** lib_dlb_fgets with a buffer of len >= 1 bytes; None is NULL. */
  function OwnGets(f: File, len: int): (r: (File, Option<seq<Byte>>))
    requires OpenFile(f) && len >= 1
    ensures OpenFile(r.0)
  {
    if f.mark >= |f.content| then (f, None)
    else
      var (f', chunk) := OwnChunk(f, len - 1);
      (f', Some(chunk))
  }

  /** A chunk holds no newline but its last byte; it stops short of the limit only at a newline or at
      the end. */
  lemma {:induction false} ChunkShape(rest: seq<Byte>, limit: nat)
    ensures var n := ChunkLen(rest, limit);
            && (forall i :: 0 <= i < n - 1 ==> rest[i] != NEWLINE)
            && (n == limit || n == |rest| || (n > 0 && rest[n - 1] == NEWLINE))
            && (n == 0 <==> limit == 0 || rest == [])
  {
    if limit != 0 && rest != [] && rest[0] != NEWLINE {
      ChunkShape(rest[1..], limit - 1);
      assert forall i :: 0 < i < |rest| ==> rest[i] == rest[1..][i - 1];
    }
  }

  /** All the chunks that calling until NULL returns. */
  function Lines(rest: seq<Byte>, limit: nat): seq<seq<Byte>>
    requires limit >= 1
    decreases |rest|
  {
    if rest == [] then [] else
    ChunkShape(rest, limit);
    var n := ChunkLen(rest, limit);
    [rest[..n]] + Lines(rest[n..], limit)
  }

  function Concat(lines: seq<seq<Byte>>): seq<Byte> {
    if lines == [] then [] else lines[0] + Concat(lines[1..])
  }

  /** Reading lines until NULL gives back exactly the remaining bytes. */
  lemma {:induction false} LinesRebuild(rest: seq<Byte>, limit: nat)
    requires limit >= 1
    ensures Concat(Lines(rest, limit)) == rest
    decreases |rest|
  {
    if rest != [] {
      ChunkShape(rest, limit);
      var n := ChunkLen(rest, limit);
      LinesRebuild(rest[n..], limit);
      assert Lines(rest, limit)[1..] == Lines(rest[n..], limit);
      assert rest == rest[..n] + rest[n..];
    }
  }

  /** A line of at most limit bytes with no newline but its last byte; unless it is the last one, it is
      full or ends with a newline. */
  predicate Lined(line: seq<Byte>, limit: nat, last: bool) {
    && 0 < |line| <= limit && (forall k :: 0 <= k < |line| - 1 ==> line[k] != NEWLINE)
    && (|line| < limit && !last ==> line[|line| - 1] == NEWLINE)
  }

  lemma {:induction false} LinesAreLined(rest: seq<Byte>, limit: nat, i: nat)
    requires limit >= 1 && i < |Lines(rest, limit)|
    ensures Lined(Lines(rest, limit)[i], limit, i == |Lines(rest, limit)| - 1)
    decreases |rest|
  {
    ChunkShape(rest, limit);
    var n := ChunkLen(rest, limit);
    var tail := Lines(rest[n..], limit);
    assert Lines(rest, limit) == [rest[..n]] + tail;
    if i > 0 {
      LinesAreLined(rest[n..], limit, i - 1);
      assert Lines(rest, limit)[i] == tail[i - 1];
    } else {
      assert n == |rest| ==> rest[n..] == [];
    }
  }

  /** The part of a buffer that C sees as a string. */
  function CString(s: seq<Byte>): seq<Byte> {
    if s == [] || s[0] == NUL then [] else [s[0]] + CString(s[1..])
  }

  lemma {:induction false} CStringLength(s: seq<Byte>)
    ensures |CString(s)| <= |s|
    ensures CString(s) == s <==> NUL !in s
    ensures |CString(s)| == |s| ==> CString(s) == s
  {
    if s != [] {
      CStringLength(s[1..]);
      assert s == [s[0]] + s[1..];
    }
  }

  function ConcatStrings(lines: seq<seq<Byte>>): seq<Byte> {
    if lines == [] then [] else CString(lines[0]) + ConcatStrings(lines[1..])
  }

  lemma {:induction false} ConcatStringsLength(lines: seq<seq<Byte>>)
    ensures |ConcatStrings(lines)| <= |Concat(lines)|
    ensures |ConcatStrings(lines)| == |Concat(lines)| <==> NUL !in Concat(lines)
    ensures NUL !in Concat(lines) ==> ConcatStrings(lines) == Concat(lines)
  {
    if lines != [] {
      CStringLength(lines[0]);
      ConcatStringsLength(lines[1..]);
    }
  }

  /** To a caller that takes each line as a C string, the text survives exactly when the file has no
      NUL byte in it. */
  lemma StringsRebuildIff(rest: seq<Byte>, limit: nat)
    requires limit >= 1
    ensures ConcatStrings(Lines(rest, limit)) == rest <==> NUL !in rest
  {
    LinesRebuild(rest, limit);
    ConcatStringsLength(Lines(rest, limit));
  }

  /** A one-byte buffer has room for the terminator only: before the end the call returns an empty
      line and moves nothing, so reading on never reaches NULL. */
  lemma OneByteBufferIsStuck(f: File)
    requires OpenFile(f) && f.mark < |f.content|
    ensures OwnGets(f, 1) == (f, Some([]))
  {
    assert f.content[f.mark..f.mark] == [];
  }

  // ----- the directory -----

  /** Where file i ends: at the next file, or at the end of the archive. */
  function End(offsets: seq<int>, total: int, i: nat): int
    requires i < |offsets|
  {
    if i == |offsets| - 1 then total else offsets[i + 1]
  }

  /** The sizes readlibdir works out from the offsets. */
  ghost predicate SizesOf(offsets: seq<int>, total: int, sizes: seq<int>) {
    && |sizes| == |offsets|
    && forall i :: 0 <= i < |offsets| ==> sizes[i] == End(offsets, total, i) - offsets[i]
  }

  ghost predicate Ascending(offsets: seq<int>, total: int) {
    forall i :: 0 <= i < |offsets| ==> offsets[i] <= End(offsets, total, i)
  }

  lemma SizesNonNegativeIff(offsets: seq<int>, total: int, sizes: seq<int>)
    requires SizesOf(offsets, total, sizes)
    ensures (forall i :: 0 <= i < |sizes| ==> sizes[i] >= 0) <==> Ascending(offsets, total)
  {
    if forall i :: 0 <= i < |sizes| ==> sizes[i] >= 0 {
      forall i | 0 <= i < |offsets| ensures offsets[i] <= End(offsets, total, i) {
        assert sizes[i] >= 0;
      }
    }
  }

  function Slices(data: seq<Byte>, offsets: seq<int>, sizes: seq<int>): seq<Byte>
    requires Fit(data, offsets, sizes)
  {
    if offsets == [] then []
    else data[offsets[0]..offsets[0] + sizes[0]] + Slices(data, offsets[1..], sizes[1..])
  }

  lemma {:induction false} AscendingBounds(offsets: seq<int>, total: int, i: nat)
    requires Ascending(offsets, total) && i < |offsets|
    ensures offsets[0] <= offsets[i] <= End(offsets, total, i) <= total
    decreases |offsets|
  {
    if |offsets| > 1 {
      AscendingTail(offsets, total);
      assert offsets[0] <= End(offsets, total, 0);
      AscendingBounds(offsets[1..], total, if i == 0 then 0 else i - 1);
    }
  }

  lemma AscendingTail(offsets: seq<int>, total: int)
    requires Ascending(offsets, total) && |offsets| > 1
    ensures Ascending(offsets[1..], total)
    ensures forall sizes :: SizesOf(offsets, total, sizes) ==> SizesOf(offsets[1..], total, sizes[1..])
  {
    assert forall i :: 0 <= i < |offsets| - 1 ==> End(offsets[1..], total, i) == End(offsets, total, i + 1);
  }

  ghost predicate Fit(data: seq<Byte>, offsets: seq<int>, sizes: seq<int>) {
    && |offsets| == |sizes|
    && forall i :: 0 <= i < |offsets| ==> 0 <= offsets[i] && 0 <= sizes[i] && offsets[i] + sizes[i] <= |data|
  }

  lemma SlicesFit(data: seq<Byte>, offsets: seq<int>, total: int, sizes: seq<int>)
    requires SizesOf(offsets, total, sizes) && Ascending(offsets, total) && offsets != []
    requires 0 <= offsets[0] && total <= |data|
    ensures Fit(data, offsets, sizes) && offsets[0] <= total
  {
    forall i | 0 <= i < |offsets| ensures 0 <= offsets[i] && 0 <= sizes[i] && offsets[i] + sizes[i] <= |data| {
      AscendingBounds(offsets, total, i);
    }
    AscendingBounds(offsets, total, 0);
  }

  lemma SliceJoin(data: seq<Byte>, i: nat, j: nat, k: nat)
    requires i <= j <= k <= |data|
    ensures data[i..j] + data[j..k] == data[i..k]
  {
  }

  /** With ascending offsets the files tile the archive: laid end to end, in directory order, they are
      the archive from the first offset to its end, so none overlaps another and none is lost. */
  lemma {:induction false} SlicesTile(data: seq<Byte>, offsets: seq<int>, total: int, sizes: seq<int>)
    requires SizesOf(offsets, total, sizes) && Ascending(offsets, total) && offsets != []
    requires 0 <= offsets[0] && total <= |data|
    ensures Fit(data, offsets, sizes) && offsets[0] <= total
    ensures Slices(data, offsets, sizes) == data[offsets[0]..total]
  {
    SlicesFit(data, offsets, total, sizes);
    if |offsets| > 1 {
      AscendingTail(offsets, total);
      AscendingBounds(offsets, total, 0);
      SlicesTile(data, offsets[1..], total, sizes[1..]);
      SliceJoin(data, offsets[0], offsets[1], total);
    }
  }
}
