/** The RIFF-like chunks of a DDF bundle (device_ddf_bundle.cpp), read through a byte stream that reads
    little-endian numbers, never moves past its end and keeps its error status. */
module DdfBundle {
  import opened Basics
  import opened LittleEndian

  /** The bytes a stream has not read yet, and its status. */
  datatype Cursor = Cursor(rest: seq<u8>, ok: bool)

  const ZEROS: seq<u8> := [0, 0, 0, 0]

  /** An n-byte number; a short read yields 0 and the error status. */
  function Get(c: Cursor, n: nat): (r: (nat, Cursor))
    ensures |r.1.rest| <= |c.rest| && (r.1.ok ==> c.ok && n <= |c.rest| && r.1.rest == c.rest[n..])
  {
    if c.ok && n <= |c.rest| then (Value(c.rest[..n]), Cursor(c.rest[n..], true)) else (0, c.(ok := false))
  }

  /** Four single bytes; those behind the end read as 0. */
  function GetTag(c: Cursor): (r: (seq<u8>, Cursor))
    ensures |r.1.rest| <= |c.rest| && (r.1.ok ==> c.ok && 4 <= |c.rest| && r.1.rest == c.rest[4..])
    ensures |r.0| == 4
  {
    if !c.ok then (ZEROS, c)
    else if 4 <= |c.rest| then (c.rest[..4], Cursor(c.rest[4..], true))
    else (c.rest + ZEROS[|c.rest|..], Cursor([], false))
  }

  datatype Header = Header(tag: seq<u8>, size: nat, behind: Cursor)

  /** Tag and size of a chunk. */
  function GetHeader(c: Cursor): (h: Header)
    ensures |h.behind.rest| <= |c.rest| && (h.behind.ok ==> c.ok && |h.behind.rest| + 8 == |c.rest|)
  {
    var (tag, c1) := GetTag(c);
    var (size, c2) := Get(c1, 4);
    Header(tag, size, c2)
  }

  /** Where a search ended: the size of the chunk found. */
  datatype Search = Search(size: Option<nat>, at: Cursor)

  /** DDFB_FindChunk's loop: it stops behind the header that matches. */
  function Scan(c: Cursor, tag: seq<u8>): (s: Search)
    ensures |s.at.rest| <= |c.rest|
    ensures s.size.Some? ==> c.ok && s.size.value <= |s.at.rest| && (s.at.ok ==> |s.at.rest| + 8 <= |c.rest|)
    decreases c.ok, |c.rest|
  {
    if c.rest == [] || !c.ok then Search(None, c) else
    var h := GetHeader(c);
    if h.size > |h.behind.rest| then Search(None, h.behind)
    else if h.tag == tag then Search(Some(h.size), h.behind)
    else Scan(h.behind.(rest := h.behind.rest[h.size..]), tag)
  }

  /** DDFB_FindChunk: on failure the position is restored, the status is not. */
  function FindChunk(c: Cursor, tag: seq<u8>): (s: Search)
    ensures |s.at.rest| <= |c.rest|
    ensures if s.size.None? then s.at.rest == c.rest
      else c.ok && s.size.value <= |s.at.rest| && (s.at.ok ==> |s.at.rest| + 8 <= |c.rest|)
  {
    var s := Scan(c, tag);
    if s.size.Some? then s else Search(None, Cursor(c.rest, s.at.ok))
  }

  /** DDFB_IsChunk: looks at the next four bytes without reading them. */
  predicate IsChunk(c: Cursor, tag: seq<u8>)
  {
    4 < |c.rest| && c.rest[..4] == tag
  }

  /** DDFB_SkipChunk */
  function SkipChunk(c: Cursor): (r: Cursor)
    ensures |r.rest| <= |c.rest| && (r.ok ==> c.ok && |r.rest| < |c.rest|)
  {
    var h := GetHeader(c);
    if h.behind.ok && h.size <= |h.behind.rest| then Cursor(h.behind.rest[h.size..], true) else h.behind
  }

  /** An external file as the reader hands it out. */
  datatype Extf = Extf(fileType: seq<u8>, path: seq<u8>, modificationTime: seq<u8>, fileData: seq<u8>)

  /** A length of n bytes and as many bytes behind it, if they are there. */
  function GetField(c: Cursor, n: nat): (r: Option<(seq<u8>, Cursor)>)
  {
    var (length, c1) := Get(c, n);
    if |c1.rest| < length then None else Some((c1.rest[..length], c1.(rest := c1.rest[length..])))
  }

  /** The fields of an EXTF chunk; a number behind the end reads as 0. */
  function ParseExtf(payload: seq<u8>): Option<Extf>
  {
    var (fileType, c1) := GetTag(Cursor(payload, true));
    match GetField(c1, 2) {
      case None => None
      case Some((path, c2)) =>
        match GetField(c2, 2) {
          case None => None
          case Some((time, c3)) =>
            match GetField(c3, 4) {
              case None => None
              case Some((content, _)) => Some(Extf(fileType, path, time, content))
            }
        }
    }
  }

  /** DDFB_ReadExtfChunk: the stream moves behind the chunk before the fields are looked at. */
  function ReadExtf(c: Cursor): (r: (Option<Extf>, Cursor))
    ensures |r.1.rest| <= |c.rest| && (r.1.ok ==> c.ok && |r.1.rest| < |c.rest|) && (r.0.Some? ==> r.1.ok)
  {
    var h := GetHeader(c);
    if !h.behind.ok || |h.behind.rest| < h.size then (None, h.behind)
    else (ParseExtf(h.behind.rest[..h.size]), Cursor(h.behind.rest[h.size..], true))
  }

  const EXTF: seq<u8> := [69, 88, 84, 70]
  const RIFF: seq<u8> := [82, 73, 70, 70]
  const DDFB: seq<u8> := [68, 68, 70, 66]
  const DESC: seq<u8> := [68, 69, 83, 67]

  /** One turn of the loop that collects the external files of a bundle. */
  function Turn(c: Cursor): (r: (Option<Extf>, Cursor))
    requires c.ok
    ensures |r.1.rest| <= |c.rest| && (r.1.ok ==> |r.1.rest| < |c.rest|)
  {
    var (extf, c1) := if IsChunk(c, EXTF) then ReadExtf(c) else (None, c);
    if extf.Some? then (extf, c1) else (None, SkipChunk(c1))
  }

  /** The loop: each file goes in front of the list. */
  function CollectOnto(extChunks: seq<Extf>, c: Cursor): seq<Extf>
    decreases c.ok, |c.rest|
  {
    if !c.ok then extChunks else
    var (extf, c1) := Turn(c);
    CollectOnto(if extf.Some? then [extf.value] + extChunks else extChunks, c1)
  }

  /** The files in reading order. */
  function Collect(c: Cursor): seq<Extf>
    decreases c.ok, |c.rest|
  {
    if !c.ok then [] else
    var (extf, c1) := Turn(c);
    (if extf.Some? then [extf.value] else []) + Collect(c1)
  }

  function Reversed<T>(s: seq<T>): seq<T>
  {
    if s == [] then [] else Reversed(s[1..]) + [s[0]]
  }

  lemma {:induction false} CollectOntoReverses(extChunks: seq<Extf>, c: Cursor)
    ensures CollectOnto(extChunks, c) == Reversed(Collect(c)) + extChunks
    decreases c.ok, |c.rest|
  {
    if c.ok {
      var (extf, c1) := Turn(c);
      var more := if extf.Some? then [extf.value] + extChunks else extChunks;
      CollectOntoReverses(more, c1);
      if extf.Some? {
        assert ([extf.value] + Collect(c1))[1..] == Collect(c1);
        assert Reversed(Collect(c1)) + more == Reversed(Collect(c1)) + [extf.value] + extChunks;
      } else {
        assert [] + Collect(c1) == Collect(c1);
      }
    }
  }

  // ----- Serialised chunks -----

  datatype Chunk = Chunk(tag: seq<u8>, payload: seq<u8>)

  predicate ChunkOk(c: Chunk) { |c.tag| == 4 && |c.payload| < 0x1_0000_0000 }

  predicate ChunksOk(cs: seq<Chunk>) { forall k :: 0 <= k < |cs| ==> ChunkOk(cs[k]) }

  function ChunkBytes(c: Chunk): (b: seq<u8>)
    ensures |b| == |c.tag| + 4 + |c.payload|
  {
    c.tag + Bytes(|c.payload|, 4) + c.payload
  }

  function Encode(cs: seq<Chunk>): seq<u8>
  {
    if cs == [] then [] else ChunkBytes(cs[0]) + Encode(cs[1..])
  }

  lemma {:induction false} EncodeAppend(a: seq<Chunk>, b: seq<Chunk>)
    ensures Encode(a + b) == Encode(a) + Encode(b)
  {
    if a == [] {
      assert a + b == b;
    } else {
      assert (a + b)[1..] == a[1..] + b;
      EncodeAppend(a[1..], b);
    }
  }

  lemma GetNumber(v: nat, n: nat, tail: seq<u8>)
    requires v < Limit(n)
    ensures Get(Cursor(Bytes(v, n) + tail, true), n) == (v, Cursor(tail, true))
  {
    FitsBelowLimit(v, n);
    ValueOfBytes(v, n);
    assert (Bytes(v, n) + tail)[..n] == Bytes(v, n) && (Bytes(v, n) + tail)[n..] == tail;
  }

  lemma GetTagOf(tag: seq<u8>, tail: seq<u8>)
    requires |tag| == 4
    ensures GetTag(Cursor(tag + tail, true)) == (tag, Cursor(tail, true))
  {
    assert (tag + tail)[..4] == tag && (tag + tail)[4..] == tail;
  }

  /** What every reader sees of a chunk. */
  lemma HeaderOf(c: Chunk, tail: seq<u8>)
    requires ChunkOk(c)
    ensures GetHeader(Cursor(ChunkBytes(c) + tail, true)) == Header(c.tag, |c.payload|, Cursor(c.payload + tail, true))
  {
    Limits();
    var size := Bytes(|c.payload|, 4);
    assert ChunkBytes(c) + tail == c.tag + (size + (c.payload + tail));
    GetTagOf(c.tag, size + (c.payload + tail));
    GetNumber(|c.payload|, 4, c.payload + tail);
  }

  // ----- Searching -----

  lemma ScanStep(c: Chunk, tail: seq<u8>, tag: seq<u8>)
    requires ChunkOk(c)
    ensures Scan(Cursor(ChunkBytes(c) + tail, true), tag) ==
      if c.tag == tag then Search(Some(|c.payload|), Cursor(c.payload + tail, true)) else Scan(Cursor(tail, true), tag)
  {
    HeaderOf(c, tail);
    assert (c.payload + tail)[|c.payload|..] == tail;
  }

  /** Index of the first chunk with the tag, or the number of chunks. */
  function FirstWith(cs: seq<Chunk>, tag: seq<u8>): (k: nat)
    ensures k <= |cs|
  {
    if cs == [] || cs[0].tag == tag then 0 else 1 + FirstWith(cs[1..], tag)
  }

  lemma {:induction false} FirstWithIsFirst(cs: seq<Chunk>, tag: seq<u8>)
    ensures var k := FirstWith(cs, tag);
      (k < |cs| ==> cs[k].tag == tag) && forall j :: 0 <= j < k ==> cs[j].tag != tag
  {
    if cs != [] && cs[0].tag != tag {
      FirstWithIsFirst(cs[1..], tag);
    }
  }

  /** The place in front of the payload of the k-th chunk, or behind the last one. */
  function Located(cs: seq<Chunk>, k: nat): Search
  {
    if k < |cs| then Search(Some(|cs[k].payload|), Cursor(cs[k].payload + Encode(cs[k + 1..]), true))
    else Search(None, Cursor([], true))
  }

  lemma LocatedInRest(cs: seq<Chunk>, k: nat)
    requires cs != []
    ensures Located(cs[1..], k) == Located(cs, k + 1)
  {
    if k + 1 < |cs| {
      assert cs[1..][k + 1..] == cs[k + 2..];
    }
  }

  lemma {:induction false} ScanFinds(cs: seq<Chunk>, tag: seq<u8>)
    requires ChunksOk(cs)
    ensures Scan(Cursor(Encode(cs), true), tag) == Located(cs, FirstWith(cs, tag))
    decreases |cs|
  {
    if cs != [] {
      ScanStep(cs[0], Encode(cs[1..]), tag);
      hide Scan, ChunkBytes;
      if cs[0].tag != tag {
        ScanFinds(cs[1..], tag);
        hide Located;
        LocatedInRest(cs, FirstWith(cs[1..], tag));
      }
    }
  }

  /** Main result on searching: in every serialised chunk list FindChunk stops behind the header of the
      first chunk with the tag, in front of its exact payload, or restores the position when there is none. */
  lemma FindsFirst(cs: seq<Chunk>, tag: seq<u8>)
    requires ChunksOk(cs)
    ensures var k := FirstWith(cs, tag);
      FindChunk(Cursor(Encode(cs), true), tag) ==
        if k < |cs| then Search(Some(|cs[k].payload|), Cursor(cs[k].payload + Encode(cs[k + 1..]), true))
        else Search(None, Cursor(Encode(cs), true))
  {
    ScanFinds(cs, tag);
    hide Scan, Encode, FirstWith;
  }

  // ----- External files -----

  predicate ExtfOk(x: Extf)
  {
    |x.fileType| == 4 && |x.path| < 0x1_0000 && |x.modificationTime| < 0x1_0000 && |x.fileData| < 0x1_0000_0000
  }

  function Field(s: seq<u8>, n: nat): seq<u8> { Bytes(|s|, n) + s }

  function ExtfPayload(x: Extf): seq<u8>
  {
    x.fileType + Field(x.path, 2) + Field(x.modificationTime, 2) + Field(x.fileData, 4)
  }

  lemma GetFieldOf(s: seq<u8>, n: nat, tail: seq<u8>)
    requires |s| < Limit(n)
    ensures GetField(Cursor(Field(s, n) + tail, true), n) == Some((s, Cursor(tail, true)))
  {
    assert Field(s, n) + tail == Bytes(|s|, n) + (s + tail);
    GetNumber(|s|, n, s + tail);
    assert (s + tail)[..|s|] == s && (s + tail)[|s|..] == tail;
  }

  /** Field by field, the reader gives back what was written; bytes behind the file content are ignored. */
  lemma ExtfRoundTrip(x: Extf, padding: seq<u8>)
    requires ExtfOk(x)
    ensures ParseExtf(ExtfPayload(x) + padding) == Some(x)
  {
    Limits();
    var t3 := Field(x.fileData, 4) + padding;
    var t2 := Field(x.modificationTime, 2) + t3;
    var t1 := Field(x.path, 2) + t2;
    assert ExtfPayload(x) + padding == x.fileType + t1;
    GetTagOf(x.fileType, t1);
    GetFieldOf(x.path, 2, t2);
    GetFieldOf(x.modificationTime, 2, t3);
    GetFieldOf(x.fileData, 4, padding);
  }

  /** What the collecting loop makes of a chunk list: an EXTF chunk that cannot be parsed takes the chunk
      behind it along. */
  function Walk(cs: seq<Chunk>): seq<Extf>
  {
    if cs == [] then []
    else if cs[0].tag != EXTF then Walk(cs[1..])
    else match ParseExtf(cs[0].payload)
      case Some(x) => [x] + Walk(cs[1..])
      case None => if |cs| == 1 then [] else Walk(cs[2..])
  }

  lemma SkipOf(c: Chunk, tail: seq<u8>)
    requires ChunkOk(c)
    ensures SkipChunk(Cursor(ChunkBytes(c) + tail, true)) == Cursor(tail, true)
  {
    HeaderOf(c, tail);
    assert (c.payload + tail)[|c.payload|..] == tail;
  }

  /** One turn of the loop in front of a chunk. */
  lemma TurnOf(c: Chunk, tail: seq<u8>)
    requires ChunkOk(c)
    ensures Turn(Cursor(ChunkBytes(c) + tail, true)) ==
      if c.tag != EXTF then (None, Cursor(tail, true))
      else match ParseExtf(c.payload)
        case Some(x) => (Some(x), Cursor(tail, true))
        case None => (None, SkipChunk(Cursor(tail, true)))
  {
    HeaderOf(c, tail);
    SkipOf(c, tail);
    assert (ChunkBytes(c) + tail)[..4] == c.tag;
    assert (c.payload + tail)[..|c.payload|] == c.payload && (c.payload + tail)[|c.payload|..] == tail;
  }

  lemma {:induction false} CollectWalks(cs: seq<Chunk>)
    requires ChunksOk(cs)
    ensures Collect(Cursor(Encode(cs), true)) == Walk(cs)
    decreases |cs|
  {
    if cs != [] {
      TurnOf(cs[0], Encode(cs[1..]));
      CollectWalks(cs[1..]);
      if cs[0].tag == EXTF && ParseExtf(cs[0].payload).None? && |cs| > 1 {
        assert cs[1..][1..] == cs[2..];
        SkipOf(cs[1], Encode(cs[2..]));
        CollectWalks(cs[2..]);
      }
    }
  }

  /** A bundle entry: an external file with the padding behind it, or a chunk of another kind. */
  datatype Item = File(extf: Extf, padding: seq<u8>) | Other(chunk: Chunk)

  predicate ItemOk(i: Item)
  {
    match i
    case File(x, padding) => ExtfOk(x) && |ExtfPayload(x) + padding| < 0x1_0000_0000
    case Other(c) => ChunkOk(c) && c.tag != EXTF
  }

  function ChunkOf(i: Item): Chunk
  {
    match i
    case File(x, padding) => Chunk(EXTF, ExtfPayload(x) + padding)
    case Other(c) => c
  }

  function Chunks(items: seq<Item>): seq<Chunk>
  {
    seq(|items|, k requires 0 <= k < |items| => ChunkOf(items[k]))
  }

  function Files(items: seq<Item>): seq<Extf>
  {
    if items == [] then []
    else (if items[0].File? then [items[0].extf] else []) + Files(items[1..])
  }

  lemma {:induction false} ItemsWalk(items: seq<Item>)
    requires forall k :: 0 <= k < |items| ==> ItemOk(items[k])
    ensures Walk(Chunks(items)) == Files(items)
  {
    hide ParseExtf, ExtfPayload;
    if items != [] {
      ItemsWalk(items[1..]);
      if items[0].File? {
        ExtfRoundTrip(items[0].extf, items[0].padding);
      }
      assert Chunks(items)[1..] == Chunks(items[1..]);
    }
  }

  /** Main result on collecting: every list of external files, mixed with chunks of other kinds, is
      recovered in order with all its fields. */
  lemma ExternalFilesRoundTrip(items: seq<Item>)
    requires forall k :: 0 <= k < |items| ==> ItemOk(items[k])
    ensures Collect(Cursor(Encode(Chunks(items)), true)) == Files(items)
  {
    ItemsWalk(items);
    CollectWalks(Chunks(items));
  }

  /** An EXTF chunk that cannot be parsed hides the chunk behind it, a good file included. */
  lemma MalformedFileHidesTheNext(cs: seq<Chunk>)
    requires ChunksOk(cs) && |cs| > 1
    requires cs[0].tag == EXTF && ParseExtf(cs[0].payload).None?
    requires cs[1].tag == EXTF && ParseExtf(cs[1].payload).Some?
    ensures Collect(Cursor(Encode(cs[1..]), true)) ==
      [ParseExtf(cs[1].payload).value] + Collect(Cursor(Encode(cs), true))
  {
    CollectWalks(cs);
    CollectWalks(cs[1..]);
    MalformedWalk(cs);
    hide *;
  }

  lemma MalformedWalk(cs: seq<Chunk>)
    requires |cs| > 1 && IsMalformed(cs[0]) && IsFile(cs[1])
    ensures Walk(cs[1..]) == [ParseExtf(cs[1].payload).value] + Walk(cs)
  {
    hide ParseExtf;
    assert cs[1..][1..] == cs[2..];
  }

  // ----- Which files are recovered -----

  predicate IsFile(c: Chunk) { c.tag == EXTF && ParseExtf(c.payload).Some? }

  predicate IsMalformed(c: Chunk) { c.tag == EXTF && ParseExtf(c.payload).None? }

  /** The files of all EXTF chunks that can be parsed, in order. */
  function Good(cs: seq<Chunk>): seq<Extf>
  {
    if cs == [] then []
    else (if IsFile(cs[0]) then [ParseExtf(cs[0].payload).value] else []) + Good(cs[1..])
  }

  /** Length of the run of malformed EXTF chunks directly in front of chunk j. */
  function RunBefore(cs: seq<Chunk>, j: nat): (n: nat)
    requires j <= |cs|
    ensures n <= j
  {
    if j == 0 || !IsMalformed(cs[j - 1]) then 0 else 1 + RunBefore(cs, j - 1)
  }

  /** The walk, one chunk at a time: `skip` says that the next chunk is taken along. */
  function WalkFrom(cs: seq<Chunk>, skip: bool): seq<Extf>
  {
    if cs == [] then []
    else if skip then WalkFrom(cs[1..], false)
    else if IsMalformed(cs[0]) then WalkFrom(cs[1..], true)
    else (if IsFile(cs[0]) then [ParseExtf(cs[0].payload).value] else []) + WalkFrom(cs[1..], false)
  }

  lemma {:induction false} WalkIsWalkFrom(cs: seq<Chunk>)
    ensures Walk(cs) == WalkFrom(cs, false)
    decreases |cs|
  {
    hide ParseExtf;
    if cs != [] {
      WalkIsWalkFrom(cs[1..]);
      if IsMalformed(cs[0]) && |cs| > 1 {
        assert cs[1..][1..] == cs[2..];
        WalkIsWalkFrom(cs[2..]);
      }
    }
  }

  /** Chunk j is not taken along by a malformed one, if the walk starts with `skip`. */
  predicate Reached(cs: seq<Chunk>, j: nat, skip: bool)
    requires j <= |cs|
  {
    (RunBefore(cs, j) + if skip && RunBefore(cs, j) == j then 1 else 0) % 2 == 0
  }

  lemma {:induction false} RunShifts(cs: seq<Chunk>, j: nat)
    requires cs != [] && 0 < j <= |cs|
    ensures RunBefore(cs, j) ==
      RunBefore(cs[1..], j - 1) + if RunBefore(cs[1..], j - 1) == j - 1 && IsMalformed(cs[0]) then 1 else 0
    decreases j
  {
    hide IsMalformed;
    if j > 1 {
      assert cs[1..][j - 2] == cs[j - 1];
      if IsMalformed(cs[j - 1]) {
        RunShifts(cs, j - 1);
      }
    }
  }

  /** A step over the first chunk moves the question to the rest. */
  lemma ReachedShifts(cs: seq<Chunk>, j: nat, skip: bool)
    requires cs != [] && 0 < j <= |cs|
    ensures Reached(cs, j, skip) <==> Reached(cs[1..], j - 1, !skip && IsMalformed(cs[0]))
  {
    hide IsMalformed;
    RunShifts(cs, j);
  }

  ghost predicate AllReached(cs: seq<Chunk>, skip: bool)
  {
    forall j :: 0 <= j < |cs| && IsFile(cs[j]) ==> Reached(cs, j, skip)
  }

  lemma SamePrefix(x: Extf, w: seq<Extf>, g: seq<Extf>)
    ensures [x] + w == [x] + g <==> w == g
  {
    assert ([x] + w)[1..] == w && ([x] + g)[1..] == g;
  }

  lemma {:induction false} WalkFromIff(cs: seq<Chunk>, skip: bool)
    ensures |WalkFrom(cs, skip)| <= |Good(cs)|
    ensures WalkFrom(cs, skip) == Good(cs) <==> AllReached(cs, skip)
    decreases |cs|
  {
    hide ParseExtf, Reached;
    if cs != [] {
      var next := !skip && IsMalformed(cs[0]);
      var w, g := WalkFrom(cs[1..], next), Good(cs[1..]);
      WalkFromIff(cs[1..], next);
      AllReachedShifts(cs, skip);
      hide AllReached;
      if !IsFile(cs[0]) {
        assert WalkFrom(cs, skip) == w && Good(cs) == g;
      } else if skip {
        assert |WalkFrom(cs, skip)| == |w| && |Good(cs)| == 1 + |g|;
      } else {
        SamePrefix(ParseExtf(cs[0].payload).value, w, g);
      }
    }
  }

  lemma AllReachedShifts(cs: seq<Chunk>, skip: bool)
    requires cs != []
    ensures AllReached(cs, skip) <==>
      (IsFile(cs[0]) ==> !skip) && AllReached(cs[1..], !skip && IsMalformed(cs[0]))
  {
    var next := !skip && IsMalformed(cs[0]);
    assert Reached(cs, 0, skip) <==> !skip;
    hide IsFile, IsMalformed, Reached;
    forall j | 0 < j < |cs|
      ensures cs[1..][j - 1] == cs[j] && (Reached(cs, j, skip) <==> Reached(cs[1..], j - 1, next))
    {
      ReachedShifts(cs, j, skip);
    }
    if AllReached(cs, skip) {
      forall j | 0 <= j < |cs[1..]| && IsFile(cs[1..][j])
        ensures Reached(cs[1..], j, next)
      {
        assert cs[1..][j] == cs[j + 1];
      }
    }
  }

  /** Main result on recovery: every file is recovered, and nothing else, exactly when each chunk that can
      be parsed is directly preceded by an even number of malformed EXTF chunks. */
  lemma AllFilesRecoveredIff(cs: seq<Chunk>)
    requires ChunksOk(cs)
    ensures Collect(Cursor(Encode(cs), true)) == Good(cs) <==>
      forall j :: 0 <= j < |cs| && IsFile(cs[j]) ==> RunBefore(cs, j) % 2 == 0
  {
    CollectWalks(cs);
    WalkIsWalkFrom(cs);
    WalkFromIff(cs, false);
    hide IsFile;
    assert forall j :: 0 <= j < |cs| ==> (Reached(cs, j, false) <==> RunBefore(cs, j) % 2 == 0);
  }

  // ----- A valid bundle -----

  /** IsValidDDFBundle behind the RIFF header: where the DDFB content of an accepted bundle starts. */
  function ValidContent(c: Cursor): (s: Search)
    ensures s.size.Some? ==> c.ok && s.size.value <= |s.at.rest| <= |c.rest|
  {
    var ddfb := FindChunk(c, DDFB);
    if ddfb.size.None? then ddfb
    else if FindChunk(Cursor(ddfb.at.rest[..ddfb.size.value], true), DESC).size.None? then ddfb.(size := None)
    else ddfb
  }

  function ValidBundle(c: Cursor): (s: Search)
    ensures s.size.Some? ==> s.size.value <= |s.at.rest| && |s.at.rest| + 8 <= |c.rest|
  {
    var riff := FindChunk(c, RIFF);
    if riff.size.None? then riff else ValidContent(riff.at)
  }

  /** The bytes the hash covers: the content found, with the eight header bytes in front of it. */
  function Hashed(data: seq<u8>, s: Search): seq<u8>
    requires s.size.Some? && s.size.value <= |s.at.rest| && |s.at.rest| + 8 <= |data|
  {
    var start := |data| - |s.at.rest|;
    data[start - 8..start + s.size.value]
  }

  /** The chunks behind the header of the first RIFF chunk. */
  function BehindRiff(cs: seq<Chunk>, inside: seq<Chunk>): seq<Chunk>
  {
    var r := FirstWith(cs, RIFF);
    if r < |cs| then inside + cs[r + 1..] else []
  }

  /** The DDFB content that counts, if the bundle has one. */
  function Accepted(after: seq<Chunk>, content: seq<Chunk>): Option<nat>
  {
    var k := FirstWith(after, DDFB);
    if k < |after| && FirstWith(content, DESC) < |content| then Some(k) else None
  }

  lemma ValidContentIff(after: seq<Chunk>, content: seq<Chunk>)
    requires ChunksOk(after) && ChunksOk(content)
    requires var k := FirstWith(after, DDFB); k < |after| ==> after[k].payload == Encode(content)
    ensures var s := ValidContent(Cursor(Encode(after), true));
      match Accepted(after, content)
      case None => s.size == None
      case Some(k) => s == Search(Some(|after[k].payload|), Cursor(after[k].payload + Encode(after[k + 1..]), true))
  {
    FindsFirst(after, DDFB);
    var k := FirstWith(after, DDFB);
    if k < |after| {
      var p := after[k].payload;
      assert (p + Encode(after[k + 1..]))[..|p|] == p;
      FindsFirst(content, DESC);
    }
  }

  lemma BehindRiffOk(cs: seq<Chunk>, inside: seq<Chunk>)
    requires ChunksOk(cs) && ChunksOk(inside)
    ensures ChunksOk(BehindRiff(cs, inside))
  {
  }

  lemma RiffFound(cs: seq<Chunk>, inside: seq<Chunk>)
    requires ChunksOk(cs) && ChunksOk(inside)
    requires var r := FirstWith(cs, RIFF); r < |cs| ==> cs[r].payload == Encode(inside)
    ensures var r := FirstWith(cs, RIFF); var after := BehindRiff(cs, inside);
      var s := ValidBundle(Cursor(Encode(cs), true));
      if r < |cs| then
        s == ValidContent(Cursor(Encode(after), true)) && cs[r].payload + Encode(cs[r + 1..]) == Encode(after)
      else s.size == None
  {
    FindsFirst(cs, RIFF);
    var r := FirstWith(cs, RIFF);
    hide FindChunk, Encode, FirstWith, ValidContent, ChunksOk;
    if r < |cs| {
      EncodeAppend(inside, cs[r + 1..]);
    }
  }

  /** A file whose chunks are `cs`, the first RIFF chunk of which consists of the chunks `inside`, is
      accepted exactly when a DDFB chunk follows the RIFF header (inside the RIFF chunk or behind it) and
      the first such chunk, consisting of the chunks `content`, has a DESC chunk; the hash covers exactly
      that DDFB chunk. */
  lemma ValidBundleIff(cs: seq<Chunk>, inside: seq<Chunk>, content: seq<Chunk>)
    requires ChunksOk(cs) && ChunksOk(inside) && ChunksOk(content)
    requires var r := FirstWith(cs, RIFF); r < |cs| ==> cs[r].payload == Encode(inside)
    requires var after := BehindRiff(cs, inside); var k := FirstWith(after, DDFB);
      k < |after| ==> after[k].payload == Encode(content)
    ensures var s := ValidBundle(Cursor(Encode(cs), true)); var after := BehindRiff(cs, inside);
      match Accepted(after, content)
      case None => s.size == None
      case Some(k) => s.size.Some? && Hashed(Encode(cs), s) == ChunkBytes(after[k])
  {
    var after := BehindRiff(cs, inside);
    RiffFound(cs, inside);
    BehindRiffOk(cs, inside);
    if FirstWith(cs, RIFF) < |cs| {
      ContentCovered(cs, FirstWith(cs, RIFF), after, content);
    } else {
      assert after == [] && Accepted(after, content) == None;
    }
    hide ValidBundle, ValidContent, BehindRiff, Encode, ChunkBytes, Accepted, ChunksOk, Hashed, FirstWith;
  }

  /** The outcome `s` is right for a bundle `cs`. */
  ghost predicate AcceptsAndHashes(cs: seq<Chunk>, after: seq<Chunk>, content: seq<Chunk>, s: Search)
  {
    match Accepted(after, content)
    case None => s.size == None
    case Some(k) =>
      && s.size.Some? && s.size.value <= |s.at.rest| && |s.at.rest| + 8 <= |Encode(cs)|
      && Hashed(Encode(cs), s) == ChunkBytes(after[k])
  }

  lemma ContentCovered(cs: seq<Chunk>, r: nat, after: seq<Chunk>, content: seq<Chunk>)
    requires ChunksOk(after) && ChunksOk(content) && r < |cs| && |cs[r].tag| == 4
    requires cs[r].payload + Encode(cs[r + 1..]) == Encode(after)
    requires var k := FirstWith(after, DDFB); k < |after| ==> after[k].payload == Encode(content)
    ensures AcceptsAndHashes(cs, after, content, ValidContent(Cursor(Encode(after), true)))
  {
    ValidContentIff(after, content);
    assert Accepted(after, content).Some? ==> Accepted(after, content).value < |after|;
    hide ValidContent, Accepted, FirstWith;
    if Accepted(after, content).Some? {
      HashCovers(cs, r, after, Accepted(after, content).value);
    }
    hide Encode, ChunkBytes, Hashed, ChunksOk;
  }

  /** The serialised list is some bytes, the serialised k-th chunk, and those behind it. */
  lemma EncodeAround(cs: seq<Chunk>, k: nat)
    requires k < |cs|
    ensures Encode(cs) == Encode(cs[..k]) + ChunkBytes(cs[k]) + Encode(cs[k + 1..])
  {
    hide ChunkBytes;
    var front, back := cs[..k], cs[k..];
    EncodeAppend(front, back);
    assert cs == front + back;
    EncodeFirst(back);
    assert back[0] == cs[k] && back[1..] == cs[k + 1..];
    Associate(Encode(front), ChunkBytes(cs[k]), Encode(cs[k + 1..]));
  }

  lemma EncodeFirst(cs: seq<Chunk>)
    requires cs != []
    ensures Encode(cs) == ChunkBytes(cs[0]) + Encode(cs[1..])
  {
  }

  lemma Associate(a: seq<u8>, b: seq<u8>, c: seq<u8>)
    ensures a + (b + c) == a + b + c
  {
  }

  lemma Regroup(a: seq<u8>, b: seq<u8>, c: seq<u8>, d: seq<u8>, x: seq<u8>, y: seq<u8>, z: seq<u8>)
    requires c + d == x + y + z
    ensures a + (b + c) + d == (a + b + x) + y + z
  {
    assert a + (b + c) + d == a + b + (c + d);
  }

  lemma HashCovers(cs: seq<Chunk>, r: nat, after: seq<Chunk>, k: nat)
    requires ChunksOk(after) && r < |cs| && |cs[r].tag| == 4 && k < |after|
    requires cs[r].payload + Encode(cs[r + 1..]) == Encode(after)
    ensures var s := Search(Some(|after[k].payload|), Cursor(after[k].payload + Encode(after[k + 1..]), true));
      |s.at.rest| + 8 <= |Encode(cs)| && Hashed(Encode(cs), s) == ChunkBytes(after[k])
  {
    EncodeAround(cs, r);
    EncodeAround(after, k);
    var header := cs[r].tag + Bytes(|cs[r].payload|, 4);
    var c := after[k];
    Regroup(Encode(cs[..r]), header, cs[r].payload, Encode(cs[r + 1..]), Encode(after[..k]), ChunkBytes(c),
            Encode(after[k + 1..]));
    var front := Encode(cs[..r]) + header + Encode(after[..k]);
    HashedRegion(Encode(cs), front, c, Encode(after[k + 1..]));
  }

  lemma HashedRegion(data: seq<u8>, front: seq<u8>, c: Chunk, tail: seq<u8>)
    requires data == front + ChunkBytes(c) + tail && |c.tag| == 4
    ensures Hashed(data, Search(Some(|c.payload|), Cursor(c.payload + tail, true))) == ChunkBytes(c)
  {
  }

  // ----- The stream object -----

  lemma Split(data: seq<u8>, pos: nat, n: nat)
    requires pos + n <= |data|
    ensures data[pos..][..n] == data[pos..pos + n] && data[pos..][n..] == data[pos + n..]
  {
  }

  class BStream {
    const data: seq<u8>
    var pos: nat
    var ok: bool

    ghost predicate Valid()
      reads this
    {
      pos <= |data|
    }

    ghost function View(): (c: Cursor)
      requires Valid()
      reads this
      ensures |data| - |c.rest| == pos
    {
      Cursor(data[pos..], ok)
    }

    constructor (bytes: seq<u8>)
      ensures Valid() && data == bytes && View() == Cursor(bytes, true)
    {
      data, pos, ok := bytes, 0, true;
    }

    method GetNumber(n: nat) returns (v: nat)
      requires Valid()
      modifies this
      ensures Valid() && (v, View()) == Get(old(View()), n)
    {
      if ok && pos + n <= |data| {
        Split(data, pos, n);
        v := Value(data[pos..pos + n]);
        pos := pos + n;
      } else {
        v, ok := 0, false;
      }
    }

    method GetU8() returns (v: u8)
      requires Valid()
      modifies this
      ensures Valid()
      ensures if old(ok && pos < |data|) then v == data[old(pos)] && pos == old(pos) + 1 && ok
        else v == 0 && pos == old(pos) && !ok
    {
      if ok && pos < |data| {
        v := data[pos];
        pos := pos + 1;
      } else {
        v, ok := 0, false;
      }
    }

    method Fourcc() returns (tag: seq<u8>)
      requires Valid()
      modifies this
      ensures Valid() && (tag, View()) == GetTag(old(View()))
    {
      var a := GetU8();
      var b := GetU8();
      var c := GetU8();
      var d := GetU8();
      tag := [a, b, c, d];
      ghost var was := old(View());
      if was.ok && 4 <= |was.rest| {
        assert was.rest[..4] == tag && was.rest[4..] == data[pos..];
      } else {
        assert tag == GetTag(was).0;
      }
    }

    method ReadHeader() returns (fourcc: seq<u8>, size: nat)
      requires Valid()
      modifies this
      ensures Valid() && Header(fourcc, size, View()) == GetHeader(old(View()))
    {
      fourcc := Fourcc();
      size := GetNumber(4);
    }

    /** Moves over bytes that are there. */
    method Advance(n: nat)
      requires Valid() && pos + n <= |data|
      modifies this
      ensures Valid() && View() == old(View().(rest := View().rest[n..])) && pos == old(pos) + n
    {
      Split(data, pos, n);
      pos := pos + n;
    }

    /** DDFB_FindChunk */
    method Find(tag: seq<u8>) returns (size: Option<nat>)
      requires Valid()
      modifies this
      ensures Valid() && Search(size, View()) == FindChunk(old(View()), tag)
    {
      var origPos := pos;
      while pos < |data| && ok
        invariant Valid()
        invariant Scan(View(), tag) == Scan(old(View()), tag)
        decreases ok, |data| - pos
      {
        var fourcc, sz := ReadHeader();
        if pos + sz > |data| {
          break;
        }
        if fourcc == tag {
          size := Some(sz);
          return;
        }
        Advance(sz);
      }
      pos := origPos;
      size := None;
    }

    /** DDFB_SkipChunk */
    method Skip() returns (done: bool)
      requires Valid()
      modifies this
      ensures Valid() && View() == SkipChunk(old(View()))
      ensures done <==> var h := GetHeader(old(View())); h.behind.ok && h.size <= |h.behind.rest|
    {
      var fourcc, sz := ReadHeader();
      done := ok && pos + sz <= |data|;
      if done {
        Advance(sz);
      }
    }

    /** A length of n bytes and as many bytes; None if the payload is too short. */
    method Sized(n: nat) returns (field: Option<seq<u8>>)
      requires Valid()
      modifies this
      ensures Valid()
      ensures match GetField(old(View()), n)
        case None => field == None
        case Some((s, c)) => field == Some(s) && View() == c
    {
      var length := GetNumber(n);
      if |data| < pos + length {
        return None;
      }
      Split(data, pos, length);
      field := Some(data[pos..pos + length]);
      pos := pos + length;
    }

    /** The fields of an EXTF chunk, read from a stream over its payload. */
    method ReadFields() returns (extf: Option<Extf>)
      requires Valid() && View() == Cursor(data, true)
      modifies this
      ensures extf == ParseExtf(data)
    {
      var fileType := Fourcc();
      var path := Sized(2);
      if path.None? {
        return None;
      }
      var time := Sized(2);
      if time.None? {
        return None;
      }
      var content := Sized(4);
      if content.None? {
        return None;
      }
      extf := Some(Extf(fileType, path.value, time.value, content.value));
    }

    /** DDFB_ReadExtfChunk */
    method ReadFile() returns (extf: Option<Extf>)
      requires Valid()
      modifies this
      ensures Valid() && (extf, View()) == ReadExtf(old(View()))
    {
      hide ParseExtf;
      var fourcc, chunkSize := ReadHeader();
      if !ok || |data| < pos + chunkSize {
        return None;
      }
      Split(data, pos, chunkSize);
      var payload := data[pos..pos + chunkSize];
      Advance(chunkSize);
      extf := FieldsOf(payload);
    }

    /** One turn of the collecting loop. */
    method ReadOrSkip() returns (extf: Option<Extf>)
      requires Valid() && ok
      modifies this
      ensures Valid() && (extf, View()) == Turn(old(View()))
    {
      if pos + 4 < |data| {
        Split(data, pos, 4);
        if data[pos..pos + 4] == EXTF {
          extf := ReadFile();
          if extf.Some? {
            return;
          }
        }
      }
      var _ := Skip();
      extf := None;
    }

    /** The collecting loop; each file goes in front of the list. */
    method ReadFiles() returns (extChunks: seq<Extf>)
      requires Valid()
      modifies this
      ensures Valid() && !ok
      ensures extChunks == CollectOnto([], old(View()))
    {
      extChunks := [];
      while ok
        invariant Valid()
        invariant CollectOnto(extChunks, View()) == CollectOnto([], old(View()))
        decreases ok, |data| - pos
      {
        var extf := ReadOrSkip();
        if extf.Some? {
          extChunks := [extf.value] + extChunks;
        }
      }
    }

    /** IsValidDDFBundle; whether the hash function succeeds is an input. */
    method IsValid(hashWorks: bool) returns (valid: bool, hashed: seq<u8>)
      requires Valid()
      modifies this
      ensures valid <==> hashWorks && ValidBundle(old(View())).size.Some?
      ensures valid ==> hashed == Hashed(data, ValidBundle(old(View())))
    {
      var chunkSize := Find(RIFF);
      if chunkSize.None? {
        return false, [];
      }
      valid, hashed := HasDescription(hashWorks);
    }

    method HasDescription(hashWorks: bool) returns (valid: bool, hashed: seq<u8>)
      requires Valid() && (ok ==> 8 <= pos)
      modifies this
      ensures valid <==> hashWorks && ValidContent(old(View())).size.Some?
      ensures valid ==> hashed == Hashed(data, ValidContent(old(View())))
    {
      hide FindChunk;
      var chunkSize := Find(DDFB);
      if chunkSize.None? {
        return false, [];
      }
      var size := chunkSize.value;
      hashed := data[pos - 8..pos + size];
      if !hashWorks {
        return false, hashed;
      }
      Split(data, pos, size);
      valid := Describes(data[pos..pos + size]);
    }
  }

  /** The fields of an EXTF chunk, read from a stream of their own over its payload. */
  method FieldsOf(payload: seq<u8>) returns (extf: Option<Extf>)
    ensures extf == ParseExtf(payload)
  {
    var bs1 := new BStream(payload);
    extf := bs1.ReadFields();
  }

  /** The DDFB content, seen as a stream of its own, has a DESC chunk. */
  method Describes(content: seq<u8>) returns (found: bool)
    ensures found <==> FindChunk(Cursor(content, true), DESC).size.Some?
  {
    var bsDDFB := new BStream(content);
    var size := bsDDFB.Find(DESC);
    found := size.Some?;
  }

  // ----- The hash string -----

  predicate IsHexDigit(c: char) { '0' <= c <= '9' || 'a' <= c <= 'f' || 'A' <= c <= 'F' }

  function Lower(c: char): (r: char)
    ensures 'A' <= c <= 'F' || r == c
    ensures IsHexDigit(c) ==> IsHexDigit(r) && !('A' <= r <= 'F')
  {
    if 'A' <= c <= 'F' then c + ('a' - 'A') else c
  }

  /** The value of a hex digit, either case. */
  function HexValue(c: char): nat
    requires IsHexDigit(c)
  {
    if c <= '9' then (c - '0') as nat else if c <= 'F' then 10 + (c - 'A') as nat else 10 + (c - 'a') as nat
  }

  /** A hash string means the same after it was rewritten. */
  lemma LowerKeepsValue(c: char)
    requires IsHexDigit(c)
    ensures IsHexDigit(Lower(c)) && HexValue(Lower(c)) == HexValue(c) && !('A' <= Lower(c) <= 'F')
  {
  }

  /** DDFB_SanitizeBundleHashString: accepts exactly 64 hex digits and makes them lower-case in place; a
      string that is refused is lower-cased up to the first character that is no hex digit. */
  method SanitizeBundleHashString(str: array<char>) returns (ok: bool)
    modifies str
    ensures ok <==> str.Length == 64 && forall k :: 0 <= k < 64 ==> IsHexDigit(old(str[k]))
    ensures str.Length != 64 ==> str[..] == old(str[..])
    ensures str.Length == 64 ==> forall k :: 0 <= k < 64 ==>
      str[k] == if forall j :: 0 <= j <= k ==> IsHexDigit(old(str[j])) then Lower(old(str[k])) else old(str[k])
  {
    if str.Length != 64 {
      return false;
    }
    for i := 0 to 64
      invariant forall k :: 0 <= k < i ==> IsHexDigit(old(str[k])) && str[k] == Lower(old(str[k]))
      invariant forall k :: i <= k < 64 ==> str[k] == old(str[k])
    {
      var ch := str[i];
      if '0' <= ch <= '9' || 'a' <= ch <= 'f' {
      } else if 'A' <= ch <= 'F' {
        str[i] := ch + ('a' - 'A');
      } else {
        return false;
      }
    }
    ok := true;
  }
}
