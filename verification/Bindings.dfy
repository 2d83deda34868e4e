/** ZDP bindings (bindings.cpp:32-111): the entry format of Mgmt_Bind_rsp and Bind_req (053474r20,
    sections 2.4.4.3.4 and 2.4.3.2.2) on a little-endian QDataStream. */
module Bindings {
  import opened Basics
  import opened LittleEndian

  const GROUP_MODE: u8 := 0x01
  const EXTENDED_MODE: u8 := 0x03

  /** `dst` is the union of group and extended address, read as its 64-bit member. */
  datatype Binding = Binding(srcAddress: u64, srcEndpoint: u8, clusterId: u16, dstAddrMode: u8, dst: u64,
      dstEndpoint: u8)

  const EMPTY := Binding(0, 0, 0, 0, 0, 0)

  // ----- The stream as a value -----

  /** Reading n bytes at `pos`: a short read yields 0 and moves to the end. */
  function Read(data: seq<u8>, pos: nat, n: nat): (r: (nat, nat))
    requires pos <= |data|
    ensures pos <= r.1 <= |data| && r.0 < Limit(n)
    ensures n > 0 && pos < |data| ==> pos < r.1
  {
    if pos + n <= |data| then
      ValueBelowLimit(data[pos..pos + n]);
      (Value(data[pos..pos + n]), pos + n)
    else
      LimitPositive(n);
      (0, |data|)
  }

  /** Result of readFromStream: success, the binding as far as it was filled, the new position. */
  datatype Parsed = Parsed(ok: bool, binding: Binding, pos: nat)

  /** Source address, source endpoint, cluster and address mode. */
  function ReadHeader(data: seq<u8>, pos: nat): (r: Parsed)
    requires pos <= |data|
    ensures pos <= r.pos <= |data|
    ensures pos < |data| ==> pos < r.pos
  {
    Limits();
    if pos == |data| then Parsed(false, EMPTY, pos) else
    var (src, p1) := Read(data, pos, 8);
    var b1 := EMPTY.(srcAddress := src);
    if p1 == |data| then Parsed(false, b1, p1) else
    var (ep, p2) := Read(data, p1, 1);
    var b2 := b1.(srcEndpoint := ep);
    if p2 == |data| then Parsed(false, b2, p2) else
    var (cl, p3) := Read(data, p2, 2);
    var b3 := b2.(clusterId := cl);
    if p3 == |data| then Parsed(false, b3, p3) else
    var (mode, p4) := Read(data, p3, 1);
    Parsed(true, b3.(dstAddrMode := mode), p4)
  }

  /** The destination that belongs to the address mode already read into `b`. */
  function ReadDestination(data: seq<u8>, pos: nat, b: Binding): (r: Parsed)
    requires pos <= |data|
    ensures pos <= r.pos <= |data|
    ensures r.ok ==> b.dstAddrMode == GROUP_MODE || b.dstAddrMode == EXTENDED_MODE
    ensures r.binding.dstAddrMode == b.dstAddrMode
  {
    Limits();
    if b.dstAddrMode == GROUP_MODE then
      if pos == |data| then Parsed(false, b, pos) else
      var (group, p1) := Read(data, pos, 2);
      Parsed(true, b.(dst := group, dstEndpoint := 0), p1)
    else if b.dstAddrMode == EXTENDED_MODE then
      if pos == |data| then Parsed(false, b, pos) else
      var (ext, p1) := Read(data, pos, 8);
      if p1 == |data| then Parsed(false, b.(dst := ext), p1) else
      var (ep, p2) := Read(data, p1, 1);
      Parsed(true, b.(dst := ext, dstEndpoint := ep), p2)
    else Parsed(false, b, pos)
  }

  /** readFromStream */
  function ReadBinding(data: seq<u8>, pos: nat): (r: Parsed)
    requires pos <= |data|
    ensures pos <= r.pos <= |data|
    ensures pos < |data| ==> pos < r.pos
    ensures r.ok ==> r.binding.dstAddrMode == GROUP_MODE || r.binding.dstAddrMode == EXTENDED_MODE
  {
    var h := ReadHeader(data, pos);
    if h.ok then ReadDestination(data, h.pos, h.binding) else h
  }

  function Header(b: Binding): seq<u8>
  {
    Bytes(b.srcAddress, 8) + Bytes(b.srcEndpoint, 1) + Bytes(b.clusterId, 2) + Bytes(b.dstAddrMode, 1)
  }

  /** writeToStream: success, and the bytes written even when it fails half-way. */
  function WriteBinding(b: Binding): (bool, seq<u8>)
  {
    if b.srcAddress == 0 || b.srcEndpoint == 0 then (false, [])
    else if b.dstAddrMode == GROUP_MODE then (true, Header(b) + Bytes(b.dst % 0x1_0000, 2))
    else if b.dstAddrMode == EXTENDED_MODE && b.dst != 0 && b.dstEndpoint != 0 then
      (true, Header(b) + Bytes(b.dst, 8) + Bytes(b.dstEndpoint, 1))
    else (false, Header(b))
  }

  /** A group binding has no destination endpoint and no upper address bits. */
  predicate NormalForm(b: Binding)
  {
    b.dstAddrMode == GROUP_MODE ==> b.dstEndpoint == 0 && b.dst < 0x1_0000
  }

  /** What the entry format keeps of a binding. */
  function Normalize(b: Binding): Binding
  {
    if b.dstAddrMode == GROUP_MODE then b.(dst := b.dst % 0x1_0000, dstEndpoint := 0) else b
  }

  /** The k-th byte of a number, least significant first. */
  function ByteOf(v: nat, k: nat): u8 { if k == 0 then v % 256 else ByteOf(v / 256, k - 1) }

  lemma {:induction false} BytesInOrder(v: nat, n: nat, k: nat)
    requires k < n
    ensures Bytes(v, n)[k] == ByteOf(v, k)
  {
    if k > 0 {
      BytesInOrder(v / 256, n - 1, k - 1);
    }
  }

  /** The entries that can be written. */
  lemma WritableIff(b: Binding)
    ensures WriteBinding(b).0 <==>
      && b.srcAddress != 0 && b.srcEndpoint != 0
      && (b.dstAddrMode == 1 || (b.dstAddrMode == 3 && b.dst != 0 && b.dstEndpoint != 0))
  {
  }

  /** The layout of an entry, byte by byte (053474r20, section 2.4.4.3.4). */
  lemma EntryLayout(b: Binding, k: nat)
    requires WriteBinding(b).0 && k < |WriteBinding(b).1|
    ensures |WriteBinding(b).1| == if b.dstAddrMode == 1 then 14 else 21
    ensures WriteBinding(b).1[k] ==
      if k < 8 then ByteOf(b.srcAddress, k)
      else if k == 8 then b.srcEndpoint
      else if k <= 10 then ByteOf(b.clusterId, k - 9)
      else if k == 11 then b.dstAddrMode
      else if b.dstAddrMode == 1 then ByteOf(b.dst % 0x1_0000, k - 12)
      else if k < 20 then ByteOf(b.dst, k - 12)
      else b.dstEndpoint
  {
    if k < 8 {
      BytesInOrder(b.srcAddress, 8, k);
    } else if k == 8 {
      BytesInOrder(b.srcEndpoint, 1, 0);
    } else if k <= 10 {
      BytesInOrder(b.clusterId, 2, k - 9);
    } else if k == 11 {
      BytesInOrder(b.dstAddrMode, 1, 0);
    } else if b.dstAddrMode == 1 {
      BytesInOrder(b.dst % 0x1_0000, 2, k - 12);
    } else if k < 20 {
      BytesInOrder(b.dst, 8, k - 12);
    } else {
      BytesInOrder(b.dstEndpoint, 1, 0);
    }
    hide Bytes;
  }

  /** A number written into the data is read from there. */
  lemma ReadBack(data: seq<u8>, pos: nat, v: nat, n: nat)
    requires pos + n <= |data| && data[pos..pos + n] == Bytes(v, n) && v < Limit(n)
    ensures Read(data, pos, n) == (v, pos + n)
  {
    FitsBelowLimit(v, n);
    ValueOfBytes(v, n);
  }

  lemma HeaderBack(data: seq<u8>, pos: nat, b: Binding)
    requires pos + 12 < |data| && data[pos..pos + 12] == Header(b)
    ensures ReadHeader(data, pos) == Parsed(true, b.(dst := 0, dstEndpoint := 0), pos + 12)
  {
    Limits();
    var h := Header(b);
    assert h[..8] == Bytes(b.srcAddress, 8) && h[8..9] == Bytes(b.srcEndpoint, 1)
           && h[9..11] == Bytes(b.clusterId, 2) && h[11..12] == Bytes(b.dstAddrMode, 1);
    Slice(data, pos, h, 0, 8);
    Slice(data, pos, h, 8, 9);
    Slice(data, pos, h, 9, 11);
    Slice(data, pos, h, 11, 12);
    ReadBack(data, pos, b.srcAddress, 8);
    ReadBack(data, pos + 8, b.srcEndpoint, 1);
    ReadBack(data, pos + 9, b.clusterId, 2);
    ReadBack(data, pos + 11, b.dstAddrMode, 1);
  }

  function Destination(b: Binding): seq<u8>
  {
    if b.dstAddrMode == GROUP_MODE then Bytes(b.dst % 0x1_0000, 2) else Bytes(b.dst, 8) + Bytes(b.dstEndpoint, 1)
  }

  lemma DestinationBack(data: seq<u8>, pos: nat, b: Binding, h: Binding)
    requires h == b.(dst := 0, dstEndpoint := 0) && (b.dstAddrMode == GROUP_MODE || b.dstAddrMode == EXTENDED_MODE)
    requires pos + |Destination(b)| <= |data| && data[pos..pos + |Destination(b)|] == Destination(b)
    ensures ReadDestination(data, pos, h) == Parsed(true, Normalize(b), pos + |Destination(b)|)
  {
    Limits();
    var d := Destination(b);
    if b.dstAddrMode == GROUP_MODE {
      ReadBack(data, pos, b.dst % 0x1_0000, 2);
    } else {
      assert d[..8] == Bytes(b.dst, 8) && d[8..9] == Bytes(b.dstEndpoint, 1);
      Slice(data, pos, d, 0, 8);
      Slice(data, pos, d, 8, 9);
      ReadBack(data, pos, b.dst, 8);
      ReadBack(data, pos + 8, b.dstEndpoint, 1);
    }
  }

  /** Main result on the format: every binding that can be written is read back, behind any bytes and in
      front of any bytes, as its normal form, and exactly its bytes are consumed.  So the round trip gives
      back the binding itself exactly when it is in normal form. */
  lemma RoundTrip(b: Binding, pre: seq<u8>, post: seq<u8>)
    requires WriteBinding(b).0
    ensures var bytes := WriteBinding(b).1;
            var r := ReadBinding(pre + bytes + post, |pre|);
            r == Parsed(true, Normalize(b), |pre| + |bytes|) && (r.binding == b <==> NormalForm(b))
  {
    var bytes := WriteBinding(b).1;
    var data := pre + bytes + post;
    assert bytes == Header(b) + Destination(b);
    assert data[|pre|..|pre| + 12] == Header(b);
    assert data[|pre| + 12..|pre| + |bytes|] == Destination(b);
    HeaderBack(data, |pre|, b);
    DestinationBack(data, |pre| + 12, b, b.(dst := 0, dstEndpoint := 0));
  }

  // ----- The stream class -----

  /** QDataStream in little-endian order over the bytes of a frame. */
  class DataStream {
    const data: seq<u8>
    var pos: nat

    predicate Valid()
      reads this
    {
      pos <= |data|
    }

    constructor (data: seq<u8>)
      ensures Valid() && this.data == data && pos == 0
    {
      this.data, pos := data, 0;
    }

    predicate AtEnd()
      reads this
    {
      pos == |data|
    }

    /** The operators >> of all widths. */
    method Get(n: nat) returns (v: nat)
      requires Valid()
      modifies this
      ensures Valid() && (v, pos) == Read(data, old(pos), n)
    {
      var r := Read(data, pos, n);
      v, pos := r.0, r.1;
    }

    /** Binding::readFromStream on a new binding. */
    method GetBinding() returns (ok: bool, b: Binding)
      requires Valid()
      modifies this
      ensures Valid() && Parsed(ok, b, pos) == ReadBinding(data, old(pos))
    {
      Limits();
      ok, b := false, EMPTY;
      if AtEnd() { return; }
      var srcAddress := Get(8);
      b := b.(srcAddress := srcAddress);
      if AtEnd() { return; }
      var srcEndpoint := Get(1);
      b := b.(srcEndpoint := srcEndpoint);
      if AtEnd() { return; }
      var clusterId := Get(2);
      b := b.(clusterId := clusterId);
      if AtEnd() { return; }
      var dstAddrMode := Get(1);
      b := b.(dstAddrMode := dstAddrMode);
      if dstAddrMode == GROUP_MODE {
        if AtEnd() { return; }
        var group := Get(2);
        b := b.(dst := group, dstEndpoint := 0);
        ok := true;
      } else if dstAddrMode == EXTENDED_MODE {
        if AtEnd() { return; }
        var ext := Get(8);
        b := b.(dst := ext);
        if AtEnd() { return; }
        var dstEndpoint := Get(1);
        b := b.(dstEndpoint := dstEndpoint);
        ok := true;
      }
    }
  }

  /** Binding::writeToStream, appending to the bytes of the stream. */
  method PutBinding(b: Binding, stream: seq<u8>) returns (ok: bool, r: seq<u8>)
    ensures ok == WriteBinding(b).0 && r == stream + WriteBinding(b).1
  {
    ok, r := false, stream;
    if b.srcAddress == 0 || b.srcEndpoint == 0 {
      return;
    }
    r := r + Bytes(b.srcAddress, 8);
    r := r + Bytes(b.srcEndpoint, 1);
    r := r + Bytes(b.clusterId, 2);
    r := r + Bytes(b.dstAddrMode, 1);
    assert r == stream + Header(b);
    if b.dstAddrMode == GROUP_MODE {
      r := r + Bytes(b.dst % 0x1_0000, 2);
      ok := true;
    } else if b.dstAddrMode == EXTENDED_MODE && b.dst != 0 && b.dstEndpoint != 0 {
      r := r + Bytes(b.dst, 8);
      r := r + Bytes(b.dstEndpoint, 1);
      ok := true;
    }
  }
}
