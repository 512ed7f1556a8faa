/** Packets, their images in memory and on the wire, and the parsers of both directions. */
module Packets {
  import opened Seqs
  import opened Bytes

  const INVALID: int32 := 0
  const TRACK: int32 := 2
  const AUDIO: int32 := 4
  const FILELIST: int32 := 8
  const LAST: int32 := 64

  const MAX_PACKET_SIZE := 1024
  const HEADER_SIZE := 12
  const SIZEOF_PACKET := 1036

  /** The struct as it is copied from one holder to the next: all 1024 data bytes, whatever size says. */
  datatype PacketValue = PacketValue(size: int32, kind: int32, id: int32, data: seq<byte>) {
    predicate Valid() {
      0 <= size <= MAX_PACKET_SIZE && |data| == MAX_PACKET_SIZE
    }

    /** The part that is sent. */
    function View(): Frame
      requires Valid()
    {
      Frame(size, kind, id, data[..size])
    }

    /** The bytes of the struct in memory. */
    function Memory(): seq<byte> {
      PutInt(size) + PutInt(kind) + PutInt(id) + data
    }
  }

  /** What a receiver can know of a packet. */
  datatype Frame = Frame(size: int32, kind: int32, id: int32, payload: seq<byte>) {
    predicate Valid() {
      0 <= size <= MAX_PACKET_SIZE && |payload| == size
    }

    /** The image on the wire. */
    function Image(): seq<byte> {
      PutInt(size) + PutInt(kind) + PutInt(id) + payload
    }
  }

  /** An entry of the send queue: the client it is for, and its packet. */
  datatype ClientPacket = ClientPacket(client: nat, packet: PacketValue)

  function ViewOf(cp: ClientPacket): Frame {
    if cp.packet.Valid() then cp.packet.View() else Frame(cp.packet.size, cp.packet.kind, cp.packet.id, [])
  }

  function Views(cps: seq<ClientPacket>): seq<Frame> {
    Map(ViewOf, cps)
  }

  function Zeros(n: nat): (z: seq<byte>)
    ensures |z| == n
    ensures forall i :: 0 <= i < n ==> z[i] == 0
  {
    seq(n, i => 0)
  }

  const FRESH := PacketValue(0, INVALID, 0, Zeros(MAX_PACKET_SIZE))

  /** The check !(t & (t - 1)) on a 32-bit pattern. */
  predicate AtMostOneBit(t: int32) {
    And(Unsigned(t), (Unsigned(t) + 0xFFFF_FFFF) % 0x1_0000_0000) == 0
  }

  /** What Deserialize makes of a message of the right length, given the packet it is called on; None if it throws.
      The range and single-bit checks look at the old type of the packet, not at the one just read. */
  function Deserialized(p: PacketValue, msg: seq<byte>): Option<PacketValue>
    requires |p.data| == MAX_PACKET_SIZE && |msg| == SIZEOF_PACKET
  {
    var size := GetInt(msg[0..4]);
    var kind := GetInt(msg[8..12]);
    if 0 <= size <= MAX_PACKET_SIZE && kind > INVALID && p.kind <= LAST && AtMostOneBit(p.kind)
    then Some(PacketValue(size, kind, GetInt(msg[4..8]), msg[12..12 + size] + p.data[size..]))
    else None
  }

  /** What extractPacket makes of a message of the right length. */
  function Extracted(msg: seq<byte>): PacketValue
    requires |msg| == SIZEOF_PACKET
  {
    var size := GetInt(msg[0..4]);
    var kind := GetInt(msg[4..8]);
    if 0 <= size <= MAX_PACKET_SIZE && kind > INVALID && kind <= LAST && AtMostOneBit(kind)
    then PacketValue(size, kind, 0, msg[8..8 + size] + Zeros(MAX_PACKET_SIZE - size))
    else FRESH
  }

  class Packet {
    var size: int32
    var kind: int32
    var id: int32
    const packetData: array<byte>

    ghost predicate Valid() {
      packetData.Length == MAX_PACKET_SIZE
    }

    function Value(): (v: PacketValue)
      reads this, packetData
    {
      PacketValue(size, kind, id, packetData[..])
    }

    constructor Default()
      ensures Valid() && fresh(packetData)
      ensures Value() == FRESH
      ensures kind == 0 && size == 0 && id == 0 && packetData.Length == 1024 && forall i :: 0 <= i < 1024 ==> packetData[i] == 0
    {
      size, kind, id := 0, INVALID, 0;
      packetData := new byte[MAX_PACKET_SIZE](i => 0);
      new;
      assert packetData[..] == Zeros(MAX_PACKET_SIZE);
    }

    /** Only the first size bytes of the data are initialised. */
    constructor FromData(kind: int32, size: int32, id: int32, data: array?<byte>)
      requires data != null ==> 0 <= size <= MAX_PACKET_SIZE && size <= data.Length
      ensures Valid() && fresh(packetData)
      ensures Value().(data := []) == PacketValue(size, kind, id, [])
      ensures data != null ==> packetData[..size] == data[..size]
    {
      this.kind, this.size, this.id := kind, size, id;
      packetData := new byte[MAX_PACKET_SIZE];
      new;
      if data != null {
        ghost var was := packetData[..];
        CopyBytes(packetData, 0, data, 0, size);
        SpliceAtStart(was, data[..size], size);
      }
    }

    method Deserialize(msg: array?<byte>, packetSize: nat) returns (thrown: bool)
      requires Valid()
      requires msg != null ==> packetSize <= msg.Length && msg != packetData
      modifies this, packetData
      ensures Valid()
      ensures !(packetSize == SIZEOF_PACKET && msg != null) ==> !thrown && Value() == old(Value())
      ensures packetSize == SIZEOF_PACKET && msg != null ==>
                match Deserialized(old(Value()), old(msg[..SIZEOF_PACKET]))
                case None => thrown && Value() == old(Value())
                case Some(v) => !thrown && Value() == v
    {
      var isValid := false;
      thrown := false;
      if packetSize == SIZEOF_PACKET && msg != null {
        ghost var m := msg[..SIZEOF_PACKET];
        assert msg[0..4] == m[0..4] && msg[4..8] == m[4..8] && msg[8..12] == m[8..12];
        var datasize := GetInt(msg[0..4]);
        if datasize <= MAX_PACKET_SIZE && datasize >= 0 {
          var packetId := GetInt(msg[4..8]);
          var newKind := GetInt(msg[8..12]);
          if newKind > INVALID && kind <= LAST && AtMostOneBit(kind) {
            isValid := true;
            id := packetId;
            kind := newKind;
            size := datasize;
            ghost var was := packetData[..];
            if size > 0 {
              CopyBytes(packetData, 0, msg, 12, size);
            }
            SliceOfTake(msg[..], SIZEOF_PACKET, 12, 12 + size);
            CopiedPart(was, packetData[..], m, 12, msg[12..12 + size], size);
          }
        }
        if !isValid {
          thrown := true;
        }
      }
    }
  }

  /** The first n bytes are copied from m, the others stay. */
  lemma CopiedPart(was: seq<byte>, now: seq<byte>, m: seq<byte>, from: nat, part: seq<byte>, n: nat)
    requires n <= |was| && from + n <= |m| && part == m[from..from + n]
    requires now == if n > 0 then Splice(was, 0, part, n) else was
    ensures now == m[from..from + n] + was[n..]
  {
    if n == 0 {
      assert m[from..from] + was[0..] == was;
    } else {
      SpliceAtStart(was, part, n);
      assert part[..n] == part;
    }
  }

  /** memcpy of the bytes of a value. */
  method CopyIn(dst: array<byte>, to: nat, src: seq<byte>)
    requires to + |src| <= dst.Length
    modifies dst
    ensures dst[..] == Splice(old(dst[..]), to, src, |src|)
  {
    var i := 0;
    ghost var was := dst[..];
    SpliceStart(was, to, src);
    while i < |src|
      invariant 0 <= i <= |src|
      invariant dst[..] == Splice(was, to, src, i)
    {
      ghost var now := dst[..];
      dst[to + i] := src[i];
      assert dst[..] == now[to + i := src[i]];
      SpliceNext(was, to, src, i);
      i := i + 1;
    }
  }

  /** std::copy of n bytes between two buffers. */
  method CopyBytes(dst: array<byte>, to: nat, src: array<byte>, from: nat, n: nat)
    requires dst != src
    requires to + n <= dst.Length && from + n <= src.Length
    modifies dst
    ensures dst[..] == Splice(old(dst[..]), to, old(src[from..from + n]), n)
  {
    var i := 0;
    ghost var was, bytes := dst[..], src[from..from + n];
    SpliceStart(was, to, bytes);
    while i < n
      invariant 0 <= i <= n
      invariant dst[..] == Splice(was, to, bytes, i)
    {
      ghost var now := dst[..];
      dst[to + i] := src[from + i];
      assert dst[..] == now[to + i := bytes[i]];
      SpliceNext(was, to, bytes, i);
      i := i + 1;
    }
  }

  /** The older parser: no id in the message, and the checks look at the type just read. */
  method ExtractPacket(msg: array?<byte>, packetSize: nat) returns (packet: Packet)
    requires msg != null ==> packetSize <= msg.Length
    ensures fresh(packet) && packet.Valid()
    ensures packet.Value() == if packetSize == SIZEOF_PACKET && msg != null then Extracted(msg[..SIZEOF_PACKET]) else FRESH
  {
    packet := new Packet.Default();
    if packetSize == SIZEOF_PACKET && msg != null {
      ghost var m := msg[..SIZEOF_PACKET];
      assert msg[0..4] == m[0..4] && msg[4..8] == m[4..8];
      var size := GetInt(msg[0..4]);
      if size <= MAX_PACKET_SIZE && size >= 0 {
        var kind := GetInt(msg[4..8]);
        if kind > INVALID && kind <= LAST && AtMostOneBit(kind) {
          packet.kind := kind;
          packet.size := size;
          ghost var was := packet.packetData[..];
          if packet.size > 0 {
            CopyBytes(packet.packetData, 0, msg, 8, size);
          }
          SliceOfTake(msg[..], SIZEOF_PACKET, 8, 8 + size);
          CopiedPart(was, packet.packetData[..], m, 8, msg[8..8 + size], size);
          assert was[size..] == Zeros(MAX_PACKET_SIZE - size);
        }
      }
    }
  }

  /** The buffer sendTask fills: the first 12 + size bytes of the struct. */
  method Serialize(item: PacketValue) returns (data: array<byte>)
    requires item.Valid()
    ensures fresh(data) && data[..] == item.View().Image()
  {
    var packetSize := item.size as int + 4 + 4 + 4;
    data := new byte[packetSize];
    var image := item.Memory();
    var i := 0;
    while i < packetSize
      invariant 0 <= i <= packetSize
      invariant forall k :: 0 <= k < i ==> data[k] == image[k]
    {
      data[i] := image[i];
      i := i + 1;
    }
  }

  // ----- Inbound messages

  /** On a fresh packet the type checks pass whatever the message says, so a message is accepted exactly when its
      size is in range and its type is positive: neither the upper limit nor the single bit is enforced. */
  lemma {:induction false} FreshAccepts(msg: seq<byte>)
    requires |msg| == SIZEOF_PACKET
    ensures Deserialized(FRESH, msg).Some? <==> 0 <= GetInt(msg[0..4]) <= 1024 && GetInt(msg[8..12]) > 0
  {
    assert And(0, 0xFFFF_FFFF) == 0;
  }

  /** On a packet that already holds a positive type, a message is accepted only if that old type is a single bit up
      to 64; the new type is again only required to be positive. */
  lemma ReuseAccepts(p: PacketValue, msg: seq<byte>)
    requires |msg| == SIZEOF_PACKET && |p.data| == MAX_PACKET_SIZE && p.kind > INVALID
    ensures Deserialized(p, msg).Some?
            <==> && 0 <= GetInt(msg[0..4]) <= 1024 && GetInt(msg[8..12]) > 0
                 && p.kind <= 64 && SingleBit(p.kind)
  {
    assert (Unsigned(p.kind) + 0xFFFF_FFFF) % 0x1_0000_0000 == p.kind - 1;
    ClearLowestBit(p.kind);
  }

  lemma SlicesOf(a: seq<byte>, b: seq<byte>, c: seq<byte>, rest: seq<byte>)
    requires |a| == 4 && |b| == 4 && |c| == 4
    ensures var m := a + b + c + rest; m[0..4] == a && m[4..8] == b && m[8..12] == c && m[12..] == rest
  {
  }

  /** Deserialize undoes the size, id, type, payload image, whatever pads it to the full length. */
  lemma {:induction false} InboundRoundTrip(f: Frame, pad: seq<byte>)
    requires f.Valid() && f.kind > 0 && |pad| == MAX_PACKET_SIZE - f.size
    ensures Deserialized(FRESH, PutInt(f.size) + PutInt(f.id) + PutInt(f.kind) + (f.payload + pad))
            == Some(PacketValue(f.size, f.kind, f.id, f.payload + Zeros(MAX_PACKET_SIZE - f.size)))
  {
    var msg := PutInt(f.size) + PutInt(f.id) + PutInt(f.kind) + (f.payload + pad);
    SlicesOf(PutInt(f.size), PutInt(f.id), PutInt(f.kind), f.payload + pad);
    GetPutInt(f.size);
    GetPutInt(f.id);
    GetPutInt(f.kind);
    FreshAccepts(msg);
    assert msg[12..12 + f.size] == msg[12..][..f.size] == f.payload;
    assert FRESH.data[f.size..] == Zeros(MAX_PACKET_SIZE - f.size);
  }

  /** An image in the server's own outbound layout comes back with type and id exchanged if the id is positive,
      and is rejected otherwise. */
  lemma {:induction false} OutboundImageSwapped(f: Frame, pad: seq<byte>)
    requires f.Valid() && |pad| == MAX_PACKET_SIZE - f.size
    ensures Deserialized(FRESH, f.Image() + pad)
            == if f.id > 0 then Some(PacketValue(f.size, f.id, f.kind, f.payload + Zeros(MAX_PACKET_SIZE - f.size)))
               else None
  {
    var msg := f.Image() + pad;
    assert msg == PutInt(f.size) + PutInt(f.kind) + PutInt(f.id) + (f.payload + pad);
    SlicesOf(PutInt(f.size), PutInt(f.kind), PutInt(f.id), f.payload + pad);
    GetPutInt(f.size);
    GetPutInt(f.id);
    GetPutInt(f.kind);
    FreshAccepts(msg);
    assert msg[12..12 + f.size] == msg[12..][..f.size] == f.payload;
    assert FRESH.data[f.size..] == Zeros(MAX_PACKET_SIZE - f.size);
  }

  /** extractPacket undoes the size, type, payload image of a single-bit type up to 64, whatever pads it, and leaves the
      id 0; for any other positive or negative type the packet stays fresh. */
  lemma {:induction false} ExtractRoundTrip(f: Frame, pad: seq<byte>)
    requires f.Valid() && |pad| == 1036 - 8 - f.size
    ensures Extracted(PutInt(f.size) + PutInt(f.kind) + (f.payload + pad))
            == if f.kind <= 64 && SingleBit(f.kind) then PacketValue(f.size, f.kind, 0, f.payload + Zeros(1024 - f.size))
               else FRESH
  {
    var msg := PutInt(f.size) + PutInt(f.kind) + (f.payload + pad);
    assert msg[0..4] == PutInt(f.size) && msg[4..8] == PutInt(f.kind) && msg[8..] == f.payload + pad;
    GetPutInt(f.size);
    GetPutInt(f.kind);
    ExtractAccepts(msg);
    assert msg[8..8 + f.size] == msg[8..][..f.size] == f.payload;
  }

  /** extractPacket accepts a message exactly when its size is in range and its type is a single bit up to 64. */
  lemma ExtractAccepts(msg: seq<byte>)
    requires |msg| == SIZEOF_PACKET
    ensures Extracted(msg).kind != INVALID
            <==> 0 <= GetInt(msg[0..4]) <= 1024 && GetInt(msg[4..8]) <= 64 && SingleBit(GetInt(msg[4..8]))
  {
    var t := GetInt(msg[4..8]);
    if 0 < t {
      assert (Unsigned(t) + 0xFFFF_FFFF) % 0x1_0000_0000 == t - 1;
      ClearLowestBit(t);
    } else {
      NoSingleBit(t);
    }
  }

  lemma {:induction false} Pow2Positive(e: nat)
    ensures Pow2(e) > 0
  {
    if e != 0 {
      Pow2Positive(e - 1);
    }
  }

  lemma TwoBits()
    ensures !SingleBit(TRACK + FILELIST)
  {
    assert And(2, 2) == 2 by { AndSelf(2); }
    assert And(5, 4) == 4;
    assert And(10, 9) == 8;
    ClearLowestBit(10);
  }

  /** For the same size and type extractPacket and Deserialize on a fresh packet agree whether to accept, if and only if
      the size is out of range, or the type is not positive, or it is a single bit up to 64. */
  lemma {:induction false} ParsersAgreeIff(older: seq<byte>, newer: seq<byte>)
    requires |older| == |newer| == SIZEOF_PACKET
    requires GetInt(older[0..4]) == GetInt(newer[0..4]) && GetInt(older[4..8]) == GetInt(newer[8..12])
    ensures var size, kind := GetInt(newer[0..4]), GetInt(newer[8..12]);
            (Extracted(older).kind != INVALID <==> Deserialized(FRESH, newer).Some?)
            <==> (size < 0 || size > MAX_PACKET_SIZE || kind <= 0 || (kind <= LAST && SingleBit(kind)))
  {
    ExtractAccepts(older);
    FreshAccepts(newer);
    if GetInt(newer[8..12]) <= 0 {
      NoSingleBit(GetInt(newer[8..12]));
    }
  }

  lemma {:induction false} NoSingleBit(t: int)
    requires t <= 0
    ensures !SingleBit(t)
  {
    forall e: nat
      ensures Pow2(e) > 0
    {
      Pow2Positive(e);
    }
  }

  /** They do disagree: extractPacket rejects a type of two bits, Deserialize on a fresh packet accepts it. */
  lemma ParsersDisagree(older: seq<byte>, newer: seq<byte>)
    requires |older| == |newer| == SIZEOF_PACKET
    requires GetInt(older[0..4]) == GetInt(newer[0..4]) == 0
    requires GetInt(older[4..8]) == GetInt(newer[8..12]) == TRACK + FILELIST
    ensures Extracted(older) == FRESH && Deserialized(FRESH, newer).Some?
  {
    TwoBits();
    ParsersAgreeIff(older, newer);
    FreshAccepts(newer);
  }

  // ----- The outbound stream

  /** What a receiver reads from the head of the stream: a frame and the rest; None if the head is not a frame. */
  function DecodeOne(b: seq<byte>): Option<(Frame, seq<byte>)> {
    if |b| < HEADER_SIZE then None
    else
      var size := GetInt(b[0..4]);
      if size < 0 || size > MAX_PACKET_SIZE || |b| < HEADER_SIZE + size then None
      else Some((Frame(size, GetInt(b[4..8]), GetInt(b[8..12]), b[12..12 + size]), b[12 + size..]))
  }

  /** The whole stream as frames; None if it is not a sequence of frames. */
  function Decode(b: seq<byte>): Option<seq<Frame>>
    decreases |b|
  {
    if b == [] then Some([])
    else
      match DecodeOne(b)
      case None => None
      case Some((f, rest)) =>
        match Decode(rest)
        case None => None
        case Some(fs) => Some([f] + fs)
  }

  function ImageOf(f: Frame): seq<byte> { f.Image() }

  /** The concatenation of the images of frames. */
  function Encode(fs: seq<Frame>): seq<byte> {
    Flatten(Map(ImageOf, fs))
  }

  lemma EncodeCons(f: Frame, fs: seq<Frame>)
    ensures Encode([f] + fs) == f.Image() + Encode(fs)
  {
    MapConcat(ImageOf, [f], fs);
    assert Map(ImageOf, [f]) == [f.Image()];
    FlattenConcat([f.Image()], Map(ImageOf, fs));
    assert Flatten([f.Image()]) == f.Image() + Flatten<byte>([]);
  }

  lemma {:induction false} DecodeOneEncoded(f: Frame, rest: seq<byte>)
    requires f.Valid()
    ensures DecodeOne(f.Image() + rest) == Some((f, rest))
  {
    var b := f.Image() + rest;
    assert b == PutInt(f.size) + PutInt(f.kind) + PutInt(f.id) + (f.payload + rest);
    SlicesOf(PutInt(f.size), PutInt(f.kind), PutInt(f.id), f.payload + rest);
    GetPutInt(f.size);
    GetPutInt(f.kind);
    GetPutInt(f.id);
    assert b[12..12 + f.size] == b[12..][..f.size] == f.payload;
    assert b[12 + f.size..] == b[12..][f.size..] == rest;
  }

  lemma {:induction false} DecodedOneIsImage(b: seq<byte>)
    requires DecodeOne(b).Some?
    ensures var (f, rest) := DecodeOne(b).value; f.Valid() && b == f.Image() + rest
  {
    PutGetInt(b[0..4]);
    PutGetInt(b[4..8]);
    PutGetInt(b[8..12]);
    var (f, rest) := DecodeOne(b).value;
    assert b == b[0..4] + b[4..8] + b[8..12] + b[12..12 + f.size] + b[12 + f.size..];
  }

  /** The outbound framing is uniquely decodable: a stream of frames decodes to those frames. */
  lemma {:induction false} DecodeEncode(fs: seq<Frame>)
    requires forall f :: f in fs ==> f.Valid()
    ensures Decode(Encode(fs)) == Some(fs)
  {
    if fs != [] {
      var f := fs[0];
      assert fs == [f] + fs[1..];
      EncodeCons(f, fs[1..]);
      DecodeOneEncoded(f, Encode(fs[1..]));
      DecodeEncode(fs[1..]);
    }
  }

  /** And whatever decodes is the stream of the frames it decodes to. */
  lemma {:induction false} EncodeDecode(b: seq<byte>)
    requires Decode(b).Some?
    ensures (forall f :: f in Decode(b).value ==> f.Valid()) && Encode(Decode(b).value) == b
    decreases |b|
  {
    if b != [] {
      DecodedOneIsImage(b);
      var (f, rest) := DecodeOne(b).value;
      EncodeDecode(rest);
      EncodeCons(f, Decode(rest).value);
    }
  }
}
