/**
 The datagram format of a mapped UDP packet (sdk/c/remote/peer/mapping.c): a 28-byte header and at most
 512 bytes of payload. A packet of up to 65507 bytes is cut at fixed offsets.
 */
module UdpWire {
  import opened Bytes

  const HEADER: nat := 28
  const FRAGMENT: nat := 512
  const UDP_MAX: nat := 65507
  const MAX_U64: nat := 0xffff_ffff_ffff_ffff

  const MAGIC: seq<byte> := [0x4f, 0x42, 0x44, 0x31]

  /** A fragment as the receiver sees it once the header was accepted. */
  datatype Fragment = Fragment(flow: nat, packet: nat, total: nat, offset: nat, payload: seq<byte>)

  /** The size every fragment at this offset must have. */
  function SizeAt(total: nat, offset: nat): nat
    requires offset <= total
  {
    if total - offset > FRAGMENT then FRAGMENT else total - offset
  }

  function Header(f: Fragment): (h: seq<byte>)
    ensures |h| == HEADER
  {
    MAGIC + Put(f.flow, 8) + Put(f.packet, 8) + Put(f.total, 2) + Put(f.offset, 2) + Put(|f.payload|, 2) + Put(0, 2)
  }

  function Encode(f: Fragment): seq<byte> {
    Header(f) + f.payload
  }

  /** The checks at the head of `m_udp_read`. */
  function Decode(v: seq<byte>): (f: seq<Fragment>)
    ensures |f| <= 1 && (f != [] ==> WellFormed(f[0]))
  {
    if |v| < HEADER || v[..4] != MAGIC || Get(v[26..28]) != 0 then []
    else
      var id, packet, total, offset, size :=
        Get(v[4..12]), Get(v[12..20]), Get(v[20..22]), Get(v[22..24]), Get(v[24..26]);
      if id == 0 || packet == 0 || total > UDP_MAX || offset > total || size > FRAGMENT || size != |v| - HEADER ||
         offset % FRAGMENT != 0 || size != SizeAt(total, offset) || (total != 0 && offset == total)
      then []
      else [Fragment(id, packet, total, offset, v[HEADER..])]
  }

  predicate WellFormed(f: Fragment) {
    && f.flow != 0 && f.packet != 0 && f.total <= UDP_MAX && f.offset <= f.total && f.offset % FRAGMENT == 0
    && |f.payload| == SizeAt(f.total, f.offset) && (f.total != 0 ==> f.offset < f.total)
  }

  lemma HeaderFields(f: Fragment)
    ensures var h := Header(f);
            && h[..4] == MAGIC && h[4..12] == Put(f.flow, 8) && h[12..20] == Put(f.packet, 8) &&
               h[20..22] == Put(f.total, 2)
            && h[22..24] == Put(f.offset, 2) && h[24..26] == Put(|f.payload|, 2) && h[26..28] == Put(0, 2)
  {}

  lemma Within(h: seq<byte>, tail: seq<byte>, i: nat, j: nat)
    requires i <= j <= |h|
    ensures (h + tail)[i..j] == h[i..j]
  {}

  lemma EncodedFields(f: Fragment)
    ensures var v := Encode(f);
            && v[..4] == MAGIC && v[4..12] == Put(f.flow, 8) && v[12..20] == Put(f.packet, 8) &&
               v[20..22] == Put(f.total, 2)
            && v[22..24] == Put(f.offset, 2) && v[24..26] == Put(|f.payload|, 2) && v[26..28] == Put(0, 2) &&
               v[28..] == f.payload
  {
    var h := Header(f);
    HeaderFields(f);
    Within(h, f.payload, 0, 4);
    Within(h, f.payload, 4, 12);
    Within(h, f.payload, 12, 20);
    Within(h, f.payload, 20, 22);
    Within(h, f.payload, 22, 24);
    Within(h, f.payload, 24, 26);
    Within(h, f.payload, 26, 28);
    assert h[..4] == h[0..4] && Encode(f)[..4] == Encode(f)[0..4];
  }

  /** Every well-formed fragment passes the receiver's checks and comes back as it was. */
  lemma DecodeEncode(f: Fragment)
    requires WellFormed(f) && f.flow <= MAX_U64 && f.packet <= MAX_U64
    ensures Decode(Encode(f)) == [f]
  {
    EncodedFields(f);
    Powers();
    GetPut(f.flow, 8);
    GetPut(f.packet, 8);
    GetPut(f.total, 2);
    GetPut(f.offset, 2);
    GetPut(|f.payload|, 2);
    GetPut(0, 2);
  }

  lemma HeaderParts(v: seq<byte>)
    requires |v| == HEADER
    ensures v == v[..4] + v[4..12] + v[12..20] + v[20..22] + v[22..24] + v[24..26] + v[26..28]
  {}

  /** And nothing else is accepted: an accepted datagram is the encoding of what was read from it. */
  lemma EncodeDecode(v: seq<byte>)
    requires Decode(v) != []
    ensures Encode(Decode(v)[0]) == v
  {
    PutGet(v[4..12]);
    PutGet(v[12..20]);
    PutGet(v[20..22]);
    PutGet(v[22..24]);
    PutGet(v[24..26]);
    PutGet(v[26..28]);
    HeaderParts(v[..28]);
    Slices(v);
  }

  lemma Slices(v: seq<byte>)
    requires |v| >= HEADER
    ensures var h := v[..28];
            && h[..4] == v[..4] && h[4..12] == v[4..12] && h[12..20] == v[12..20] && h[20..22] == v[20..22]
            && h[22..24] == v[22..24] && h[24..26] == v[24..26] && h[26..28] == v[26..28] && v == h + v[28..]
  {}

  /** The fragment of a packet at an offset. */
  function Cut(flow: nat, packet: nat, data: seq<byte>, offset: nat): Fragment
    requires offset <= |data|
  {
    Fragment(flow, packet, |data|, offset, data[offset..offset + SizeAt(|data|, offset)])
  }

  /** Every fragment the sender builds passes the receiver's header checks. */
  lemma CutAccepted(flow: nat, packet: nat, data: seq<byte>, offset: nat)
    requires 0 < flow <= MAX_U64 && 0 < packet <= MAX_U64 && |data| <= UDP_MAX
    requires offset % FRAGMENT == 0 && (offset < |data| || (offset == 0 && data == []))
    ensures Decode(Encode(Cut(flow, packet, data, offset))) == [Cut(flow, packet, data, offset)]
  {
    DecodeEncode(Cut(flow, packet, data, offset));
  }
}
