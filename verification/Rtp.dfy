/** RTP packets as the server frames them on an RTSP connection, and a receiver.

    The wire format is RTSP interleaving (section 10.12 of RFC 2326) around the fixed RTP
    header (section 5.1 of RFC 3550).  H.264 payloads are single NAL units or FU-A fragments
    (sections 5.6 and 5.8 of RFC 6184). */
module Rtp {
  import opened Arithmetic
  import opened Options
  import opened AnnexB

  const RTP_VIDEO_PAYLOAD_TYPE: nat := 96
  const RTP_AUDIO_PAYLOAD_TYPE: nat := 97
  const RTP_AUDIO_SSRC: nat := 0x5652_4341
  const RTP_VIDEO_SSRC: nat := 0x5652_4356
  const RTP_MAX_PAYLOAD_BYTES: nat := 1200
  const RTP_PACKET_BUFFER_BYTES: nat := 1216   // 4 + 12 + RTP_MAX_PAYLOAD_BYTES
  const RTP_TCP_WRITE_BATCH_BYTES: nat := 16 * 1024
  const AAC_SAMPLES_PER_FRAME: nat := 1024

  // ----- packets and their bytes -----

  datatype Packet = Packet(
    channel: Byte, payloadType: nat, marker: bool, sequence: nat, timestamp: nat, ssrc: nat, payload: Bytes)

  predicate WellFormed(p: Packet) {
    p.payloadType < 128 && p.sequence < U16 && p.timestamp < U32 && p.ssrc < U32 && 12 + |p.payload| < U16
  }

  /** Byte `k` of a big-endian number, counted from its low end. */
  function Octet(n: nat, k: nat): Byte
    requires k < 4
  {
    (if k == 0 then n else if k == 1 then n / 0x100 else if k == 2 then n / 0x1_0000 else n / 0x100_0000) % 0x100
  }

  function From16(hi: Byte, lo: Byte): nat {
    hi as int * 0x100 + lo as int
  }

  function From32(b3: Byte, b2: Byte, b1: Byte, b0: Byte): nat {
    b3 as int * 0x100_0000 + b2 as int * 0x1_0000 + b1 as int * 0x100 + b0 as int
  }

  /** push_rtp_interleaved_header; the length is truncated to 16 bits. */
  function Header(channel: Byte, payloadLen: nat, payloadType: nat, marker: bool, sequence: nat, timestamp: nat, ssrc: nat): (h: Bytes)
    requires payloadType < 128
    ensures |h| == 16
  {
    [0x24, channel, Octet((12 + payloadLen) % U16, 1), Octet((12 + payloadLen) % U16, 0),
     0x80, (if marker then 0x80 else 0) + payloadType, Octet(sequence, 1), Octet(sequence, 0),
     Octet(timestamp, 3), Octet(timestamp, 2), Octet(timestamp, 1), Octet(timestamp, 0),
     Octet(ssrc, 3), Octet(ssrc, 2), Octet(ssrc, 1), Octet(ssrc, 0)]
  }

  function Encode(p: Packet): Bytes
    requires p.payloadType < 128
  {
    HeaderOf(p) + p.payload
  }

  predicate AllWellFormed(ps: seq<Packet>) {
    ps == [] || (WellFormed(ps[0]) && AllWellFormed(ps[1..]))
  }

  function EncodeAll(ps: seq<Packet>): Bytes
    requires AllWellFormed(ps)
  {
    if ps == [] then [] else Encode(ps[0]) + EncodeAll(ps[1..])
  }

  /** The size of the first interleaved packet; zero if there is no whole RTP packet. */
  function HeadLen(b: Bytes): (n: nat)
    ensures n == 0 || (16 <= n <= |b| && n == 4 + From16(b[2], b[3]))
  {
    if |b| < 16 || b[0] != 0x24 || b[4] != 0x80 then 0
    else
      var len := From16(b[2], b[3]);
      if len < 12 || |b| < 4 + len then 0 else 4 + len
  }

  /** The receiver's view of a whole stream; None if it is not a sequence of RTP packets. */
  function ParseAll(b: Bytes): Option<seq<Packet>>
    decreases |b|
  {
    if b == [] then Some([])
    else if HeadLen(b) == 0 then None
    else
      match ParseAll(b[HeadLen(b)..])
      case None => None
      case Some(rest) => Some([ParseOne(b, HeadLen(b))] + rest)
  }

  function ParseOne(b: Bytes, n: nat): Packet
    requires 16 <= n <= |b|
  {
    Packet(b[1], b[5] % 0x80, b[5] >= 0x80, From16(b[6], b[7]),
      From32(b[8], b[9], b[10], b[11]), From32(b[12], b[13], b[14], b[15]), b[16..n])
  }

  lemma Back16(n: nat)
    requires n < U16
    ensures From16(Octet(n, 1), Octet(n, 0)) == n
  {
  }

  lemma Back32(n: nat)
    requires n < U32
    ensures From32(Octet(n, 3), Octet(n, 2), Octet(n, 1), Octet(n, 0)) == n
  {
    var a, b, c := n / 0x100, n / 0x1_0000, n / 0x100_0000;
    assert n == a * 0x100 + n % 0x100;
    assert b == a / 0x100 && a == b * 0x100 + a % 0x100;
    assert c == b / 0x100 && b == c * 0x100 + b % 0x100;
  }

  function HeaderOf(p: Packet): (h: Bytes)
    requires p.payloadType < 128
    ensures |h| == 16
  {
    Header(p.channel, |p.payload|, p.payloadType, p.marker, p.sequence, p.timestamp, p.ssrc)
  }

  lemma LengthBack(p: Packet)
    requires WellFormed(p)
    ensures From16(HeaderOf(p)[2], HeaderOf(p)[3]) == 12 + |p.payload|
  {
    var n := 12 + |p.payload|;
    assert n % U16 == n;
    assert HeaderOf(p)[2] == Octet(n, 1) && HeaderOf(p)[3] == Octet(n, 0);
    Back16(n);
  }

  lemma SequenceBack(p: Packet)
    requires WellFormed(p)
    ensures From16(HeaderOf(p)[6], HeaderOf(p)[7]) == p.sequence
  {
    Back16(p.sequence);
  }

  lemma TimestampBack(p: Packet)
    requires WellFormed(p)
    ensures From32(HeaderOf(p)[8], HeaderOf(p)[9], HeaderOf(p)[10], HeaderOf(p)[11]) == p.timestamp
  {
    Back32(p.timestamp);
  }

  lemma SsrcBack(p: Packet)
    requires WellFormed(p)
    ensures From32(HeaderOf(p)[12], HeaderOf(p)[13], HeaderOf(p)[14], HeaderOf(p)[15]) == p.ssrc
  {
    Back32(p.ssrc);
  }

  lemma FlagsBack(p: Packet)
    requires WellFormed(p)
    ensures var h := HeaderOf(p);
      h[0] == 0x24 && h[1] == p.channel && h[4] == 0x80 && h[5] % 0x80 == p.payloadType && (h[5] >= 0x80) == p.marker
  {
    var h := HeaderOf(p);
    assert h[5] == (if p.marker then 0x80 else 0) + p.payloadType;
  }

  /** The bytes of the first packet of a stream. */
  lemma FirstBytes(p: Packet, rest: Bytes)
    requires WellFormed(p)
    ensures var b := Encode(p) + rest;
      && |b| == 16 + |p.payload| + |rest| && (forall i | 0 <= i < 16 :: b[i] == HeaderOf(p)[i])
      && b[16..16 + |p.payload|] == p.payload && b[16 + |p.payload|..] == rest
  {
  }

  lemma ParseEncoded(p: Packet, rest: Bytes)
    requires WellFormed(p)
    ensures var b := Encode(p) + rest;
      HeadLen(b) == 16 + |p.payload| && b[HeadLen(b)..] == rest && ParseOne(b, HeadLen(b)) == p
  {
    FirstBytes(p, rest);
    LengthBack(p);
    SequenceBack(p);
    TimestampBack(p);
    SsrcBack(p);
    FlagsBack(p);
  }

  /** Every encoded packet sequence parses back to itself. */
  lemma {:induction false} ParseEncodedAll(ps: seq<Packet>)
    requires AllWellFormed(ps)
    ensures ParseAll(EncodeAll(ps)) == Some(ps)
    decreases |ps|
  {
    if ps != [] {
      ParseEncoded(ps[0], EncodeAll(ps[1..]));
      ParseEncodedAll(ps[1..]);
      assert [ps[0]] + ps[1..] == ps;
    }
  }
}
