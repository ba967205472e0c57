/** What a receiver makes of everything RtpPacketWriter sends. */
module RtpRoundTrip {
  import opened AccessUnit
  import opened AnnexB
  import opened Arithmetic
  import opened Common
  import opened H264Rtp
  import opened Options
  import opened Rtp
  import opened RtpWriter

  const AAC_MAX_ACCESS_UNIT_BYTES: nat := 4 * 1024

  function UnitsOf(ps: seq<Packet>): seq<Unit> {
    if ps == [] then [] else [Unit(ps[0].payload, ps[0].marker)] + UnitsOf(ps[1..])
  }

  /** The NAL units in a stream of interleaved RTP packets. */
  function ReceiveStream(b: Bytes): Receiver {
    match ParseAll(b)
    case None => Broken
    case Some(ps) => ReceiveAll(Receiving([], None), UnitsOf(ps))
  }

  lemma {:induction false} UnitsOfPackets(channel: Byte, r: Sender, units: seq<Unit>)
    ensures UnitsOf(Packets(channel, r, units)) == units
    decreases |units|
  {
    if units != [] {
      UnitsOfPackets(channel, Recorded(r, |units[0].payload|), units[1..]);
      assert Packets(channel, r, units)[1..] == Packets(channel, Recorded(r, |units[0].payload|), units[1..]);
      assert units == [units[0]] + units[1..];
    }
  }

  lemma {:induction false} PacketsWellFormed(channel: Byte, r: Sender, units: seq<Unit>)
    requires InRange(r) && AllFit(units)
    ensures AllWellFormed(Packets(channel, r, units))
    decreases |units|
  {
    if units != [] {
      assert Fits(units[0]);
      PacketsWellFormed(channel, Recorded(r, |units[0].payload|), units[1..]);
      assert Packets(channel, r, units)[1..] == Packets(channel, Recorded(r, |units[0].payload|), units[1..]);
    }
  }

  lemma EncodeCons(p: Packet, ps: seq<Packet>)
    requires WellFormed(p) && AllWellFormed(ps)
    ensures AllWellFormed([p] + ps) && EncodeAll([p] + ps) == Encode(p) + EncodeAll(ps)
  {
    assert ([p] + ps)[1..] == ps;
  }

  /** Packet by packet or all at once: the same bytes and the same state. */
  lemma {:induction false} SentAllIs(channel: Byte, s: Stream, units: seq<Unit>)
    requires InRange(s.sender) && AllFit(units)
    ensures AllWellFormed(Packets(channel, s.sender, units))
    ensures SentAll(channel, s, units)
      == Stream(s.bytes + EncodeAll(Packets(channel, s.sender, units)), After(s.sender, units))
    decreases |units|
  {
    PacketsWellFormed(channel, s.sender, units);
    if units == [] {
      assert s.bytes + [] == s.bytes;
    } else {
      var p, s' := Numbered(channel, s.sender, units[0]), Sent(channel, s, units[0]);
      assert Fits(units[0]);
      SentAllIs(channel, s', units[1..]);
      EncodeCons(p, Packets(channel, s'.sender, units[1..]));
      Regroup(s.bytes, Encode(p), EncodeAll(Packets(channel, s'.sender, units[1..])));
    }
  }

  lemma PacketsHead(channel: Byte, r: Sender, units: seq<Unit>) returns (rest: seq<Packet>)
    requires units != []
    ensures rest == Packets(channel, Recorded(r, |units[0].payload|), units[1..])
    ensures Packets(channel, r, units) == [Numbered(channel, r, units[0])] + rest
  {
    rest := Packets(channel, Recorded(r, |units[0].payload|), units[1..]);
  }

  lemma NumberedOn(channel: Byte, r: Sender, bytes: nat, i: nat, u: Unit)
    ensures var r' := Recorded(r, bytes);
      Numbered(channel, r'.(sequence := (r'.sequence + i) % U16), u) == Numbered(channel, r.(sequence := (r.sequence + (1 + i)) % U16), u)
  {
    Added16(r.sequence, 1, i);
  }

  lemma NumberedFirst(channel: Byte, r: Sender, u: Unit)
    requires InRange(r)
    ensures Numbered(channel, r.(sequence := (r.sequence + 0) % U16), u) == Numbered(channel, r, u)
  {
  }

  lemma {:induction false} PacketsCount(channel: Byte, r: Sender, units: seq<Unit>)
    ensures |Packets(channel, r, units)| == |units|
    decreases |units|
  {
    if units != [] {
      PacketsCount(channel, Recorded(r, |units[0].payload|), units[1..]);
    }
  }

  /** Consecutive sequence numbers modulo 2^16, one timestamp, and the fixed fields. */
  lemma {:induction false} PacketsNumbered(channel: Byte, r: Sender, units: seq<Unit>, i: nat)
    requires InRange(r) && i < |units|
    ensures |Packets(channel, r, units)| == |units|
    ensures Packets(channel, r, units)[i]
      == Packet(channel, 96, units[i].marker, (r.sequence + i) % 0x1_0000, r.timestamp, 0x5652_4356, units[i].payload)
    decreases |units|
  {
    PacketsCount(channel, r, units);
    var rest := PacketsHead(channel, r, units);
    if i == 0 {
      NumberedFirst(channel, r, units[0]);
    } else {
      var bytes := |units[0].payload|;
      PacketsNumbered(channel, Recorded(r, bytes), units[1..], i - 1);
      NumberedOn(channel, r, bytes, i - 1, units[i]);
    }
  }

  /** The state after `packets` more packets of `octets` payload bytes together. */
  function Grown(r: Sender, packets: nat, octets: nat): Sender {
    Sender((r.sequence + packets) % U16, r.timestamp, (r.packetCount + packets) % U32, (r.octetCount + octets) % U32)
  }

  lemma GrownStep(r: Sender, bytes: nat, packets: nat, octets: nat)
    ensures Grown(Recorded(r, bytes), packets, octets) == Grown(r, 1 + packets, bytes + octets)
  {
    Added16(r.sequence, 1, packets);
    Added32(r.packetCount, 1, packets);
    Added32(r.octetCount, bytes, octets);
  }

  lemma GrownByNothing(r: Sender)
    requires InRange(r)
    ensures Grown(r, 0, 0) == r
  {
  }

  /** The counters of a sender report (section 6.4.1 of RFC 3550) grow by exactly what was sent. */
  lemma {:induction false} AfterMeans(r: Sender, units: seq<Unit>)
    requires InRange(r)
    ensures After(r, units) == Grown(r, |units|, Octets(units))
    decreases |units|
  {
    if units == [] {
      GrownByNothing(r);
    } else {
      var bytes := |units[0].payload|;
      AfterMeans(Recorded(r, bytes), units[1..]);
      GrownStep(r, bytes, |units[1..]|, Octets(units[1..]));
    }
  }

  lemma Added16(a: nat, b: nat, c: nat)
    ensures ((a + b) % U16 + c) % U16 == (a + (b + c)) % U16
  {
  }

  lemma Added32(a: nat, b: nat, c: nat)
    ensures ((a + b) % U32 + c) % U32 == (a + (b + c)) % U32
  {
  }

  lemma AcceptedIsSendable(au: Bytes, keyframe: bool, maxBytes: nat)
    requires Inspect(au, keyframe, maxBytes).Accepted?
    ensures NalsOf(au) != [] && forall i | 0 <= i < |NalsOf(au)| :: Sendable(NalsOf(au)[i])
  {
    AcceptedMeans(au, keyframe, maxBytes);
    var nals := NalsOf(au);
    NalsAreNonEmpty(au, FirstNal(au));
    forall i | 0 <= i < |nals| ensures Sendable(nals[i]) {
      assert NalError(nals[i]).None? && nals[i] in nals;
    }
  }

  /** Every access unit the server accepts comes back as exactly its NAL units, whatever was
      sent before; the marker is on its last packet only, and every payload fits. */
  lemma AccessUnitRoundTrip(channel: Byte, s: Stream, au: Bytes, keyframe: bool, maxBytes: nat)
    requires InRange(s.sender) && Inspect(au, keyframe, maxBytes).Accepted?
    ensures var units := AccessUnits(NalsOf(au));
      var sent := SentAll(channel, s, units);
      && s.bytes <= sent.bytes
      && ParseAll(sent.bytes[|s.bytes|..]) == Some(Packets(channel, s.sender, units))
      && ReceiveStream(sent.bytes[|s.bytes|..]) == Receiving(NalsOf(au), None)
      && MarkedAtEnd(units, true) && AllFit(units)
  {
    var units := AccessUnits(NalsOf(au));
    var ps := Packets(channel, s.sender, units);
    AcceptedIsSendable(au, keyframe, maxBytes);
    AccessUnitFits(NalsOf(au));
    MarkerOnLastOnly(NalsOf(au));
    SentAllIs(channel, s, units);
    DropHead(s.bytes, EncodeAll(ps));
    ParseEncodedAll(ps);
    UnitsOfPackets(channel, s.sender, units);
    AccessUnitReceived([], NalsOf(au));
    assert [] + NalsOf(au) == NalsOf(au);
  }

  /** The single-NAL mark of an accepted access unit meets what the fast path relies on. */
  lemma FastPathIsSound(au: Bytes, keyframe: bool, maxBytes: nat)
    requires Inspect(au, keyframe, maxBytes) == Accepted(true)
    ensures NextStart(au, 0).Some? && NalsOf(au) == [au[FirstNal(au)..]]
  {
    AcceptedMeans(au, keyframe, maxBytes);
  }

  // ----- AAC -----

  /** One whole access unit whose AU-size agrees with the payload (sections 3.2.1 and 3.3.6 of RFC 3640). */
  function DecodeAac(payload: Bytes): Option<Bytes> {
    if |payload| < 4 || From16(payload[0], payload[1]) != 16 || payload[3] % 8 != 0 then None
    else if From16(payload[2], payload[3]) / 8 != |payload| - 4 then None
    else Some(payload[4..])
  }

  /** Dropping the bits above the thirteenth leaves the lower parts alone. */
  lemma LowBits(n: nat, q: nat, m: nat)
    requires n == 8192 * q + m && m < 8192
    ensures n / 32 == 256 * q + m / 32 && n % 32 == m % 32 && m / 32 < 256
  {
  }

  lemma LowByte(q: nat, b: nat)
    requires b < 256
    ensures (256 * q + b) % 256 == b
  {
  }

  lemma JoinBits(m: nat)
    ensures (m / 32 * 256 + m % 32 * 8) / 8 == m
  {
    assert m / 32 * 256 + m % 32 * 8 == 8 * (m / 32 * 32 + m % 32) == 8 * m;
  }

  lemma AuSize(n: nat)
    ensures ((n / 32) % 0x100 * 0x100 + n % 32 * 8) / 8 == n % 8192
  {
    var q, m := n / 8192, n % 8192;
    LowBits(n, q, m);
    LowByte(q, m / 32);
    JoinBits(m);
  }

  /** An AAC access unit that the length field can carry is one packet with the sender's numbers,
      and survives exactly if its size fits the 13 bits of AU-size. */
  lemma AacRoundTrip(channel: Byte, r: Sender, au: Bytes)
    requires InRange(r) && 16 + |au| < U16
    ensures ParseAll(Encode(AacPacket(channel, r, au)))
      == Some([Packet(channel, 97, true, r.sequence, r.timestamp, 0x5652_4341, AacPayload(au))])
    ensures DecodeAac(AacPayload(au)) == if |au| < 8192 then Some(au) else None
    ensures |au| <= AAC_MAX_ACCESS_UNIT_BYTES ==> DecodeAac(AacPayload(au)) == Some(au)
  {
    ParseSingle(AacPacket(channel, r, au));
    DecodePayload(au);
  }

  lemma ParseSingle(p: Packet)
    requires WellFormed(p)
    ensures ParseAll(Encode(p)) == Some([p])
  {
    ParseEncodedAll([p]);
    assert [p][1..] == [];
    assert EncodeAll([p]) == Encode(p) + [] == Encode(p);
  }

  lemma DecodePayload(au: Bytes)
    requires |au| < U16
    ensures DecodeAac(AacPayload(au)) == if |au| < 8192 then Some(au) else None
  {
    AuSize(|au|);
    assert AacPayload(au)[4..] == au;
  }
}
