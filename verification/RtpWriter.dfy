/** RtpPacketWriter and RtpState (server/src/rtsp.rs): packets are appended to one buffer and
    written to the socket in batches. */
module RtpWriter {
  import opened AccessUnit
  import opened AnnexB
  import opened Arithmetic
  import opened Common
  import opened H264Rtp
  import opened Options
  import opened Rtp

  // ----- sender state, as values -----

  datatype Sender = Sender(sequence: nat, timestamp: nat, packetCount: nat, octetCount: nat)

  predicate InRange(r: Sender) {
    r.sequence < U16 && r.timestamp < U32 && r.packetCount < U32 && r.octetCount < U32
  }

  function Recorded(r: Sender, payloadBytes: nat): Sender {
    Sender((r.sequence + 1) % U16, r.timestamp, (r.packetCount + 1) % U32, (r.octetCount + payloadBytes) % U32)
  }

  function Numbered(channel: Byte, r: Sender, u: Unit): Packet {
    Packet(channel, RTP_VIDEO_PAYLOAD_TYPE, u.marker, r.sequence, r.timestamp, RTP_VIDEO_SSRC, u.payload)
  }

  /** The packets that carry `units`, numbered from the sender's state. */
  function Packets(channel: Byte, r: Sender, units: seq<Unit>): seq<Packet>
    decreases |units|
  {
    if units == [] then []
    else [Numbered(channel, r, units[0])] + Packets(channel, Recorded(r, |units[0].payload|), units[1..])
  }

  function After(r: Sender, units: seq<Unit>): Sender
    decreases |units|
  {
    if units == [] then r else After(Recorded(r, |units[0].payload|), units[1..])
  }

  function Octets(units: seq<Unit>): nat {
    if units == [] then 0 else |units[0].payload| + Octets(units[1..])
  }

  lemma HeadTail(a: seq<Unit>, b: seq<Unit>)
    requires a != []
    ensures a == [a[0]] + a[1..] && a + b == [a[0]] + (a[1..] + b)
  {
  }

  /** Everything sent so far and the sender's state. */
  datatype Stream = Stream(bytes: Bytes, sender: Sender)

  function Sent(channel: Byte, s: Stream, u: Unit): Stream {
    Stream(s.bytes + Encode(Numbered(channel, s.sender, u)), Recorded(s.sender, |u.payload|))
  }

  function SentAll(channel: Byte, s: Stream, units: seq<Unit>): Stream
    decreases |units|
  {
    if units == [] then s else SentAll(channel, Sent(channel, s, units[0]), units[1..])
  }

  lemma SentCons(channel: Byte, s: Stream, u: Unit, rest: seq<Unit>)
    ensures SentAll(channel, s, [u] + rest) == SentAll(channel, Sent(channel, s, u), rest)
  {
    assert ([u] + rest)[1..] == rest;
  }

  lemma {:induction false} SentAppend(channel: Byte, s: Stream, a: seq<Unit>, b: seq<Unit>)
    ensures SentAll(channel, s, a + b) == SentAll(channel, SentAll(channel, s, a), b)
    decreases |a|
  {
    if a == [] {
      assert a + b == b;
    } else {
      HeadTail(a, b);
      SentCons(channel, s, a[0], a[1..] + b);
      SentAppend(channel, Sent(channel, s, a[0]), a[1..], b);
    }
  }

  /** AU-headers-length 16, then a 13-bit AU-size and a 3-bit AU-Index of zero (section 3.3.6 of RFC 3640). */
  function AacPayload(au: Bytes): Bytes {
    [0, 16, (|au| / 32) % 0x100, |au| % 32 * 8] + au
  }

  function AacPacket(channel: Byte, r: Sender, au: Bytes): Packet {
    Packet(channel, RTP_AUDIO_PAYLOAD_TYPE, true, r.sequence, r.timestamp, RTP_AUDIO_SSRC, AacPayload(au))
  }

  function AacRecorded(r: Sender, au: Bytes): Sender {
    Recorded(r.(timestamp := (r.timestamp + AAC_SAMPLES_PER_FRAME) % U32), 4 + |au|)
  }

  /** The pieces SendAac pushes make up the packet. */
  lemma AacPushed(channel: Byte, r: Sender, au: Bytes, header: Bytes)
    requires header == [] + HeaderOf(AacPacket(channel, r, au))
    ensures header + [Octet(16, 1), Octet(16, 0)] + [(|au| / 32) % 0x100] + [|au| % 32 * 8] + au == Encode(AacPacket(channel, r, au))
  {
    assert Octet(16, 1) == 0 && Octet(16, 0) == 16;
    Regroup(header, [0, 16] + [(|au| / 32) % 0x100] + [|au| % 32 * 8], au);
  }

  /** Pushed piece by piece, or as sixteen bytes at once. */
  lemma HeaderPushed(b: Bytes, magic: Byte, channel: Byte, n: Bytes, version: Byte, kind: Byte, s: Bytes, t: Bytes, ssrc: Bytes)
    requires |n| == |s| == 2 && |t| == |ssrc| == 4
    ensures b + [magic] + [channel] + n + [version] + [kind] + s + t + ssrc
      == b + [magic, channel, n[0], n[1], version, kind, s[0], s[1], t[0], t[1], t[2], t[3], ssrc[0], ssrc[1], ssrc[2], ssrc[3]]
  {
    assert [magic] + [channel] + n == [magic, channel, n[0], n[1]];
  }

  // ----- the classes -----

  /** The connection's write half: everything written, call by call. */
  class Socket {
    var writes: seq<Bytes>

    constructor ()
      ensures writes == []
    {
      writes := [];
    }

    method WriteAll(data: Bytes)
      modifies this
      ensures writes == old(writes) + [data]
    {
      writes := writes + [data];
    }
  }

  class RtpState {
    var sequence: nat
    var timestamp: nat
    var packetCount: nat
    var octetCount: nat

    function Value(): Sender
      reads this
    {
      Sender(sequence, timestamp, packetCount, octetCount)
    }

    constructor ()
      ensures Value() == Sender(0, 0, 0, 0)
    {
      sequence, timestamp, packetCount, octetCount := 0, 0, 0, 0;
    }

    method RecordPacket(payloadBytes: nat)
      modifies this
      ensures Value() == Recorded(old(Value()), payloadBytes)
    {
      sequence := (sequence + 1) % U16;
      packetCount := (packetCount + 1) % U32;
      octetCount := (octetCount + payloadBytes) % U32;
    }

    method AdvanceBy(timestampDelta: nat, payloadBytes: nat)
      modifies this
      ensures Value() == Recorded(old(Value()).(timestamp := (old(timestamp) + timestampDelta) % U32), payloadBytes)
    {
      timestamp := (timestamp + timestampDelta) % U32;
      RecordPacket(payloadBytes);
    }
  }

  ghost function Concat(writes: seq<Bytes>): Bytes {
    if writes == [] then [] else Concat(writes[..|writes| - 1]) + writes[|writes| - 1]
  }

  lemma ConcatSnoc(writes: seq<Bytes>, w: Bytes)
    ensures Concat(writes + [w]) == Concat(writes) + w
  {
    assert (writes + [w])[..|writes|] == writes;
  }

  /** Whole packets, no more bytes than the limit. */
  ghost predicate Batch(b: Bytes, limit: nat) {
    |b| <= limit && ParseAll(b).Some?
  }

  /** Every write since the first `n` is a batch. */
  ghost predicate Batched(writes: seq<Bytes>, n: nat, limit: nat) {
    forall i | n <= i < |writes| :: Batch(writes[i], limit)
  }

  lemma BatchedSnoc(writes: seq<Bytes>, n: nat, limit: nat, last: Bytes)
    requires Batched(writes, n, limit) && Batch(last, limit)
    ensures Batched(writes + [last], n, limit)
  {
  }

  predicate Payload(b: Bytes) {
    1 <= |b| <= RTP_MAX_PAYLOAD_BYTES
  }

  lemma EncodedParses(p: Packet)
    requires WellFormed(p)
    ensures ParseAll(Encode(p)).Some?
  {
    ParseEncoded(p, []);
    assert Encode(p) + [] == Encode(p);
  }

  lemma BatchGrows(b: Bytes, limit: nat, p: Packet)
    requires ParseAll(b).Some? && WellFormed(p) && |b| + 16 + |p.payload| <= limit
    ensures Batch(b + Encode(p), limit)
  {
    EncodedParses(p);
    ParseAppend(b, Encode(p));
  }

  lemma HeadLenAppend(a: Bytes, b: Bytes)
    requires HeadLen(a) != 0
    ensures HeadLen(a + b) == HeadLen(a) && (a + b)[HeadLen(a)..] == a[HeadLen(a)..] + b
  {
    assert forall i | 0 <= i < |a| :: (a + b)[i] == a[i];
  }

  lemma {:induction false} ParseAppend(a: Bytes, b: Bytes)
    requires ParseAll(a).Some? && ParseAll(b).Some?
    ensures ParseAll(a + b).Some?
    decreases |a|
  {
    if a == [] {
      assert a + b == b;
    } else {
      HeadLenAppend(a, b);
      ParseAppend(a[HeadLen(a)..], b);
    }
  }

  function BatchLimit(batchWrites: bool): nat {
    if batchWrites then RTP_TCP_WRITE_BATCH_BYTES else RTP_PACKET_BUFFER_BYTES
  }

  function Waiting(pending: Option<Bytes>): seq<Bytes> {
    match pending
    case None => []
    case Some(nal) => [nal]
  }

  function PendingUnits(pending: Option<Bytes>, tail: seq<Bytes>): seq<Unit> {
    AccessUnits(Waiting(pending) + tail)
  }

  function WaitingUnits(pending: Option<Bytes>): seq<Unit> {
    match pending
    case None => []
    case Some(nal) => NalUnits(nal, false)
  }

  /** A new NAL unit takes the place of the waiting one, which is sent without the marker. */
  lemma Taken(pending: Option<Bytes>, nal: Bytes, tail: seq<Bytes>)
    ensures PendingUnits(pending, [nal] + tail) == WaitingUnits(pending) + PendingUnits(Some(nal), tail)
  {
    var more := [nal] + tail;
    match pending {
      case None =>
        assert Waiting(pending) + more == more;
        assert [] + AccessUnits(more) == AccessUnits(more);
      case Some(p) =>
        assert ([p] + more)[1..] == more;
    }
  }

  lemma LastNal(nal: Bytes)
    ensures PendingUnits(Some(nal), []) == AccessUnits([nal]) == NalUnits(nal, true)
  {
    assert [nal] + [] == [nal];
    assert [nal][1..] == [];
  }

  /** The end of the sending that has got to `s`, to the NAL unit `pending` and to `from`. */
  function Rest(channel: Byte, s: Stream, pending: Option<Bytes>, au: Bytes, from: Option<nat>): Stream
    requires from.Some? ==> from.value <= |au|
  {
    SentAll(channel, s, PendingUnits(pending, Left(au, from)))
  }

  /** Where the scan goes on after the NAL unit that begins at `start`. */
  function Following(au: Bytes, start: nat): (next: Option<nat>)
    requires start <= |au|
    ensures next.Some? ==> start < next.value <= |au|
  {
    match NextStart(au, start)
    case None => None
    case Some(i) => Some(i + CodeLen(au, i))
  }

  function Left(au: Bytes, from: Option<nat>): seq<Bytes>
    requires from.Some? ==> from.value <= |au|
  {
    if from.None? then [] else NalsFrom(au, from.value)
  }

  /** The NAL unit that begins at `start`; it may be empty. */
  function NalAt(au: Bytes, start: nat): Bytes
    requires start <= |au|
  {
    match NextStart(au, start)
    case None => au[start..|au|]
    case Some(i) => au[start..i]
  }

  /** The NAL unit that waits after the scan has passed `nal`. */
  function Held(waiting: Option<Bytes>, nal: Bytes): Option<Bytes> {
    if nal == [] then waiting else Some(nal)
  }

  /** What is sent on the way. */
  function Due(waiting: Option<Bytes>, nal: Bytes): seq<Unit> {
    if nal == [] then [] else WaitingUnits(waiting)
  }

  lemma NothingAfter<T>(a: seq<T>)
    ensures a + [] == a && [] + a == a
  {
  }

  lemma LeftUnfolds(au: Bytes, start: nat) returns (tail: seq<Bytes>)
    requires start <= |au|
    ensures NalsFrom(au, start) == AtMostOne(NalAt(au, start)) + tail && Left(au, Following(au, start)) == tail
  {
    match NextStart(au, start) {
      case None =>
        tail := [];
        NothingAfter(AtMostOne(au[start..|au|]));
      case Some(i) =>
        tail := NalsFrom(au, i + CodeLen(au, i));
        NalsMore(au, start, i, tail);
    }
  }

  /** One turn of the loop: what it sends and what it leaves make up what there was. */
  lemma Turn(waiting: Option<Bytes>, nal: Bytes, tail: seq<Bytes>)
    ensures PendingUnits(waiting, AtMostOne(nal) + tail) == Due(waiting, nal) + PendingUnits(Held(waiting, nal), tail)
    ensures Held(waiting, nal).None? ==> AtMostOne(nal) + tail == tail
  {
    if nal == [] {
      NothingAfter(tail);
      NothingAfter(PendingUnits(waiting, tail));
    } else {
      Taken(waiting, nal, tail);
    }
  }

  lemma TurnSends(channel: Byte, s: Stream, waiting: Option<Bytes>, nal: Bytes, tail: seq<Bytes>)
    ensures SentAll(channel, SentAll(channel, s, Due(waiting, nal)), PendingUnits(Held(waiting, nal), tail))
      == SentAll(channel, s, PendingUnits(waiting, AtMostOne(nal) + tail))
  {
    Turn(waiting, nal, tail);
    SentAppend(channel, s, Due(waiting, nal), PendingUnits(Held(waiting, nal), tail));
  }

  lemma TurnKeepsRest(channel: Byte, s: Stream, waiting: Option<Bytes>, au: Bytes, start: nat)
    requires start <= |au|
    ensures Rest(channel, SentAll(channel, s, Due(waiting, NalAt(au, start))), Held(waiting, NalAt(au, start)), au, Following(au, start))
      == Rest(channel, s, waiting, au, Some(start))
    ensures Held(waiting, NalAt(au, start)).None? ==> Left(au, Following(au, start)) == NalsFrom(au, start)
    ensures waiting.Some? || NalsFrom(au, start) != [] || Held(waiting, NalAt(au, start)).None?
  {
    var tail := LeftUnfolds(au, start);
    Turn(waiting, NalAt(au, start), tail);
    TurnSends(channel, s, waiting, NalAt(au, start), tail);
  }

  lemma RestStarts(channel: Byte, s: Stream, au: Bytes, start: nat)
    requires start <= |au|
    ensures Rest(channel, s, None, au, Some(start)) == SentAll(channel, s, AccessUnits(NalsFrom(au, start)))
  {
    assert [] + NalsFrom(au, start) == NalsFrom(au, start);
  }

  lemma RestEnds(channel: Byte, s: Stream, nal: Bytes, au: Bytes)
    ensures Rest(channel, s, Some(nal), au, None) == SentAll(channel, s, NalUnits(nal, true))
    ensures Rest(channel, s, None, au, None) == s
  {
    LastNal(nal);
  }

  class RtpPacketWriter {
    const channel: Byte
    var packet: Bytes

    constructor (channel: Byte)
      ensures this.channel == channel && packet == []
    {
      this.channel := channel;
      packet := [];
    }

    /** Everything sent through this writer so far, the buffer included. */
    ghost function Output(socket: Socket): Bytes
      reads this, socket
    {
      Concat(socket.writes) + packet
    }

    /** What has reached the socket. */
    ghost function Written(socket: Socket, rtp: RtpState): Stream
      reads socket, rtp
    {
      Stream(Concat(socket.writes), rtp.Value())
    }

    /** What has been sent, the buffer included. */
    ghost function Progress(socket: Socket, rtp: RtpState): Stream
      reads this, socket, rtp
    {
      Stream(Output(socket), rtp.Value())
    }

    /** One AAC access unit per packet (RFC 3640); too large for the length field is an error. */
    method SendAac(socket: Socket, au: Bytes, rtp: RtpState) returns (ok: bool)
      requires InRange(rtp.Value())
      modifies `packet, socket, rtp
      ensures ok == (16 + |au| < U16) && InRange(rtp.Value())
      ensures !ok ==> unchanged(this, socket, rtp)
      ensures ok ==>
        && socket.writes == old(socket.writes) + [Encode(AacPacket(channel, old(rtp.Value()), au))]
        && rtp.Value() == AacRecorded(old(rtp.Value()), au)
    {
      var packetLen := 12 + 2 + 2 + |au|;
      if packetLen >= U16 {
        return false;
      }
      packet := [];
      PushRtpInterleavedHeader(4 + |au|, RTP_AUDIO_PAYLOAD_TYPE, true, rtp.sequence, rtp.timestamp, RTP_AUDIO_SSRC);
      ghost var header := packet;
      packet := packet + [Octet(16, 1), Octet(16, 0)];
      var auSize := |au|;
      packet := packet + [(auSize / 32) % 0x100];
      packet := packet + [auSize % 32 * 8];
      packet := packet + au;
      AacPushed(channel, rtp.Value(), au, header);
      socket.WriteAll(packet);
      rtp.AdvanceBy(AAC_SAMPLES_PER_FRAME, 4 + |au|);
      return true;
    }

    method PushRtpInterleavedHeader(payloadLen: nat, payloadType: nat, marker: bool, sequence: nat, timestamp: nat, ssrc: nat)
      requires payloadType < 128
      modifies `packet
      ensures packet == old(packet) + Header(channel, payloadLen, payloadType, marker, sequence, timestamp, ssrc)
    {
      ghost var before := packet;
      var packetLen := (12 + payloadLen) % U16;
      packet := packet + [0x24];
      packet := packet + [channel];
      packet := packet + [Octet(packetLen, 1), Octet(packetLen, 0)];
      packet := packet + [0x80];
      packet := packet + [(if marker then 0x80 else 0) + payloadType];
      packet := packet + [Octet(sequence, 1), Octet(sequence, 0)];
      packet := packet + [Octet(timestamp, 3), Octet(timestamp, 2), Octet(timestamp, 1), Octet(timestamp, 0)];
      packet := packet + [Octet(ssrc, 3), Octet(ssrc, 2), Octet(ssrc, 1), Octet(ssrc, 0)];
      HeaderPushed(before, 0x24, channel, [Octet(packetLen, 1), Octet(packetLen, 0)], 0x80, (if marker then 0x80 else 0) + payloadType,
                   [Octet(sequence, 1), Octet(sequence, 0)],
                   [Octet(timestamp, 3), Octet(timestamp, 2), Octet(timestamp, 1), Octet(timestamp, 0)],
                   [Octet(ssrc, 3), Octet(ssrc, 2), Octet(ssrc, 1), Octet(ssrc, 0)]);
    }

    method FlushH264Packets(socket: Socket)
      modifies `packet, socket
      ensures packet == []
      ensures Output(socket) == Concat(socket.writes) == old(Output(socket))
      ensures socket.writes == old(socket.writes) + if old(packet) == [] then [] else [old(packet)]
    {
      if packet != [] {
        ConcatSnoc(socket.writes, packet);
        socket.WriteAll(packet);
        packet := [];
      }
      assert Concat(socket.writes) + [] == Concat(socket.writes);
    }

    method FlushH264BatchIfFull(socket: Socket, payloadLen: nat, batchLimit: nat)
      modifies `packet, socket
      ensures Output(socket) == old(Output(socket))
      ensures if old(packet) != [] && |old(packet)| + 4 + 12 + payloadLen > batchLimit
              then packet == [] && socket.writes == old(socket.writes) + [old(packet)]
              else packet == old(packet) && socket.writes == old(socket.writes)
    {
      if packet != [] && |packet| + 4 + 12 + payloadLen > batchLimit {
        FlushH264Packets(socket);
      }
    }

    /** All writes since the first `n` are batches, and so is the buffer. */
    ghost predicate Ready(socket: Socket, n: nat, batchLimit: nat)
      reads this, socket
    {
      n <= |socket.writes| && Batched(socket.writes, n, batchLimit) && Batch(packet, batchLimit)
    }

    /** Makes room, then appends one whole packet: the step both branches of send_h264_nal share. */
    method AppendVideoPacket(socket: Socket, payload: Bytes, marker: bool, batchLimit: nat, rtp: RtpState, ghost n: nat)
      requires Payload(payload) && InRange(rtp.Value())
      requires batchLimit >= RTP_PACKET_BUFFER_BYTES && Ready(socket, n, batchLimit)
      modifies `packet, socket, rtp
      ensures Progress(socket, rtp) == Sent(channel, old(Progress(socket, rtp)), Unit(payload, marker))
      ensures InRange(rtp.Value())
      ensures Ready(socket, n, batchLimit)
    {
      ghost var p := Numbered(channel, rtp.Value(), Unit(payload, marker));
      FlushH264BatchIfFull(socket, |payload|, batchLimit);
      assert Batched(socket.writes, n, batchLimit);
      ghost var before := packet;
      PushRtpInterleavedHeader(|payload|, RTP_VIDEO_PAYLOAD_TYPE, marker, rtp.sequence, rtp.timestamp, RTP_VIDEO_SSRC);
      packet := packet + payload;
      Regroup(before, HeaderOf(p), payload);
      Regroup(Concat(socket.writes), before, Encode(p));
      BatchGrows(before, batchLimit, p);
      rtp.RecordPacket(|payload|);
    }

    /** A fragment: the FU indicator, the FU header, and the bytes up to `end`. */
    method FuPayload(nal: Bytes, offset: nat, end: nat) returns (payload: Bytes)
      requires 1 <= offset < |nal| && end == FragmentEnd(nal, offset)
      ensures payload == Fragment(nal, offset, false).payload && Payload(payload)
    {
      var nalHeader := nal[0];
      var nalType := nalHeader % 32;
      var fuIndicator := FuIndicator(nalHeader);
      var fuHeader := nalType;
      if offset == 1 {
        fuHeader := fuHeader + 0x80;
      }
      if end == |nal| {
        fuHeader := fuHeader + 0x40;
      }
      return [fuIndicator, fuHeader] + nal[offset..end];
    }

    method SendH264Nal(socket: Socket, nal: Bytes, markerOnLastPacket: bool, batchLimit: nat, rtp: RtpState, ghost n: nat)
      requires nal != [] && InRange(rtp.Value())
      requires batchLimit >= RTP_PACKET_BUFFER_BYTES && Ready(socket, n, batchLimit)
      modifies `packet, socket, rtp
      ensures Progress(socket, rtp) == SentAll(channel, old(Progress(socket, rtp)), NalUnits(nal, markerOnLastPacket))
      ensures InRange(rtp.Value()) && Ready(socket, n, batchLimit)
    {
      if |nal| <= RTP_MAX_PAYLOAD_BYTES {
        AppendVideoPacket(socket, nal, markerOnLastPacket, batchLimit, rtp, n);
        return;
      }
      var maxChunk := RTP_MAX_PAYLOAD_BYTES - 2;
      var offset := 1;
      while offset < |nal|
        invariant 1 <= offset <= |nal| && InRange(rtp.Value()) && Ready(socket, n, batchLimit)
        invariant SentAll(channel, Progress(socket, rtp), Fragments(nal, offset, markerOnLastPacket))
          == SentAll(channel, old(Progress(socket, rtp)), Fragments(nal, 1, markerOnLastPacket))
      {
        var end := if offset + maxChunk < |nal| then offset + maxChunk else |nal|;
        ghost var before := Progress(socket, rtp);
        var payload := FuPayload(nal, offset, end);
        AppendVideoPacket(socket, payload, markerOnLastPacket && end == |nal|, batchLimit, rtp, n);
        SentCons(channel, before, Fragment(nal, offset, markerOnLastPacket), Fragments(nal, end, markerOnLastPacket));
        offset := end;
      }
    }

    /** One turn of the loop: the waiting NAL unit is sent if another one takes its place. */
    method TakeNal(socket: Socket, au: Bytes, nalStart: nat, waiting: Option<Bytes>, batchLimit: nat, rtp: RtpState, ghost n: nat)
      returns (following: Option<nat>, pending: Option<Bytes>)
      requires nalStart <= |au| && (waiting.Some? ==> waiting.value != [])
      requires InRange(rtp.Value()) && batchLimit >= RTP_PACKET_BUFFER_BYTES && Ready(socket, n, batchLimit)
      modifies `packet, socket, rtp
      ensures following == Following(au, nalStart) && pending == Held(waiting, NalAt(au, nalStart))
      ensures Progress(socket, rtp) == SentAll(channel, old(Progress(socket, rtp)), Due(waiting, NalAt(au, nalStart)))
      ensures waiting.None? ==> packet == old(packet) && socket.writes == old(socket.writes)
      ensures InRange(rtp.Value()) && Ready(socket, n, batchLimit)
    {
      pending := waiting;
      var next := FindH264StartCode(au, nalStart);
      var nalEnd := if next.None? then |au| else next.value.0;
      if nalEnd > nalStart {
        pending := Some(au[nalStart..nalEnd]);
        if waiting.Some? {
          SendH264Nal(socket, waiting.value, false, batchLimit, rtp, n);
        }
      }
      following := if next.None? then None else Some(next.value.0 + next.value.1);
    }

    /** The loop of send_h264_access_unit: each NAL unit is sent when the next one is found; the
        last one is left waiting. */
    method SendAllButLast(socket: Socket, au: Bytes, start: nat, batchLimit: nat, rtp: RtpState, ghost n: nat)
      returns (pending: Option<Bytes>)
      requires start <= |au| && packet == [] && InRange(rtp.Value())
      requires batchLimit >= RTP_PACKET_BUFFER_BYTES && Ready(socket, n, batchLimit)
      modifies `packet, socket, rtp
      ensures pending.None? ==> packet == [] && socket.writes == old(socket.writes) && NalsFrom(au, start) == []
      ensures pending.Some? ==> pending.value != [] && NalsFrom(au, start) != []
      ensures Rest(channel, Progress(socket, rtp), pending, au, None)
        == Rest(channel, old(Progress(socket, rtp)), None, au, Some(start))
      ensures InRange(rtp.Value()) && Ready(socket, n, batchLimit)
    {
      var next := Some(start);
      pending := None;
      while next.Some?
        invariant next.Some? ==> next.value <= |au|
        invariant InRange(rtp.Value()) && Ready(socket, n, batchLimit)
        invariant pending.None? ==> packet == [] && socket.writes == old(socket.writes) && Left(au, next) == NalsFrom(au, start)
        invariant pending.Some? ==> pending.value != [] && NalsFrom(au, start) != []
        invariant Rest(channel, Progress(socket, rtp), pending, au, next)
          == Rest(channel, old(Progress(socket, rtp)), None, au, Some(start))
        decreases if next.Some? then 1 + |au| - next.value else 0
      {
        TurnKeepsRest(channel, Progress(socket, rtp), pending, au, next.value);
        next, pending := TakeNal(socket, au, next.value, pending, batchLimit, rtp, n);
      }
    }

    /** Every NAL unit is sent, the last one with the marker. */
    method SendEachNal(socket: Socket, au: Bytes, start: nat, batchLimit: nat, rtp: RtpState, ghost n: nat) returns (any: bool)
      requires start <= |au| && packet == [] && InRange(rtp.Value())
      requires batchLimit >= RTP_PACKET_BUFFER_BYTES && Ready(socket, n, batchLimit)
      modifies `packet, socket, rtp
      ensures any == (NalsFrom(au, start) != [])
      ensures !any ==> packet == [] && socket.writes == old(socket.writes)
      ensures Progress(socket, rtp) == SentAll(channel, old(Progress(socket, rtp)), AccessUnits(NalsFrom(au, start)))
      ensures InRange(rtp.Value()) && Ready(socket, n, batchLimit)
    {
      RestStarts(channel, Progress(socket, rtp), au, start);
      var pending := SendAllButLast(socket, au, start, batchLimit, rtp, n);
      any := pending.Some?;
      if any {
        RestEnds(channel, Progress(socket, rtp), pending.value, au);
        SendH264Nal(socket, pending.value, true, batchLimit, rtp, n);
      } else {
        RestEnds(channel, Progress(socket, rtp), [], au);
      }
    }

    /** The bytes and the sender's new state depend on the NAL units alone: neither on the
        batch limit nor on which branch sent them. */
    method SendH264AccessUnit(socket: Socket, au: Bytes, singleNal: bool, batchWrites: bool, rtp: RtpState) returns (error: Option<Reason>)
      requires InRange(rtp.Value())
      requires singleNal && NextStart(au, 0).Some? ==> NalsOf(au) == [au[FirstNal(au)..]]
      modifies `packet, socket, rtp
      ensures error == if NextStart(au, 0).None? then Some(NoStartCode) else if NalsOf(au) == [] then Some(NoNals) else None
      ensures Written(socket, rtp) == SentAll(channel, old(Written(socket, rtp)), AccessUnits(NalsOf(au)))
      ensures InRange(rtp.Value())
      ensures |old(socket.writes)| <= |socket.writes| && Batched(socket.writes, |old(socket.writes)|, if batchWrites then 16384 else 1216)
      ensures error.None? ==> packet == []
    {
      var first := FindH264StartCode(au, 0);
      if first.None? {
        return Some(NoStartCode);
      }
      error := SendPayload(socket, au, first.value.0 + first.value.1, singleNal, BatchLimit(batchWrites), rtp);
    }

    /** send_h264_access_unit after the first start code: the fast path or the loop. */
    method SendPayload(socket: Socket, au: Bytes, start: nat, singleNal: bool, batchLimit: nat, rtp: RtpState)
      returns (error: Option<Reason>)
      requires start <= |au| && InRange(rtp.Value()) && batchLimit >= RTP_PACKET_BUFFER_BYTES
      requires singleNal ==> NalsFrom(au, start) == [au[start..]]
      modifies `packet, socket, rtp
      ensures error == if NalsFrom(au, start) == [] then Some(NoNals) else None
      ensures Written(socket, rtp) == SentAll(channel, old(Written(socket, rtp)), AccessUnits(NalsFrom(au, start)))
      ensures InRange(rtp.Value())
      ensures |old(socket.writes)| <= |socket.writes| && Batched(socket.writes, |old(socket.writes)|, batchLimit)
      ensures packet == []
    {
      packet := [];
      assert Progress(socket, rtp) == Written(socket, rtp);
      ghost var n := |socket.writes|;
      error := None;
      if singleNal {
        NalsAreNonEmpty(au, start);
        LastNal(au[start..]);
        SendH264Nal(socket, au[start..], true, batchLimit, rtp, n);
      } else {
        var any := SendEachNal(socket, au, start, batchLimit, rtp, n);
        if !any {
          return Some(NoNals);
        }
      }
      BatchedSnoc(socket.writes, n, batchLimit, packet);
      FlushH264Packets(socket);
    }
  }
}
