/** Whole sessions on the wire: what a receiver reads from everything written for a run of access
    units, packet numbers and timestamps included. */
module RtpSession {
  import opened AccessUnit
  import opened AnnexB
  import opened Arithmetic
  import opened Common
  import opened H264Rtp
  import opened Options
  import opened Rtp
  import opened RtpRoundTrip
  import opened RtpWriter

  // ----- video -----

  /** An access unit that passed the inspection, and the timestamp it is sent with. */
  datatype Job = Job(timestamp: nat, au: Bytes, keyframe: bool, maxBytes: nat)

  ghost predicate Accepted(job: Job) {
    job.timestamp < U32 && Inspect(job.au, job.keyframe, job.maxBytes).Accepted?
  }

  ghost predicate AllAccepted(jobs: seq<Job>) {
    forall i | 0 <= i < |jobs| :: Accepted(jobs[i])
  }

  lemma AcceptedTail(jobs: seq<Job>)
    requires jobs != [] && AllAccepted(jobs)
    ensures Accepted(jobs[0]) && AllAccepted(jobs[1..])
  {
  }

  function Timed(r: Sender, timestamp: nat): Sender {
    r.(timestamp := timestamp)
  }

  /** The access units are sent one after the other, the timestamp set before each. */
  function SentJobs(channel: Byte, s: Stream, jobs: seq<Job>): Stream
    decreases |jobs|
  {
    if jobs == [] then s
    else
      var s' := Stream(s.bytes, Timed(s.sender, jobs[0].timestamp));
      SentJobs(channel, SentAll(channel, s', AccessUnits(NalsOf(jobs[0].au))), jobs[1..])
  }

  function JobPackets(channel: Byte, r: Sender, jobs: seq<Job>): seq<Packet>
    decreases |jobs|
  {
    if jobs == [] then []
    else
      var r', units := Timed(r, jobs[0].timestamp), AccessUnits(NalsOf(jobs[0].au));
      Packets(channel, r', units) + JobPackets(channel, After(r', units), jobs[1..])
  }

  lemma {:induction false} WellFormedAppend(a: seq<Packet>, b: seq<Packet>)
    requires AllWellFormed(a) && AllWellFormed(b)
    ensures AllWellFormed(a + b) && EncodeAll(a + b) == EncodeAll(a) + EncodeAll(b)
    decreases |a|
  {
    if a == [] {
      assert a + b == b;
    } else {
      assert (a + b)[1..] == a[1..] + b;
      WellFormedAppend(a[1..], b);
      Regroup(Encode(a[0]), EncodeAll(a[1..]), EncodeAll(b));
    }
  }

  lemma JobFits(job: Job)
    requires Accepted(job)
    ensures AllFit(AccessUnits(NalsOf(job.au)))
  {
    AcceptedIsSendable(job.au, job.keyframe, job.maxBytes);
    AccessUnitFits(NalsOf(job.au));
  }

  /** The sequence number `n` packets on. */
  function Ahead(sequence: nat, n: nat): nat
    decreases n
  {
    if n == 0 then sequence else Ahead((sequence + 1) % 0x1_0000, n - 1)
  }

  lemma {:induction false} AheadIs(sequence: nat, n: nat)
    requires sequence < 0x1_0000
    ensures Ahead(sequence, n) == (sequence + n) % 0x1_0000
    decreases n
  {
    if n > 0 {
      AheadIs((sequence + 1) % 0x1_0000, n - 1);
      Added16(sequence, 1, n - 1);
    }
  }

  lemma AheadValue(sequence: nat, n: nat) returns (q: nat)
    requires sequence < 0x1_0000
    ensures Ahead(sequence, n) == q && q == (sequence + n) % 0x1_0000
  {
    AheadIs(sequence, n);
    q := Ahead(sequence, n);
  }

  /** Going on from `next`, which is `n` packets on. */
  lemma {:induction false} AheadOn(sequence: nat, n: nat, next: nat, i: nat)
    requires n <= i && next == Ahead(sequence, n)
    ensures Ahead(next, i - n) == Ahead(sequence, i)
    decreases n
  {
    if n > 0 {
      AheadOn((sequence + 1) % 0x1_0000, n - 1, next, i - 1);
    }
  }

  lemma SequenceAfter(r: Sender, units: seq<Unit>)
    requires InRange(r)
    ensures InRange(After(r, units)) && After(r, units).sequence == Ahead(r.sequence, |units|)
  {
    AfterMeans(r, units);
    AheadIs(r.sequence, |units|);
  }

  lemma UnitsSent(channel: Byte, s: Stream, units: seq<Unit>) returns (ps: seq<Packet>, s': Stream)
    requires InRange(s.sender) && AllFit(units)
    ensures ps == Packets(channel, s.sender, units) && AllWellFormed(ps) && s' == SentAll(channel, s, units)
    ensures s'.bytes == s.bytes + EncodeAll(ps) && s'.sender == After(s.sender, units)
    ensures InRange(s'.sender) && s'.sender.sequence == Ahead(s.sender.sequence, |ps|)
  {
    ps, s' := Packets(channel, s.sender, units), SentAll(channel, s, units);
    SentAllIs(channel, s, units);
    SequenceAfter(s.sender, units);
    PacketsCount(channel, s.sender, units);
  }

  /** The first access unit: its packets, the state after it, and the packets of the others. */
  lemma JobSent(channel: Byte, s: Stream, jobs: seq<Job>) returns (ps: seq<Packet>, s': Stream, rest: seq<Packet>)
    requires InRange(s.sender) && jobs != [] && AllAccepted(jobs)
    ensures ps == Packets(channel, Timed(s.sender, jobs[0].timestamp), AccessUnits(NalsOf(jobs[0].au))) && AllWellFormed(ps)
    ensures rest == JobPackets(channel, s'.sender, jobs[1..]) && JobPackets(channel, s.sender, jobs) == ps + rest
    ensures SentJobs(channel, s, jobs) == SentJobs(channel, s', jobs[1..]) && s'.bytes == s.bytes + EncodeAll(ps)
    ensures s'.sender == After(Timed(s.sender, jobs[0].timestamp), AccessUnits(NalsOf(jobs[0].au)))
    ensures InRange(s'.sender) && s'.sender.sequence == Ahead(s.sender.sequence, |ps|) && AllAccepted(jobs[1..])
  {
    AcceptedTail(jobs);
    JobFits(jobs[0]);
    ps, s' := UnitsSent(channel, Stream(s.bytes, Timed(s.sender, jobs[0].timestamp)), AccessUnits(NalsOf(jobs[0].au)));
    rest := JobPackets(channel, s'.sender, jobs[1..]);
  }

  lemma {:induction false} SentJobsIs(channel: Byte, s: Stream, jobs: seq<Job>)
    requires InRange(s.sender) && AllAccepted(jobs)
    ensures AllWellFormed(JobPackets(channel, s.sender, jobs))
    ensures SentJobs(channel, s, jobs).bytes == s.bytes + EncodeAll(JobPackets(channel, s.sender, jobs))
    decreases |jobs|
  {
    if jobs == [] {
      assert s.bytes + [] == s.bytes;
    } else {
      var ps, s', rest := JobSent(channel, s, jobs);
      SentJobsIs(channel, s', jobs[1..]);
      WellFormedAppend(ps, rest);
      Regroup(s.bytes, EncodeAll(ps), EncodeAll(rest));
    }
  }

  /** The fields of a packet that do not depend on what is sent. */
  predicate Numbers(p: Packet, channel: Byte, sequence: nat) {
    p.channel == channel && p.payloadType == 96 && p.ssrc == 0x5652_4356 && p.sequence == sequence
  }

  lemma UnitsNumbered(channel: Byte, r: Sender, units: seq<Unit>, i: nat) returns (p: Packet)
    requires InRange(r) && i < |Packets(channel, r, units)|
    ensures p == Packets(channel, r, units)[i] && Numbers(p, channel, (r.sequence + i) % 0x1_0000)
  {
    PacketsCount(channel, r, units);
    PacketsNumbered(channel, r, units, i);
    p := Packets(channel, r, units)[i];
  }

  lemma JobNumbered(channel: Byte, r: Sender, units: seq<Unit>, ps: seq<Packet>, i: nat)
    requires InRange(r) && ps == Packets(channel, r, units) && i < |ps|
    ensures Numbers(ps[i], channel, Ahead(r.sequence, i))
  {
    var _ := UnitsNumbered(channel, r, units, i);
    AheadIs(r.sequence, i);
  }

  lemma AtOf<T>(a: seq<T>, b: seq<T>, i: nat)
    requires i < |a + b|
    ensures (a + b)[i] == if i < |a| then a[i] else b[i - |a|]
  {
  }

  lemma {:induction false} JobsNumbered(channel: Byte, s: Stream, jobs: seq<Job>, i: nat) returns (p: Packet)
    requires InRange(s.sender) && AllAccepted(jobs) && i < |JobPackets(channel, s.sender, jobs)|
    ensures JobPackets(channel, s.sender, jobs)[i] == p && Numbers(p, channel, Ahead(s.sender.sequence, i))
    decreases |jobs|
  {
    var ps, s', rest := JobSent(channel, s, jobs);
    AtOf(ps, rest, i);
    if i < |ps| {
      AcceptedTail(jobs);
      JobNumbered(channel, Timed(s.sender, jobs[0].timestamp), AccessUnits(NalsOf(jobs[0].au)), ps, i);
      p := ps[i];
    } else {
      p := JobsNumbered(channel, s', jobs[1..], i - |ps|);
      AheadOn(s.sender.sequence, |ps|, s'.sender.sequence, i);
    }
  }

  /** A received access unit. */
  datatype Frame = Frame(timestamp: nat, nals: seq<Bytes>)

  /** Access units end at a marker, and all packets of one carry its timestamp. */
  function Reassemble(ps: seq<Packet>, rx: Receiver, timestamp: Option<nat>): Option<seq<Frame>>
    decreases |ps|
  {
    if ps == [] then if rx == Receiving([], None) && timestamp.None? then Some([]) else None
    else if timestamp.Some? && ps[0].timestamp != timestamp.value then None
    else
      var rx' := Receive(rx, ps[0].payload);
      if !ps[0].marker then Reassemble(ps[1..], rx', Some(ps[0].timestamp))
      else if rx'.Broken? || rx'.partial.Some? then None
      else
        match Reassemble(ps[1..], Receiving([], None), None)
        case None => None
        case Some(frames) => Some([Frame(ps[0].timestamp, rx'.nals)] + frames)
  }

  function Prepend(f: Frame, frames: Option<seq<Frame>>): Option<seq<Frame>> {
    match frames
    case None => None
    case Some(fs) => Some([f] + fs)
  }

  /** One access unit and what follows it. */
  lemma {:induction false} UnitsReassembled(channel: Byte, r: Sender, units: seq<Unit>, rest: seq<Packet>,
                                            rx: Receiver, timestamp: Option<nat>, nals: seq<Bytes>)
    requires InRange(r) && MarkedAtEnd(units, true) && ReceiveAll(rx, units) == Receiving(nals, None)
    requires timestamp.Some? ==> timestamp.value == r.timestamp
    ensures Reassemble(Packets(channel, r, units) + rest, rx, timestamp)
      == Prepend(Frame(r.timestamp, nals), Reassemble(rest, Receiving([], None), None))
    decreases |units|
  {
    var tail := PacketsHead(channel, r, units);
    PacketsNumbered(channel, r, units, 0);
    assert (Packets(channel, r, units) + rest)[1..] == tail + rest;
    if |units| == 1 {
      assert tail + rest == rest;
    } else {
      var r' := Recorded(r, |units[0].payload|);
      MarkedTail(units);
      UnitsReassembled(channel, r', units[1..], rest, Receive(rx, units[0].payload), Some(r.timestamp), nals);
    }
  }

  lemma MarkedTail(units: seq<Unit>)
    requires MarkedAtEnd(units, true) && |units| > 1
    ensures !units[0].marker && MarkedAtEnd(units[1..], true)
  {
  }

  function Frames(jobs: seq<Job>): seq<Frame> {
    if jobs == [] then [] else [Frame(jobs[0].timestamp, NalsOf(jobs[0].au))] + Frames(jobs[1..])
  }

  lemma JobReassembled(channel: Byte, r: Sender, job: Job, rest: seq<Packet>)
    requires InRange(r) && Accepted(job)
    ensures Reassemble(Packets(channel, Timed(r, job.timestamp), AccessUnits(NalsOf(job.au))) + rest, Receiving([], None), None)
      == Prepend(Frame(job.timestamp, NalsOf(job.au)), Reassemble(rest, Receiving([], None), None))
  {
    var nals := NalsOf(job.au);
    AcceptedIsSendable(job.au, job.keyframe, job.maxBytes);
    MarkerOnLastOnly(nals);
    AccessUnitReceived([], nals);
    assert [] + nals == nals;
    UnitsReassembled(channel, Timed(r, job.timestamp), AccessUnits(nals), rest, Receiving([], None), None, nals);
  }

  lemma {:induction false} JobsReassembled(channel: Byte, s: Stream, jobs: seq<Job>)
    requires InRange(s.sender) && AllAccepted(jobs)
    ensures Reassemble(JobPackets(channel, s.sender, jobs), Receiving([], None), None) == Some(Frames(jobs))
    decreases |jobs|
  {
    if jobs != [] {
      var ps, s', rest := JobSent(channel, s, jobs);
      JobsReassembled(channel, s', jobs[1..]);
      AcceptedTail(jobs);
      JobReassembled(channel, s.sender, jobs[0], rest);
    }
  }

  lemma JobsOnWire(channel: Byte, s: Stream, jobs: seq<Job>) returns (ps: seq<Packet>)
    requires InRange(s.sender) && AllAccepted(jobs)
    ensures ps == JobPackets(channel, s.sender, jobs)
    ensures var sent := SentJobs(channel, s, jobs); s.bytes <= sent.bytes && ParseAll(sent.bytes[|s.bytes|..]) == Some(ps)
  {
    ps := JobPackets(channel, s.sender, jobs);
    SentJobsIs(channel, s, jobs);
    DropHead(s.bytes, EncodeAll(ps));
    ParseEncodedAll(ps);
  }

  /** JobsNumbered, with the sequence number as a remainder. */
  lemma JobNumberIs(channel: Byte, s: Stream, jobs: seq<Job>, i: nat) returns (p: Packet, q: nat)
    requires InRange(s.sender) && AllAccepted(jobs) && i < |JobPackets(channel, s.sender, jobs)|
    ensures p == JobPackets(channel, s.sender, jobs)[i] && Numbers(p, channel, q)
    ensures q == (s.sender.sequence + i) % 0x1_0000
  {
    q := AheadValue(s.sender.sequence, i);
    p := JobsNumbered(channel, s, jobs, i);
  }

  lemma AllJobsNumbered(channel: Byte, s: Stream, jobs: seq<Job>, ps: seq<Packet>)
    requires InRange(s.sender) && AllAccepted(jobs) && ps == JobPackets(channel, s.sender, jobs)
    ensures forall i | 0 <= i < |ps| :: Numbers(ps[i], channel, (s.sender.sequence + i) % 0x1_0000)
  {
    forall i | 0 <= i < |ps| ensures Numbers(ps[i], channel, (s.sender.sequence + i) % 0x1_0000) {
      var _, _ := JobNumberIs(channel, s, jobs, i);
    }
  }

  function PayloadBytes(ps: seq<Packet>): nat {
    if ps == [] then 0 else |ps[0].payload| + PayloadBytes(ps[1..])
  }

  /** The sender's counters have grown by the packets and payload bytes of `ps`. */
  predicate Counted(r: Sender, r': Sender, ps: seq<Packet>) {
    && r'.packetCount == (r.packetCount + |ps|) % 0x1_0000_0000
    && r'.octetCount == (r.octetCount + PayloadBytes(ps)) % 0x1_0000_0000
  }

  lemma {:induction false} PayloadAppend(a: seq<Packet>, b: seq<Packet>)
    ensures PayloadBytes(a + b) == PayloadBytes(a) + PayloadBytes(b)
    decreases |a|
  {
    if a == [] {
      assert a + b == b;
    } else {
      assert (a + b)[1..] == a[1..] + b;
      PayloadAppend(a[1..], b);
    }
  }

  lemma CountedOn(r: Sender, r': Sender, r'': Sender, a: seq<Packet>, b: seq<Packet>)
    requires Counted(r, r', a) && Counted(r', r'', b)
    ensures Counted(r, r'', a + b)
  {
    PayloadAppend(a, b);
    Added32(r.packetCount, |a|, |b|);
    Added32(r.octetCount, PayloadBytes(a), PayloadBytes(b));
  }

  lemma CountedOne(r: Sender, p: Packet)
    ensures Counted(r, Recorded(r, |p.payload|), [p])
  {
    assert PayloadBytes([p]) == |p.payload| + PayloadBytes([]);
  }

  lemma NothingCounted(r: Sender)
    requires InRange(r)
    ensures Counted(r, r, [])
  {
  }

  lemma {:induction false} UnitsCounted(channel: Byte, r: Sender, units: seq<Unit>)
    requires InRange(r)
    ensures Counted(r, After(r, units), Packets(channel, r, units))
    decreases |units|
  {
    if units == [] {
      NothingCounted(r);
    } else {
      var r' := Recorded(r, |units[0].payload|);
      var p := Numbered(channel, r, units[0]);
      UnitsCounted(channel, r', units[1..]);
      CountedOne(r, p);
      CountedOn(r, r', After(r', units[1..]), [p], Packets(channel, r', units[1..]));
    }
  }

  /** What a sender report says of a run (section 6.4.1 of RFC 3550): the counters have grown by
      exactly the packets a receiver has parsed and their payload bytes. */
  lemma {:induction false} SessionCounted(channel: Byte, s: Stream, jobs: seq<Job>)
    requires InRange(s.sender) && AllAccepted(jobs)
    ensures Counted(s.sender, SentJobs(channel, s, jobs).sender, JobPackets(channel, s.sender, jobs))
    decreases |jobs|
  {
    if jobs == [] {
      NothingCounted(s.sender);
    } else {
      var ps, s', rest := JobSent(channel, s, jobs);
      SessionCounted(channel, s', jobs[1..]);
      JobCounted(channel, s, jobs[0], s', ps);
      CountedOn(s.sender, s'.sender, SentJobs(channel, s', jobs[1..]).sender, ps, rest);
    }
  }

  lemma JobCounted(channel: Byte, s: Stream, job: Job, s': Stream, ps: seq<Packet>)
    requires InRange(s.sender) && job.timestamp < U32
    requires ps == Packets(channel, Timed(s.sender, job.timestamp), AccessUnits(NalsOf(job.au)))
    requires s'.sender == After(Timed(s.sender, job.timestamp), AccessUnits(NalsOf(job.au)))
    ensures Counted(s.sender, s'.sender, ps)
  {
    UnitsCounted(channel, Timed(s.sender, job.timestamp), AccessUnits(NalsOf(job.au)));
  }

  /** Whatever run of accepted access units is sent, the bytes written are a sequence of packets
      numbered on from the sender's sequence number, on the track's channel, with the video
      payload type and source; and a receiver gets back exactly the access units, each with its
      timestamp. */
  lemma SessionOnWire(channel: Byte, s: Stream, jobs: seq<Job>) returns (ps: seq<Packet>)
    requires InRange(s.sender) && AllAccepted(jobs)
    ensures var sent := SentJobs(channel, s, jobs); s.bytes <= sent.bytes && ParseAll(sent.bytes[|s.bytes|..]) == Some(ps)
    ensures forall i | 0 <= i < |ps| :: Numbers(ps[i], channel, (s.sender.sequence + i) % 0x1_0000)
    ensures Reassemble(ps, Receiving([], None), None) == Some(Frames(jobs))
    ensures Counted(s.sender, SentJobs(channel, s, jobs).sender, ps)
  {
    ps := JobsOnWire(channel, s, jobs);
    AllJobsNumbered(channel, s, jobs, ps);
    JobsReassembled(channel, s, jobs);
    SessionCounted(channel, s, jobs);
  }

  // ----- audio -----

  /** An AAC access unit with its timestamp, or silence, which goes on where the last one ended. */
  datatype AacJob = AacJob(timestamp: Option<nat>, au: Bytes)

  function AacTimed(r: Sender, job: AacJob): Sender {
    if job.timestamp.Some? then Timed(r, job.timestamp.value) else r
  }

  /** One packet after the other, as SendAac writes and records them. */
  function SentAac(channel: Byte, s: Stream, jobs: seq<AacJob>): Stream
    decreases |jobs|
  {
    if jobs == [] then s
    else
      var r := AacTimed(s.sender, jobs[0]);
      SentAac(channel, Stream(s.bytes + Encode(AacPacket(channel, r, jobs[0].au)), AacRecorded(r, jobs[0].au)), jobs[1..])
  }

  predicate AllIngested(jobs: seq<AacJob>) {
    jobs == [] ||
    (&& |jobs[0].au| <= AAC_MAX_ACCESS_UNIT_BYTES && (jobs[0].timestamp.Some? ==> jobs[0].timestamp.value < U32)
     && AllIngested(jobs[1..]))
  }

  function AacPackets(channel: Byte, r: Sender, jobs: seq<AacJob>): seq<Packet>
    decreases |jobs|
  {
    if jobs == [] then []
    else
      var r' := AacTimed(r, jobs[0]);
      [AacPacket(channel, r', jobs[0].au)] + AacPackets(channel, AacRecorded(r', jobs[0].au), jobs[1..])
  }

  lemma {:induction false} SentAacIs(channel: Byte, s: Stream, jobs: seq<AacJob>)
    requires InRange(s.sender) && AllIngested(jobs)
    ensures AllWellFormed(AacPackets(channel, s.sender, jobs))
    ensures SentAac(channel, s, jobs).bytes == s.bytes + EncodeAll(AacPackets(channel, s.sender, jobs))
    decreases |jobs|
  {
    if jobs == [] {
      assert s.bytes + [] == s.bytes;
    } else {
      var r := AacTimed(s.sender, jobs[0]);
      var p := AacPacket(channel, r, jobs[0].au);
      var s' := Stream(s.bytes + Encode(p), AacRecorded(r, jobs[0].au));
      SentAacIs(channel, s', jobs[1..]);
      EncodeCons(p, AacPackets(channel, s'.sender, jobs[1..]));
      Regroup(s.bytes, Encode(p), EncodeAll(AacPackets(channel, s'.sender, jobs[1..])));
    }
  }

  /** The timestamp of access unit `i`: its own, or 1024 samples after the one before. */
  function DueAt(timestamp: nat, jobs: seq<AacJob>, i: nat): nat
    requires i < |jobs|
    decreases i
  {
    var first := if jobs[0].timestamp.Some? then jobs[0].timestamp.value else timestamp;
    if i == 0 then first else DueAt((first + 1024) % 0x1_0000_0000, jobs[1..], i - 1)
  }

  /** A packet of a run of AAC access units. */
  predicate AacNumbers(p: Packet, channel: Byte, sequence: nat, timestamp: nat, au: Bytes) {
    && p.channel == channel && p.payloadType == 97 && p.ssrc == 0x5652_4341 && p.marker
    && p.sequence == sequence && p.timestamp == timestamp && DecodeAac(p.payload) == Some(au)
  }

  lemma AacFirst(channel: Byte, r: Sender, au: Bytes)
    requires InRange(r) && |au| <= AAC_MAX_ACCESS_UNIT_BYTES
    ensures AacNumbers(AacPacket(channel, r, au), channel, r.sequence, r.timestamp, au)
  {
    DecodePayload(au);
  }

  lemma {:induction false} AacCount(channel: Byte, r: Sender, jobs: seq<AacJob>)
    ensures |AacPackets(channel, r, jobs)| == |jobs|
    decreases |jobs|
  {
    if jobs != [] {
      AacCount(channel, AacRecorded(AacTimed(r, jobs[0]), jobs[0].au), jobs[1..]);
    }
  }

  lemma AacHead(channel: Byte, r: Sender, jobs: seq<AacJob>) returns (r': Sender, next: Sender, rest: seq<Packet>)
    requires InRange(r) && jobs != [] && AllIngested(jobs)
    ensures r' == AacTimed(r, jobs[0]) && InRange(r') && next == AacRecorded(r', jobs[0].au) && InRange(next)
    ensures Ahead(r.sequence, 1) == next.sequence && next.timestamp == (r'.timestamp + 1024) % 0x1_0000_0000
    ensures rest == AacPackets(channel, next, jobs[1..]) && AacPackets(channel, r, jobs) == [AacPacket(channel, r', jobs[0].au)] + rest
    ensures |jobs[0].au| <= AAC_MAX_ACCESS_UNIT_BYTES && AllIngested(jobs[1..])
  {
    r' := AacTimed(r, jobs[0]);
    next := AacRecorded(r', jobs[0].au);
    rest := AacPackets(channel, next, jobs[1..]);
  }

  lemma {:induction false} AacNumbered(channel: Byte, r: Sender, jobs: seq<AacJob>, all: seq<Packet>, i: nat)
    requires InRange(r) && AllIngested(jobs) && all == AacPackets(channel, r, jobs) && i < |jobs| == |all|
    ensures AacNumbers(all[i], channel, Ahead(r.sequence, i), DueAt(r.timestamp, jobs, i), jobs[i].au)
    decreases |jobs|
  {
    var r', next, rest := AacHead(channel, r, jobs);
    if i == 0 {
      AacFirst(channel, r', jobs[0].au);
    } else {
      AacNumbered(channel, next, jobs[1..], rest, i - 1);
      AheadOn(r.sequence, 1, next.sequence, i);
    }
  }

  /** One packet for each access unit: numbered on, each with its own timestamp or 1024 samples
      after the one before. */
  predicate AacSession(channel: Byte, r: Sender, jobs: seq<AacJob>, ps: seq<Packet>) {
    && |ps| == |jobs|
    && forall i | 0 <= i < |ps| ::
         AacNumbers(ps[i], channel, (r.sequence + i) % 0x1_0000, DueAt(r.timestamp, jobs, i), jobs[i].au)
  }

  lemma AllAacNumbered(channel: Byte, r: Sender, jobs: seq<AacJob>)
    requires InRange(r) && AllIngested(jobs)
    ensures AacSession(channel, r, jobs, AacPackets(channel, r, jobs))
  {
    var ps := AacPackets(channel, r, jobs);
    AacCount(channel, r, jobs);
    forall i | 0 <= i < |ps| ensures AacNumbers(ps[i], channel, (r.sequence + i) % 0x1_0000, DueAt(r.timestamp, jobs, i), jobs[i].au) {
      AacNumbered(channel, r, jobs, ps, i);
      var _ := AheadValue(r.sequence, i);
    }
  }

  lemma AacOnWire(channel: Byte, s: Stream, jobs: seq<AacJob>) returns (ps: seq<Packet>)
    requires InRange(s.sender) && AllIngested(jobs)
    ensures ps == AacPackets(channel, s.sender, jobs)
    ensures var sent := SentAac(channel, s, jobs); s.bytes <= sent.bytes && ParseAll(sent.bytes[|s.bytes|..]) == Some(ps)
  {
    ps := AacPackets(channel, s.sender, jobs);
    SentAacIs(channel, s, jobs);
    DropHead(s.bytes, EncodeAll(ps));
    ParseEncodedAll(ps);
  }

  lemma {:induction false} AacCounted(channel: Byte, s: Stream, jobs: seq<AacJob>)
    requires InRange(s.sender) && AllIngested(jobs)
    ensures Counted(s.sender, SentAac(channel, s, jobs).sender, AacPackets(channel, s.sender, jobs))
    decreases |jobs|
  {
    if jobs == [] {
      NothingCounted(s.sender);
    } else {
      var r', next, rest := AacHead(channel, s.sender, jobs);
      var p := AacPacket(channel, r', jobs[0].au);
      AacCounted(channel, Stream(s.bytes + Encode(p), next), jobs[1..]);
      CountedOne(s.sender, p);
      CountedOn(s.sender, next, SentAac(channel, s, jobs).sender, [p], rest);
    }
  }

  /** For any run of ingested AAC access units and silences every unit comes back. */
  lemma AacSessionOnWire(channel: Byte, s: Stream, jobs: seq<AacJob>) returns (ps: seq<Packet>)
    requires InRange(s.sender) && AllIngested(jobs)
    ensures var sent := SentAac(channel, s, jobs); s.bytes <= sent.bytes && ParseAll(sent.bytes[|s.bytes|..]) == Some(ps)
    ensures AacSession(channel, s.sender, jobs, ps) && Counted(s.sender, SentAac(channel, s, jobs).sender, ps)
  {
    ps := AacOnWire(channel, s, jobs);
    AllAacNumbered(channel, s.sender, jobs);
    AacCounted(channel, s, jobs);
  }
}
