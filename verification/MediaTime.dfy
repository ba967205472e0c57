/** Media time from the publisher's 32-bit timestamps to a listener's RTP timestamps:
    MediaTimestampNormalizer (server/src/websocket.rs), RtpMediaTimeline and RtpClock
    (server/src/rtsp.rs). */
module MediaTime {
  import opened Arithmetic
  import opened Options

  const I64_MAX: nat := 0x7fff_ffff_ffff_ffff
  const I64_MIN: int := -0x8000_0000_0000_0000
  const MEDIA_CLOCK_RATE: nat := 48_000
  const H264_CLOCK_RATE: nat := 90_000
  const MEDIA_TIMELINE_REANCHOR_TICKS: nat := MEDIA_CLOCK_RATE * 60 * 30

  // ----- unwrapping 32-bit timestamps -----

  datatype Unwrapper = Unwrapper(previous: Option<nat>, wrapOffset: nat)

  function SaturatedU64(n: nat): nat {
    if n < U64 then n else U64 - 1
  }

  predicate Wraps(u: Unwrapper, source: nat) {
    u.previous.Some? && source < u.previous.value && u.previous.value - source > (U32 - 1) / 2
  }

  function Advance(u: Unwrapper, source: nat): Unwrapper {
    Unwrapper(Some(source), if Wraps(u, source) then SaturatedU64(u.wrapOffset + U32) else u.wrapOffset)
  }

  function Unwrapped(u: Unwrapper, source: nat): nat {
    SaturatedU64(Advance(u, source).wrapOffset + source)
  }

  function Rescaled(unwrapped: nat, rate: nat): nat
    requires rate > 0
  {
    unwrapped * MEDIA_CLOCK_RATE / rate % U64
  }

  class MediaTimestampNormalizer {
    const sourceClockRate: nat
    var previous: Option<nat>
    var wrapOffset: nat

    function State(): Unwrapper
      reads this
    {
      Unwrapper(previous, wrapOffset)
    }

    constructor (sourceClockRate: nat)
      ensures this.sourceClockRate == sourceClockRate && State() == Unwrapper(None, 0)
    {
      this.sourceClockRate, previous, wrapOffset := sourceClockRate, None, 0;
    }

    method Normalize(sourceTimestamp: nat) returns (r: nat)
      requires sourceTimestamp < U32 && sourceClockRate > 0
      modifies this
      ensures State() == Advance(old(State()), sourceTimestamp)
      ensures r == Rescaled(Unwrapped(old(State()), sourceTimestamp), sourceClockRate)
    {
      if previous.Some? {
        if sourceTimestamp < previous.value {
          if previous.value - sourceTimestamp > (U32 - 1) / 2 {
            wrapOffset := SaturatedU64(wrapOffset + U32);
          }
        }
      }
      previous := Some(sourceTimestamp);
      var unwrapped := SaturatedU64(wrapOffset + sourceTimestamp);
      r := unwrapped * MEDIA_CLOCK_RATE / sourceClockRate % U64;
    }
  }

  /** The unwrapped values of a whole run of 32-bit timestamps. */
  function UnwrapAll(u: Unwrapper, sources: seq<nat>): seq<nat>
    decreases |sources|
  {
    if sources == [] then [] else [Unwrapped(u, sources[0])] + UnwrapAll(Advance(u, sources[0]), sources[1..])
  }

  function Wrapped(truth: seq<nat>): seq<nat> {
    if truth == [] then [] else [truth[0] % U32] + Wrapped(truth[1..])
  }

  /** A step of the true timestamps that the 32-bit comparison reads correctly. */
  predicate Legible(t: nat, t': nat) {
    var fall := t % U32 - t' % U32;
    if fall > (U32 - 1) / 2 then t' / U32 == t / U32 + 1 else t' / U32 == t / U32
  }

  predicate AllLegible(t: nat, truth: seq<nat>)
    decreases |truth|
  {
    truth == [] || (Legible(t, truth[0]) && AllLegible(truth[0], truth[1..]))
  }

  predicate AllBelow(truth: seq<nat>, bound: nat) {
    truth == [] || (truth[0] < bound && AllBelow(truth[1..], bound))
  }

  /** The state in which the true time `t` has been understood. */
  function Knows(t: nat): Unwrapper {
    Unwrapper(Some(t % U32), t / U32 * U32)
  }

  lemma LegibleStep(t: nat, t': nat)
    requires t < U64 && t' < U64
    ensures Unwrapped(Knows(t), t' % U32) == t' <==> Legible(t, t')
    ensures Legible(t, t') ==> Advance(Knows(t), t' % U32) == Knows(t')
  {
    assert t' == t' / U32 * U32 + t' % U32 && t == t / U32 * U32 + t % U32;
  }

  lemma UnwrapCons(u: Unwrapper, t: nat, rest: seq<nat>) returns (more: seq<nat>)
    ensures more == UnwrapAll(Advance(u, t % U32), Wrapped(rest))
    ensures UnwrapAll(u, Wrapped([t] + rest)) == [Unwrapped(u, t % U32)] + more
  {
    assert ([t] + rest)[1..] == rest;
    assert Wrapped([t] + rest) == [t % U32] + Wrapped(rest);
    assert Wrapped([t] + rest)[1..] == Wrapped(rest);
    more := UnwrapAll(Advance(u, t % U32), Wrapped(rest));
  }

  lemma SameCons(a: nat, x: seq<nat>, b: nat, y: seq<nat>)
    ensures [a] + x == [b] + y <==> a == b && x == y
  {
    assert ([a] + x)[0] == a && ([b] + y)[0] == b;
    assert ([a] + x)[1..] == x && ([b] + y)[1..] == y;
  }

  /** After the first timestamp, unwrapping returns the true times exactly if every step is
      legible. */
  lemma {:induction false} UnwrapsIffLegible(t: nat, truth: seq<nat>)
    requires t < U64 && AllBelow(truth, U64)
    ensures UnwrapAll(Knows(t), Wrapped(truth)) == truth <==> AllLegible(t, truth)
    decreases |truth|
  {
    if truth != [] {
      var t', rest := truth[0], truth[1..];
      LegibleStep(t, t');
      assert truth == [t'] + rest;
      var more := UnwrapCons(Knows(t), t', rest);
      SameCons(Unwrapped(Knows(t), t' % U32), more, t', rest);
      UnwrapsIffLegible(t', rest);
    }
  }

  /** Steps forward by at most 2^31. */
  predicate Forward(t: nat, truth: seq<nat>)
    decreases |truth|
  {
    truth == [] || (t <= truth[0] <= t + U32 / 2 && Forward(truth[0], truth[1..]))
  }

  lemma {:induction false} ForwardIsLegible(t: nat, truth: seq<nat>)
    requires Forward(t, truth)
    ensures AllLegible(t, truth)
    decreases |truth|
  {
    if truth != [] {
      var t' := truth[0];
      assert t' == t' / U32 * U32 + t' % U32 && t == t / U32 * U32 + t % U32;
      ForwardIsLegible(t', truth[1..]);
    }
  }

  function RescaleAll(times: seq<nat>, rate: nat): seq<nat>
    requires rate > 0
  {
    if times == [] then [] else [Rescaled(times[0], rate)] + RescaleAll(times[1..], rate)
  }

  function FloorAll(truth: seq<nat>, rate: nat): seq<nat>
    requires rate > 0
  {
    if truth == [] then [] else [truth[0] * MEDIA_CLOCK_RATE / rate] + FloorAll(truth[1..], rate)
  }

  predicate FitsU64(truth: seq<nat>, rate: nat)
    requires rate > 0
  {
    truth == [] || (truth[0] * MEDIA_CLOCK_RATE / rate < U64 && FitsU64(truth[1..], rate))
  }

  lemma RescaledOne(t: nat, rate: nat)
    requires rate > 0 && t * MEDIA_CLOCK_RATE / rate < U64
    ensures Rescaled(t, rate) == t * MEDIA_CLOCK_RATE / rate
  {
  }

  lemma {:induction false} RescaleIsFloor(truth: seq<nat>, rate: nat)
    requires rate > 0 && FitsU64(truth, rate)
    ensures RescaleAll(truth, rate) == FloorAll(truth, rate)
    decreases |truth|
  {
    if truth != [] {
      RescaleIsFloor(truth[1..], rate);
      RescaledOne(truth[0], rate);
    }
  }

  /** For an unbounded true clock that starts below 2^32 and steps forward by at most 2^31, the
      normalizer's outputs are floor(true * 48000 / rate), across any number of wraps. */
  lemma NormalizesForward(truth: seq<nat>, rate: nat)
    requires rate > 0 && truth != [] && truth[0] < U32 && Forward(truth[0], truth[1..])
    requires AllBelow(truth, U64) && FitsU64(truth, rate)
    ensures RescaleAll(UnwrapAll(Unwrapper(None, 0), Wrapped(truth)), rate) == FloorAll(truth, rate)
  {
    var t, rest := truth[0], truth[1..];
    ForwardIsLegible(t, rest);
    UnwrapsIffLegible(t, rest);
    assert Wrapped(truth)[1..] == Wrapped(rest);
    assert Advance(Unwrapper(None, 0), t % U32) == Knows(t);
    assert UnwrapAll(Unwrapper(None, 0), Wrapped(truth)) == [t] + rest == truth;
    RescaleIsFloor(truth, rate);
  }

  // ----- beyond 64 bits -----

  const LAST_U64: nat := 0xffff_ffff_ffff_ffff

  /** The state in which the true time `t`, of any size, has been understood. */
  function KnowsAny(t: nat): Unwrapper {
    Unwrapper(Some(t % U32), Min(t / U32 * U32, LAST_U64))
  }

  lemma SaturatingStep(t: nat, t': nat)
    requires t <= t' <= t + U32 / 2
    ensures Unwrapped(KnowsAny(t), t' % U32) == Min(t', LAST_U64) && Advance(KnowsAny(t), t' % U32) == KnowsAny(t')
  {
    var q, q' := t / U32, t' / U32;
    assert t == q * U32 + t % U32 && t' == q' * U32 + t' % U32;
    assert q' == q || q' == q + 1;
    assert Wraps(KnowsAny(t), t' % U32) <==> q' == q + 1;
    WholeWraps(q);
    WholeWraps(q');
  }

  /** A multiple of 2^32 below 2^64 is more than a wrap below it. */
  lemma WholeWraps(q: nat)
    ensures q * U32 < U64 ==> q * U32 + U32 <= U64
  {
    assert q < U32 <==> q * U32 < U32 * U32;
  }

  function UpTo(bound: nat, truth: seq<nat>): seq<nat> {
    if truth == [] then [] else [Min(truth[0], bound)] + UpTo(bound, truth[1..])
  }

  lemma {:induction false} SaturatesForward(t: nat, truth: seq<nat>)
    requires Forward(t, truth)
    ensures UnwrapAll(KnowsAny(t), Wrapped(truth)) == UpTo(LAST_U64, truth)
    decreases |truth|
  {
    if truth != [] {
      var t', rest := truth[0], truth[1..];
      SaturatingStep(t, t');
      assert truth == [t'] + rest;
      var _ := UnwrapCons(KnowsAny(t), t', rest);
      SaturatesForward(t', rest);
    }
  }

  /** At a rate of 48 kHz or more the outputs fit 64 bits. */
  lemma {:induction false} RescaleUpTo(truth: seq<nat>, rate: nat)
    requires rate >= MEDIA_CLOCK_RATE
    ensures RescaleAll(UpTo(LAST_U64, truth), rate) == FloorAll(UpTo(LAST_U64, truth), rate)
    decreases |truth|
  {
    if truth != [] {
      var t, rest := Min(truth[0], LAST_U64), UpTo(LAST_U64, truth[1..]);
      assert ([t] + rest)[1..] == rest;
      RescaleUpTo(truth[1..], rate);
      QuotientBelow(t, rate);
      RescaledOne(t, rate);
    }
  }

  lemma QuotientBelow(t: nat, rate: nat)
    requires rate >= MEDIA_CLOCK_RATE && t < U64
    ensures t * MEDIA_CLOCK_RATE / rate < U64
  {
    var q := t * MEDIA_CLOCK_RATE / rate;
    assert q * rate <= t * MEDIA_CLOCK_RATE <= t * rate;
    CompareMultiples(t, q, rate);
  }

  /** The same without any bound, for audio and video alike: past 64 bits the true time stands
      still at the last value, and no output ever wraps. */
  lemma NormalizesAlways(truth: seq<nat>, rate: nat)
    requires rate >= MEDIA_CLOCK_RATE && truth != [] && truth[0] < U32 && Forward(truth[0], truth[1..])
    ensures RescaleAll(UnwrapAll(Unwrapper(None, 0), Wrapped(truth)), rate) == FloorAll(UpTo(0xffff_ffff_ffff_ffff, truth), rate)
  {
    var t, rest := truth[0], truth[1..];
    SaturatesForward(t, rest);
    assert truth == [t] + rest;
    var _ := UnwrapCons(Unwrapper(None, 0), t, rest);
    assert Advance(Unwrapper(None, 0), t % U32) == KnowsAny(t);
    RescaleUpTo(truth, rate);
  }

  lemma FloorMonotone(t: nat, t': nat, rate: nat)
    requires rate > 0 && t <= t'
    ensures t * MEDIA_CLOCK_RATE / rate <= t' * MEDIA_CLOCK_RATE / rate
  {
    DivMonotone(t * MEDIA_CLOCK_RATE, t' * MEDIA_CLOCK_RATE, rate);
  }

  predicate Monotone(last: nat, outputs: seq<nat>)
    decreases |outputs|
  {
    outputs == [] || (last <= outputs[0] && Monotone(outputs[0], outputs[1..]))
  }

  lemma {:induction false} ForwardIsMonotone(t: nat, truth: seq<nat>, rate: nat)
    requires rate > 0 && Forward(t, truth)
    ensures Monotone(t * MEDIA_CLOCK_RATE / rate, FloorAll(truth, rate))
    decreases |truth|
  {
    if truth != [] {
      FloorMonotone(t, truth[0], rate);
      ForwardIsMonotone(truth[0], truth[1..], rate);
      var rest := FloorAll(truth[1..], rate);
      assert ([truth[0] * MEDIA_CLOCK_RATE / rate] + rest)[1..] == rest;
    }
  }

  /** A step back across a wrap is read as a step forward. */
  lemma BackwardFails()
    ensures UnwrapAll(Knows(U32), Wrapped([U32 - 1])) == [2 * U32 - 1]
    ensures !AllLegible(U32, [U32 - 1])
  {
    assert Wrapped([U32 - 1]) == [U32 - 1];
    assert UnwrapAll(Knows(U32), [U32 - 1]) == [Unwrapped(Knows(U32), U32 - 1)];
  }

  // ----- a listener's timeline -----

  datatype RtpClock = RtpClock(baseTimestamp: nat, clockRate: nat)

  function SaturatedI64(n: int): int {
    if n > I64_MAX then I64_MAX else if n < I64_MIN then I64_MIN else n
  }

  /** Division that truncates toward zero. */
  function TruncDiv(n: int, d: nat): int
    requires d > 0
  {
    if n >= 0 then n / d else -(-n / d)
  }

  function TimestampAt(clock: RtpClock, play: int): nat {
    (clock.baseTimestamp + TruncDiv(SaturatedI64(play * clock.clockRate), MEDIA_CLOCK_RATE)) % U32
  }

  datatype Anchor = Anchor(source: nat, play: int)

  datatype Timeline = Timeline(epoch: nat, anchor: Option<Anchor>)

  function AnchorFor(t: Timeline, epoch: nat, source: nat, now: int): Anchor {
    if t.epoch == epoch && t.anchor.Some? then t.anchor.value else Anchor(source, now)
  }

  function MediaDelta(a: Anchor, source: nat): int {
    if source >= a.source then Min(source - a.source, I64_MAX) else -Min(a.source - source, I64_MAX)
  }

  function PlayTime(a: Anchor, source: nat): int {
    SaturatedI64(a.play + MediaDelta(a, source))
  }

  function Remapped(t: Timeline, epoch: nat, source: nat, now: int): Timeline {
    var a := AnchorFor(t, epoch, source, now);
    Timeline(epoch, Some(if MediaDelta(a, source) >= MEDIA_TIMELINE_REANCHOR_TICKS
                         then Anchor(source, PlayTime(a, source)) else a))
  }

  class RtpMediaTimeline {
    var epoch: nat
    var anchor: Option<Anchor>

    function State(): Timeline
      reads this
    {
      Timeline(epoch, anchor)
    }

    constructor ()
      ensures State() == Timeline(0, None)
    {
      epoch, anchor := 0, None;
    }

    /** `now` is the listener's own play time, which is used only to set a first anchor. */
    method Map(epoch: nat, source: nat, clock: RtpClock, now: int) returns (r: nat)
      modifies this
      ensures State() == Remapped(old(State()), epoch, source, now)
      ensures r == TimestampAt(clock, PlayTime(AnchorFor(old(State()), epoch, source, now), source))
    {
      if this.epoch != epoch {
        this.epoch := epoch;
        anchor := None;
      }
      if anchor.None? {
        anchor := Some(Anchor(source, now));
      }
      var a := anchor.value;
      var mediaDelta;
      if source >= a.source {
        mediaDelta := Min(source - a.source, I64_MAX);
      } else {
        mediaDelta := -Min(a.source - source, I64_MAX);
      }
      var play := SaturatedI64(a.play + mediaDelta);
      if mediaDelta >= MEDIA_TIMELINE_REANCHOR_TICKS {
        anchor := Some(Anchor(source, play));
      }
      r := TimestampAt(clock, play);
    }
  }

  datatype Call = Call(source: nat, clock: RtpClock, now: int)

  /** The outputs of a run of calls, audio and video in any order, within one epoch. */
  function MapAll(t: Timeline, epoch: nat, calls: seq<Call>): seq<nat>
    decreases |calls|
  {
    if calls == [] then []
    else
      var c := calls[0];
      [TimestampAt(c.clock, PlayTime(AnchorFor(t, epoch, c.source, c.now), c.source))]
      + MapAll(Remapped(t, epoch, c.source, c.now), epoch, calls[1..])
  }

  /** No saturation: the source and its play time are within the i64 range. */
  predicate InBounds(k: int, calls: seq<Call>) {
    calls == [] || (calls[0].source <= I64_MAX && I64_MIN <= calls[0].source + k <= I64_MAX && InBounds(k, calls[1..]))
  }

  function Outputs(k: int, calls: seq<Call>): seq<nat> {
    if calls == [] then [] else [TimestampAt(calls[0].clock, calls[0].source + k)] + Outputs(k, calls[1..])
  }

  /** Play time minus source time, as the next call will fix it. */
  function Offset(t: Timeline, epoch: nat, c: Call): int {
    var a := AnchorFor(t, epoch, c.source, c.now);
    a.play - a.source
  }

  lemma MapStep(t: Timeline, epoch: nat, c: Call)
    requires c.source <= I64_MAX && AnchorFor(t, epoch, c.source, c.now).source <= I64_MAX
    requires I64_MIN <= c.source + Offset(t, epoch, c) <= I64_MAX
    ensures PlayTime(AnchorFor(t, epoch, c.source, c.now), c.source) == c.source + Offset(t, epoch, c)
    ensures var t' := Remapped(t, epoch, c.source, c.now);
      t'.epoch == epoch && t'.anchor.Some? && t'.anchor.value.source <= I64_MAX
      && t'.anchor.value.play - t'.anchor.value.source == Offset(t, epoch, c)
  {
  }

  /** Within an epoch every output is that of one common offset, however often the timeline
      re-anchors and whichever track calls it. */
  lemma {:induction false} OneOffset(t: Timeline, epoch: nat, calls: seq<Call>)
    requires calls != []
    requires t.epoch == epoch && t.anchor.Some? ==> t.anchor.value.source <= I64_MAX
    requires InBounds(Offset(t, epoch, calls[0]), calls)
    ensures MapAll(t, epoch, calls) == Outputs(Offset(t, epoch, calls[0]), calls)
    decreases |calls|
  {
    var c, rest := calls[0], calls[1..];
    MapStep(t, epoch, c);
    if rest != [] {
      OneOffset(Remapped(t, epoch, c.source, c.now), epoch, rest);
    }
  }

  lemma {:induction false} OutputAt(k: int, calls: seq<Call>, i: nat)
    requires i < |calls|
    ensures |Outputs(k, calls)| == |calls|
    ensures Outputs(k, calls)[i] == TimestampAt(calls[i].clock, calls[i].source + k)
    decreases |calls|
  {
    if i > 0 {
      OutputAt(k, calls[1..], i - 1);
    } else if |calls| > 1 {
      OutputAt(k, calls[1..], 0);
    }
  }

  /** The multiplication by the clock rate does not saturate. */
  predicate Unsaturated(clock: RtpClock, play: int) {
    I64_MIN <= play * clock.clockRate <= I64_MAX
  }

  lemma AudioStep(clock: RtpClock, p: int, p': int)
    requires clock.clockRate == MEDIA_CLOCK_RATE && Unsaturated(clock, p) && Unsaturated(clock, p')
    ensures (TimestampAt(clock, p') - TimestampAt(clock, p)) % U32 == (p' - p) % U32
  {
    AudioTicks(p);
    AudioTicks(p');
    DiffMod(clock.baseTimestamp + p', clock.baseTimestamp + p);
  }

  lemma AudioTicks(p: int)
    ensures TruncDiv(p * MEDIA_CLOCK_RATE, MEDIA_CLOCK_RATE) == p
  {
  }

  lemma DiffMod(a: int, b: int)
    ensures (a % U32 - b % U32) % U32 == (a - b) % U32
  {
  }

  /** What a 90 kHz time becomes on the way: down to 48 kHz, shifted, and up to 90 kHz again. */
  function VideoTicks(truth: nat, k: int): int {
    TruncDiv((truth * MEDIA_CLOCK_RATE / H264_CLOCK_RATE + k) * H264_CLOCK_RATE, MEDIA_CLOCK_RATE)
  }

  lemma FifteenEighths(p: int)
    ensures p >= 0 ==> TruncDiv(p * H264_CLOCK_RATE, MEDIA_CLOCK_RATE) == 15 * p / 8
    ensures p < 0 ==> TruncDiv(p * H264_CLOCK_RATE, MEDIA_CLOCK_RATE) == -(-15 * p / 8)
  {
    assert p * H264_CLOCK_RATE == 6000 * (15 * p);
    assert MEDIA_CLOCK_RATE == 6000 * 8;
  }

  /** The error that the round trip through 48 kHz adds depends on the offset alone, within two ticks. */
  lemma VideoError(truth: nat, k: int)
    ensures var e := VideoTicks(truth, k) - truth; var p := truth * MEDIA_CLOCK_RATE / H264_CLOCK_RATE + k;
      && (p >= 0 ==> (15 * k - 14) / 8 <= e <= 15 * k / 8)
      && (15 * k - 14) / 8 <= e <= (15 * k + 7) / 8
  {
    var s := truth * MEDIA_CLOCK_RATE / H264_CLOCK_RATE;
    assert s == 8 * truth / 15;
    FifteenEighths(s + k);
  }

  lemma VideoTimestamp(clock: RtpClock, truth: nat, k: int)
    requires clock.clockRate == H264_CLOCK_RATE && Unsaturated(clock, truth * MEDIA_CLOCK_RATE / H264_CLOCK_RATE + k)
    ensures TimestampAt(clock, truth * MEDIA_CLOCK_RATE / H264_CLOCK_RATE + k) == (clock.baseTimestamp + VideoTicks(truth, k)) % U32
  {
  }

  lemma VideoDistance(base: nat, truth: nat, truth': nat, k: int)
    ensures var p, p' := truth * MEDIA_CLOCK_RATE / H264_CLOCK_RATE + k, truth' * MEDIA_CLOCK_RATE / H264_CLOCK_RATE + k;
      Within((base + VideoTicks(truth', k)) % U32 - (base + VideoTicks(truth, k)) % U32, truth' - truth, if p >= 0 && p' >= 0 then 2 else 3)
  {
    VideoError(truth, k);
    VideoError(truth', k);
    var v, v' := VideoTicks(truth, k), VideoTicks(truth', k);
    var p, p' := truth * MEDIA_CLOCK_RATE / H264_CLOCK_RATE + k, truth' * MEDIA_CLOCK_RATE / H264_CLOCK_RATE + k;
    DiffMod(base + v', base + v);
    WithinMod((base + v') % U32 - (base + v) % U32, v' - v, truth' - truth, if p >= 0 && p' >= 0 then 2 else 3);
  }

  /** Video differences drift by at most two ticks of 90 kHz, and by three if a play time is negative. */
  lemma VideoStep(clock: RtpClock, truth: nat, truth': nat, k: int)
    requires clock.clockRate == H264_CLOCK_RATE
    requires Unsaturated(clock, truth * MEDIA_CLOCK_RATE / H264_CLOCK_RATE + k)
    requires Unsaturated(clock, truth' * MEDIA_CLOCK_RATE / H264_CLOCK_RATE + k)
    ensures var p, p' := truth * MEDIA_CLOCK_RATE / H264_CLOCK_RATE + k, truth' * MEDIA_CLOCK_RATE / H264_CLOCK_RATE + k;
      Within(TimestampAt(clock, p') - TimestampAt(clock, p), truth' - truth, if p >= 0 && p' >= 0 then 2 else 3)
  {
    VideoTimestamp(clock, truth, k);
    VideoTimestamp(clock, truth', k);
    VideoDistance(clock.baseTimestamp, truth, truth', k);
  }

  /** Equal modulo 2^32 up to `slack` either way. */
  predicate Within(actual: int, expected: int, slack: nat) {
    (actual - expected + slack) % U32 <= 2 * slack
  }

  lemma WithinMod(actual: int, exact: int, expected: int, slack: nat)
    requires actual % U32 == exact % U32 && exact - expected <= slack && expected - exact <= slack && 2 * slack < U32
    ensures Within(actual, expected, slack)
  {
  }

  // ----- two tracks on one timeline -----

  predicate IsTrack(clock: RtpClock) {
    clock.clockRate == MEDIA_CLOCK_RATE || clock.clockRate == H264_CLOCK_RATE
  }

  /** floor(truth * 48000 / rate) for the two clock rates in use. */
  function SourceTime(clock: RtpClock, truth: nat): nat {
    if clock.clockRate == H264_CLOCK_RATE then truth * MEDIA_CLOCK_RATE / H264_CLOCK_RATE else truth
  }

  /** Every call carries a normalized true time of its own clock. */
  predicate FromTruth(calls: seq<Call>, truth: seq<nat>) {
    && |calls| == |truth|
    && (calls == [] || (IsTrack(calls[0].clock) && calls[0].source == SourceTime(calls[0].clock, truth[0])
        && FromTruth(calls[1..], truth[1..])))
  }

  lemma {:induction false} TruthAt(calls: seq<Call>, truth: seq<nat>, i: nat)
    requires FromTruth(calls, truth) && i < |calls|
    ensures IsTrack(calls[i].clock) && |truth| == |calls| && calls[i].source == SourceTime(calls[i].clock, truth[i])
    decreases |calls|
  {
    if i > 0 {
      TruthAt(calls[1..], truth[1..], i - 1);
    }
  }

  /** Two outputs of one track, against the publisher's own timestamps. */
  predicate SameDistance(clock: RtpClock, out: int, out': int, truth: int, truth': int, slack: nat) {
    if clock.clockRate == MEDIA_CLOCK_RATE then (out' - out) % U32 == (truth' - truth) % U32
    else Within(out' - out, truth' - truth, slack)
  }

  lemma PairOfCalls(clock: RtpClock, truth: nat, truth': nat, k: int)
    requires IsTrack(clock)
    requires Unsaturated(clock, SourceTime(clock, truth) + k) && Unsaturated(clock, SourceTime(clock, truth') + k)
    ensures var p, p' := SourceTime(clock, truth) + k, SourceTime(clock, truth') + k;
      SameDistance(clock, TimestampAt(clock, p), TimestampAt(clock, p'), truth, truth', if p >= 0 && p' >= 0 then 2 else 3)
  {
    if clock.clockRate == MEDIA_CLOCK_RATE {
      AudioStep(clock, truth + k, truth' + k);
    } else {
      VideoStep(clock, truth, truth', k);
    }
  }

  /** PairOfCalls in terms of the calls. */
  lemma PairOfOutputs(c: Call, c': Call, truth: nat, truth': nat, k: int)
    requires IsTrack(c.clock) && c.clock == c'.clock
    requires c.source == SourceTime(c.clock, truth) && c'.source == SourceTime(c'.clock, truth')
    requires Unsaturated(c.clock, c.source + k) && Unsaturated(c'.clock, c'.source + k)
    ensures SameDistance(c.clock, TimestampAt(c.clock, c.source + k), TimestampAt(c'.clock, c'.source + k), truth, truth',
      if c.source + k >= 0 && c'.source + k >= 0 then 2 else 3)
  {
    PairOfCalls(c.clock, truth, truth', k);
  }

  lemma OutputsKeepDistance(k: int, calls: seq<Call>, truth: seq<nat>, i: nat, j: nat)
    requires i < |calls| && j < |calls| && FromTruth(calls, truth) && calls[i].clock == calls[j].clock
    requires Unsaturated(calls[i].clock, calls[i].source + k) && Unsaturated(calls[j].clock, calls[j].source + k)
    ensures |Outputs(k, calls)| == |calls|
    ensures SameDistance(calls[i].clock, Outputs(k, calls)[i], Outputs(k, calls)[j], truth[i], truth[j],
      if calls[i].source + k >= 0 && calls[j].source + k >= 0 then 2 else 3)
  {
    OutputAt(k, calls, i);
    OutputAt(k, calls, j);
    TruthAt(calls, truth, i);
    TruthAt(calls, truth, j);
    PairOfOutputs(calls[i], calls[j], truth[i], truth[j], k);
  }

  /** However long the run and in whatever order the tracks call, two outputs of one track
      differ as the publisher's own timestamps do: exactly for audio, within two ticks for video. */
  lemma NoDrift(t: Timeline, epoch: nat, calls: seq<Call>, truth: seq<nat>, i: nat, j: nat)
    requires i < |calls| && j < |calls| && FromTruth(calls, truth)
    requires t.epoch == epoch && t.anchor.Some? ==> t.anchor.value.source <= I64_MAX
    requires InBounds(Offset(t, epoch, calls[0]), calls)
    requires calls[i].clock == calls[j].clock
    requires Unsaturated(calls[i].clock, calls[i].source + Offset(t, epoch, calls[0]))
    requires Unsaturated(calls[j].clock, calls[j].source + Offset(t, epoch, calls[0]))
    ensures |MapAll(t, epoch, calls)| == |calls|
    ensures var outs, k := MapAll(t, epoch, calls), Offset(t, epoch, calls[0]);
      SameDistance(calls[i].clock, outs[i], outs[j], truth[i], truth[j],
           if calls[i].source + k >= 0 && calls[j].source + k >= 0 then 2 else 3)
  {
    var k := Offset(t, epoch, calls[0]);
    OneOffset(t, epoch, calls);
    OutputsKeepDistance(k, calls, truth, i, j);
  }

  // ----- the whole chain -----

  datatype Track = Audio | Video

  function Rate(track: Track): nat {
    if track.Audio? then MEDIA_CLOCK_RATE else H264_CLOCK_RATE
  }

  /** One value for each track. */
  datatype Pair<T> = Pair(audio: T, video: T)

  function Of<T>(p: Pair<T>, track: Track): T {
    if track.Audio? then p.audio else p.video
  }

  function With<T>(p: Pair<T>, track: Track, x: T): Pair<T> {
    if track.Audio? then p.(audio := x) else p.(video := x)
  }

  /** A published frame; only its true time modulo 2^32 is on the wire.  A listener may not
      receive it. */
  datatype Sample = Sample(track: Track, truth: nat, heard: bool, now: int)

  function ClockOf(bases: Pair<nat>, track: Track): RtpClock {
    RtpClock(Of(bases, track), Rate(track))
  }

  /** What the listener's timeline is called with: every frame passes its track's normalizer,
      whether heard or not. */
  function Heard(us: Pair<Unwrapper>, bases: Pair<nat>, samples: seq<Sample>): seq<Call>
    decreases |samples|
  {
    if samples == [] then []
    else
      var s := samples[0];
      var u := Of(us, s.track);
      (if s.heard then [Call(Rescaled(Unwrapped(u, s.truth % U32), Rate(s.track)), ClockOf(bases, s.track), s.now)] else [])
      + Heard(With(us, s.track, Advance(u, s.truth % U32)), bases, samples[1..])
  }

  function Truths(samples: seq<Sample>): seq<nat> {
    if samples == [] then [] else (if samples[0].heard then [samples[0].truth] else []) + Truths(samples[1..])
  }

  /** A track starts below 2^32 and steps forward by at most 2^31. */
  predicate Follows(last: Option<nat>, truth: nat) {
    truth < U64 && if last.None? then truth < U32 else last.value <= truth <= last.value + U32 / 2
  }

  predicate Published(last: Pair<Option<nat>>, samples: seq<Sample>)
    decreases |samples|
  {
    samples == [] ||
    (Follows(Of(last, samples[0].track), samples[0].truth)
     && Published(With(last, samples[0].track, Some(samples[0].truth)), samples[1..]))
  }

  function Understood(last: Option<nat>): Unwrapper {
    if last.None? then Unwrapper(None, 0) else Knows(last.value)
  }

  lemma FollowsIsUnderstood(last: Option<nat>, truth: nat)
    requires Follows(last, truth) && (last.Some? ==> last.value < U64)
    ensures Unwrapped(Understood(last), truth % U32) == truth
    ensures Advance(Understood(last), truth % U32) == Understood(Some(truth))
  {
    if last.Some? {
      ForwardIsLegible(last.value, [truth]);
      LegibleStep(last.value, truth);
    }
  }

  lemma RescaledIsSource(bases: Pair<nat>, track: Track, truth: nat)
    requires truth < U64
    ensures Rescaled(truth, Rate(track)) == SourceTime(ClockOf(bases, track), truth)
  {
  }

  function UnderstoodBoth(last: Pair<Option<nat>>): Pair<Unwrapper> {
    Pair(Understood(last.audio), Understood(last.video))
  }

  predicate Bounded(last: Option<nat>) {
    last.Some? ==> last.value < U64
  }

  lemma TruthCons(c: Call, truth: nat, calls: seq<Call>, truths: seq<nat>)
    requires IsTrack(c.clock) && c.source == SourceTime(c.clock, truth) && FromTruth(calls, truths)
    ensures FromTruth([c] + calls, [truth] + truths)
  {
    assert ([c] + calls)[1..] == calls && ([truth] + truths)[1..] == truths;
  }

  lemma {:induction false} HeardIsTrue(last: Pair<Option<nat>>, bases: Pair<nat>, samples: seq<Sample>)
    requires Published(last, samples) && Bounded(last.audio) && Bounded(last.video)
    ensures FromTruth(Heard(UnderstoodBoth(last), bases, samples), Truths(samples))
    decreases |samples|
  {
    if samples != [] {
      var s := samples[0];
      var last' := With(last, s.track, Some(s.truth));
      FollowsIsUnderstood(Of(last, s.track), s.truth);
      HeardIsTrue(last', bases, samples[1..]);
      var calls, truths := Heard(UnderstoodBoth(last'), bases, samples[1..]), Truths(samples[1..]);
      if s.heard {
        RescaledIsSource(bases, s.track, s.truth);
        TruthCons(Call(Rescaled(s.truth, Rate(s.track)), ClockOf(bases, s.track), s.now), s.truth, calls, truths);
      } else {
        assert [] + calls == calls && [] + truths == truths;
      }
    }
  }

  /** From the publisher's 32-bit timestamps to a listener's RTP timestamps: two normalizers fed
      with interleaved tracks, then one timeline that hears any part of the frames.  Two outputs
      of one track differ as the true times do. */
  lemma ChainKeepsDistance(t: Timeline, epoch: nat, bases: Pair<nat>, samples: seq<Sample>, i: nat, j: nat)
    requires Published(Pair(None, None), samples)
    requires t.epoch == epoch && t.anchor.Some? ==> t.anchor.value.source <= I64_MAX
    requires var calls := Heard(Pair(Unwrapper(None, 0), Unwrapper(None, 0)), bases, samples);
      && i < |calls| && j < |calls| && calls[i].clock == calls[j].clock
      && InBounds(Offset(t, epoch, calls[0]), calls)
      && Unsaturated(calls[i].clock, calls[i].source + Offset(t, epoch, calls[0]))
      && Unsaturated(calls[j].clock, calls[j].source + Offset(t, epoch, calls[0]))
    ensures var calls := Heard(Pair(Unwrapper(None, 0), Unwrapper(None, 0)), bases, samples);
      var outs, truths, k := MapAll(t, epoch, calls), Truths(samples), Offset(t, epoch, calls[0]);
      && |outs| == |truths| == |calls|
      && SameDistance(calls[i].clock, outs[i], outs[j], truths[i], truths[j],
           if calls[i].source + k >= 0 && calls[j].source + k >= 0 then 2 else 3)
  {
    HeardIsTrue(Pair(None, None), bases, samples);
    NoDrift(t, epoch, Heard(UnderstoodBoth(Pair(None, None)), bases, samples), Truths(samples), i, j);
  }

  // ----- where an epoch begins -----

  /** The RTP timestamp of a 48 kHz play time: from the base, at the clock's own rate. */
  function Stamp(clock: RtpClock, play: int): nat {
    if play >= 0 then (clock.baseTimestamp + play * clock.clockRate / 48_000) % 0x1_0000_0000
    else (clock.baseTimestamp - -play * clock.clockRate / 48_000) % 0x1_0000_0000
  }

  lemma StampIs(clock: RtpClock, play: int)
    requires Unsaturated(clock, play)
    ensures TimestampAt(clock, play) == Stamp(clock, play)
  {
    if play < 0 {
      NegativeProduct(play, clock.clockRate);
      assert -play * clock.clockRate == -(play * clock.clockRate);
    }
  }

  /** A call and the resync epoch that the listener is in. */
  datatype EpochCall = EpochCall(epoch: nat, call: Call)

  /** The outputs of a run of calls over any epochs. */
  function MapEpochs(t: Timeline, calls: seq<EpochCall>): seq<nat>
    decreases |calls|
  {
    if calls == [] then []
    else
      var c, epoch := calls[0].call, calls[0].epoch;
      [TimestampAt(c.clock, PlayTime(AnchorFor(t, epoch, c.source, c.now), c.source))]
      + MapEpochs(Remapped(t, epoch, c.source, c.now), calls[1..])
  }

  lemma {:induction false} EpochOutputs(t: Timeline, calls: seq<EpochCall>)
    ensures |MapEpochs(t, calls)| == |calls|
    decreases |calls|
  {
    if calls != [] {
      EpochOutputs(Remapped(t, calls[0].epoch, calls[0].call.source, calls[0].call.now), calls[1..]);
    }
  }

  lemma LaterOutput(t: Timeline, calls: seq<EpochCall>, i: nat) returns (t': Timeline)
    requires 0 < i < |calls|
    ensures t' == Remapped(t, calls[0].epoch, calls[0].call.source, calls[0].call.now)
    ensures |MapEpochs(t, calls)| == |calls| && |MapEpochs(t', calls[1..])| == |calls| - 1
    ensures MapEpochs(t, calls)[i] == MapEpochs(t', calls[1..])[i - 1] && calls[1..][i - 1] == calls[i]
  {
    t' := Remapped(t, calls[0].epoch, calls[0].call.source, calls[0].call.now);
    EpochOutputs(t, calls);
    EpochOutputs(t', calls[1..]);
  }

  /** Nothing saturates for this call if play times run `k` ahead of source times. */
  predicate Bounded64(k: int, c: Call) {
    c.source <= I64_MAX && I64_MIN <= c.source + k <= I64_MAX && Unsaturated(c.clock, c.source + k)
  }

  /** The timeline is in this epoch, `k` ahead of source times. */
  predicate Anchored(t: Timeline, epoch: nat, k: int) {
    t.epoch == epoch && t.anchor.Some? && t.anchor.value.source <= I64_MAX && t.anchor.value.play - t.anchor.value.source == k
  }

  predicate SameEpoch(calls: seq<EpochCall>, epoch: nat, k: int) {
    calls == [] || (calls[0].epoch == epoch && Bounded64(k, calls[0].call) && SameEpoch(calls[1..], epoch, k))
  }

  lemma AnchoredStep(t: Timeline, epoch: nat, k: int, c: Call)
    requires Anchored(t, epoch, k) && Bounded64(k, c)
    ensures TimestampAt(c.clock, PlayTime(AnchorFor(t, epoch, c.source, c.now), c.source)) == Stamp(c.clock, c.source + k)
    ensures Anchored(Remapped(t, epoch, c.source, c.now), epoch, k)
  {
    MapStep(t, epoch, c);
    StampIs(c.clock, c.source + k);
  }

  /** The first call of an epoch is answered with the listener's own play time. */
  lemma FirstStep(t: Timeline, epoch: nat, c: Call)
    requires (t.epoch != epoch || t.anchor.None?) && Bounded64(c.now - c.source, c)
    ensures TimestampAt(c.clock, PlayTime(AnchorFor(t, epoch, c.source, c.now), c.source)) == Stamp(c.clock, c.now)
    ensures Anchored(Remapped(t, epoch, c.source, c.now), epoch, c.now - c.source)
  {
    MapStep(t, epoch, c);
    StampIs(c.clock, c.now);
  }

  lemma {:induction false} AnchoredOn(t: Timeline, epoch: nat, k: int, calls: seq<EpochCall>, i: nat)
    requires i < |calls| && Anchored(t, epoch, k) && SameEpoch(calls[..i + 1], epoch, k)
    ensures |MapEpochs(t, calls)| == |calls|
    ensures MapEpochs(t, calls)[i] == Stamp(calls[i].call.clock, calls[i].call.source + k)
    decreases i
  {
    var c := calls[0].call;
    EpochOutputs(t, calls);
    AnchoredStep(t, epoch, k, c);
    if i > 0 {
      var t' := LaterOutput(t, calls, i);
      assert calls[..i + 1][1..] == calls[1..][..i];
      AnchoredOn(t', epoch, k, calls[1..], i - 1);
    }
  }

  lemma SliceOfTail<T>(a: seq<T>, f: nat, n: nat)
    requires 0 < f <= n <= |a|
    ensures a[1..][f - 1..n - 1] == a[f..n]
  {
  }

  /** Call `f` is the first of its epoch. */
  predicate Begins(t: Timeline, calls: seq<EpochCall>, f: nat)
    requires f < |calls|
  {
    if f == 0 then t.epoch != calls[0].epoch || t.anchor.None? else calls[f].epoch != calls[f - 1].epoch
  }

  lemma FirstOfEpoch(t: Timeline, calls: seq<EpochCall>, i: nat)
    requires i < |calls| && Begins(t, calls, 0)
    requires SameEpoch(calls[..i + 1], calls[0].epoch, calls[0].call.now - calls[0].call.source)
    ensures |MapEpochs(t, calls)| == |calls|
    ensures MapEpochs(t, calls)[i] == Stamp(calls[i].call.clock, calls[i].call.source + calls[0].call.now - calls[0].call.source)
  {
    var c := calls[0].call;
    EpochOutputs(t, calls);
    FirstStep(t, calls[0].epoch, c);
    if i > 0 {
      var t' := LaterOutput(t, calls, i);
      assert calls[..i + 1][1..] == calls[1..][..i];
      AnchoredOn(t', calls[0].epoch, c.now - c.source, calls[1..], i - 1);
    }
  }

  /** Over any run of calls and epochs, and within the bounds: the first output of each epoch is
      the listener's own play time, and each later one is as far from it as the sources are. */
  lemma {:induction false} EpochStartsNow(t: Timeline, calls: seq<EpochCall>, f: nat, i: nat)
    requires f <= i < |calls| && Begins(t, calls, f)
    requires SameEpoch(calls[f..i + 1], calls[f].epoch, calls[f].call.now - calls[f].call.source)
    ensures |MapEpochs(t, calls)| == |calls|
    ensures MapEpochs(t, calls)[i] == Stamp(calls[i].call.clock, calls[i].call.source + calls[f].call.now - calls[f].call.source)
    decreases f
  {
    if f == 0 {
      assert calls[0..i + 1] == calls[..i + 1];
      FirstOfEpoch(t, calls, i);
    } else {
      var t' := LaterOutput(t, calls, i);
      assert calls[1..][f - 1] == calls[f];
      SliceOfTail(calls, f, i + 1);
      EpochStartsNow(t', calls[1..], f - 1, i - 1);
    }
  }

  // ----- the listener's own clock -----

  /** RtpClock::timestamp, which stamps placeholder pictures, after `elapsed` nanoseconds. */
  function OwnTimestamp(clock: RtpClock, elapsed: nat): nat {
    (clock.baseTimestamp + elapsed * clock.clockRate / 1_000_000_000) % U32
  }

  /** RtpClock::media_timestamp; an i64 holds it for six million years. */
  function OwnPlayTime(elapsed: nat): nat {
    elapsed * MEDIA_CLOCK_RATE / 1_000_000_000
  }

  lemma TwoFloors(elapsed: nat)
    ensures 0 <= elapsed * 90_000 / 1_000_000_000 - OwnPlayTime(elapsed) * 90_000 / 48_000 <= 2
  {
    var p := OwnPlayTime(elapsed);
    assert 1_000_000_000 * p <= elapsed * 48_000 < 1_000_000_000 * p + 1_000_000_000;
    assert p * 90_000 / 48_000 == 15 * p / 8;
    assert elapsed * 90_000 / 1_000_000_000 == 9 * elapsed / 100_000;
  }

  /** Where live video takes over from a placeholder, its first RTP timestamp is the listener's
      own one, or one or two ticks of 90 kHz behind; audio is exact. */
  lemma TakesOver(clock: RtpClock, elapsed: nat)
    requires IsTrack(clock) && Unsaturated(clock, OwnPlayTime(elapsed))
    ensures var behind := (OwnTimestamp(clock, elapsed) - Stamp(clock, OwnPlayTime(elapsed))) % U32;
      if clock.clockRate == MEDIA_CLOCK_RATE then behind == 0 else 0 <= behind <= 2
  {
    var p := OwnPlayTime(elapsed);
    if clock.clockRate == MEDIA_CLOCK_RATE {
      assert p * 48_000 / 48_000 == p;
    } else {
      TwoFloors(elapsed);
    }
    DiffMod(clock.baseTimestamp + elapsed * clock.clockRate / 1_000_000_000, clock.baseTimestamp + p * clock.clockRate / 48_000);
  }
}
