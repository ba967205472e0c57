/** The video worker's quantizer control (VideoRateControl, client/scripts/video-worker.js).
    Times are reals, in milliseconds; frame timestamps are integers, in microseconds. */
module RateControl {
  import opened Arithmetic

  const MIN_QUANTIZER: nat := 18
  const MAX_QUANTIZER: nat := 51
  const INITIAL_QUANTIZER: nat := 24
  const QUANTIZER_RECOVERY_STEP: nat := 2
  const QUANTIZER_BLOCK_MS: real := 15000.0
  const HISTORY: nat := 64

  datatype Rate = Rate(
    timestamps: seq<int>, quantizers: seq<int>, frameSlot: nat,
    quantizer: int, minQuantizer: int, blockedUntil: real, adjustedAt: real, adjustments: nat,
    budget: real, capacity: real, available: real, updatedAt: real, smoothedBitrate: real)

  predicate Shaped(r: Rate) {
    |r.timestamps| == HISTORY && |r.quantizers| == HISTORY && r.frameSlot < HISTORY
  }

  function Unblocked(r: Rate, now: real): Rate {
    if now >= r.blockedUntil then r.(minQuantizer := 0, blockedUntil := 0.0) else r
  }

  function Budget(bitrate: nat): real {
    (bitrate as real * 0.85).Floor as real
  }

  function Capacity(budget: real, frameRate: nat): real
    requires frameRate > 0
  {
    MaxReal(budget * 0.5, budget / frameRate as real)
  }

  /** A history without frames. */
  function NoFrames(): (timestamps: seq<int>)
    ensures |timestamps| == HISTORY && forall i | 0 <= i < HISTORY :: timestamps[i] == -1
  {
    seq(HISTORY, _ => -1)
  }

  /** A full allowance for a new bitrate. */
  function Allowed(r: Rate, bitrate: nat, frameRate: nat, now: real): Rate
    requires frameRate > 0
  {
    var budget := Budget(bitrate);
    var capacity := Capacity(budget, frameRate);
    r.(budget := budget, capacity := capacity, available := capacity, updatedAt := now, adjustedAt := now, smoothedBitrate := budget)
  }

  function Reset(r: Rate, bitrate: nat, frameRate: nat, now: real, keepBlock: bool): Rate
    requires frameRate > 0
  {
    var a := Allowed(r, bitrate, frameRate, now);
    var b := Unblocked(if keepBlock then a else a.(blockedUntil := 0.0), now);
    b.(quantizer := Max(MIN_QUANTIZER, Max(INITIAL_QUANTIZER, b.minQuantizer)), adjustments := 0,
       timestamps := NoFrames(), frameSlot := 0)
  }

  function Submitted(r: Rate, timestamp: int): Rate
    requires Shaped(r)
  {
    r.(timestamps := r.timestamps[r.frameSlot := timestamp],
       quantizers := r.quantizers[r.frameSlot := r.quantizer],
       frameSlot := (r.frameSlot + 1) % HISTORY)
  }

  function WithQuantizer(r: Rate, value: int, now: real): Rate {
    var next := Max(MIN_QUANTIZER, Max(r.minQuantizer, Min(MAX_QUANTIZER, value)));
    if next == r.quantizer then r
    else r.(quantizer := next, adjustedAt := now, adjustments := r.adjustments + 1)
  }

  /** The first index of `x` at or after `from`; -1 if there is none. */
  function IndexOf(s: seq<int>, x: int, from: nat): (i: int)
    ensures i == -1 || from <= i < |s|
    decreases |s| - from
  {
    if from >= |s| then -1 else if s[from] == x then from else IndexOf(s, x, from + 1)
  }

  /** The quantizer that `record` charges an encoded frame to. */
  function FrameQuantizer(r: Rate, timestamp: int): int
    requires Shaped(r)
  {
    var slot := IndexOf(r.timestamps, timestamp, 0);
    if slot < 0 then r.quantizer else r.quantizers[slot]
  }

  function Forgotten(timestamps: seq<int>, timestamp: int): seq<int> {
    var slot := IndexOf(timestamps, timestamp, 0);
    if slot < 0 then timestamps else timestamps[slot := -1]
  }

  /** The bit allowance after a frame of `bytes`; negative means overflow. */
  function Balance(capacity: real, budget: real, available: real, elapsedMs: real, bytes: nat): real {
    MinReal(capacity, available + MaxReal(0.0, elapsedMs) / 1000.0 * budget) - (bytes * 8) as real
  }

  predicate Overflows(r: Rate, bytes: nat, now: real) {
    Balance(r.capacity, r.budget, r.available, now - r.updatedAt, bytes) < 0.0
  }

  /** A frame of quantizer `q` is charged to the allowance. */
  function Charged(r: Rate, q: int, bytes: nat, now: real): Rate {
    var b := Unblocked(r, now).(updatedAt := now, available := Balance(r.capacity, r.budget, r.available, now - r.updatedAt, bytes));
    if Overflows(r, bytes, now) then
      var d := b.(minQuantizer := Max(b.minQuantizer, Min(MAX_QUANTIZER, q + 1)), blockedUntil := now + QUANTIZER_BLOCK_MS);
      WithQuantizer(d, Max(d.quantizer, d.minQuantizer), now).(available := 0.0)
    else b
  }

  function Recorded(r: Rate, bytes: nat, now: real, timestamp: int): Rate
    requires Shaped(r)
  {
    Charged(r.(timestamps := Forgotten(r.timestamps, timestamp)), FrameQuantizer(r, timestamp), bytes, now)
  }

  function Smoothed(smoothed: real, actual: real, elapsed: real): real
    requires elapsed >= 0.0
  {
    smoothed + (actual - smoothed) * elapsed / (2.0 + elapsed)
  }

  function Updated(r: Rate, actualBitrate: real, elapsed: real, now: real, canImprove: bool): Rate
    requires elapsed >= 0.0
  {
    var b := Unblocked(r, now);
    var c := b.(smoothedBitrate := Smoothed(b.smoothedBitrate, actualBitrate, elapsed));
    var next := c.quantizer - QUANTIZER_RECOVERY_STEP;
    if canImprove && next >= Max(MIN_QUANTIZER, c.minQuantizer) && now - c.adjustedAt >= 1000.0
       && MaxReal(actualBitrate, c.smoothedBitrate) < c.budget * 0.75
    then WithQuantizer(c, next, now) else c
  }

  class VideoRateControl {
    const frameTimestamps: array<int>
    const frameQuantizers: array<int>
    var frameSlot: nat
    var quantizer: int
    var minQuantizer: int
    var blockedUntil: real
    var adjustedAt: real
    var adjustments: nat
    var budget: real
    var capacity: real
    var available: real
    var updatedAt: real
    var smoothedBitrate: real

    ghost predicate Valid()
      reads this
    {
      && frameTimestamps != frameQuantizers
      && frameTimestamps.Length == HISTORY && frameQuantizers.Length == HISTORY && frameSlot < HISTORY
    }

    ghost function State(): Rate
      reads this, frameTimestamps, frameQuantizers
    {
      Rate(frameTimestamps[..], frameQuantizers[..], frameSlot, quantizer, minQuantizer, blockedUntil, adjustedAt,
           adjustments, budget, capacity, available, updatedAt, smoothedBitrate)
    }

    constructor ()
      ensures Valid() && minQuantizer == 0 && blockedUntil == 0.0 && fresh(frameTimestamps) && fresh(frameQuantizers)
    {
      frameTimestamps := new int[HISTORY](_ => 0);
      frameQuantizers := new int[HISTORY](_ => 0);
      minQuantizer, blockedUntil := 0, 0.0;
      frameSlot, quantizer, adjustments := 0, 0, 0;
    }

    method BlockedMinimum(now: real) returns (minimum: int)
      requires Valid()
      modifies this
      ensures Valid() && State() == Unblocked(old(State()), now) && minimum == minQuantizer
    {
      if now >= blockedUntil {
        minQuantizer := 0;
        blockedUntil := 0.0;
      }
      return minQuantizer;
    }

    method ResetTo(bitrate: nat, frameRate: nat, now: real, keepBlock: bool)
      requires Valid() && frameRate > 0
      modifies this, frameTimestamps
      ensures Valid() && State() == Reset(old(State()), bitrate, frameRate, now, keepBlock)
    {
      Allow(bitrate, frameRate, now);
      if !keepBlock {
        blockedUntil := 0.0;
      }
      var _ := BlockedMinimum(now);
      quantizer := Max(MIN_QUANTIZER, Max(INITIAL_QUANTIZER, minQuantizer));
      adjustments := 0;
      ForgetFrames();
      frameSlot := 0;
    }

    method Allow(bitrate: nat, frameRate: nat, now: real)
      requires Valid() && frameRate > 0
      modifies this
      ensures Valid() && State() == Allowed(old(State()), bitrate, frameRate, now)
    {
      budget := Budget(bitrate);
      capacity := Capacity(budget, frameRate);
      available := capacity;
      updatedAt := now;
      adjustedAt := now;
      smoothedBitrate := budget;
    }

    method ForgetFrames()
      requires Valid()
      modifies frameTimestamps
      ensures frameTimestamps[..] == NoFrames()
    {
      forall i | 0 <= i < frameTimestamps.Length {
        frameTimestamps[i] := -1;
      }
    }

    method Submit(timestamp: int) returns (q: int)
      requires Valid()
      modifies this`frameSlot, frameTimestamps, frameQuantizers
      ensures Valid() && State() == Submitted(old(State()), timestamp) && q == quantizer
    {
      frameTimestamps[frameSlot] := timestamp;
      frameQuantizers[frameSlot] := quantizer;
      frameSlot := (frameSlot + 1) % HISTORY;
      return quantizer;
    }

    method SetQuantizer(value: int, now: real)
      requires Valid()
      modifies this
      ensures Valid() && State() == WithQuantizer(old(State()), value, now)
    {
      var next := Max(MIN_QUANTIZER, Max(minQuantizer, Min(MAX_QUANTIZER, value)));
      if next == quantizer {
        return;
      }
      quantizer := next;
      adjustedAt := now;
      adjustments := adjustments + 1;
    }

    method FindSlot(timestamp: int) returns (slot: int)
      requires Valid()
      ensures slot == IndexOf(frameTimestamps[..], timestamp, 0)
    {
      slot := 0;
      while slot < frameTimestamps.Length
        invariant 0 <= slot <= frameTimestamps.Length
        invariant IndexOf(frameTimestamps[..], timestamp, 0) == IndexOf(frameTimestamps[..], timestamp, slot)
      {
        if frameTimestamps[slot] == timestamp {
          return;
        }
        slot := slot + 1;
      }
      return -1;
    }

    method Record(bytes: nat, now: real, timestamp: int)
      requires Valid()
      modifies this, frameTimestamps
      ensures Valid() && State() == Recorded(old(State()), bytes, now, timestamp)
    {
      var slot := FindSlot(timestamp);
      var frameQuantizer := if slot < 0 then quantizer else frameQuantizers[slot];
      if slot >= 0 {
        frameTimestamps[slot] := -1;
      }
      Charge(frameQuantizer, bytes, now);
    }

    method Charge(frameQuantizer: int, bytes: nat, now: real)
      requires Valid()
      modifies this
      ensures Valid() && State() == Charged(old(State()), frameQuantizer, bytes, now)
    {
      var _ := BlockedMinimum(now);
      var elapsed := now - updatedAt;
      updatedAt := now;
      available := Balance(capacity, budget, available, elapsed, bytes);
      if available < 0.0 {
        minQuantizer := Max(minQuantizer, Min(MAX_QUANTIZER, frameQuantizer + 1));
        blockedUntil := now + QUANTIZER_BLOCK_MS;
        SetQuantizer(Max(quantizer, minQuantizer), now);
        available := 0.0;
      }
    }

    method Update(actualBitrate: real, elapsed: real, now: real, canImprove: bool)
      requires Valid() && elapsed >= 0.0
      modifies this
      ensures Valid() && State() == Updated(old(State()), actualBitrate, elapsed, now, canImprove)
    {
      var _ := BlockedMinimum(now);
      smoothedBitrate := Smoothed(smoothedBitrate, actualBitrate, elapsed);
      var nextQuantizer := quantizer - QUANTIZER_RECOVERY_STEP;
      if canImprove && nextQuantizer >= Max(MIN_QUANTIZER, minQuantizer) && now - adjustedAt >= 1000.0
         && MaxReal(actualBitrate, smoothedBitrate) < budget * 0.75 {
        SetQuantizer(nextQuantizer, now);
      }
    }
  }

  // ----- the range of the quantizer -----

  /** What every operation keeps once `reset` has run. */
  predicate Inv(r: Rate) {
    && Shaped(r)
    && 18 <= r.quantizer <= 51
    && 0 <= r.minQuantizer <= r.quantizer
    && forall i | 0 <= i < HISTORY :: r.timestamps[i] != -1 ==> 18 <= r.quantizers[i] <= 51
  }

  lemma {:induction false} IndexMeans(s: seq<int>, x: int, from: nat)
    requires from <= |s|
    ensures var i := IndexOf(s, x, from);
      if i < 0 then x !in s[from..] else s[i] == x && forall k | from <= k < i :: s[k] != x
    decreases |s| - from
  {
    if from < |s| && s[from] != x {
      IndexMeans(s, x, from + 1);
      assert s[from..] == [s[from]] + s[from + 1..];
    }
  }

  // ----- runs -----

  datatype Event =
    | DoReset(bitrate: nat, frameRate: nat, keepBlock: bool, now: real)
    | DoSubmit(timestamp: int, now: real)
    | DoRecord(bytes: nat, timestamp: int, now: real)
    | DoUpdate(actualBitrate: real, elapsed: real, canImprove: bool, now: real)
    | DoStats(now: real)

  predicate Proper(e: Event) {
    && (e.DoReset? ==> e.frameRate > 0) && (e.DoUpdate? ==> e.elapsed >= 0.0)
    && (e.DoSubmit? ==> e.timestamp >= 0) && (e.DoRecord? ==> e.timestamp >= 0)
  }

  function Next(r: Rate, e: Event): Rate
    requires Shaped(r) && Proper(e)
  {
    match e
    case DoReset(bitrate, frameRate, keepBlock, now) => Reset(r, bitrate, frameRate, now, keepBlock)
    case DoSubmit(timestamp, _) => Submitted(r, timestamp)
    case DoRecord(bytes, timestamp, now) => Recorded(r, bytes, now, timestamp)
    case DoUpdate(actualBitrate, elapsed, canImprove, now) => Updated(r, actualBitrate, elapsed, now, canImprove)
    case DoStats(now) => Unblocked(r, now)
  }

  lemma FrameQuantizerInRange(r: Rate, timestamp: int)
    requires Inv(r) && timestamp >= 0
    ensures 18 <= FrameQuantizer(r, timestamp) <= 51
  {
    IndexMeans(r.timestamps, timestamp, 0);
  }

  lemma ResetInRange(r: Rate, bitrate: nat, frameRate: nat, now: real, keepBlock: bool)
    requires Shaped(r) && 0 <= r.minQuantizer <= 51 && frameRate > 0
    ensures Inv(Reset(r, bitrate, frameRate, now, keepBlock))
  {
  }

  lemma SubmittedInRange(r: Rate, timestamp: int)
    requires Inv(r)
    ensures Inv(Submitted(r, timestamp))
  {
  }

  lemma ChargedInRange(r: Rate, q: int, bytes: nat, now: real)
    requires Inv(r) && 18 <= q <= 51
    ensures Inv(Charged(r, q, bytes, now))
  {
  }

  /** The quantizer stays in 18..51 and at or above the block. */
  lemma NextInRange(r: Rate, e: Event)
    requires Inv(r) && Proper(e)
    ensures Inv(Next(r, e))
  {
    match e
    case DoReset(bitrate, frameRate, keepBlock, now) => ResetInRange(r, bitrate, frameRate, now, keepBlock);
    case DoSubmit(timestamp, _) => SubmittedInRange(r, timestamp);
    case DoRecord(bytes, timestamp, now) =>
      FrameQuantizerInRange(r, timestamp);
      ChargedInRange(r.(timestamps := Forgotten(r.timestamps, timestamp)), FrameQuantizer(r, timestamp), bytes, now);
    case _ =>
  }

  // ----- the block after an overflow -----

  /** Until `until`, no quantizer up to `q` is used, short of the maximum. */
  predicate Blocks(r: Rate, q: int, until: real) {
    Inv(r) && r.minQuantizer >= Min(51, q + 1) && r.blockedUntil >= until
  }

  /** A time before `until` and no reset that drops the block. */
  predicate WithinBlock(e: Event, until: real) {
    e.now < until && !(e.DoReset? && !e.keepBlock)
  }

  lemma BlockKeeps(r: Rate, e: Event, q: int, until: real)
    requires Blocks(r, q, until) && Proper(e) && WithinBlock(e, until)
    requires e.DoRecord? && Overflows(r, e.bytes, e.now) ==> until <= e.now + 15_000.0
    ensures Blocks(Next(r, e), q, until)
  {
    NextInRange(r, e);
  }

  lemma OverflowBlocks(r: Rate, bytes: nat, now: real, timestamp: int)
    requires Inv(r) && timestamp >= 0 && Overflows(r, bytes, now)
    ensures Blocks(Recorded(r, bytes, now, timestamp), FrameQuantizer(r, timestamp), now + 15_000.0)
  {
    NextInRange(r, DoRecord(bytes, timestamp, now));
  }

  /** Times do not decrease. */
  predicate Timely(from: real, events: seq<Event>)
    decreases |events|
  {
    events == [] || (from <= events[0].now && Proper(events[0]) && Timely(events[0].now, events[1..]))
  }

  predicate AllWithin(events: seq<Event>, until: real) {
    events == [] || (WithinBlock(events[0], until) && AllWithin(events[1..], until))
  }

  /** Every submitted frame uses a quantizer above `q`, or the maximum. */
  predicate SubmitsAbove(r: Rate, events: seq<Event>, q: int)
    requires Shaped(r)
    decreases |events|
  {
    events == [] ||
    (Proper(events[0]) && (events[0].DoSubmit? ==> r.quantizer > q || r.quantizer == 51)
     && SubmitsAbove(Next(r, events[0]), events[1..], q))
  }

  lemma {:induction false} BlockedRun(r: Rate, events: seq<Event>, from: real, q: int, until: real)
    requires Blocks(r, q, until) && Timely(from, events) && AllWithin(events, until) && until <= from + 15_000.0
    ensures SubmitsAbove(r, events, q)
    decreases |events|
  {
    if events != [] {
      BlockKeeps(r, events[0], q, until);
      BlockedRun(Next(r, events[0]), events[1..], events[0].now, q, until);
    }
  }

  /** After a frame of quantizer q overflows, every frame submitted in the next 15 seconds uses
      a quantizer above q, or 51, unless a reset drops the block. */
  lemma OverflowHolds(r: Rate, bytes: nat, now: real, timestamp: int, events: seq<Event>)
    requires Inv(r) && timestamp >= 0 && Overflows(r, bytes, now)
    requires Timely(now, events) && AllWithin(events, now + 15_000.0)
    ensures SubmitsAbove(Recorded(r, bytes, now, timestamp), events, FrameQuantizer(r, timestamp))
  {
    OverflowBlocks(r, bytes, now, timestamp);
    BlockedRun(Recorded(r, bytes, now, timestamp), events, now, FrameQuantizer(r, timestamp), now + 15_000.0);
  }
}
