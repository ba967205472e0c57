/** The 64-slot history of VideoRateControl: which quantizer an encoded frame is charged to. */
module QuantizerHistory {
  import opened RateControl

  datatype Frame = Frame(timestamp: int, quantizer: int)

  /** The frames submitted since the last reset, the timestamps recorded since then, and the
      greatest timestamp submitted so far. */
  datatype World = World(rate: Rate, frames: seq<Frame>, done: set<int>, last: int)

  predicate Recent(frames: seq<Frame>, k: int) {
    0 <= k < |frames| && |frames| - 64 <= k
  }

  ghost predicate Increasing(frames: seq<Frame>) {
    && (forall k | 0 <= k < |frames| :: frames[k].timestamp >= 0)
    && forall j, k | 0 <= j < k < |frames| :: frames[j].timestamp < frames[k].timestamp
  }

  function Slot(k: nat): nat {
    k % HISTORY
  }

  /** What a recent frame's slot holds. */
  predicate Holds(w: World, k: int)
    requires Shaped(w.rate) && Recent(w.frames, k)
  {
    var f := w.frames[k];
    && w.rate.quantizers[Slot(k)] == f.quantizer
    && w.rate.timestamps[Slot(k)] == if f.timestamp in w.done then -1 else f.timestamp
  }

  ghost predicate Ring(w: World) {
    && Shaped(w.rate) && w.rate.frameSlot == Slot(|w.frames|) && Increasing(w.frames)
    && (forall k | Recent(w.frames, k) :: Holds(w, k))
    && (forall i | |w.frames| <= i < HISTORY :: w.rate.timestamps[i] == -1)
    && (w.frames != [] ==> w.frames[|w.frames| - 1].timestamp <= w.last)
    && (forall t | t in w.done :: t <= w.last)
  }

  /** Timestamps strictly increase, and only what has been submitted is recorded. */
  predicate Enabled(w: World, e: Event) {
    Proper(e) && (e.DoSubmit? ==> e.timestamp > w.last) && (e.DoRecord? ==> e.timestamp <= w.last)
  }

  function Step(w: World, e: Event): World
    requires Shaped(w.rate) && Proper(e)
  {
    var rate := Next(w.rate, e);
    match e
    case DoReset(_, _, _, _) => World(rate, [], {}, w.last)
    case DoSubmit(timestamp, _) => World(rate, w.frames + [Frame(timestamp, w.rate.quantizer)], w.done, timestamp)
    case DoRecord(_, timestamp, _) => World(rate, w.frames, w.done + {timestamp}, w.last)
    case _ => World(rate, w.frames, w.done, w.last)
  }

  /** The recent frame that a used slot belongs to. */
  lemma Owner(frames: seq<Frame>, i: nat) returns (k: int)
    requires i < HISTORY && i < |frames|
    ensures Recent(frames, k) && Slot(k) == i
  {
    var n := |frames|;
    k := n - 1 - (n - 1 - i) % HISTORY;
  }

  lemma FoundIsOwn(w: World, timestamp: int)
    requires Ring(w) && timestamp >= 0
    ensures var i := IndexOf(w.rate.timestamps, timestamp, 0);
      i >= 0 ==>
        && i < |w.frames|
        && exists k :: Recent(w.frames, k) && Slot(k) == i && w.frames[k].timestamp == timestamp && timestamp !in w.done
  {
    IndexMeans(w.rate.timestamps, timestamp, 0);
    var i := IndexOf(w.rate.timestamps, timestamp, 0);
    if i >= 0 {
      var k := Owner(w.frames, i);
      assert Holds(w, k);
    }
  }

  /** A recent frame not yet recorded is charged to the quantizer it was submitted with. */
  lemma OwnQuantizer(w: World, k: int)
    requires Ring(w) && Recent(w.frames, k) && w.frames[k].timestamp !in w.done
    ensures IndexOf(w.rate.timestamps, w.frames[k].timestamp, 0) == Slot(k)
    ensures FrameQuantizer(w.rate, w.frames[k].timestamp) == w.frames[k].quantizer
  {
    var t := w.frames[k].timestamp;
    assert Holds(w, k);
    IndexMeans(w.rate.timestamps, t, 0);
    assert w.rate.timestamps[0..][Slot(k)] == t;
    FoundIsOwn(w, t);
  }

  /** Any other timestamp is charged to the current quantizer. */
  lemma OtherQuantizer(w: World, timestamp: int)
    requires Ring(w) && timestamp >= 0
    requires forall k | Recent(w.frames, k) :: w.frames[k].timestamp != timestamp || timestamp in w.done
    ensures FrameQuantizer(w.rate, timestamp) == w.rate.quantizer
  {
    FoundIsOwn(w, timestamp);
  }

  lemma SubmitHolds(w: World, e: Event, k: int)
    requires Ring(w) && Enabled(w, e) && e.DoSubmit? && Recent(Step(w, e).frames, k)
    ensures Holds(Step(w, e), k)
  {
    if k < |w.frames| {
      assert Recent(w.frames, k) && Holds(w, k);
    }
  }

  lemma SubmitOrders(w: World, e: Event)
    requires Ring(w) && Enabled(w, e) && e.DoSubmit?
    ensures Increasing(Step(w, e).frames)
  {
  }

  lemma SubmitKeeps(w: World, e: Event)
    requires Ring(w) && Enabled(w, e) && e.DoSubmit?
    ensures Ring(Step(w, e))
  {
    SubmitOrders(w, e);
    forall k | Recent(Step(w, e).frames, k) ensures Holds(Step(w, e), k) {
      SubmitHolds(w, e, k);
    }
  }

  lemma RecordKeeps(w: World, e: Event)
    requires Ring(w) && Enabled(w, e) && e.DoRecord?
    ensures Ring(Step(w, e))
  {
    var w' := Step(w, e);
    FoundIsOwn(w, e.timestamp);
    assert w'.rate.timestamps == Forgotten(w.rate.timestamps, e.timestamp);
    forall k | Recent(w'.frames, k) ensures Holds(w', k) {
      assert Holds(w, k);
      if w.frames[k].timestamp == e.timestamp && e.timestamp !in w.done {
        OwnQuantizer(w, k);
      }
    }
  }

  lemma StepKeeps(w: World, e: Event)
    requires Ring(w) && Enabled(w, e)
    ensures Ring(Step(w, e))
  {
    if e.DoSubmit? {
      SubmitKeeps(w, e);
    } else if e.DoRecord? {
      RecordKeeps(w, e);
    } else if !e.DoReset? {
      assert forall k :: Recent(w.frames, k) ==> Holds(w, k) ==> Holds(Step(w, e), k);
    }
  }

  // ----- whole runs -----

  predicate Legal(w: World, events: seq<Event>)
    requires Shaped(w.rate)
    decreases |events|
  {
    events == [] || (Enabled(w, events[0]) && Legal(Step(w, events[0]), events[1..]))
  }

  /** The quantizer a frame with this timestamp should be charged to. */
  ghost predicate ChargedRightly(w: World, timestamp: int)
    requires Shaped(w.rate)
  {
    && (forall k | Recent(w.frames, k) && w.frames[k].timestamp == timestamp && timestamp !in w.done ::
          FrameQuantizer(w.rate, timestamp) == w.frames[k].quantizer)
    && ((forall k | Recent(w.frames, k) :: w.frames[k].timestamp != timestamp || timestamp in w.done) ==>
          FrameQuantizer(w.rate, timestamp) == w.rate.quantizer)
  }

  ghost predicate AllChargedRightly(w: World, events: seq<Event>)
    requires Shaped(w.rate) && Legal(w, events)
    decreases |events|
  {
    events == [] ||
    ((events[0].DoRecord? ==> ChargedRightly(w, events[0].timestamp)) && AllChargedRightly(Step(w, events[0]), events[1..]))
  }

  lemma {:induction false} HistoryIsRight(w: World, events: seq<Event>)
    requires Ring(w) && Legal(w, events)
    ensures AllChargedRightly(w, events)
    decreases |events|
  {
    if events != [] {
      var e := events[0];
      if e.DoRecord? {
        RecordIsRight(w, e.timestamp);
      }
      StepKeeps(w, e);
      HistoryIsRight(Step(w, e), events[1..]);
    }
  }

  lemma RecordIsRight(w: World, timestamp: int)
    requires Ring(w) && timestamp >= 0
    ensures ChargedRightly(w, timestamp)
  {
    forall k | Recent(w.frames, k) && w.frames[k].timestamp == timestamp && timestamp !in w.done
      ensures FrameQuantizer(w.rate, timestamp) == w.frames[k].quantizer
    {
      OwnQuantizer(w, k);
    }
    if forall k | Recent(w.frames, k) :: w.frames[k].timestamp != timestamp || timestamp in w.done {
      OtherQuantizer(w, timestamp);
    }
  }

  /** A reset starts an empty history. */
  lemma ResetStarts(r: Rate, e: Event, last: int)
    requires Shaped(r) && Proper(e) && e.DoReset?
    ensures Ring(World(Next(r, e), [], {}, last))
  {
  }

  /** The world after a run. */
  function After(w: World, events: seq<Event>): (end: World)
    requires Shaped(w.rate) && Legal(w, events)
    ensures Shaped(end.rate)
    decreases |events|
  {
    if events == [] then w else After(Step(w, events[0]), events[1..])
  }

  lemma {:induction false} RunKeeps(w: World, events: seq<Event>)
    requires Ring(w) && Inv(w.rate) && Legal(w, events)
    ensures Ring(After(w, events)) && Inv(After(w, events).rate)
    decreases |events|
  {
    if events != [] {
      StepKeeps(w, events[0]);
      NextInRange(w.rate, events[0]);
      RunKeeps(Step(w, events[0]), events[1..]);
    }
  }

  /** Whenever one of the last 64 frames overflows, every frame submitted in the next 15 seconds
      uses a quantizer above the one that frame was submitted with, or 51, unless a reset drops
      the block. */
  lemma OwnOverflowHolds(start: World, past: seq<Event>, k: int, bytes: nat, now: real, future: seq<Event>)
    requires Ring(start) && Inv(start.rate) && Legal(start, past)
    requires var w := After(start, past);
      && Recent(w.frames, k) && w.frames[k].timestamp !in w.done && Overflows(w.rate, bytes, now)
    requires Timely(now, future) && AllWithin(future, now + 15_000.0)
    ensures var w := After(start, past);
      SubmitsAbove(Recorded(w.rate, bytes, now, w.frames[k].timestamp), future, w.frames[k].quantizer)
  {
    var w := After(start, past);
    RunKeeps(start, past);
    OwnQuantizer(w, k);
    OverflowHolds(w.rate, bytes, now, w.frames[k].timestamp, future);
  }
}
