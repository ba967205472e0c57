/** CaptureProcessor (client/scripts/audio-worklet.js): render quanta of any size are cut into
    blocks of a fixed number of stereo frames. */
module AudioCapture {
  import opened Common
  import opened Options

  const CHANNELS: nat := 2

  // ----- one frame at a time -----

  datatype Block = Block(pcm: seq<real>, timestamp: int)

  /** The blocks posted so far, the partial one, and the time at which that began. */
  datatype Capture = Capture(posted: seq<Block>, partial: seq<real>, timestamp: int)

  /** One render quantum; a missing input is silence, of the length of the monitor output. */
  datatype Quantum = Quantum(left: Option<seq<real>>, right: Option<seq<real>>, monitorLength: Option<nat>)

  predicate Matched(q: Quantum) {
    q.right.Some? ==> q.left.Some? && |q.right.value| == |q.left.value|
  }

  function FrameCount(q: Quantum): nat {
    if q.left.Some? then |q.left.value| else if q.monitorLength.Some? then q.monitorLength.value else 128
  }

  function Clamp(x: real): real {
    if x > 1.0 then 1.0 else if x < -1.0 then -1.0 else x
  }

  function Left(q: Quantum, i: nat): real
    requires Matched(q) && i < FrameCount(q)
  {
    if q.left.Some? then q.left.value[i] else 0.0
  }

  function Right(q: Quantum, i: nat): real
    requires Matched(q) && i < FrameCount(q)
  {
    if q.right.Some? then q.right.value[i] else Left(q, i)
  }

  /** Interleaved, clamped frames `from`, ..., `to` - 1. */
  function Samples(q: Quantum, from: nat, to: nat): seq<real>
    requires Matched(q) && from <= to <= FrameCount(q)
    decreases FrameCount(q) - from
  {
    if from == to then [] else [Clamp(Left(q, from)), Clamp(Right(q, from))] + Samples(q, from + 1, to)
  }

  function Completed(c: Capture, frames: nat): Capture {
    if |c.partial| == frames * CHANNELS then Capture(c.posted + [Block(c.partial, c.timestamp)], [], c.timestamp) else c
  }

  function Feed(c: Capture, frames: nat, left: real, right: real, time: int): Capture {
    Completed(Capture(c.posted, c.partial + [Clamp(left), Clamp(right)], if c.partial == [] then time else c.timestamp), frames)
  }

  /** Frames `from`, ... of a quantum that starts at `currentFrame`. */
  function FeedFrom(c: Capture, frames: nat, q: Quantum, from: nat, currentFrame: int): Capture
    requires Matched(q) && from <= FrameCount(q)
    decreases FrameCount(q) - from
  {
    if from == FrameCount(q) then c
    else FeedFrom(Feed(c, frames, Left(q, from), Right(q, from), currentFrame + from), frames, q, from + 1, currentFrame)
  }

  // ----- many frames at a time -----

  function Filled(c: Capture, q: Quantum, from: nat, take: nat, currentFrame: int): Capture
    requires Matched(q) && from + take <= FrameCount(q)
  {
    Capture(c.posted, c.partial + Samples(q, from, from + take), if c.partial == [] then currentFrame + from else c.timestamp)
  }

  /** Frame `i` of a quantum, clamped and interleaved. */
  function Frame(q: Quantum, i: nat): (pair: seq<real>)
    requires Matched(q) && i < FrameCount(q)
    ensures |pair| == CHANNELS
  {
    [Clamp(Left(q, i)), Clamp(Right(q, i))]
  }

  lemma SamplesOfOne(q: Quantum, i: nat)
    requires Matched(q) && i < FrameCount(q)
    ensures Samples(q, i, i + 1) == Frame(q, i)
  {
    assert Samples(q, i, i + 1) == Frame(q, i) + Samples(q, i + 1, i + 1);
  }

  lemma FrameThenRest(before: seq<real>, q: Quantum, i: nat, to: nat)
    requires Matched(q) && i < to <= FrameCount(q)
    ensures before + Samples(q, i, to) == before + Frame(q, i) + Samples(q, i + 1, to)
  {
    Regroup(before, Frame(q, i), Samples(q, i + 1, to));
  }

  lemma FilledWithOne(c: Capture, frames: nat, q: Quantum, from: nat, currentFrame: int)
    requires Matched(q) && from < FrameCount(q)
    ensures Completed(Filled(c, q, from, 1, currentFrame), frames) == Feed(c, frames, Left(q, from), Right(q, from), currentFrame + from)
  {
    SamplesOfOne(q, from);
  }

  /** While the block is not full, feeding a frame and filling on is filling from that frame. */
  lemma FilledOn(c: Capture, frames: nat, q: Quantum, from: nat, take: nat, currentFrame: int)
    requires Matched(q) && from + take <= FrameCount(q) && take > 1
    requires |c.partial| + take * CHANNELS <= frames * CHANNELS
    ensures var fed := Feed(c, frames, Left(q, from), Right(q, from), currentFrame + from);
      Filled(fed, q, from + 1, take - 1, currentFrame) == Filled(c, q, from, take, currentFrame)
      && |fed.partial| == |c.partial| + CHANNELS
  {
    Regroup(c.partial, Frame(q, from), Samples(q, from + 1, from + take));
  }

  lemma {:induction false} FillIsFeeding(c: Capture, frames: nat, q: Quantum, from: nat, take: nat, currentFrame: int)
    requires Matched(q) && from + take <= FrameCount(q) && take > 0
    requires |c.partial| + take * CHANNELS <= frames * CHANNELS
    ensures FeedFrom(c, frames, q, from, currentFrame)
      == FeedFrom(Completed(Filled(c, q, from, take, currentFrame), frames), frames, q, from + take, currentFrame)
    decreases take
  {
    if take == 1 {
      FilledWithOne(c, frames, q, from, currentFrame);
    } else {
      FilledOn(c, frames, q, from, take, currentFrame);
      FillIsFeeding(Feed(c, frames, Left(q, from), Right(q, from), currentFrame + from), frames, q, from + 1, take - 1, currentFrame);
    }
  }

  class CaptureProcessor {
    const frames: nat
    var pcm: array<real>
    var offset: nat
    var timestamp: int
    var posted: seq<Block>

    ghost predicate Valid()
      reads this
    {
      frames > 0 && pcm.Length == frames * CHANNELS && offset < frames
    }

    ghost function State(): Capture
      requires offset * CHANNELS <= pcm.Length
      reads this, pcm
    {
      Capture(posted, pcm[..offset * CHANNELS], timestamp)
    }

    constructor (frames: nat)
      requires frames > 0
      ensures Valid() && this.frames == frames && State() == Capture([], [], 0) && fresh(pcm)
    {
      this.frames := frames;
      pcm := new real[frames * CHANNELS](_ => 0.0);
      offset, timestamp, posted := 0, 0, [];
    }

    /** Frame `source` goes behind the first `destination` samples. */
    method CopyFrame(q: Quantum, source: nat, destination: nat)
      requires Matched(q) && source < FrameCount(q) && destination + CHANNELS <= pcm.Length
      modifies pcm
      ensures pcm[..destination + CHANNELS] == old(pcm[..destination]) + Frame(q, source)
    {
      var left := if q.left.Some? then q.left.value[source] else 0.0;
      var right := if q.right.Some? then q.right.value[source] else left;
      pcm[destination] := Clamp(left);
      pcm[destination + 1] := Clamp(right);
    }

    /** The inner loop: `take` frames go behind the first `offset`. */
    method CopyFrames(q: Quantum, sourceOffset: nat, take: nat)
      requires Matched(q) && sourceOffset + take <= FrameCount(q)
      requires (offset + take) * CHANNELS <= pcm.Length
      modifies pcm
      ensures pcm[..(offset + take) * CHANNELS] == old(pcm[..offset * CHANNELS]) + Samples(q, sourceOffset, sourceOffset + take)
    {
      ghost var all := old(pcm[..offset * CHANNELS]) + Samples(q, sourceOffset, sourceOffset + take);
      var i := 0;
      while i < take
        invariant 0 <= i <= take
        invariant pcm[..(offset + i) * CHANNELS] + Samples(q, sourceOffset + i, sourceOffset + take) == all
      {
        var destination := (offset + i) * CHANNELS;
        var source := sourceOffset + i;
        FrameThenRest(pcm[..destination], q, source, sourceOffset + take);
        CopyFrame(q, source, destination);
        i := i + 1;
      }
    }

    /** One turn of the outer loop: fill the block as far as the quantum goes, and post it when full. */
    method FillBlock(q: Quantum, sourceOffset: nat, currentFrame: int) returns (take: nat)
      requires Valid() && Matched(q) && sourceOffset < FrameCount(q)
      modifies this, pcm
      ensures Valid() && (pcm == old(pcm) || fresh(pcm))
      ensures 0 < take <= FrameCount(q) - sourceOffset && old(offset) + take <= frames
      ensures State() == Completed(Filled(old(State()), q, sourceOffset, take, currentFrame), frames)
    {
      if offset == 0 {
        timestamp := currentFrame + sourceOffset;
      }
      take := if frames - offset < FrameCount(q) - sourceOffset then frames - offset else FrameCount(q) - sourceOffset;
      CopyFrames(q, sourceOffset, take);
      offset := offset + take;
      PostIfFull();
    }

    method PostIfFull()
      requires frames > 0 && pcm.Length == frames * CHANNELS && offset <= frames
      modifies this
      ensures Valid() && (pcm == old(pcm) || fresh(pcm))
      ensures State() == Completed(old(State()), frames)
    {
      if offset == frames {
        assert pcm[..] == pcm[..offset * CHANNELS];
        posted := posted + [Block(pcm[..], timestamp)];
        pcm := new real[frames * CHANNELS](_ => 0.0);
        offset := 0;
      }
    }

    method Process(q: Quantum, currentFrame: int)
      requires Valid() && Matched(q)
      modifies this, pcm
      ensures Valid() && (pcm == old(pcm) || fresh(pcm))
      ensures State() == FeedFrom(old(State()), frames, q, 0, currentFrame)
    {
      var frameCount := FrameCount(q);
      var sourceOffset := 0;
      while sourceOffset < frameCount
        invariant Valid() && 0 <= sourceOffset <= frameCount && (pcm == old(pcm) || fresh(pcm))
        invariant FeedFrom(State(), frames, q, sourceOffset, currentFrame) == FeedFrom(old(State()), frames, q, 0, currentFrame)
      {
        ghost var before := State();
        var take := FillBlock(q, sourceOffset, currentFrame);
        FillIsFeeding(before, frames, q, sourceOffset, take, currentFrame);
        sourceOffset := sourceOffset + take;
      }
    }
  }

  // ----- conservation -----

  function Posted(blocks: seq<Block>): seq<real> {
    if blocks == [] then [] else Posted(blocks[..|blocks| - 1]) + blocks[|blocks| - 1].pcm
  }

  /** Everything captured: the posted blocks and the partial one. */
  function Captured(c: Capture): seq<real> {
    Posted(c.posted) + c.partial
  }

  /** Between frames, the partial block is not full, and every posted block is. */
  predicate InShape(c: Capture, frames: nat) {
    && frames > 0 && |c.partial| % CHANNELS == 0 && |c.partial| < frames * CHANNELS
    && forall b | 0 <= b < |c.posted| :: |c.posted[b].pcm| == frames * CHANNELS
  }

  lemma FeedConserves(c: Capture, frames: nat, left: real, right: real, time: int)
    requires InShape(c, frames)
    ensures InShape(Feed(c, frames, left, right, time), frames)
    ensures Captured(Feed(c, frames, left, right, time)) == Captured(c) + [Clamp(left), Clamp(right)]
  {
    var one := [Clamp(left), Clamp(right)];
    var c' := Feed(c, frames, left, right, time);
    Regroup(Posted(c.posted), c.partial, one);
    if |c.partial + one| == frames * CHANNELS {
      assert c'.posted[..|c.posted|] == c.posted;
      assert Posted(c'.posted) + [] == Posted(c'.posted);
    }
  }

  lemma {:induction false} QuantumConserves(c: Capture, frames: nat, q: Quantum, from: nat, currentFrame: int)
    requires InShape(c, frames) && Matched(q) && from <= FrameCount(q)
    ensures InShape(FeedFrom(c, frames, q, from, currentFrame), frames)
    ensures Captured(FeedFrom(c, frames, q, from, currentFrame)) == Captured(c) + Samples(q, from, FrameCount(q))
    decreases FrameCount(q) - from
  {
    if from == FrameCount(q) {
      assert Captured(c) + [] == Captured(c);
    } else {
      var c' := Feed(c, frames, Left(q, from), Right(q, from), currentFrame + from);
      FeedConserves(c, frames, Left(q, from), Right(q, from), currentFrame + from);
      QuantumConserves(c', frames, q, from + 1, currentFrame);
      Regroup(Captured(c), [Clamp(Left(q, from)), Clamp(Right(q, from))], Samples(q, from + 1, FrameCount(q)));
    }
  }

  /** A render call: a quantum and the frame at which it starts. */
  datatype Render = Render(quantum: Quantum, currentFrame: int)

  predicate AllMatched(calls: seq<Render>) {
    calls == [] || (Matched(calls[0].quantum) && AllMatched(calls[1..]))
  }

  function Run(c: Capture, frames: nat, calls: seq<Render>): Capture
    requires AllMatched(calls)
    decreases |calls|
  {
    if calls == [] then c
    else Run(FeedFrom(c, frames, calls[0].quantum, 0, calls[0].currentFrame), frames, calls[1..])
  }

  function AllSamples(calls: seq<Render>): seq<real>
    requires AllMatched(calls)
  {
    if calls == [] then [] else Samples(calls[0].quantum, 0, FrameCount(calls[0].quantum)) + AllSamples(calls[1..])
  }

  /** The posted blocks and the partial one are exactly the clamped, interleaved input, for any
      sizes of quanta and blocks, and every block has the full size. */
  lemma {:induction false} NothingIsLost(c: Capture, frames: nat, calls: seq<Render>)
    requires InShape(c, frames) && AllMatched(calls)
    ensures InShape(Run(c, frames, calls), frames)
    ensures Captured(Run(c, frames, calls)) == Captured(c) + AllSamples(calls)
    decreases |calls|
  {
    if calls == [] {
      assert Captured(c) + [] == Captured(c);
    } else {
      var q, t := calls[0].quantum, calls[0].currentFrame;
      QuantumConserves(c, frames, q, 0, t);
      NothingIsLost(FeedFrom(c, frames, q, 0, t), frames, calls[1..]);
      Regroup(Captured(c), Samples(q, 0, FrameCount(q)), AllSamples(calls[1..]));
    }
  }

  // ----- what the samples are -----

  /** Cut off at -1 and 1. */
  predicate IsLimited(y: real, x: real) {
    -1.0 <= y <= 1.0 && (-1.0 <= x <= 1.0 ==> y == x) && (x > 1.0 ==> y == 1.0) && (x < -1.0 ==> y == -1.0)
  }

  function FramesIn(q: Quantum): nat {
    match q
    case Quantum(Some(left), _, _) => |left|
    case Quantum(None, _, Some(monitor)) => monitor
    case Quantum(None, _, None) => 128
  }

  /** Sample `n` of a quantum, left and right in turn: silence without an input, both from the
      left without a right channel. */
  function RawSample(q: Quantum, n: nat): real
    requires Matched(q) && n < 2 * FramesIn(q)
  {
    match q
    case Quantum(None, _, _) => 0.0
    case Quantum(Some(left), None, _) => left[n / 2]
    case Quantum(Some(left), Some(right), _) => if n % 2 == 0 then left[n / 2] else right[n / 2]
  }

  function InputLength(calls: seq<Render>): nat {
    if calls == [] then 0 else 2 * FramesIn(calls[0].quantum) + InputLength(calls[1..])
  }

  function InputAt(calls: seq<Render>, n: nat): real
    requires AllMatched(calls) && n < InputLength(calls)
  {
    var q := calls[0].quantum;
    if n < 2 * FramesIn(q) then RawSample(q, n) else InputAt(calls[1..], n - 2 * FramesIn(q))
  }

  lemma FramesInIs(q: Quantum)
    ensures FramesIn(q) == FrameCount(q)
  {
  }

  lemma {:induction false} SamplesAre(q: Quantum, from: nat, n: nat)
    requires Matched(q) && from <= FrameCount(q)
    ensures |Samples(q, from, FrameCount(q))| == 2 * (FrameCount(q) - from)
    ensures n < 2 * (FrameCount(q) - from) ==> IsLimited(Samples(q, from, FrameCount(q))[n], RawSample(q, 2 * from + n))
    decreases FrameCount(q) - from
  {
    FramesInIs(q);
    if from < FrameCount(q) {
      SamplesAre(q, from + 1, if n < 2 then 0 else n - 2);
    }
  }

  lemma {:induction false} AllSamplesAre(calls: seq<Render>, n: nat)
    requires AllMatched(calls)
    ensures |AllSamples(calls)| == InputLength(calls)
    ensures n < InputLength(calls) ==> IsLimited(AllSamples(calls)[n], InputAt(calls, n))
    decreases |calls|
  {
    if calls != [] {
      var q := calls[0].quantum;
      FramesInIs(q);
      SamplesAre(q, 0, n);
      AllSamplesAre(calls[1..], if n < 2 * FramesIn(q) then 0 else n - 2 * FramesIn(q));
    }
  }

  /** Sample by sample: after any run the posted blocks and the partial one hold, behind what was
      there, each input sample in its place, cut off at -1 and 1. */
  lemma CapturesInput(c: Capture, frames: nat, calls: seq<Render>, n: nat)
    requires InShape(c, frames) && AllMatched(calls) && n < InputLength(calls)
    ensures var before, after := Captured(c), Captured(Run(c, frames, calls));
      |after| == |before| + InputLength(calls) && before <= after && IsLimited(after[|before| + n], InputAt(calls, n))
  {
    NothingIsLost(c, frames, calls);
    AllSamplesAre(calls, n);
  }

  // ----- block timestamps -----

  /** Blocks from number `first` on follow each other from time `start`, and so does the
      partial one; the next frame is due at `now`. */
  predicate OnTime(c: Capture, frames: nat, first: nat, start: int, now: int) {
    && first <= |c.posted|
    && (forall b | first <= b < |c.posted| :: c.posted[b].timestamp == BlockTime(start, b - first, frames))
    && now == BlockTime(start, |c.posted| - first, frames) + |c.partial| / CHANNELS
    && (c.partial != [] ==> c.timestamp == BlockTime(start, |c.posted| - first, frames))
  }

  function BlockTime(start: int, n: nat, frames: nat): int {
    start + n * frames
  }

  lemma OneMore(n: int, frames: nat)
    ensures (n + 1) * frames == n * frames + frames
  {
  }

  lemma FeedOnTime(c: Capture, frames: nat, left: real, right: real, first: nat, start: int, now: int)
    requires InShape(c, frames) && OnTime(c, frames, first, start, now)
    ensures OnTime(Feed(c, frames, left, right, now), frames, first, start, now + 1)
  {
    OneMore(|c.posted| - first, frames);
  }

  lemma {:induction false} QuantumOnTime(c: Capture, frames: nat, q: Quantum, from: nat, currentFrame: int, first: nat, start: int)
    requires InShape(c, frames) && Matched(q) && from <= FrameCount(q)
    requires OnTime(c, frames, first, start, currentFrame + from)
    ensures OnTime(FeedFrom(c, frames, q, from, currentFrame), frames, first, start, currentFrame + FrameCount(q))
    decreases FrameCount(q) - from
  {
    if from < FrameCount(q) {
      var c' := Feed(c, frames, Left(q, from), Right(q, from), currentFrame + from);
      FeedConserves(c, frames, Left(q, from), Right(q, from), currentFrame + from);
      FeedOnTime(c, frames, Left(q, from), Right(q, from), first, start, currentFrame + from);
      QuantumOnTime(c', frames, q, from + 1, currentFrame, first, start);
    }
  }

  /** Each call starts where the one before it ended. */
  predicate Contiguous(now: int, calls: seq<Render>)
    decreases |calls|
  {
    calls == [] || (calls[0].currentFrame == now && Contiguous(now + FrameCount(calls[0].quantum), calls[1..]))
  }

  function EndTime(now: int, calls: seq<Render>): int
    decreases |calls|
  {
    if calls == [] then now else EndTime(now + FrameCount(calls[0].quantum), calls[1..])
  }

  /** Over contiguous quanta each block's timestamp is one block after that of the one before. */
  lemma {:induction false} BlocksOnTime(c: Capture, frames: nat, calls: seq<Render>, first: nat, start: int, now: int)
    requires InShape(c, frames) && AllMatched(calls) && Contiguous(now, calls) && OnTime(c, frames, first, start, now)
    ensures OnTime(Run(c, frames, calls), frames, first, start, EndTime(now, calls))
    decreases |calls|
  {
    if calls != [] {
      var q := calls[0].quantum;
      var c' := FeedFrom(c, frames, q, 0, now);
      QuantumConserves(c, frames, q, 0, now);
      QuantumOnTime(c, frames, q, 0, now, first, start);
      BlocksOnTime(c', frames, calls[1..], first, start, now + FrameCount(q));
      assert Run(c, frames, calls) == Run(c', frames, calls[1..]);
    }
  }

  /** The time of every frame of a run, in order. */
  function Times(calls: seq<Render>): seq<int> {
    if calls == [] then [] else TimesFrom(calls[0], 0) + Times(calls[1..])
  }

  function TimesFrom(call: Render, from: nat): seq<int>
    requires from <= FrameCount(call.quantum)
    decreases FrameCount(call.quantum) - from
  {
    if from == FrameCount(call.quantum) then [] else [call.currentFrame + from] + TimesFrom(call, from + 1)
  }

  /** Frame `n * frames` of those from block `first` on begins block `first + n`. */
  predicate Stamped(c: Capture, frames: nat, first: nat, times: seq<int>) {
    && first <= |c.posted|
    && |times| == BlockTime(0, |c.posted| - first, frames) + |c.partial| / CHANNELS
    && (forall b | first <= b < |c.posted| :: StampedAt(times, BlockTime(0, b - first, frames), c.posted[b].timestamp))
    && (c.partial != [] ==> StampedAt(times, BlockTime(0, |c.posted| - first, frames), c.timestamp))
  }

  predicate StampedAt(times: seq<int>, n: int, timestamp: int) {
    0 <= n < |times| && times[n] == timestamp
  }

  lemma FeedStamped(c: Capture, frames: nat, left: real, right: real, time: int, first: nat, times: seq<int>)
    requires InShape(c, frames) && Stamped(c, frames, first, times)
    ensures Stamped(Feed(c, frames, left, right, time), frames, first, times + [time])
  {
    var c', times' := Feed(c, frames, left, right, time), times + [time];
    OneMore(|c.posted| - first, frames);
    forall b | first <= b < |c'.posted| ensures StampedAt(times', BlockTime(0, b - first, frames), c'.posted[b].timestamp) {
      if b < |c.posted| {
        assert StampedAt(times, BlockTime(0, b - first, frames), c.posted[b].timestamp);
      }
    }
  }

  lemma FrameStamped(c: Capture, frames: nat, call: Render, from: nat, first: nat, times: seq<int>) returns (c': Capture)
    requires InShape(c, frames) && Matched(call.quantum) && from < FrameCount(call.quantum) && Stamped(c, frames, first, times)
    ensures c' == Feed(c, frames, Left(call.quantum, from), Right(call.quantum, from), call.currentFrame + from)
    ensures InShape(c', frames) && Stamped(c', frames, first, times + [call.currentFrame + from])
  {
    var left, right, time := Left(call.quantum, from), Right(call.quantum, from), call.currentFrame + from;
    c' := Feed(c, frames, left, right, time);
    FeedConserves(c, frames, left, right, time);
    FeedStamped(c, frames, left, right, time, first, times);
  }

  lemma {:induction false} QuantumStamped(c: Capture, frames: nat, call: Render, from: nat, first: nat, times: seq<int>)
    requires InShape(c, frames) && Matched(call.quantum) && from <= FrameCount(call.quantum) && Stamped(c, frames, first, times)
    ensures Stamped(FeedFrom(c, frames, call.quantum, from, call.currentFrame), frames, first, times + TimesFrom(call, from))
    decreases FrameCount(call.quantum) - from
  {
    var q, time := call.quantum, call.currentFrame + from;
    if from == FrameCount(q) {
      assert times + [] == times;
    } else {
      var c' := FrameStamped(c, frames, call, from, first, times);
      QuantumStamped(c', frames, call, from + 1, first, times + [time]);
      Regroup(times, [time], TimesFrom(call, from + 1));
    }
  }

  lemma {:induction false} StampedOn(c: Capture, frames: nat, calls: seq<Render>, first: nat, times: seq<int>)
    requires InShape(c, frames) && AllMatched(calls) && Stamped(c, frames, first, times)
    ensures Stamped(Run(c, frames, calls), frames, first, times + Times(calls))
    decreases |calls|
  {
    if calls == [] {
      assert times + [] == times;
    } else {
      var q, t := calls[0].quantum, calls[0].currentFrame;
      QuantumConserves(c, frames, q, 0, t);
      QuantumStamped(c, frames, calls[0], 0, first, times);
      StampedOn(FeedFrom(c, frames, q, 0, t), frames, calls[1..], first, times + TimesFrom(calls[0], 0));
      Regroup(times, TimesFrom(calls[0], 0), Times(calls[1..]));
    }
  }

  /** Whatever quanta come, contiguous or not: each block posted from an empty one on carries the
      time of its own first frame. */
  lemma BlocksStamped(c: Capture, frames: nat, calls: seq<Render>, b: nat)
    requires InShape(c, frames) && c.partial == [] && AllMatched(calls) && |c.posted| <= b < |Run(c, frames, calls).posted|
    ensures StampedAt(Times(calls), (b - |c.posted|) * frames, Run(c, frames, calls).posted[b].timestamp)
  {
    StampedOn(c, frames, calls, |c.posted|, []);
    assert [] + Times(calls) == Times(calls);
  }
}
