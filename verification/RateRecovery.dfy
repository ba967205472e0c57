/** What VideoRateControl's allowance comes to over whole runs: which frames overflow it, when a
    block is over, and how the quantizer recovers. */
module RateRecovery {
  import opened Arithmetic
  import opened RateControl
  import TokenBuckets

  type Request = TokenBuckets.Request

  // ----- the allowance is a token bucket of bits -----

  /** Bits and bits per second. */
  function LimitOf(r: Rate): TokenBuckets.Limit {
    TokenBuckets.Limit(r.budget, r.capacity)
  }

  /** The allowance as a bucket whose clock runs in seconds. */
  function BucketOf(r: Rate): TokenBuckets.Bucket {
    TokenBuckets.Bucket(r.available, r.updatedAt / 1000.0, true)
  }

  lemma SecondsOf(elapsedMs: real, from: real, to: real, budget: real)
    requires elapsedMs == to - from
    ensures MaxReal(0.0, elapsedMs) / 1000.0 * budget == MaxReal(0.0, to / 1000.0 - from / 1000.0) * budget
  {
    assert to / 1000.0 - from / 1000.0 == elapsedMs / 1000.0;
    assert MaxReal(0.0, elapsedMs) / 1000.0 == MaxReal(0.0, elapsedMs / 1000.0);
  }

  lemma OverflowIsRefusal(r: Rate, bytes: nat, now: real)
    ensures Overflows(r, bytes, now) <==> !TokenBuckets.Admits(LimitOf(r), BucketOf(r), now / 1000.0, bytes * 8)
    ensures !Overflows(r, bytes, now) ==>
      Balance(r.capacity, r.budget, r.available, now - r.updatedAt, bytes)
      == TokenBuckets.Step(LimitOf(r), BucketOf(r), now / 1000.0, bytes * 8).available
  {
    SecondsOf(now - r.updatedAt, r.updatedAt, now, r.budget);
  }

  /** The frames that a run records: when, and how many bits. */
  function Recorded(events: seq<Event>): seq<Request> {
    if events == [] then []
    else
      (if events[0].DoRecord? then [TokenBuckets.Request(events[0].now / 1000.0, events[0].bytes * 8)] else [])
      + Recorded(events[1..])
  }

  predicate NoReset(events: seq<Event>) {
    events == [] || (!events[0].DoReset? && NoReset(events[1..]))
  }

  /** No frame of the run overflows the allowance. */
  predicate NoOverflow(r: Rate, events: seq<Event>)
    requires Shaped(r)
    decreases |events|
  {
    events == [] ||
    (&& Proper(events[0]) && (events[0].DoRecord? ==> !Overflows(r, events[0].bytes, events[0].now))
     && NoOverflow(Next(r, events[0]), events[1..]))
  }

  lemma StepKeepsLimit(r: Rate, e: Event)
    requires Shaped(r) && Proper(e) && !e.DoReset?
    ensures Shaped(Next(r, e)) && LimitOf(Next(r, e)) == LimitOf(r)
    ensures !e.DoRecord? ==> BucketOf(Next(r, e)) == BucketOf(r)
    ensures e.DoRecord? && !Overflows(r, e.bytes, e.now) ==>
      BucketOf(Next(r, e)) == TokenBuckets.Step(LimitOf(r), BucketOf(r), e.now / 1000.0, e.bytes * 8)
  {
    if e.DoRecord? {
      OverflowIsRefusal(r, e.bytes, e.now);
    }
  }

  predicate AllProper(events: seq<Event>) {
    events == [] || (Proper(events[0]) && AllProper(events[1..]))
  }

  lemma {:induction false} RunIsPassage(r: Rate, events: seq<Event>)
    requires Shaped(r) && AllProper(events) && NoReset(events)
    ensures NoOverflow(r, events) <==> TokenBuckets.AllPass(LimitOf(r), BucketOf(r), Recorded(events))
    decreases |events|
  {
    if events != [] {
      var e, rest := events[0], Recorded(events[1..]);
      StepKeepsLimit(r, e);
      RunIsPassage(Next(r, e), events[1..]);
      if e.DoRecord? {
        OverflowIsRefusal(r, e.bytes, e.now);
        TokenBuckets.PassCons(LimitOf(r), BucketOf(r), TokenBuckets.Request(e.now / 1000.0, e.bytes * 8), rest);
      } else {
        assert [] + rest == rest;
      }
    }
  }

  lemma FullPasses(l: TokenBuckets.Limit, full: TokenBuckets.Bucket, reqs: seq<Request>)
    requires TokenBuckets.ValidLimit(l) && full.initialized && full.available == l.capacity
    requires TokenBuckets.OrderedFrom(full.updatedAt, reqs)
    ensures TokenBuckets.AllPass(l, full, reqs) == TokenBuckets.AllPass(l, TokenBuckets.FRESH, reqs)
  {
    if reqs != [] {
      assert MaxReal(0.0, reqs[0].at - full.updatedAt) * l.rate >= 0.0;
      assert TokenBuckets.Refilled(l, full, reqs[0].at) == l.capacity;
    }
  }

  lemma {:induction false} RecordedInOrder(from: real, events: seq<Event>)
    requires Timely(from, events)
    ensures TokenBuckets.OrderedFrom(from / 1000.0, Recorded(events)) && AllProper(events)
    decreases |events|
  {
    if events != [] {
      var e, rest := events[0], Recorded(events[1..]);
      RecordedInOrder(e.now, events[1..]);
      if e.DoRecord? {
        assert ([TokenBuckets.Request(e.now / 1000.0, e.bytes * 8)] + rest)[1..] == rest;
      } else {
        assert [] + rest == rest;
        TokenBuckets.OrderedEarlier(from / 1000.0, e.now / 1000.0, rest);
      }
    }
  }

  /** The bits a second and the burst that a bit rate allows. */
  function AllowanceFor(bitrate: nat, frameRate: nat): TokenBuckets.Limit
    requires frameRate > 0
  {
    var budget := (bitrate as real * 0.85).Floor as real;
    TokenBuckets.Limit(budget, MaxReal(budget / 2.0, budget / frameRate as real))
  }

  /** In every window of frames the bits stay within the burst and what the budget adds. */
  ghost predicate AllWindowsFit(l: TokenBuckets.Limit, reqs: seq<Request>) {
    forall i: nat, j: nat | i <= j < |reqs| :: TokenBuckets.WindowFits(l, reqs, i, j)
  }

  lemma PassageMeans(l: TokenBuckets.Limit, full: TokenBuckets.Bucket, reqs: seq<Request>)
    requires TokenBuckets.ValidLimit(l) && full.initialized && full.available == l.capacity
    requires TokenBuckets.OrderedFrom(full.updatedAt, reqs)
    ensures TokenBuckets.AllPass(l, full, reqs) <==> AllWindowsFit(l, reqs)
  {
    FullPasses(l, full, reqs);
    TokenBuckets.OrderedFromMeans(full.updatedAt, reqs);
    TokenBuckets.AllPassIsAdmitted(l, reqs, 0);
    assert reqs[0..] == reqs;
    TokenBuckets.AllAdmittedIff(l, reqs);
  }

  lemma ResetFills(r: Rate, bitrate: nat, frameRate: nat, now: real, keepBlock: bool)
    requires Shaped(r) && frameRate > 0
    ensures var r' := Reset(r, bitrate, frameRate, now, keepBlock);
      && Shaped(r') && LimitOf(r') == AllowanceFor(bitrate, frameRate) && TokenBuckets.ValidLimit(LimitOf(r'))
      && BucketOf(r') == TokenBuckets.Bucket(LimitOf(r').capacity, now / 1000.0, true)
  {
    BudgetIsValid(bitrate, frameRate);
  }

  /** After a reset no frame overflows the allowance if and only if every window of frames fits. */
  lemma OverflowsIffWindow(r: Rate, bitrate: nat, frameRate: nat, now: real, keepBlock: bool, events: seq<Event>)
    requires Shaped(r) && frameRate > 0 && Timely(now, events) && NoReset(events)
    ensures NoOverflow(Reset(r, bitrate, frameRate, now, keepBlock), events)
      <==> AllWindowsFit(AllowanceFor(bitrate, frameRate), Recorded(events))
  {
    var r' := Reset(r, bitrate, frameRate, now, keepBlock);
    ResetFills(r, bitrate, frameRate, now, keepBlock);
    RecordedInOrder(now, events);
    RunIsPassage(r', events);
    PassageMeans(LimitOf(r'), BucketOf(r'), Recorded(events));
  }

  // ----- after an overflow -----

  /** The first `j` requests and this one fit what there was and what has flown in since. */
  predicate PrefixFits(l: TokenBuckets.Limit, available: real, since: real, reqs: seq<Request>, j: nat)
    requires j < |reqs|
  {
    TokenBuckets.Asked(reqs, 0, j) + reqs[j].units as real <= available + l.rate * (reqs[j].at - since)
  }

  ghost predicate AllPrefixesFit(l: TokenBuckets.Limit, available: real, since: real, reqs: seq<Request>) {
    forall j: nat | j < |reqs| :: PrefixFits(l, available, since, reqs, j)
  }

  lemma {:induction false} AskedTail(reqs: seq<Request>, i: nat, j: nat)
    requires reqs != [] && i <= j < |reqs|
    ensures TokenBuckets.Asked(reqs, i + 1, j + 1) == TokenBuckets.Asked(reqs[1..], i, j)
    decreases j
  {
    if i < j {
      AskedTail(reqs, i, j - 1);
    }
  }

  lemma {:induction false} AskedHead(reqs: seq<Request>, j: nat)
    requires 0 < j <= |reqs|
    ensures TokenBuckets.Asked(reqs, 0, j) == reqs[0].units as real + TokenBuckets.Asked(reqs, 1, j)
    decreases j
  {
    if j > 1 {
      AskedHead(reqs, j - 1);
    }
  }

  lemma WindowsTail(l: TokenBuckets.Limit, reqs: seq<Request>)
    requires reqs != []
    ensures AllWindowsFit(l, reqs) <==>
      AllWindowsFit(l, reqs[1..]) && forall j: nat | j < |reqs| :: TokenBuckets.WindowFits(l, reqs, 0, j)
  {
    forall i: nat, j: nat | i <= j < |reqs[1..]|
      ensures TokenBuckets.WindowFits(l, reqs[1..], i, j) == TokenBuckets.WindowFits(l, reqs, i + 1, j + 1)
    {
      AskedTail(reqs, i, j);
    }
    if AllWindowsFit(l, reqs[1..]) && forall j: nat | j < |reqs| :: TokenBuckets.WindowFits(l, reqs, 0, j) {
      forall i: nat, j: nat | i <= j < |reqs| ensures TokenBuckets.WindowFits(l, reqs, i, j) {
        if i > 0 {
          assert TokenBuckets.WindowFits(l, reqs[1..], i - 1, j - 1);
        }
      }
    }
  }

  /** A later request, seen from the first one and from before it: what is asked for by the first
      and after it, and what flows in before the first and after it. */
  lemma Seen(l: TokenBuckets.Limit, since: real, reqs: seq<Request>, j: nat) returns (first: real, later: real, before: real, after: real)
    requires 0 < j < |reqs|
    ensures first == reqs[0].units as real && before == l.rate * (reqs[0].at - since)
    ensures TokenBuckets.Asked(reqs, 0, j) + reqs[j].units as real == first + later
    ensures TokenBuckets.Asked(reqs[1..], 0, j - 1) + reqs[1..][j - 1].units as real == later
    ensures l.rate * (reqs[j].at - since) == before + after && l.rate * (reqs[j].at - reqs[0].at) == after
  {
    AskedHead(reqs, j);
    AskedTail(reqs, 0, j - 1);
    first := reqs[0].units as real;
    later := TokenBuckets.Asked(reqs, 1, j) + reqs[j].units as real;
    before := l.rate * (reqs[0].at - since);
    after := l.rate * (reqs[j].at - reqs[0].at);
    TokenBuckets.Split(l.rate, reqs[j].at, reqs[0].at, since);
  }

  lemma LaterFits(l: TokenBuckets.Limit, available: real, since: real, reqs: seq<Request>, j: nat, tokens: real)
    requires 0 < j < |reqs| && tokens == MinReal(available + l.rate * (reqs[0].at - since), l.capacity)
    ensures PrefixFits(l, tokens - reqs[0].units as real, reqs[0].at, reqs[1..], j - 1)
      <==> PrefixFits(l, available, since, reqs, j) && TokenBuckets.WindowFits(l, reqs, 0, j)
  {
    var first, later, before, after := Seen(l, since, reqs, j);
    assert PrefixFits(l, tokens - first, reqs[0].at, reqs[1..], j - 1) <==> later <= tokens - first + after;
    assert PrefixFits(l, available, since, reqs, j) <==> first + later <= available + (before + after);
    assert TokenBuckets.WindowFits(l, reqs, 0, j) <==> first + later <= l.capacity + after;
    Lesser(later, first, available + before, l.capacity, after, tokens);
  }

  lemma Lesser(later: real, first: real, a: real, b: real, inflow: real, least: real)
    requires least == MinReal(a, b)
    ensures later <= least - first + inflow <==> first + later <= a + inflow && first + later <= b + inflow
  {
  }

  lemma Alone(l: TokenBuckets.Limit, available: real, since: real, reqs: seq<Request>, inflow: real)
    requires reqs != [] && inflow == l.rate * (reqs[0].at - since)
    ensures PrefixFits(l, available, since, reqs, 0) <==> reqs[0].units as real <= available + inflow
    ensures TokenBuckets.WindowFits(l, reqs, 0, 0) <==> reqs[0].units as real <= l.capacity
  {
    assert TokenBuckets.Asked(reqs, 0, 0) == 0.0;
    NoInflow(l.rate, reqs[0].at);
  }

  lemma FirstFits(l: TokenBuckets.Limit, b: TokenBuckets.Bucket, reqs: seq<Request>) returns (tokens: real)
    requires b.initialized && reqs != [] && b.updatedAt <= reqs[0].at
    ensures tokens == MinReal(b.available + l.rate * (reqs[0].at - b.updatedAt), l.capacity)
    ensures TokenBuckets.Admits(l, b, reqs[0].at, reqs[0].units) <==>
      PrefixFits(l, b.available, b.updatedAt, reqs, 0) && TokenBuckets.WindowFits(l, reqs, 0, 0)
    ensures TokenBuckets.Admits(l, b, reqs[0].at, reqs[0].units) ==>
      TokenBuckets.Step(l, b, reqs[0].at, reqs[0].units) == TokenBuckets.Bucket(tokens - reqs[0].units as real, reqs[0].at, true)
  {
    var inflow := TokenBuckets.Inflow(l, b.updatedAt, reqs[0].at);
    tokens := MinReal(b.available + inflow, l.capacity);
    assert TokenBuckets.Refilled(l, b, reqs[0].at) == tokens;
    Alone(l, b.available, b.updatedAt, reqs, inflow);
  }

  lemma NoInflow(rate: real, at: real)
    ensures rate * (at - at) == 0.0
  {
  }

  lemma PrefixesTail(l: TokenBuckets.Limit, b: TokenBuckets.Bucket, reqs: seq<Request>, rest: seq<Request>, tokens: real, left: real)
    requires reqs != [] && tokens == MinReal(b.available + l.rate * (reqs[0].at - b.updatedAt), l.capacity)
    requires rest == reqs[1..] && left == tokens - reqs[0].units as real
    requires PrefixFits(l, b.available, b.updatedAt, reqs, 0) && TokenBuckets.WindowFits(l, reqs, 0, 0)
    ensures AllPrefixesFit(l, left, reqs[0].at, rest) <==>
      AllPrefixesFit(l, b.available, b.updatedAt, reqs) && forall j: nat | j < |reqs| :: TokenBuckets.WindowFits(l, reqs, 0, j)
  {
    forall k: nat | k < |rest|
      ensures PrefixFits(l, left, reqs[0].at, rest, k)
        <==> PrefixFits(l, b.available, b.updatedAt, reqs, k + 1) && TokenBuckets.WindowFits(l, reqs, 0, k + 1)
    {
      LaterFits(l, b.available, b.updatedAt, reqs, k + 1, tokens);
    }
    if AllPrefixesFit(l, left, reqs[0].at, rest) {
      forall j: nat | j < |reqs|
        ensures PrefixFits(l, b.available, b.updatedAt, reqs, j) && TokenBuckets.WindowFits(l, reqs, 0, j)
      {
        if j > 0 {
          assert PrefixFits(l, left, reqs[0].at, rest, j - 1);
        }
      }
    }
  }

  /** From any bucket: all requests pass if and only if every window fits, and so does everything
      asked for since then. */
  lemma {:induction false} PassIffFits(l: TokenBuckets.Limit, b: TokenBuckets.Bucket, reqs: seq<Request>)
    requires b.initialized && TokenBuckets.OrderedFrom(b.updatedAt, reqs)
    ensures TokenBuckets.AllPass(l, b, reqs) <==> AllWindowsFit(l, reqs) && AllPrefixesFit(l, b.available, b.updatedAt, reqs)
    decreases |reqs|
  {
    if reqs != [] {
      var tokens := FirstFits(l, b, reqs);
      WindowsTail(l, reqs);
      if TokenBuckets.Admits(l, b, reqs[0].at, reqs[0].units) {
        PassIffFits(l, TokenBuckets.Step(l, b, reqs[0].at, reqs[0].units), reqs[1..]);
        PrefixesTail(l, b, reqs, reqs[1..], tokens, tokens - reqs[0].units as real);
      }
    }
  }

  /** After an overflow, which leaves nothing, no frame overflows if and only if every window of
      frames fits, and all frames since fit what the budget has added since. */
  lemma OverflowsAgainIff(r: Rate, bytes: nat, timestamp: int, now: real, events: seq<Event>)
    requires Shaped(r) && Overflows(r, bytes, now) && Timely(now, events) && NoReset(events)
    ensures NoOverflow(RateControl.Recorded(r, bytes, now, timestamp), events) <==>
      && AllWindowsFit(LimitOf(r), Recorded(events))
      && AllPrefixesFit(LimitOf(r), 0.0, now / 1000.0, Recorded(events))
  {
    var r' := RateControl.Recorded(r, bytes, now, timestamp);
    RecordedInOrder(now, events);
    RunIsPassage(r', events);
    PassIffFits(LimitOf(r), BucketOf(r'), Recorded(events));
  }

  lemma BudgetIsValid(bitrate: nat, frameRate: nat)
    requires frameRate > 0
    ensures Budget(bitrate) >= 0.0 && Capacity(Budget(bitrate), frameRate) >= 0.0
  {
  }

  // ----- the end of a block -----

  /** No block lasts beyond `until`. */
  predicate BlockedTo(r: Rate, until: real) {
    Shaped(r) && r.blockedUntil <= until
  }

  lemma {:induction false} NoLongerBlock(r: Rate, events: seq<Event>, until: real)
    requires BlockedTo(r, until) && until >= 0.0 && NoOverflow(r, events)
    ensures BlockedTo(AfterRun(r, events), until)
    decreases |events|
  {
    if events != [] {
      NoLongerBlock(Next(r, events[0]), events[1..], until);
    }
  }

  function AfterRun(r: Rate, events: seq<Event>): (end: Rate)
    requires Shaped(r) && NoOverflow(r, events)
    ensures Shaped(end)
    decreases |events|
  {
    if events == [] then r else AfterRun(Next(r, events[0]), events[1..])
  }

  /** 15 seconds after the last overflow the block is over: nothing is ruled out any more. */
  lemma BlockEnds(r: Rate, bytes: nat, timestamp: int, now: real, events: seq<Event>, last: Event)
    requires Shaped(r) && now >= 0.0 && Overflows(r, bytes, now)
    requires NoOverflow(RateControl.Recorded(r, bytes, now, timestamp), events)
    requires (last.DoStats? || last.DoUpdate?) && Proper(last) && last.now >= now + 15_000.0
    ensures var r' := AfterRun(RateControl.Recorded(r, bytes, now, timestamp), events);
      Next(r', last).minQuantizer == 0
  {
    NoLongerBlock(RateControl.Recorded(r, bytes, now, timestamp), events, now + 15_000.0);
  }

  // ----- recovery -----

  /** The smoothed rate is the average of itself over two seconds and the measured rate over the
      time elapsed. */
  lemma SmoothedIsAverage(smoothed: real, actual: real, elapsed: real)
    requires elapsed >= 0.0
    ensures Smoothed(smoothed, actual, elapsed) * (2.0 + elapsed) == 2.0 * smoothed + elapsed * actual
  {
    var whole := 2.0 + elapsed;
    var step := (actual - smoothed) * elapsed / whole;
    Quotient((actual - smoothed) * elapsed, whole);
    assert Smoothed(smoothed, actual, elapsed) == smoothed + step;
    Average(smoothed, actual, elapsed, step);
  }

  lemma Quotient(x: real, d: real)
    requires d > 0.0
    ensures x / d * d == x
  {
  }

  lemma Average(smoothed: real, actual: real, elapsed: real, step: real)
    requires step * (2.0 + elapsed) == (actual - smoothed) * elapsed
    ensures (smoothed + step) * (2.0 + elapsed) == 2.0 * smoothed + elapsed * actual
  {
    assert (smoothed + step) * (2.0 + elapsed) == smoothed * (2.0 + elapsed) + step * (2.0 + elapsed);
  }

  /** Hence it moves towards the measured rate and not past it. */
  lemma SmoothedBetween(smoothed: real, actual: real, elapsed: real)
    requires elapsed >= 0.0
    ensures MinReal(smoothed, actual) <= Smoothed(smoothed, actual, elapsed) <= MaxReal(smoothed, actual)
    ensures elapsed > 0.0 && smoothed != actual ==> Smoothed(smoothed, actual, elapsed) != smoothed
  {
    var gap, whole := actual - smoothed, 2.0 + elapsed;
    var step := gap * elapsed / whole;
    assert step * whole == gap * elapsed;
    if gap >= 0.0 {
      Between(gap, elapsed, step, whole);
    } else {
      Between(-gap, elapsed, -step, whole);
    }
  }

  lemma Between(gap: real, elapsed: real, step: real, whole: real)
    requires gap >= 0.0 && elapsed >= 0.0 && whole == 2.0 + elapsed && step * whole == gap * elapsed
    ensures 0.0 <= step <= gap && (gap > 0.0 && elapsed > 0.0 ==> step > 0.0)
  {
    assert gap * elapsed >= 0.0;
    assert step < 0.0 ==> step * whole < 0.0;
    assert (gap - step) * whole == gap * 2.0;
    assert gap - step < 0.0 ==> (gap - step) * whole < 0.0;
    assert gap > 0.0 && elapsed > 0.0 ==> gap * elapsed > 0.0;
  }

  /** An update that finds the rate low, a second or more after the last one. */
  predicate Calm(r: Rate, e: Event, from: real) {
    e.DoUpdate? && e.elapsed >= 0.0 && e.canImprove && e.actualBitrate < r.budget * 0.75 && e.now >= from + 1000.0
  }

  predicate AllCalm(r: Rate, events: seq<Event>, from: real)
    requires Shaped(r)
    decreases |events|
  {
    events == [] || (Calm(r, events[0], from) && AllCalm(Next(r, events[0]), events[1..], events[0].now))
  }

  /** Nothing is blocked, the rate has been low, and the last change is past. */
  predicate Relaxed(r: Rate, from: real) {
    Inv(r) && 0.0 <= from && r.blockedUntil <= from && r.smoothedBitrate < r.budget * 0.75 && r.adjustedAt <= from
  }

  /** The quantizer after `n` steps of two, not below 18. */
  function Lowered(q: int, n: nat): int {
    if n == 0 || q < 20 then q else Lowered(q - 2, n - 1)
  }

  lemma CalmStep(r: Rate, e: Event, from: real)
    requires Relaxed(r, from) && Calm(r, e, from)
    ensures Relaxed(Next(r, e), e.now) && Next(r, e).quantizer == if r.quantizer < 20 then r.quantizer else r.quantizer - 2
  {
    SmoothedBetween(r.smoothedBitrate, e.actualBitrate, e.elapsed);
    NextInRange(r, e);
  }

  /** Under a low rate the quantizer recovers by two a second, down to 18 or 19. */
  lemma {:induction false} Recovers(r: Rate, events: seq<Event>, from: real)
    requires Relaxed(r, from) && AllCalm(r, events, from)
    ensures CalmRun(r, events, from).quantizer == Lowered(r.quantizer, |events|)
    decreases |events|
  {
    if events != [] {
      CalmStep(r, events[0], from);
      Recovers(Next(r, events[0]), events[1..], events[0].now);
    }
  }

  function CalmRun(r: Rate, events: seq<Event>, from: real): Rate
    requires Shaped(r) && AllCalm(r, events, from)
    decreases |events|
  {
    if events == [] then r else CalmRun(Next(r, events[0]), events[1..], events[0].now)
  }

  /** Lowered comes to 18 or 19, as the quantizer is even or odd, once there have been enough steps. */
  lemma {:induction false} LoweredMeans(q: int, n: nat)
    requires q >= 18
    ensures Lowered(q, n) == if q - 2 * n >= 18 then q - 2 * n else 18 + q % 2
    decreases n
  {
    if n > 0 && q >= 20 {
      LoweredMeans(q - 2, n - 1);
    }
  }

  // ----- the quantizer, from the history alone -----

  /** A frame that overflowed the allowance: when it was recorded, and its quantizer. */
  datatype Overflow = Overflow(at: real, quantizer: int)

  /** The least quantizer allowed: above those of the last overflows, each of which came less than
      15 seconds after the one before it and the last less than 15 seconds ago. */
  function BlockAt(past: seq<Overflow>, now: real): int
    decreases |past|
  {
    if past == [] then 0
    else
      var last := past[|past| - 1];
      if now >= last.at + 15_000.0 then 0
      else Max(Min(51, last.quantizer + 1), BlockAt(past[..|past| - 1], last.at))
  }

  function Remembered(past: seq<Overflow>, r: Rate, e: Event): seq<Overflow>
    requires Shaped(r)
  {
    match e
    case DoReset(_, _, keepBlock, _) => if keepBlock then past else []
    case DoRecord(bytes, timestamp, now) =>
      if Overflows(r, bytes, now) then past + [Overflow(now, FrameQuantizer(r, timestamp))] else past
    case _ => past
  }

  /** The last reset or change of the quantizer. */
  function LastChange(changedAt: real, r: Rate, e: Event): real
    requires Shaped(r) && Proper(e)
  {
    if e.DoReset? || Next(r, e).quantizer != r.quantizer then e.now else changedAt
  }

  /** What an event must make of the quantizer. */
  predicate Demanded(past: seq<Overflow>, changedAt: real, r: Rate, e: Event, r': Rate)
    requires Shaped(r)
  {
    match e
    case DoReset(bitrate, _, _, now) =>
      && r'.quantizer == Max(24, BlockAt(Remembered(past, r, e), now)) && r'.adjustments == 0
      && r'.smoothedBitrate == (bitrate as real * 0.85).Floor as real
    case DoRecord(bytes, _, now) =>
      r'.quantizer == if Overflows(r, bytes, now) then Max(r.quantizer, BlockAt(Remembered(past, r, e), now)) else r.quantizer
    case DoUpdate(actual, _, canImprove, now) =>
      var low := actual < 0.75 * r.budget && r'.smoothedBitrate < 0.75 * r.budget;
      r'.quantizer == if canImprove && low && now >= changedAt + 1000.0 && r.quantizer - 2 >= Max(18, BlockAt(past, now))
                      then r.quantizer - 2 else r.quantizer
    case _ => r'.quantizer == r.quantizer
  }

  predicate CountsChanges(r: Rate, e: Event, r': Rate) {
    !e.DoReset? ==> r'.adjustments == r.adjustments + if r'.quantizer == r.quantizer then 0 else 1
  }

  /** At each event of a run. */
  predicate AllDemanded(past: seq<Overflow>, changedAt: real, r: Rate, events: seq<Event>)
    requires Shaped(r)
    decreases |events|
  {
    events == [] ||
    (var e := events[0];
     && Proper(e) && Demanded(past, changedAt, r, e, Next(r, e)) && CountsChanges(r, e, Next(r, e))
     && AllDemanded(Remembered(past, r, e), LastChange(changedAt, r, e), Next(r, e), events[1..]))
  }

  /** The block in force comes from the last overflow, or there is none. */
  predicate BlockAgrees(past: seq<Overflow>, r: Rate, from: real) {
    && (past != [] ==> past[|past| - 1].at >= 0.0)
    && if past != [] && r.blockedUntil == past[|past| - 1].at + 15_000.0 then
         var last := past[|past| - 1];
         r.minQuantizer == Max(Min(51, last.quantizer + 1), BlockAt(past[..|past| - 1], last.at))
       else
         && r.minQuantizer == 0 && r.blockedUntil <= from
         && (past != [] ==> past[|past| - 1].at + 15_000.0 <= from)
  }

  predicate Agrees(past: seq<Overflow>, changedAt: real, r: Rate, from: real) {
    Inv(r) && from >= 0.0 && BlockAgrees(past, r, from) && r.adjustedAt == changedAt
  }

  lemma BlockIs(past: seq<Overflow>, r: Rate, from: real, now: real)
    requires BlockAgrees(past, r, from) && 0.0 <= from <= now
    ensures Unblocked(r, now).minQuantizer == BlockAt(past, now) && BlockAgrees(past, Unblocked(r, now), now)
  {
  }

  lemma OverflowStep(past: seq<Overflow>, r: Rate, from: real, bytes: nat, timestamp: int, now: real)
    requires Inv(r) && 0.0 <= from <= now && BlockAgrees(past, r, from) && timestamp >= 0 && Overflows(r, bytes, now)
    ensures var past', r' := past + [Overflow(now, FrameQuantizer(r, timestamp))], RateControl.Recorded(r, bytes, now, timestamp);
      && r'.quantizer == Max(r.quantizer, BlockAt(past', now)) && BlockAgrees(past', r', now)
      && r'.adjustments == r.adjustments + (if r'.quantizer == r.quantizer then 0 else 1)
      && r'.adjustedAt == if r'.quantizer == r.quantizer then r.adjustedAt else now
  {
    var past' := past + [Overflow(now, FrameQuantizer(r, timestamp))];
    assert past'[..|past|] == past;
    FrameQuantizerInRange(r, timestamp);
    BlockIs(past, r, from, now);
  }

  lemma UpdateStep(past: seq<Overflow>, changedAt: real, r: Rate, from: real, e: Event)
    requires Agrees(past, changedAt, r, from) && from <= e.now && Proper(e) && e.DoUpdate?
    ensures Demanded(past, changedAt, r, e, Next(r, e)) && CountsChanges(r, e, Next(r, e))
    ensures BlockAgrees(past, Next(r, e), e.now) && Next(r, e).adjustedAt == LastChange(changedAt, r, e)
  {
    BlockIs(past, r, from, e.now);
  }

  lemma ResetStep(past: seq<Overflow>, changedAt: real, r: Rate, from: real, e: Event)
    requires Agrees(past, changedAt, r, from) && from <= e.now && Proper(e) && e.DoReset?
    ensures Demanded(past, changedAt, r, e, Next(r, e)) && BlockAgrees(Remembered(past, r, e), Next(r, e), e.now)
    ensures Next(r, e).adjustedAt == e.now
  {
    BlockIs(past, r, from, e.now);
  }

  lemma EventStep(past: seq<Overflow>, changedAt: real, r: Rate, from: real, e: Event)
    requires Agrees(past, changedAt, r, from) && from <= e.now && Proper(e)
    ensures Demanded(past, changedAt, r, e, Next(r, e)) && CountsChanges(r, e, Next(r, e))
    ensures Agrees(Remembered(past, r, e), LastChange(changedAt, r, e), Next(r, e), e.now)
  {
    NextInRange(r, e);
    match e
    case DoReset(_, _, _, _) => ResetStep(past, changedAt, r, from, e);
    case DoRecord(bytes, timestamp, now) =>
      if Overflows(r, bytes, now) {
        OverflowStep(past, r, from, bytes, timestamp, now);
      } else {
        BlockIs(past, r, from, now);
      }
    case DoUpdate(_, _, _, _) => UpdateStep(past, changedAt, r, from, e);
    case DoSubmit(_, _) =>
    case DoStats(now) => BlockIs(past, r, from, now);
  }

  /** Over every run the quantizer is what the history demands: raised by an overflow just above
      the blocked ones, lowered by two only where the rate has been low and nothing has changed
      for a second, never into the block, and left alone by everything else. */
  lemma {:induction false} QuantizerDecides(past: seq<Overflow>, changedAt: real, r: Rate, from: real, events: seq<Event>)
    requires Agrees(past, changedAt, r, from) && Timely(from, events)
    ensures AllDemanded(past, changedAt, r, events)
    decreases |events|
  {
    if events != [] {
      var e := events[0];
      EventStep(past, changedAt, r, from, e);
      QuantizerDecides(Remembered(past, r, e), LastChange(changedAt, r, e), Next(r, e), e.now, events[1..]);
    }
  }

  /** So it is from the first reset on. */
  lemma ResetAgrees(r: Rate, bitrate: nat, frameRate: nat, now: real)
    requires Shaped(r) && frameRate > 0 && now >= 0.0
    ensures Agrees([], now, Reset(r, bitrate, frameRate, now, false), now)
  {
  }
}
