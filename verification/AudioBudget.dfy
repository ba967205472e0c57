/** The sender's audio budget (client/scripts/streamer.js) against the server's AAC byte buckets
    (server/src/websocket.rs). */
module AudioBudget {
  import opened Arithmetic
  import opened TokenBuckets

  const MAX_AUDIO_SEND_BYTES_PER_SECOND: nat := 48_000
  const MAX_AUDIO_SEND_BURST_BYTES: nat := MAX_AUDIO_SEND_BYTES_PER_SECOND

  const AAC_MAX_BITRATE_KBPS: nat := 320
  const AAC_MAX_INGEST_BYTES_PER_SECOND: nat := AAC_MAX_BITRATE_KBPS * 1000 / 8 * 6 / 5
  const AAC_INGEST_BURST_SECS: nat := 5
  const AAC_ABUSE_MAX_INGEST_BYTES_PER_SECOND: nat := AAC_MAX_INGEST_BYTES_PER_SECOND * 2
  const AAC_ABUSE_BURST_SECS: nat := 10

  const CLIENT: Limit := Limit(MAX_AUDIO_SEND_BYTES_PER_SECOND as real, MAX_AUDIO_SEND_BURST_BYTES as real)
  const SOFT: Limit := LimitOf(AAC_MAX_INGEST_BYTES_PER_SECOND, AAC_INGEST_BURST_SECS)
  const HARD: Limit := LimitOf(AAC_ABUSE_MAX_INGEST_BYTES_PER_SECOND, AAC_ABUSE_BURST_SECS)

  class AudioSendBudget {
    var audioSendBudget: real
    var audioSendBudgetAt: real   // milliseconds

    /** The budget as a bucket whose clock runs in seconds. */
    function State(): Bucket
      reads this
    {
      Bucket(audioSendBudget, audioSendBudgetAt / 1000.0, true)
    }

    constructor (now: real)
      ensures State() == Full(now / 1000.0)
    {
      audioSendBudget, audioSendBudgetAt := MAX_AUDIO_SEND_BURST_BYTES as real, now;
    }

    method ConsumeAudioSendBudget(now: real, bytes: nat) returns (ok: bool)
      modifies this
      ensures ok == Admits(CLIENT, old(State()), now / 1000.0, bytes)
      ensures State() == Step(CLIENT, old(State()), now / 1000.0, bytes)
    {
      var elapsed := MaxReal(0.0, now - audioSendBudgetAt);
      audioSendBudget := MinReal(MAX_AUDIO_SEND_BURST_BYTES as real,
                             audioSendBudget + elapsed * MAX_AUDIO_SEND_BYTES_PER_SECOND as real / 1000.0);
      audioSendBudgetAt := now;
      if bytes as real > audioSendBudget {
        return false;
      }
      audioSendBudget := audioSendBudget - bytes as real;
      return true;
    }
  }

  function Full(start: real): Bucket {
    Bucket(MAX_AUDIO_SEND_BURST_BYTES as real, start, true)
  }

  lemma FullIsFresh(start: real, calls: seq<Request>)
    ensures Passed(CLIENT, Full(start), calls) == Passed(CLIENT, FRESH, calls)
  {
  }

  /** Delivered in order, with a delay between `lag` and `lag + variation`. */
  predicate Delivery(sent: seq<Request>, delivered: seq<Request>, lag: real, variation: real) {
    && |sent| == |delivered| && Ordered(delivered)
    && forall k | 0 <= k < |sent| ::
         delivered[k].units == sent[k].units && lag <= delivered[k].at - sent[k].at <= lag + variation
  }

  lemma {:induction false} SameAsked(a: seq<Request>, b: seq<Request>, i: nat, j: nat)
    requires i <= j <= |a| == |b| && forall k | 0 <= k < |a| :: a[k].units == b[k].units
    ensures Asked(a, i, j) == Asked(b, i, j)
    decreases j
  {
    if i < j {
      SameAsked(a, b, i, j - 1);
    }
  }

  lemma WindowArrives(client: Limit, server: Limit, span: real, span': real, variation: real, bytes: real)
    requires ValidLimit(client) && client.rate <= server.rate && 0.0 <= span' && span <= span' + variation
    requires client.capacity + client.rate * variation <= server.capacity
    requires bytes <= client.capacity + client.rate * span
    ensures bytes <= server.capacity + server.rate * span'
  {
    MulMonotone(client.rate, span, span' + variation);
    MulMonotone(span', client.rate, server.rate);
    Split(client.rate, span' + variation, variation, 0.0);
  }

  lemma MulMonotone(a: real, b: real, c: real)
    requires 0.0 <= a && b <= c
    ensures a * b <= a * c
  {
  }

  /** One window, on arrival. */
  lemma WindowConforms(client: Limit, server: Limit, sent: seq<Request>, delivered: seq<Request>,
                       lag: real, variation: real, i: nat, j: nat)
    requires ValidLimit(client) && client.rate <= server.rate
    requires client.capacity + client.rate * variation <= server.capacity
    requires Delivery(sent, delivered, lag, variation) && i <= j < |sent| && WindowFits(client, sent, i, j)
    ensures WindowFits(server, delivered, i, j)
  {
    SameAsked(sent, delivered, i, j);
    assert delivered[i].at <= delivered[j].at;
    WindowArrives(client, server, sent[j].at - sent[i].at, delivered[j].at - delivered[i].at, variation,
      Asked(sent, i, j) + sent[j].units as real);
  }

  /** Traffic shaped by one bucket is admitted by another that has room for what the delay
      variation can bunch up. */
  lemma Conforms(client: Limit, server: Limit, sent: seq<Request>, delivered: seq<Request>, lag: real, variation: real)
    requires ValidLimit(client) && client.rate <= server.rate
    requires client.capacity + client.rate * variation <= server.capacity
    requires forall i: nat, j: nat | i <= j < |sent| :: WindowFits(client, sent, i, j)
    requires Delivery(sent, delivered, lag, variation)
    ensures forall k: nat | k < |delivered| :: Admitted(server, delivered, k)
  {
    forall i: nat, j: nat | i <= j < |delivered| ensures WindowFits(server, delivered, i, j) {
      WindowConforms(client, server, sent, delivered, lag, variation, i, j);
    }
    AllAdmittedIff(server, delivered);
  }

  /** Packets the client's budget admits are never rejected by the server's AAC byte buckets
      while they are delivered in order and their delay varies by at most four seconds. */
  lemma SenderConforms(start: real, calls: seq<Request>, delivered: seq<Request>, lag: real)
    requires OrderedFrom(start, calls)
    requires Delivery(Passed(CLIENT, Full(start), calls), delivered, lag, 4.0)
    ensures forall k: nat | k < |delivered| :: Admitted(SOFT, delivered, k)
    ensures forall k: nat | k < |delivered| :: Admitted(HARD, delivered, k)
  {
    FullIsFresh(start, calls);
    PassedFits(CLIENT, start, calls);
    var sent := Passed(CLIENT, Full(start), calls);
    Conforms(CLIENT, SOFT, sent, delivered, lag, 4.0);
    Conforms(CLIENT, HARD, sent, delivered, lag, 4.0);
  }

  // ----- four seconds is exact -----

  const MEDIA_FRAME_HEADER_BYTES: nat := 5
  const AAC_MIN_ACCESS_UNIT_BYTES: nat := 4
  const AAC_MAX_ACCESS_UNIT_BYTES: nat := 4 * 1024

  /** Every call is for an audio message that the server parses: a header and an access unit
      within its bounds. */
  predicate AudioMessages(calls: seq<Request>) {
    forall k | 0 <= k < |calls| ::
      AAC_MIN_ACCESS_UNIT_BYTES <= calls[k].units - MEDIA_FRAME_HEADER_BYTES <= AAC_MAX_ACCESS_UNIT_BYTES
  }

  predicate AllAdmitted(l: Limit, reqs: seq<Request>) {
    forall k: nat | k < |reqs| :: Admitted(l, reqs, k)
  }

  /** This traffic, delayed with this variation, is admitted. */
  ghost predicate Conforming(start: real, calls: seq<Request>, delivered: seq<Request>, lag: real, variation: real) {
    (OrderedFrom(start, calls) && AudioMessages(calls)
     && Delivery(Passed(CLIENT, Full(start), calls), delivered, lag, variation)) ==>
      AllAdmitted(SOFT, delivered)
  }

  // The traffic that is rejected: twelve messages of 4000 bytes at each of the seconds 0, ..., 4
  // and one of 9 bytes as soon as the budget allows it.

  const MESSAGE: nat := 4000
  const LAST_MESSAGE: nat := 9
  const LAST_SENT: real := 4.0 + 9.0 / 48_000.0

  function Second(m: nat): real {
    (m / 12) as real
  }

  function Messages(m: nat): seq<Request>
    requires m <= 60
    decreases 60 - m
  {
    if m == 60 then [Request(LAST_SENT, LAST_MESSAGE)] else [Request(Second(m), MESSAGE)] + Messages(m + 1)
  }

  /** The budget that message `m` finds. */
  function BudgetAt(m: nat): real {
    48_000.0 - 4_000.0 * (m % 12) as real
  }

  lemma MessageStep(m: nat, b: Bucket)
    requires m < 60 && b.initialized && Refilled(CLIENT, b, Second(m)) == BudgetAt(m)
    ensures Admits(CLIENT, b, Second(m), MESSAGE)
    ensures var next := Step(CLIENT, b, Second(m), MESSAGE);
      && next.initialized
      && (m < 59 ==> Second(m) <= Second(m + 1) && Refilled(CLIENT, next, Second(m + 1)) == BudgetAt(m + 1))
      && (m == 59 ==> Second(m) <= LAST_SENT && Refilled(CLIENT, next, LAST_SENT) == LAST_MESSAGE as real)
  {
    assert if (m + 1) % 12 == 0 then (m + 1) / 12 == m / 12 + 1 else (m + 1) / 12 == m / 12;
  }

  lemma PassedCons(b: Bucket, r: Request, rest: seq<Request>)
    requires Admits(CLIENT, b, r.at, r.units) && Passed(CLIENT, Step(CLIENT, b, r.at, r.units), rest) == rest
    ensures Passed(CLIENT, b, [r] + rest) == [r] + rest
  {
    assert ([r] + rest)[1..] == rest;
  }

  lemma OrderedCons(r: Request, rest: seq<Request>, t: real)
    requires OrderedFrom(t, rest) && r.at <= t
    ensures OrderedFrom(r.at, [r] + rest)
  {
    assert ([r] + rest)[1..] == rest;
    OrderedEarlier(r.at, t, rest);
  }

  lemma LastPasses(b: Bucket)
    requires b.initialized && Refilled(CLIENT, b, LAST_SENT) == LAST_MESSAGE as real
    ensures Passed(CLIENT, b, Messages(60)) == Messages(60) && OrderedFrom(LAST_SENT, Messages(60))
  {
    PassedCons(b, Request(LAST_SENT, LAST_MESSAGE), []);
    assert [Request(LAST_SENT, LAST_MESSAGE)] + [] == Messages(60);
  }

  lemma {:induction false} MessagesPass(m: nat, b: Bucket)
    requires m < 60 && b.initialized && Refilled(CLIENT, b, Second(m)) == BudgetAt(m)
    ensures Passed(CLIENT, b, Messages(m)) == Messages(m) && OrderedFrom(Second(m), Messages(m))
    decreases 60 - m
  {
    var r, next := Request(Second(m), MESSAGE), Step(CLIENT, b, Second(m), MESSAGE);
    MessageStep(m, b);
    if m == 59 {
      LastPasses(next);
      OrderedCons(r, Messages(60), LAST_SENT);
    } else {
      MessagesPass(m + 1, next);
      OrderedCons(r, Messages(m + 1), Second(m + 1));
    }
    PassedCons(b, r, Messages(m + 1));
  }

  lemma {:induction false} MessageAt(m: nat, k: nat)
    requires m + k <= 60
    ensures |Messages(m)| == 61 - m
    ensures Messages(m)[k] == if m + k == 60 then Request(LAST_SENT, LAST_MESSAGE) else Request(Second(m + k), MESSAGE)
    decreases 60 - m
  {
    if m < 60 {
      MessageAt(m + 1, if k == 0 then 0 else k - 1);
    }
  }

  /** All held back until the first one has been delayed by `variation`. */
  function Bunched(variation: real): (delivered: seq<Request>)
    ensures |delivered| == 61
    ensures forall k | 0 <= k < 60 :: delivered[k] == Request(variation, MESSAGE)
    ensures delivered[60] == Request(MaxReal(variation, LAST_SENT), LAST_MESSAGE)
  {
    seq(60, _ => Request(variation, MESSAGE)) + [Request(MaxReal(variation, LAST_SENT), LAST_MESSAGE)]
  }

  lemma {:induction false} SameAsk(reqs: seq<Request>, n: nat)
    requires n <= |reqs| && forall k | 0 <= k < n :: reqs[k].units == MESSAGE
    ensures Asked(reqs, 0, n) == 4_000.0 * n as real
    decreases n
  {
    if n > 0 {
      SameAsk(reqs, n - 1);
    }
  }

  lemma BunchedIsRejected(variation: real)
    requires variation > 4.0
    ensures Ordered(Bunched(variation)) && !AllAdmitted(SOFT, Bunched(variation))
  {
    var reqs := Bunched(variation);
    SameAsk(reqs, 60);
    assert Asked(reqs, 0, 60) == 240_000.0 && reqs[60].units == 9;
    assert SOFT.capacity == 240_000.0 && SOFT.rate == 48_000.0;
    assert reqs[60].at - reqs[0].at < 9.0 / 48_000.0;
    assert !WindowFits(SOFT, reqs, 0, 60);
    AllAdmittedIff(SOFT, reqs);
  }

  lemma BunchedIsDelivery(variation: real)
    requires variation > 4.0
    ensures AudioMessages(Messages(0)) && Delivery(Messages(0), Bunched(variation), 0.0, variation)
  {
    MessageAt(0, 0);
    forall k | 0 <= k <= 60
      ensures Messages(0)[k] == if k == 60 then Request(LAST_SENT, LAST_MESSAGE) else Request(Second(k), MESSAGE)
    {
      MessageAt(0, k);
    }
    assert forall k | 0 <= k < 60 :: 0 <= k / 12 <= 4;
  }

  /** For audio messages of any size the server accepts, the soft bucket admits all conforming
      traffic exactly if the delay varies by at most four seconds. */
  lemma ConformsIff(variation: real)
    requires variation >= 0.0
    ensures (forall start, calls, delivered, lag :: Conforming(start, calls, delivered, lag, variation)) <==> variation <= 4.0
  {
    if variation <= 4.0 {
      forall start, calls, delivered, lag ensures Conforming(start, calls, delivered, lag, variation) {
        if OrderedFrom(start, calls) && Delivery(Passed(CLIENT, Full(start), calls), delivered, lag, variation) {
          SenderConforms(start, calls, delivered, lag);
        }
      }
    } else {
      LateTrafficFails(variation);
    }
  }

  lemma LateTrafficFails(variation: real)
    requires variation > 4.0
    ensures !Conforming(0.0, Messages(0), Bunched(variation), 0.0, variation)
  {
    MessagesPass(0, Full(0.0));
    BunchedIsDelivery(variation);
    BunchedIsRejected(variation);
  }
}
