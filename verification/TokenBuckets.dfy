/** Token buckets: the server's TokenBucket (server/src/limits.rs) and the sender's audio
    budget (client/scripts/streamer.js).  Tokens and times are reals; times are in seconds. */
module TokenBuckets {
  import opened Arithmetic

  datatype Limit = Limit(rate: real, capacity: real)

  predicate ValidLimit(l: Limit) {
    l.rate >= 0.0 && l.capacity >= 0.0
  }

  datatype Bucket = Bucket(available: real, updatedAt: real, initialized: bool)

  function Refilled(l: Limit, b: Bucket, now: real): real {
    if b.initialized then MinReal(b.available + MaxReal(0.0, now - b.updatedAt) * l.rate, l.capacity) else l.capacity
  }

  predicate Admits(l: Limit, b: Bucket, now: real, units: nat) {
    units as real <= Refilled(l, b, now)
  }

  function Step(l: Limit, b: Bucket, now: real, units: nat): Bucket {
    Bucket(Refilled(l, b, now) - (if Admits(l, b, now, units) then units as real else 0.0), now, true)
  }

  function LimitOf(unitsPerSecond: nat, burstSeconds: nat): Limit {
    var capacity := unitsPerSecond * burstSeconds;
    Limit(unitsPerSecond as real, (if capacity < U64 then capacity else U64 - 1) as real)
  }

  class TokenBucket {
    var available: real
    var updatedAt: real
    var initialized: bool

    function State(): Bucket
      reads this
    {
      Bucket(available, updatedAt, initialized)
    }

    constructor (now: real)
      ensures State() == Bucket(0.0, now, false)
    {
      available, updatedAt, initialized := 0.0, now, false;
    }

    method AllowAt(now: real, units: nat, unitsPerSecond: nat, burstSeconds: nat) returns (ok: bool)
      modifies this
      ensures unitsPerSecond == 0 || burstSeconds == 0 ==> !ok && State() == old(State())
      ensures unitsPerSecond != 0 && burstSeconds != 0 ==>
        var l := LimitOf(unitsPerSecond, burstSeconds);
        ok == Admits(l, old(State()), now, units) && State() == Step(l, old(State()), now, units)
    {
      if unitsPerSecond == 0 || burstSeconds == 0 {
        return false;
      }
      var capacity := (if unitsPerSecond * burstSeconds < U64 then unitsPerSecond * burstSeconds else U64 - 1) as real;
      if initialized {
        available := MinReal(available + MaxReal(0.0, now - updatedAt) * unitsPerSecond as real, capacity);
      } else {
        available := capacity;
        initialized := true;
      }
      updatedAt := now;
      if units as real > available {
        return false;
      }
      available := available - units as real;
      return true;
    }
  }

  // ----- runs -----

  datatype Request = Request(at: real, units: nat)

  predicate Ordered(reqs: seq<Request>) {
    forall i, j | 0 <= i <= j < |reqs| :: reqs[i].at <= reqs[j].at
  }

  const FRESH: Bucket := Bucket(0.0, 0.0, false)

  /** Whenever a bucket was made, its first request finds it full. */
  lemma NewIsFresh(l: Limit, made: real, now: real, units: nat)
    ensures Step(l, Bucket(0.0, made, false), now, units) == Step(l, FRESH, now, units)
    ensures Admits(l, Bucket(0.0, made, false), now, units) <==> units as real <= l.capacity
  {
  }

  /** The bucket after the first `j` requests. */
  function After(l: Limit, reqs: seq<Request>, j: nat): Bucket
    requires j <= |reqs|
  {
    if j == 0 then FRESH else Step(l, After(l, reqs, j - 1), reqs[j - 1].at, reqs[j - 1].units)
  }

  /** The tokens that request `j` finds. */
  function Tokens(l: Limit, reqs: seq<Request>, j: nat): real
    requires j < |reqs|
  {
    Refilled(l, After(l, reqs, j), reqs[j].at)
  }

  predicate Admitted(l: Limit, reqs: seq<Request>, j: nat)
    requires j < |reqs|
  {
    Admits(l, After(l, reqs, j), reqs[j].at, reqs[j].units)
  }

  /** The units admitted among requests i, ..., j - 1. */
  function Spent(l: Limit, reqs: seq<Request>, i: nat, j: nat): real
    requires i <= j <= |reqs|
  {
    if i == j then 0.0
    else Spent(l, reqs, i, j - 1) + if Admitted(l, reqs, j - 1) then reqs[j - 1].units as real else 0.0
  }

  /** The units asked for by requests i, ..., j - 1. */
  function Asked(reqs: seq<Request>, i: nat, j: nat): real
    requires i <= j <= |reqs|
  {
    if i == j then 0.0 else Asked(reqs, i, j - 1) + reqs[j - 1].units as real
  }

  /** What the window that opens at request `i` leaves for request `j`. */
  function Allowance(l: Limit, reqs: seq<Request>, i: nat, j: nat): real
    requires i <= j < |reqs|
  {
    l.capacity + l.rate * (reqs[j].at - reqs[i].at) - Spent(l, reqs, i, j)
  }

  /** What request `j` was charged. */
  function Charge(l: Limit, reqs: seq<Request>, j: nat): real
    requires j < |reqs|
  {
    if Admitted(l, reqs, j) then reqs[j].units as real else 0.0
  }

  lemma Product(rate: real, from: real, to: real)
    requires from <= to
    ensures MaxReal(0.0, to - from) * rate == rate * (to - from)
    ensures rate >= 0.0 ==> rate * (to - from) >= 0.0
  {
  }

  lemma Split(r: real, c: real, b: real, a: real)
    ensures r * (c - a) == r * (c - b) + r * (b - a)
  {
  }

  /** What flows in between two times, as a number of its own. */
  lemma Inflow(l: Limit, from: real, to: real) returns (inflow: real)
    requires from <= to
    ensures forall b: Bucket | b.initialized && b.updatedAt == from :: Refilled(l, b, to) == MinReal(b.available + inflow, l.capacity)
    ensures inflow == l.rate * (to - from)
  {
    inflow := l.rate * (to - from);
    Product(l.rate, from, to);
  }

  lemma RefillStep(l: Limit, b: Bucket, now: real, units: nat, later: real, inflow: real)
    requires now <= later && inflow == l.rate * (later - now)
    ensures Refilled(l, Step(l, b, now, units), later) == MinReal(l.capacity,
      Refilled(l, b, now) - (if Admits(l, b, now, units) then units as real else 0.0) + inflow)
  {
    var f := Inflow(l, now, later);
  }

  lemma TokensStep(l: Limit, reqs: seq<Request>, j: nat, inflow: real)
    requires 0 < j < |reqs| && reqs[j - 1].at <= reqs[j].at && inflow == l.rate * (reqs[j].at - reqs[j - 1].at)
    ensures Tokens(l, reqs, j) == MinReal(l.capacity, Tokens(l, reqs, j - 1) - Charge(l, reqs, j - 1) + inflow)
  {
    RefillStep(l, After(l, reqs, j - 1), reqs[j - 1].at, reqs[j - 1].units, reqs[j].at, inflow);
  }

  lemma AllowanceStep(l: Limit, reqs: seq<Request>, i: nat, j: nat, inflow: real)
    requires i < j < |reqs| && inflow == l.rate * (reqs[j].at - reqs[j - 1].at)
    ensures Allowance(l, reqs, i, j) == Allowance(l, reqs, i, j - 1) - Charge(l, reqs, j - 1) + inflow
  {
    Split(l.rate, reqs[j].at, reqs[j - 1].at, reqs[i].at);
  }

  /** Both sides move by the same amount, of which nothing is known here. */
  lemma BothStep(l: Limit, reqs: seq<Request>, i: nat, j: nat) returns (gain: real)
    requires i < j < |reqs| && reqs[j - 1].at <= reqs[j].at
    ensures Tokens(l, reqs, j) == MinReal(l.capacity, Tokens(l, reqs, j - 1) + gain)
    ensures Allowance(l, reqs, i, j) == Allowance(l, reqs, i, j - 1) + gain
  {
    var inflow := l.rate * (reqs[j].at - reqs[j - 1].at);
    TokensStep(l, reqs, j, inflow);
    AllowanceStep(l, reqs, i, j, inflow);
    gain := inflow - Charge(l, reqs, j - 1);
  }

  lemma OwnWindow(l: Limit, reqs: seq<Request>, j: nat)
    requires j < |reqs|
    ensures Allowance(l, reqs, j, j) == l.capacity && Tokens(l, reqs, j) <= l.capacity
  {
    assert l.rate * 0.0 == 0.0;
  }

  /** No window leaves less than the tokens. */
  lemma {:induction false} TokensWithin(l: Limit, reqs: seq<Request>, i: nat, j: nat)
    requires i <= j < |reqs| && Ordered(reqs)
    ensures Tokens(l, reqs, j) <= Allowance(l, reqs, i, j)
    decreases j
  {
    if i < j {
      TokensWithin(l, reqs, i, j - 1);
      var gain := BothStep(l, reqs, i, j);
    } else {
      OwnWindow(l, reqs, j);
    }
  }

  /** Some window leaves exactly the tokens. */
  lemma {:induction false} TightWindow(l: Limit, reqs: seq<Request>, j: nat) returns (i: nat)
    requires j < |reqs| && Ordered(reqs)
    ensures i <= j && Tokens(l, reqs, j) == Allowance(l, reqs, i, j)
    decreases j
  {
    OwnWindow(l, reqs, j);
    if j == 0 || Tokens(l, reqs, j) == l.capacity {
      i := j;
    } else {
      i := TightWindow(l, reqs, j - 1);
      var gain := BothStep(l, reqs, i, j);
    }
  }

  /** The tokens are the minimum over all windows, so a request is admitted exactly if every
      window that ends in it has room. */
  lemma AdmittedIff(l: Limit, reqs: seq<Request>, j: nat)
    requires j < |reqs| && Ordered(reqs)
    ensures forall i: nat | i <= j :: Tokens(l, reqs, j) <= Allowance(l, reqs, i, j)
    ensures exists i: nat | i <= j :: Tokens(l, reqs, j) == Allowance(l, reqs, i, j)
    ensures Admitted(l, reqs, j) <==> forall i: nat | i <= j :: reqs[j].units as real <= Allowance(l, reqs, i, j)
  {
    forall i: nat | i <= j ensures Tokens(l, reqs, j) <= Allowance(l, reqs, i, j) {
      TokensWithin(l, reqs, i, j);
    }
    var i := TightWindow(l, reqs, j);
    assert Tokens(l, reqs, j) == Allowance(l, reqs, i, j);
  }

  /** Requests i, ..., j together fit the burst and what flows in between them. */
  predicate WindowFits(l: Limit, reqs: seq<Request>, i: nat, j: nat)
    requires i <= j < |reqs|
  {
    Asked(reqs, i, j) + reqs[j].units as real <= l.capacity + l.rate * (reqs[j].at - reqs[i].at)
  }

  lemma {:induction false} SpentIsAsked(l: Limit, reqs: seq<Request>, i: nat, j: nat)
    requires i <= j <= |reqs| && forall k: nat | k < j :: Admitted(l, reqs, k)
    ensures Spent(l, reqs, i, j) == Asked(reqs, i, j)
    decreases j
  {
    if i < j {
      SpentIsAsked(l, reqs, i, j - 1);
    }
  }

  lemma {:induction false} AdmittedUpTo(l: Limit, reqs: seq<Request>, n: nat)
    requires n <= |reqs| && Ordered(reqs)
    requires forall i: nat, j: nat | i <= j < n :: WindowFits(l, reqs, i, j)
    ensures forall j: nat | j < n :: Admitted(l, reqs, j)
    decreases n
  {
    if n > 0 {
      var j := n - 1;
      AdmittedUpTo(l, reqs, j);
      forall i: nat | i <= j ensures reqs[j].units as real <= Allowance(l, reqs, i, j) {
        SpentIsAsked(l, reqs, i, j);
        assert WindowFits(l, reqs, i, j);
      }
      AdmittedIff(l, reqs, j);
    }
  }

  /** Every request is admitted exactly if every window of requests fits. */
  lemma AllAdmittedIff(l: Limit, reqs: seq<Request>)
    requires Ordered(reqs)
    ensures (forall j: nat | j < |reqs| :: Admitted(l, reqs, j))
      <==> (forall i: nat, j: nat | i <= j < |reqs| :: WindowFits(l, reqs, i, j))
  {
    if forall j: nat | j < |reqs| :: Admitted(l, reqs, j) {
      forall i: nat, j: nat | i <= j < |reqs| ensures WindowFits(l, reqs, i, j) {
        AdmittedIff(l, reqs, j);
        SpentIsAsked(l, reqs, i, j);
        assert reqs[j].units as real <= Allowance(l, reqs, i, j);
      }
    }
    if forall i: nat, j: nat | i <= j < |reqs| :: WindowFits(l, reqs, i, j) {
      AdmittedUpTo(l, reqs, |reqs|);
    }
  }

  // ----- rejected requests leave no trace -----

  /** The requests that a bucket lets through. */
  function Passed(l: Limit, b: Bucket, reqs: seq<Request>): seq<Request>
    decreases |reqs|
  {
    if reqs == [] then []
    else
      (if Admits(l, b, reqs[0].at, reqs[0].units) then [reqs[0]] else [])
      + Passed(l, Step(l, b, reqs[0].at, reqs[0].units), reqs[1..])
  }

  predicate AllPass(l: Limit, b: Bucket, reqs: seq<Request>)
    decreases |reqs|
  {
    reqs == [] || (Admits(l, b, reqs[0].at, reqs[0].units) && AllPass(l, Step(l, b, reqs[0].at, reqs[0].units), reqs[1..]))
  }

  predicate OrderedFrom(t: real, reqs: seq<Request>)
    decreases |reqs|
  {
    reqs == [] || (t <= reqs[0].at && OrderedFrom(reqs[0].at, reqs[1..]))
  }

  /** The same tokens at `t`, and hence at any later time. */
  predicate Same(l: Limit, b: Bucket, b': Bucket, t: real) {
    && (b.initialized ==> b.updatedAt <= t) && (b'.initialized ==> b'.updatedAt <= t)
    && Refilled(l, b, t) == Refilled(l, b', t)
  }

  lemma RefilledLater(l: Limit, b: Bucket, t: real, now: real)
    requires ValidLimit(l) && t <= now && (b.initialized ==> b.updatedAt <= t)
    ensures Refilled(l, b, now) == MinReal(l.capacity, Refilled(l, b, t) + l.rate * (now - t))
  {
    Product(l.rate, t, now);
    if b.initialized {
      Product(l.rate, b.updatedAt, t);
      Product(l.rate, b.updatedAt, now);
      Split(l.rate, now, t, b.updatedAt);
    }
  }

  lemma SameLater(l: Limit, b: Bucket, b': Bucket, t: real, now: real)
    requires ValidLimit(l) && t <= now && Same(l, b, b', t)
    ensures Same(l, b, b', now)
  {
    RefilledLater(l, b, t, now);
    RefilledLater(l, b', t, now);
  }

  lemma PassCons(l: Limit, b: Bucket, r: Request, rest: seq<Request>)
    ensures AllPass(l, b, [r] + rest) == (Admits(l, b, r.at, r.units) && AllPass(l, Step(l, b, r.at, r.units), rest))
    ensures forall t :: OrderedFrom(t, [r] + rest) == (t <= r.at && OrderedFrom(r.at, rest))
  {
    assert ([r] + rest)[1..] == rest;
  }

  lemma {:induction false} NoTrace(l: Limit, b: Bucket, b': Bucket, t: real, reqs: seq<Request>)
    requires ValidLimit(l) && Same(l, b, b', t) && OrderedFrom(t, reqs)
    ensures AllPass(l, b', Passed(l, b, reqs)) && OrderedFrom(t, Passed(l, b, reqs))
    decreases |reqs|
  {
    if reqs != [] {
      var r := reqs[0];
      var next := Step(l, b, r.at, r.units);
      SameLater(l, b, b', t, r.at);
      if Admits(l, b, r.at, r.units) {
        NoTrace(l, next, next, r.at, reqs[1..]);
        PassCons(l, b', r, Passed(l, next, reqs[1..]));
      } else {
        NoTrace(l, next, b', r.at, reqs[1..]);
        OrderedEarlier(t, r.at, Passed(l, next, reqs[1..]));
        assert [] + Passed(l, next, reqs[1..]) == Passed(l, next, reqs[1..]);
      }
    }
  }

  lemma OrderedEarlier(t: real, t': real, reqs: seq<Request>)
    requires t <= t' && OrderedFrom(t', reqs)
    ensures OrderedFrom(t, reqs)
  {
  }

  lemma {:induction false} AllPassIsAdmitted(l: Limit, reqs: seq<Request>, j: nat)
    requires j <= |reqs|
    ensures AllPass(l, After(l, reqs, j), reqs[j..]) <==> forall k: nat | j <= k < |reqs| :: Admitted(l, reqs, k)
    decreases |reqs| - j
  {
    if j < |reqs| {
      assert reqs[j..][0] == reqs[j] && reqs[j..][1..] == reqs[j + 1..];
      AllPassIsAdmitted(l, reqs, j + 1);
      assert AllPass(l, After(l, reqs, j), reqs[j..])
        == (Admitted(l, reqs, j) && AllPass(l, After(l, reqs, j + 1), reqs[j + 1..]));
    }
  }

  lemma {:induction false} OrderedFromMeans(t: real, reqs: seq<Request>)
    requires OrderedFrom(t, reqs)
    ensures Ordered(reqs) && forall i | 0 <= i < |reqs| :: t <= reqs[i].at
    decreases |reqs|
  {
    if reqs != [] {
      OrderedFromMeans(reqs[0].at, reqs[1..]);
      assert forall i | 0 < i < |reqs| :: reqs[i] == reqs[1..][i - 1];
    }
  }

  /** What a bucket has let through meets the bound of every window. */
  lemma PassedFits(l: Limit, t: real, reqs: seq<Request>)
    requires ValidLimit(l) && OrderedFrom(t, reqs)
    ensures var passed := Passed(l, FRESH, reqs);
      Ordered(passed) && forall i: nat, j: nat | i <= j < |passed| :: WindowFits(l, passed, i, j)
  {
    var passed := Passed(l, FRESH, reqs);
    NoTrace(l, FRESH, FRESH, t, reqs);
    OrderedFromMeans(t, passed);
    AllPassIsAdmitted(l, passed, 0);
    assert passed[0..] == passed;
    AllAdmittedIff(l, passed);
  }
}
