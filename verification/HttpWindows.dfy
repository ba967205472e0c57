/** How many HTTP requests one address gets, over any run of the per-IP table.  The clock is read
    before the table is locked, so that readings may reach the table out of order. */
module HttpWindows {
  import opened Arithmetic
  import opened Common
  import opened IpLimits

  /** An admitted request and the start of the window it was counted in. */
  datatype Grant = Grant(at: int, window: int)

  /** What one event adds to the log of `ip`. */
  function Granted(c: Config, t: Table, e: Event, ip: Ip): seq<Grant>
    requires c.maxHttpRequestsPerIp > 0
  {
    if e.Http? && e.ip == ip && HttpAllowed(c, t, ip, e.at)
    then [Grant(e.at, AfterHttp(c, t, ip, e.at).entries[ip].windowStarted)] else []
  }

  /** The requests of `ip` that a run admits, in the order of the lock. */
  function Log(c: Config, t: Table, events: seq<Event>, ip: Ip, log: seq<Grant>): seq<Grant>
    requires c.maxHttpRequestsPerIp > 0
    decreases |events|
  {
    if events == [] then log else Log(c, Next(c, t, events[0]), events[1..], ip, log + Granted(c, t, events[0], ip))
  }

  /** No clock reading is more than `d` below the highest one before it, which is `high` at the
      start. */
  predicate Timely(d: nat, high: int, events: seq<Event>)
    decreases |events|
  {
    events == [] || (high - d <= events[0].at && Timely(d, Max(high, events[0].at), events[1..]))
  }

  function High(high: int, events: seq<Event>): int
    decreases |events|
  {
    if events == [] then high else High(Max(high, events[0].at), events[1..])
  }

  function CountWindow(log: seq<Grant>, window: int): nat {
    if log == [] then 0
    else CountWindow(log[..|log| - 1], window) + if log[|log| - 1].window == window then 1 else 0
  }

  /** The requests admitted at a time t with from <= t < to. */
  function CountIn(log: seq<Grant>, from: int, to: int): nat {
    if log == [] then 0
    else CountIn(log[..|log| - 1], from, to) + if from <= log[|log| - 1].at < to then 1 else 0
  }

  // ----- the log -----

  /** A grant lies in its window, give or take the disorder of the readings. */
  predicate Timed(c: Config, d: nat, log: seq<Grant>, high: int) {
    log == [] ||
    (var g := log[|log| - 1];
     && g.window - d <= g.at <= high && g.at < g.window + Max(1, c.window)
     && Timed(c, d, log[..|log| - 1], high))
  }

  /** The least distance of two windows: a window ends after its length, or an idle entry is
      pruned, with disorder on both sides. */
  function Gap(c: Config, d: nat): int {
    Min(c.window, IdleTimeout(c) - 2 * d)
  }

  predicate Spaced(log: seq<Grant>, gap: int) {
    log == [] ||
    (&& (|log| > 1 ==> log[|log| - 2].window == log[|log| - 1].window || log[|log| - 2].window + gap <= log[|log| - 1].window)
     && Spaced(log[..|log| - 1], gap))
  }

  /** No window has more than `max` requests. */
  predicate Bounded(log: seq<Grant>, max: nat) {
    log == [] || (CountWindow(log, log[|log| - 1].window) <= max && Bounded(log[..|log| - 1], max))
  }

  /** The last window of the log began at least `gap` before `start`. */
  predicate Behind(log: seq<Grant>, start: int, gap: int) {
    log != [] ==> log[|log| - 1].window + gap <= start
  }

  lemma {:induction false} NoneInWindow(log: seq<Grant>, window: int, gap: int)
    requires gap > 0 && Spaced(log, gap) && (log != [] ==> log[|log| - 1].window < window)
    ensures CountWindow(log, window) == 0
    decreases |log|
  {
    if log != [] {
      NoneInWindow(log[..|log| - 1], window, gap);
    }
  }

  lemma SnocCounts(log: seq<Grant>, g: Grant, window: int)
    ensures CountWindow(log + [g], window) == CountWindow(log, window) + if g.window == window then 1 else 0
  {
    assert (log + [g])[..|log|] == log;
  }

  lemma SnocCountIn(log: seq<Grant>, g: Grant, from: int, to: int)
    ensures CountIn(log + [g], from, to) == CountIn(log, from, to) + if from <= g.at < to then 1 else 0
  {
    assert (log + [g])[..|log|] == log;
  }

  lemma SnocTimed(c: Config, d: nat, log: seq<Grant>, g: Grant, high: int)
    requires Timed(c, d, log, high) && g.window - d <= g.at <= high && g.at < g.window + Max(1, c.window)
    ensures Timed(c, d, log + [g], high)
  {
    assert (log + [g])[..|log|] == log;
  }

  lemma SnocSpaced(log: seq<Grant>, g: Grant, gap: int, max: nat)
    requires Spaced(log, gap) && Bounded(log, max) && CountWindow(log, g.window) < max
    requires Behind(log, g.window, gap) || (log != [] && log[|log| - 1].window == g.window)
    ensures Spaced(log + [g], gap) && Bounded(log + [g], max)
  {
    SnocCounts(log, g, g.window);
    assert (log + [g])[..|log|] == log;
  }

  lemma {:induction false} TimedLater(c: Config, d: nat, log: seq<Grant>, high: int, high': int)
    requires Timed(c, d, log, high) && high <= high'
    ensures Timed(c, d, log, high')
    decreases |log|
  {
    if log != [] {
      TimedLater(c, d, log[..|log| - 1], high, high');
    }
  }

  // ----- the log and the table -----

  predicate LinkedEntry(c: Config, d: nat, e: Entry, log: seq<Grant>, high: int) {
    && e.windowStarted <= high && e.windowStarted - d <= e.lastSeen <= high
    && e.requestCount <= CountWindow(log, e.windowStarted) && e.requestCount <= c.maxHttpRequestsPerIp
  }

  predicate Linked(c: Config, d: nat, t: Table, ip: Ip, log: seq<Grant>, high: int) {
    Timed(c, d, log, high) && (ip in t.entries ==> LinkedEntry(c, d, t.entries[ip], log, high))
  }

  predicate TiedEntry(e: Entry, log: seq<Grant>, gap: int) {
    && e.requestCount == CountWindow(log, e.windowStarted)
    && (Behind(log, e.windowStarted, gap) || (log != [] && log[|log| - 1].window == e.windowStarted))
  }

  /** The windows of the log are apart, and so is the next one. */
  predicate Tied(c: Config, d: nat, t: Table, ip: Ip, log: seq<Grant>, high: int) {
    && Spaced(log, Gap(c, d)) && Bounded(log, c.maxHttpRequestsPerIp)
    && if ip in t.entries then TiedEntry(t.entries[ip], log, Gap(c, d)) else Behind(log, high - d, Gap(c, d))
  }

  /** Windows are told apart by their starts only if they are apart. */
  predicate Fits(c: Config, d: nat, t: Table, ip: Ip, log: seq<Grant>, high: int) {
    Linked(c, d, t, ip, log, high) && (Gap(c, d) > 0 ==> Tied(c, d, t, ip, log, high))
  }

  lemma FitsLater(c: Config, d: nat, t: Table, ip: Ip, log: seq<Grant>, high: int, high': int)
    requires Fits(c, d, t, ip, log, high) && high <= high'
    ensures Fits(c, d, t, ip, log, high')
  {
    TimedLater(c, d, log, high, high');
  }

  /** A reading that may come next, `high` being the highest up to and with it. */
  predicate Reading(d: nat, high: int, now: int) {
    high - d <= now <= high
  }

  lemma PruneFits(c: Config, d: nat, t: Table, ip: Ip, log: seq<Grant>, high: int, now: int)
    requires Fits(c, d, t, ip, log, high) && Reading(d, high, now)
    ensures Fits(c, d, Pruned(c, t, now), ip, log, high)
  {
  }

  lemma LookupFits(c: Config, d: nat, t: Table, other: Ip, ip: Ip, log: seq<Grant>, high: int, now: int)
    requires Fits(c, d, t, ip, log, high) && Reading(d, high, now)
    ensures Fits(c, d, LookedUp(c, t, other, now), ip, log, high)
  {
    PruneFits(c, d, t, ip, log, high, now);
    if other == ip && ip !in Pruned(c, t, now).entries && Gap(c, d) > 0 {
      NoneInWindow(log, now, Gap(c, d));
    }
  }

  /** A request finds the entry of its own address. */
  lemma RequestFits(c: Config, d: nat, u: Table, ip: Ip, log: seq<Grant>, high: int, now: int)
    requires Fits(c, d, u, ip, log, high) && ip in u.entries && Reading(d, high, now)
    ensures var e := CurrentWindow(c, u.entries[ip], now).(lastSeen := now);
      && LinkedEntry(c, d, e, log, high) && now < e.windowStarted + Max(1, c.window)
      && (Gap(c, d) > 0 ==> TiedEntry(e, log, Gap(c, d)))
  {
    var e := u.entries[ip];
    if Since(now, e.windowStarted) >= c.window && Gap(c, d) > 0 {
      NoneInWindow(log, now, Gap(c, d));
    }
  }

  lemma GrantFits(c: Config, d: nat, u: Table, ip: Ip, e: Entry, log: seq<Grant>, high: int, now: int)
    requires Fits(c, d, u, ip, log, high) && Reading(d, high, now)
    requires LinkedEntry(c, d, e, log, high) && now < e.windowStarted + Max(1, c.window)
    requires Gap(c, d) > 0 ==> TiedEntry(e, log, Gap(c, d))
    requires e.requestCount < c.maxHttpRequestsPerIp
    ensures Fits(c, d, Update(u, ip, e.(requestCount := e.requestCount + 1)), ip, log + [Grant(now, e.windowStarted)], high)
  {
    var g := Grant(now, e.windowStarted);
    SnocTimed(c, d, log, g, high);
    SnocCounts(log, g, e.windowStarted);
    if Gap(c, d) > 0 {
      SnocSpaced(log, g, Gap(c, d), c.maxHttpRequestsPerIp);
    }
  }

  /** A request of the address itself, admitted or not. */
  lemma OwnFits(c: Config, d: nat, u: Table, ip: Ip, log: seq<Grant>, high: int, now: int)
    requires Fits(c, d, u, ip, log, high) && ip in u.entries && Reading(d, high, now)
    ensures var e := CurrentWindow(c, u.entries[ip], now).(lastSeen := now);
      if e.requestCount < c.maxHttpRequestsPerIp
      then Fits(c, d, Update(u, ip, e.(requestCount := e.requestCount + 1)), ip, log + [Grant(now, e.windowStarted)], high)
      else Fits(c, d, Update(u, ip, e), ip, log, high)
  {
    var e := CurrentWindow(c, u.entries[ip], now).(lastSeen := now);
    RequestFits(c, d, u, ip, log, high, now);
    if e.requestCount < c.maxHttpRequestsPerIp {
      GrantFits(c, d, u, ip, e, log, high, now);
    }
  }

  lemma HttpFits(c: Config, d: nat, t: Table, other: Ip, ip: Ip, log: seq<Grant>, high: int, now: int)
    requires Fits(c, d, t, ip, log, high) && Reading(d, high, now) && c.maxHttpRequestsPerIp > 0
    ensures Fits(c, d, AfterHttp(c, t, other, now), ip, log + Granted(c, t, Http(other, now), ip), high)
  {
    var u := LookedUp(c, t, other, now);
    LookupFits(c, d, t, other, ip, log, high, now);
    if other == ip && ip in u.entries {
      OwnFits(c, d, u, ip, log, high, now);
    }
    assert log + [] == log;
  }

  lemma OtherFits(c: Config, d: nat, t: Table, ip: Ip, log: seq<Grant>, high: int, e: Event)
    requires Fits(c, d, t, ip, log, high) && Reading(d, high, e.at) && !e.Http?
    ensures Fits(c, d, Next(c, t, e), ip, log, high)
  {
    if e.Acquire? {
      LookupFits(c, d, t, e.ip, ip, log, high, e.at);
    }
  }

  lemma EventFits(c: Config, d: nat, t: Table, e: Event, ip: Ip, log: seq<Grant>, high: int)
    requires Fits(c, d, t, ip, log, high) && high - d <= e.at && c.maxHttpRequestsPerIp > 0
    ensures Fits(c, d, Next(c, t, e), ip, log + Granted(c, t, e, ip), Max(high, e.at))
  {
    var high' := Max(high, e.at);
    FitsLater(c, d, t, ip, log, high, high');
    if e.Http? {
      HttpFits(c, d, t, e.ip, ip, log, high', e.at);
    } else {
      OtherFits(c, d, t, ip, log, high', e);
      assert log + [] == log;
    }
  }

  /** The log of every run fits the table at its end. */
  lemma {:induction false} RunFits(c: Config, d: nat, t: Table, events: seq<Event>, ip: Ip, log: seq<Grant>, high: int)
    requires Fits(c, d, t, ip, log, high) && Timely(d, high, events) && c.maxHttpRequestsPerIp > 0
    ensures Fits(c, d, Run(c, t, events), ip, Log(c, t, events, ip, log), High(high, events))
    decreases |events|
  {
    if events != [] {
      var e := events[0];
      EventFits(c, d, t, e, ip, log, high);
      RunFits(c, d, Next(c, t, e), events[1..], ip, log + Granted(c, t, e, ip), Max(high, e.at));
    }
  }

  // ----- counting in an interval -----

  lemma {:induction false} NoneBefore(c: Config, d: nat, log: seq<Grant>, high: int, from: int, to: int, gap: int)
    requires Timed(c, d, log, high) && Spaced(log, gap) && gap >= 0 && c.window > 0 && Behind(log, from, c.window)
    ensures CountIn(log, from, to) == 0
    decreases |log|
  {
    if log != [] {
      NoneBefore(c, d, log[..|log| - 1], high, from, to, gap);
    }
  }

  /** If the last window began by from - c.window + n * gap, the requests since `from` are in `n`
      windows. */
  lemma {:induction false} FewWindows(c: Config, d: nat, log: seq<Grant>, high: int, from: int, to: int, gap: int, n: nat)
    requires log != [] && Timed(c, d, log, high) && Spaced(log, gap) && Bounded(log, c.maxHttpRequestsPerIp)
    requires gap > 0 && c.window > 0 && n > 0 && log[|log| - 1].window + c.window <= from + n * gap
    ensures CountIn(log, from, to) <= CountWindow(log, log[|log| - 1].window) + (n - 1) * c.maxHttpRequestsPerIp
    decreases |log|
  {
    var rest, g := log[..|log| - 1], log[|log| - 1];
    if rest != [] {
      assert rest[|rest| - 1] == log[|log| - 2];
      if rest[|rest| - 1].window == g.window {
        FewWindows(c, d, rest, high, from, to, gap, n);
      } else if n == 1 {
        NoneBefore(c, d, rest, high, from, to, gap);
      } else {
        OneLess(n, gap);
        OneLess(n - 1, c.maxHttpRequestsPerIp);
        FewWindows(c, d, rest, high, from, to, gap, n - 1);
      }
    }
  }

  lemma OneLess(n: int, x: int)
    ensures n * x == (n - 1) * x + x
  {
  }

  lemma {:induction false} CountBound(c: Config, d: nat, log: seq<Grant>, high: int, from: int, length: nat, gap: int, n: nat)
    requires Timed(c, d, log, high) && Spaced(log, gap) && Bounded(log, c.maxHttpRequestsPerIp)
    requires gap > 0 && c.window > 0 && length + c.window + d <= n * gap + 1
    ensures CountIn(log, from, from + length) <= n * c.maxHttpRequestsPerIp
    decreases |log|
  {
    if n == 0 {
      EmptyInterval(log, from);
    } else if log != [] {
      if log[|log| - 1].window >= from + length + d {
        CountBound(c, d, log[..|log| - 1], high, from, length, gap, n);
      } else {
        FewWindows(c, d, log, high, from, from + length, gap, n);
        OneLess(n, c.maxHttpRequestsPerIp);
      }
    }
  }

  lemma {:induction false} EmptyInterval(log: seq<Grant>, from: int)
    ensures CountIn(log, from, from) == 0
    decreases |log|
  {
    if log != [] {
      EmptyInterval(log[..|log| - 1], from);
    }
  }

  lemma LogFits(c: Config, d: nat, events: seq<Event>, ip: Ip, start: int) returns (log: seq<Grant>)
    requires c.maxHttpRequestsPerIp > 0 && Timely(d, start, events)
    ensures log == Log(c, Table(map[], start), events, ip, [])
    ensures Fits(c, d, Run(c, Table(map[], start), events), ip, log, High(start, events))
  {
    log := Log(c, Table(map[], start), events, ip, []);
    RunFits(c, d, Table(map[], start), events, ip, [], start);
  }

  /** With readings at most `d` out of order an address gets at most `n` times the maximum in any
      half-open interval that `n` + 1 windows cannot meet, pruning and eviction notwithstanding. */
  lemma AtMost(c: Config, d: nat, events: seq<Event>, ip: Ip, start: int, from: int, length: nat, n: nat)
    requires c.maxHttpRequestsPerIp > 0 && Timely(d, start, events)
    requires Gap(c, d) > 0 && length + c.window + d <= n * Gap(c, d) + 1
    ensures CountIn(Log(c, Table(map[], start), events, ip, []), from, from + length) <= n * c.maxHttpRequestsPerIp
  {
    var log := LogFits(c, d, events, ip, start);
    CountBound(c, d, log, High(start, events), from, length, Gap(c, d), n);
  }

  /** In any half-open interval of one window length, less the disorder, at most twice the
      maximum. */
  lemma AtMostTwice(c: Config, d: nat, events: seq<Event>, ip: Ip, start: int, from: int)
    requires c.maxHttpRequestsPerIp > 0 && Timely(d, start, events) && c.window + 2 * d <= IdleTimeout(c)
    ensures CountIn(Log(c, Table(map[], start), events, ip, []), from, from + c.window - d) <= 2 * c.maxHttpRequestsPerIp
  {
    if c.window == 0 {
      EmptyInterval(Log(c, Table(map[], start), events, ip, []), from);
    } else {
      AtMost(c, d, events, ip, start, from, c.window - d, 2);
    }
  }

  // ----- the bound is exact -----

  predicate LimitedIn(c: Config, d: nat, ip: Ip, length: nat, n: nat, start: int, events: seq<Event>, from: int)
    requires c.maxHttpRequestsPerIp > 0
  {
    Timely(d, start, events) ==>
      CountIn(Log(c, Table(map[], start), events, ip, []), from, from + length) <= n * c.maxHttpRequestsPerIp
  }

  /** At most `n` times the maximum in every interval of this length, over every run. */
  ghost predicate Limited(c: Config, d: nat, ip: Ip, length: nat, n: nat)
    requires c.maxHttpRequestsPerIp > 0
  {
    forall start, events, from :: LimitedIn(c, d, ip, length, n, start, events, from)
  }

  function Requests(ip: Ip, at: int, k: nat): seq<Event> {
    if k == 0 then [] else [Http(ip, at)] + Requests(ip, at, k - 1)
  }

  /** One request at `at`, which opens a window, and `k` more in it. */
  function TwoTimes(ip: Ip, at: int, later: int, k: nat): seq<Event> {
    Requests(ip, at, 1) + Requests(ip, later, k)
  }

  /** `m` windows from `at` on, filled at their starts, and a last one, filled by readings out of
      order. */
  function Fill(c: Config, ip: Ip, d: nat, at: int, m: nat): seq<Event>
    requires c.maxHttpRequestsPerIp > 0
    decreases m
  {
    if m == 0 then TwoTimes(ip, at, at - d, c.maxHttpRequestsPerIp - 1)
    else Requests(ip, at, c.maxHttpRequestsPerIp) + Fill(c, ip, d, at + c.window, m - 1)
  }

  /** A first window filled at its end, and the others. */
  function Crowd(c: Config, ip: Ip, d: nat, m: nat): seq<Event>
    requires c.maxHttpRequestsPerIp > 0
  {
    TwoTimes(ip, 0, c.window - 1, c.maxHttpRequestsPerIp - 1) + Fill(c, ip, d, c.window, m)
  }

  predicate Alone(t: Table, ip: Ip) {
    t.entries.Keys <= {ip}
  }

  predicate InWindow(t: Table, ip: Ip, window: int, count: nat, seen: int) {
    && Alone(t, ip) && ip in t.entries
    && t.entries[ip].windowStarted == window && t.entries[ip].requestCount == count && t.entries[ip].lastSeen == seen
  }

  predicate WindowOver(c: Config, t: Table, ip: Ip, at: int) {
    Alone(t, ip) && (ip in t.entries ==> Since(at, t.entries[ip].windowStarted) >= c.window)
  }

  lemma HasRoom(c: Config, t: Table, ip: Ip, at: int)
    requires Alone(t, ip)
    ensures Alone(LookedUp(c, t, ip, at), ip) && ip in LookedUp(c, t, ip, at).entries
  {
    var p := Pruned(c, t, at);
    assert p.entries.Keys <= {ip};
    SubsetSize(p.entries.Keys, {ip});
  }

  lemma OpensWindow(c: Config, t: Table, ip: Ip, at: int)
    requires WindowOver(c, t, ip, at) && c.maxHttpRequestsPerIp > 0
    ensures InWindow(Next(c, t, Http(ip, at)), ip, at, 1, at) && Granted(c, t, Http(ip, at), ip) == [Grant(at, at)]
  {
    HasRoom(c, t, ip, at);
    var e := CurrentWindow(c, LookedUp(c, t, ip, at).entries[ip], at);
    assert e.windowStarted == at && e.requestCount == 0;
  }

  lemma CountsOn(c: Config, t: Table, ip: Ip, at: int, window: int, count: nat, seen: int)
    requires InWindow(t, ip, window, count, seen) && count < c.maxHttpRequestsPerIp
    requires Since(at, window) < c.window && Since(at, seen) < IdleTimeout(c)
    ensures InWindow(Next(c, t, Http(ip, at)), ip, window, count + 1, at)
    ensures Granted(c, t, Http(ip, at), ip) == [Grant(at, window)]
  {
    HasRoom(c, t, ip, at);
    assert LookedUp(c, t, ip, at).entries[ip] == t.entries[ip];
  }

  lemma {:induction false} LogAppend(c: Config, t: Table, a: seq<Event>, b: seq<Event>, ip: Ip, log: seq<Grant>)
    requires c.maxHttpRequestsPerIp > 0
    ensures Run(c, t, a + b) == Run(c, Run(c, t, a), b)
    ensures Log(c, t, a + b, ip, log) == Log(c, Run(c, t, a), b, ip, Log(c, t, a, ip, log))
    decreases |a|
  {
    if a == [] {
      assert a + b == b;
    } else {
      assert (a + b)[1..] == a[1..] + b;
      LogAppend(c, Next(c, t, a[0]), a[1..], b, ip, log + Granted(c, t, a[0], ip));
    }
  }

  lemma LogJoin(c: Config, t: Table, a: seq<Event>, b: seq<Event>, ip: Ip, log: seq<Grant>, t': Table, log': seq<Grant>)
    requires c.maxHttpRequestsPerIp > 0 && t' == Run(c, t, a) && log' == Log(c, t, a, ip, log)
    ensures Log(c, t, a + b, ip, log) == Log(c, t', b, ip, log')
  {
    LogAppend(c, t, a, b, ip, log);
  }

  lemma LogHead(c: Config, t: Table, e: Event, rest: seq<Event>, ip: Ip, log: seq<Grant>)
    requires c.maxHttpRequestsPerIp > 0
    ensures Run(c, t, [e] + rest) == Run(c, Next(c, t, e), rest)
    ensures Log(c, t, [e] + rest, ip, log) == Log(c, Next(c, t, e), rest, ip, log + Granted(c, t, e, ip))
  {
    assert ([e] + rest)[1..] == rest;
  }

  /** Requests at one time, within one window. */
  lemma {:induction false} Burst(c: Config, t: Table, ip: Ip, at: int, k: nat, window: int, count: nat, seen: int,
                                 log: seq<Grant>, from: int, to: int) returns (t': Table, log': seq<Grant>)
    requires InWindow(t, ip, window, count, seen) && count + k <= c.maxHttpRequestsPerIp && c.maxHttpRequestsPerIp > 0
    requires Since(at, window) < c.window && Since(at, seen) < IdleTimeout(c)
    ensures t' == Run(c, t, Requests(ip, at, k)) && log' == Log(c, t, Requests(ip, at, k), ip, log)
    ensures InWindow(t', ip, window, count + k, if k == 0 then seen else at)
    ensures CountIn(log', from, to) == CountIn(log, from, to) + if from <= at < to then k else 0
    decreases k
  {
    if k == 0 {
      t', log' := t, log;
    } else {
      CountsOn(c, t, ip, at, window, count, seen);
      SnocCountIn(log, Grant(at, window), from, to);
      t', log' := Burst(c, Next(c, t, Http(ip, at)), ip, at, k - 1, window, count + 1, at, log + [Grant(at, window)], from, to);
      LogHead(c, t, Http(ip, at), Requests(ip, at, k - 1), ip, log);
    }
  }

  /** Requests at one time that open a window. */
  lemma Opening(c: Config, t: Table, ip: Ip, at: int, k: nat, log: seq<Grant>, from: int, to: int)
    returns (t': Table, log': seq<Grant>)
    requires WindowOver(c, t, ip, at) && 0 < k <= c.maxHttpRequestsPerIp && 0 < c.window && 0 < IdleTimeout(c)
    ensures t' == Run(c, t, Requests(ip, at, k)) && log' == Log(c, t, Requests(ip, at, k), ip, log)
    ensures InWindow(t', ip, at, k, at)
    ensures CountIn(log', from, to) == CountIn(log, from, to) + if from <= at < to then k else 0
  {
    OpensWindow(c, t, ip, at);
    SnocCountIn(log, Grant(at, at), from, to);
    t', log' := Burst(c, Next(c, t, Http(ip, at)), ip, at, k - 1, at, 1, at, log + [Grant(at, at)], from, to);
    LogHead(c, t, Http(ip, at), Requests(ip, at, k - 1), ip, log);
  }

  /** A window opened by one request and gone on with by `k` more: the run and its log. */
  lemma TwoBursts(c: Config, t: Table, ip: Ip, at: int, later: int, k: nat, log: seq<Grant>, from: int, to: int)
    returns (t': Table, log': seq<Grant>)
    requires WindowOver(c, t, ip, at) && k < c.maxHttpRequestsPerIp && 0 < c.window && 0 < IdleTimeout(c)
    requires Since(later, at) < c.window && Since(later, at) < IdleTimeout(c) && from <= later < to
    ensures t' == Run(c, t, TwoTimes(ip, at, later, k)) && log' == Log(c, t, TwoTimes(ip, at, later, k), ip, log)
    ensures InWindow(t', ip, at, k + 1, if k == 0 then at else later)
    ensures CountIn(log', from, to) >= CountIn(log, from, to) + k
  {
    var t1, log1 := Opening(c, t, ip, at, 1, log, from, to);
    t', log' := Burst(c, t1, ip, later, k, at, 1, at, log1, from, to);
    LogAppend(c, t, Requests(ip, at, 1), Requests(ip, later, k), ip, log);
  }

  /** Where the last window opens. */
  function LastStart(c: Config, at: int, m: nat): int
    decreases m
  {
    if m == 0 then at else LastStart(c, at + c.window, m - 1)
  }

  function Full(c: Config, m: nat): nat {
    if m == 0 then 0 else c.maxHttpRequestsPerIp + Full(c, m - 1)
  }

  lemma {:induction false} LastStartIs(c: Config, at: int, m: nat)
    ensures LastStart(c, at, m) == at + m * c.window
    decreases m
  {
    if m > 0 {
      LastStartIs(c, at + c.window, m - 1);
      OneLess(m, c.window);
    }
  }

  lemma {:induction false} LastIsLater(c: Config, at: int, m: nat)
    ensures LastStart(c, at, m) >= if m == 0 then at else at + c.window
    decreases m
  {
    if m > 0 {
      LastIsLater(c, at + c.window, m - 1);
    }
  }

  lemma {:induction false} FullIs(c: Config, m: nat)
    ensures Full(c, m) == m * c.maxHttpRequestsPerIp
    decreases m
  {
    if m > 0 {
      FullIs(c, m - 1);
      OneLess(m, c.maxHttpRequestsPerIp);
    }
  }

  lemma WindowPasses(c: Config, t: Table, ip: Ip, at: int, count: nat)
    requires InWindow(t, ip, at, count, at)
    ensures WindowOver(c, t, ip, at + c.window)
  {
  }

  lemma FillOn(c: Config, t: Table, ip: Ip, d: nat, at: int, m: nat, log: seq<Grant>, t': Table, log': seq<Grant>)
    requires c.maxHttpRequestsPerIp > 0 && m > 0
    requires t' == Run(c, t, Requests(ip, at, c.maxHttpRequestsPerIp))
    requires log' == Log(c, t, Requests(ip, at, c.maxHttpRequestsPerIp), ip, log)
    ensures Log(c, t, Fill(c, ip, d, at, m), ip, log) == Log(c, t', Fill(c, ip, d, at + c.window, m - 1), ip, log')
  {
    LogJoin(c, t, Requests(ip, at, c.maxHttpRequestsPerIp), Fill(c, ip, d, at + c.window, m - 1), ip, log, t', log');
  }

  lemma FillLast(c: Config, t: Table, ip: Ip, d: nat, at: int, log: seq<Grant>, from: int, to: int) returns (end: seq<Grant>)
    requires c.maxHttpRequestsPerIp > 0 && 0 < c.window && 0 < IdleTimeout(c) && WindowOver(c, t, ip, at)
    requires from <= at - d < to
    ensures end == Log(c, t, Fill(c, ip, d, at, 0), ip, log)
    ensures CountIn(end, from, to) >= CountIn(log, from, to) + c.maxHttpRequestsPerIp - 1
  {
    var t';
    t', end := TwoBursts(c, t, ip, at, at - d, c.maxHttpRequestsPerIp - 1, log, from, to);
  }

  lemma {:induction false} FillCounts(c: Config, t: Table, ip: Ip, d: nat, at: int, m: nat, log: seq<Grant>, from: int, to: int)
    returns (end: seq<Grant>)
    requires c.maxHttpRequestsPerIp > 0 && 0 < c.window && 0 < IdleTimeout(c) && WindowOver(c, t, ip, at)
    requires from <= at && from <= LastStart(c, at, m) - d < to && d <= c.window
    ensures end == Log(c, t, Fill(c, ip, d, at, m), ip, log)
    ensures CountIn(end, from, to) >= CountIn(log, from, to) + Full(c, m) + c.maxHttpRequestsPerIp - 1
    decreases m
  {
    if m == 0 {
      end := FillLast(c, t, ip, d, at, log, from, to);
    } else {
      LastIsLater(c, at, m);
      var t', log' := Opening(c, t, ip, at, c.maxHttpRequestsPerIp, log, from, to);
      WindowPasses(c, t', ip, at, c.maxHttpRequestsPerIp);
      end := FillCounts(c, t', ip, d, at + c.window, m - 1, log', from, to);
      FillOn(c, t, ip, d, at, m, log, t', log');
    }
  }

  lemma {:induction false} RequestsTimely(d: nat, high: int, ip: Ip, at: int, k: nat)
    requires high - d <= at
    ensures Timely(d, high, Requests(ip, at, k)) && High(high, Requests(ip, at, k)) == if k == 0 then high else Max(high, at)
    decreases k
  {
    if k > 0 {
      RequestsTimely(d, Max(high, at), ip, at, k - 1);
    }
  }

  lemma TwoTimesTimely(d: nat, high: int, ip: Ip, at: int, later: int, k: nat)
    requires high <= at && at - d <= later
    ensures Timely(d, high, TwoTimes(ip, at, later, k)) && High(high, TwoTimes(ip, at, later, k)) <= Max(at, later)
  {
    RequestsTimely(d, high, ip, at, 1);
    RequestsTimely(d, at, ip, later, k);
    TimelyAppend(d, high, Requests(ip, at, 1), Requests(ip, later, k));
  }

  lemma {:induction false} FillTimely(c: Config, ip: Ip, d: nat, at: int, m: nat, high: int)
    requires c.maxHttpRequestsPerIp > 0 && high <= at
    ensures Timely(d, high, Fill(c, ip, d, at, m))
    decreases m
  {
    if m == 0 {
      TwoTimesTimely(d, high, ip, at, at - d, c.maxHttpRequestsPerIp - 1);
    } else {
      RequestsTimely(d, high, ip, at, c.maxHttpRequestsPerIp);
      FillTimely(c, ip, d, at + c.window, m - 1, at);
      TimelyAppend(d, high, Requests(ip, at, c.maxHttpRequestsPerIp), Fill(c, ip, d, at + c.window, m - 1));
    }
  }

  lemma CrowdIsTimely(c: Config, ip: Ip, d: nat, m: nat)
    requires c.maxHttpRequestsPerIp > 0 && 0 < c.window
    ensures Timely(d, 0, Crowd(c, ip, d, m))
  {
    var first := TwoTimes(ip, 0, c.window - 1, c.maxHttpRequestsPerIp - 1);
    TwoTimesTimely(d, 0, ip, 0, c.window - 1, c.maxHttpRequestsPerIp - 1);
    FillTimely(c, ip, d, c.window, m, High(0, first));
    TimelyAppend(d, 0, first, Fill(c, ip, d, c.window, m));
  }

  lemma CrowdParts(c: Config, ip: Ip, d: nat, m: nat) returns (first: seq<Event>, rest: seq<Event>)
    requires c.maxHttpRequestsPerIp > 0
    ensures first == TwoTimes(ip, 0, c.window - 1, c.maxHttpRequestsPerIp - 1) && rest == Fill(c, ip, d, c.window, m)
    ensures Crowd(c, ip, d, m) == first + rest
  {
    first := TwoTimes(ip, 0, c.window - 1, c.maxHttpRequestsPerIp - 1);
    rest := Fill(c, ip, d, c.window, m);
  }

  lemma CrowdFills(c: Config, ip: Ip, d: nat, m: nat, from: int, to: int) returns (end: seq<Grant>)
    requires c.maxHttpRequestsPerIp > 0 && 0 < c.window && c.window + 2 * d <= IdleTimeout(c)
    requires from <= c.window - 1 < to && from <= LastStart(c, c.window, m) - d < to
    ensures end == Log(c, Table(map[], 0), Crowd(c, ip, d, m), ip, [])
    ensures CountIn(end, from, to) >= Full(c, m) + 2 * (c.maxHttpRequestsPerIp - 1)
  {
    var empty := Table(map[], 0);
    var t, log := TwoBursts(c, empty, ip, 0, c.window - 1, c.maxHttpRequestsPerIp - 1, [], from, to);
    end := FillCounts(c, t, ip, d, c.window, m, log, from, to);
    var first, rest := CrowdParts(c, ip, d, m);
    LogJoin(c, empty, first, rest, ip, [], t, log);
  }

  lemma CrowdCounts(c: Config, ip: Ip, d: nat, m: nat, to: int)
    requires c.maxHttpRequestsPerIp >= 3 && 0 < c.window && c.window + 2 * d <= IdleTimeout(c) && m > 0
    requires to > LastStart(c, c.window, m) - d
    ensures CountIn(Log(c, Table(map[], 0), Crowd(c, ip, d, m), ip, []), c.window - 1, to) > Full(c, m + 1)
  {
    LastIsLater(c, c.window, m);
    var end := CrowdFills(c, ip, d, m, c.window - 1, to);
  }

  /** For a maximum of three or more the bound of AtMost is exact. */
  lemma AtMostIff(c: Config, d: nat, ip: Ip, length: nat, n: nat)
    requires c.maxHttpRequestsPerIp >= 3 && 0 < c.window && c.window + 2 * d <= IdleTimeout(c) && n > 1
    ensures Limited(c, d, ip, length, n) <==> length + d <= (n - 1) * c.window + 1
  {
    OneLess(n, c.window);
    assert Gap(c, d) == c.window;
    if length + d <= (n - 1) * c.window + 1 {
      forall start, events, from ensures LimitedIn(c, d, ip, length, n, start, events, from) {
        if Timely(d, start, events) {
          AtMost(c, d, events, ip, start, from, length, n);
        }
      }
    } else {
      CrowdIsTimely(c, ip, d, n - 1);
      LastStartIs(c, c.window, n - 1);
      FullIs(c, n);
      CrowdCounts(c, ip, d, n - 1, c.window - 1 + length);
      assert !LimitedIn(c, d, ip, length, n, 0, Crowd(c, ip, d, n - 1), c.window - 1);
    }
  }

  // ----- no request is denied without cause -----

  lemma {:induction false} WindowIsRecent(c: Config, d: nat, log: seq<Grant>, high: int, window: int)
    requires Timed(c, d, log, high)
    ensures CountWindow(log, window) <= CountIn(log, window - d, high + 1)
    decreases |log|
  {
    if log != [] {
      WindowIsRecent(c, d, log[..|log| - 1], high, window);
    }
  }

  lemma {:induction false} CountMonotone(log: seq<Grant>, from: int, to: int, from': int, to': int)
    requires from' <= from && to <= to'
    ensures CountIn(log, from, to) <= CountIn(log, from', to')
    decreases |log|
  {
    if log != [] {
      CountMonotone(log[..|log| - 1], from, to, from', to');
    }
  }

  lemma DeniedOnlyAtLimit(c: Config, d: nat, t: Table, ip: Ip, log: seq<Grant>, high: int, now: int)
    requires Fits(c, d, t, ip, log, high) && Reading(d, high, now) && c.maxHttpRequestsPerIp > 0
    requires !HttpAllowed(c, t, ip, now)
    ensures |LookedUp(c, t, ip, now).entries| >= 8192
      || CountIn(log, now - c.window + 1 - d, now + 1 + d) >= c.maxHttpRequestsPerIp
  {
    var u := LookedUp(c, t, ip, now);
    LookupFits(c, d, t, ip, ip, log, high, now);
    if ip in u.entries {
      RequestFits(c, d, u, ip, log, high, now);
      var start := CurrentWindow(c, u.entries[ip], now).windowStarted;
      WindowIsRecent(c, d, log, high, start);
      CountMonotone(log, start - d, high + 1, now - c.window + 1 - d, now + 1 + d);
    }
  }

  /** After any run a request is denied only if the table is full or the address has had its
      maximum within the last window length, give or take the disorder. */
  lemma DenialHasCause(c: Config, d: nat, events: seq<Event>, ip: Ip, start: int, now: int)
    requires Timely(d, start, events + [Http(ip, now)]) && c.maxHttpRequestsPerIp > 0
    requires !HttpAllowed(c, Run(c, Table(map[], start), events), ip, now)
    ensures |LookedUp(c, Run(c, Table(map[], start), events), ip, now).entries| >= 8192
      || CountIn(Log(c, Table(map[], start), events, ip, []), now - c.window + 1 - d, now + 1 + d) >= c.maxHttpRequestsPerIp
  {
    TimelyAppend(d, start, events, [Http(ip, now)]);
    var log := LogFits(c, d, events, ip, start);
    var t, high := Run(c, Table(map[], start), events), High(start, events);
    FitsLater(c, d, t, ip, log, high, Max(high, now));
    DeniedOnlyAtLimit(c, d, t, ip, log, Max(high, now), now);
  }

  lemma {:induction false} TimelyAppend(d: nat, high: int, a: seq<Event>, b: seq<Event>)
    ensures Timely(d, high, a + b) <==> Timely(d, high, a) && Timely(d, High(high, a), b)
    ensures High(high, a + b) == High(High(high, a), b)
    decreases |a|
  {
    if a == [] {
      assert a + b == b;
    } else {
      assert (a + b)[1..] == a[1..] + b;
      TimelyAppend(d, Max(high, a[0].at), a[1..], b);
    }
  }

  // ----- the table forgets -----

  /** An event of this address with this reading. */
  ghost predicate Happened(events: seq<Event>, ip: Ip, at: int) {
    exists k :: 0 <= k < |events| && events[k].ip == ip && events[k].at == at
  }

  predicate Unguarded(e: Entry) {
    e.streamers == 0 && e.listeners == 0
  }

  /** The longest time for which pruning leaves an entry without a guard. */
  function LongestIdle(c: Config): nat {
    if c.window == 0 then 0 else IdleTimeout(c) - 1
  }

  /** Every entry was last seen at an event of its address; without a guard, not long before the
      last pruning. */
  ghost predicate Recent(c: Config, d: nat, t: Table, past: seq<Event>, high: int) {
    && t.lastPruned <= high
    && forall ip | ip in t.entries ::
         && Happened(past, ip, t.entries[ip].lastSeen)
         && (Unguarded(t.entries[ip]) ==> t.lastPruned - LongestIdle(c) - d <= t.entries[ip].lastSeen)
  }

  lemma HappenedMore(past: seq<Event>, e: Event, ip: Ip, at: int)
    ensures Happened(past, ip, at) ==> Happened(past + [e], ip, at)
    ensures Happened(past + [e], e.ip, e.at)
  {
    assert (past + [e])[|past|] == e;
    if Happened(past, ip, at) {
      var k :| 0 <= k < |past| && past[k].ip == ip && past[k].at == at;
      assert (past + [e])[k] == past[k];
    }
  }

  /** Where an entry stands after an event: as it was, or just seen. */
  ghost predicate Touched(c: Config, t: Table, t': Table, ip: Ip, e: Event) {
    ip in t'.entries ==>
      || (ip == e.ip && t'.entries[ip].lastSeen == e.at)
      || (&& ip in t.entries && t'.entries[ip] == t.entries[ip]
          && (t'.lastPruned == t.lastPruned || !Unguarded(t.entries[ip]) || e.at - LongestIdle(c) <= t.entries[ip].lastSeen))
  }

  lemma LookupTouches(c: Config, t: Table, e: Event, ip: Ip)
    requires !e.Drop?
    ensures var t' := LookedUp(c, t, e.ip, e.at);
      Touched(c, t, t', ip, e) && (t'.lastPruned == t.lastPruned || t'.lastPruned == e.at)
  {
  }

  lemma EventTouches(c: Config, t: Table, e: Event, ip: Ip)
    ensures Touched(c, t, Next(c, t, e), ip, e)
    ensures Next(c, t, e).lastPruned == t.lastPruned || Next(c, t, e).lastPruned == e.at
  {
    if !e.Drop? {
      LookupTouches(c, t, e, ip);
    }
  }

  lemma EventKeepsRecent(c: Config, d: nat, t: Table, past: seq<Event>, high: int, e: Event)
    requires Recent(c, d, t, past, high) && high - d <= e.at
    ensures Recent(c, d, Next(c, t, e), past + [e], Max(high, e.at))
  {
    var t' := Next(c, t, e);
    EventTouches(c, t, e, e.ip);
    forall ip | ip in t'.entries
      ensures Happened(past + [e], ip, t'.entries[ip].lastSeen)
      ensures Unguarded(t'.entries[ip]) ==> t'.lastPruned - LongestIdle(c) - d <= t'.entries[ip].lastSeen
    {
      EventTouches(c, t, e, ip);
      HappenedMore(past, e, ip, t'.entries[ip].lastSeen);
    }
  }

  lemma {:induction false} RunKeepsRecent(c: Config, d: nat, t: Table, past: seq<Event>, events: seq<Event>, high: int)
    requires Recent(c, d, t, past, high) && Timely(d, high, events)
    ensures Recent(c, d, Run(c, t, events), past + events, High(high, events))
    decreases |events|
  {
    if events == [] {
      assert past + events == past;
    } else {
      EventKeepsRecent(c, d, t, past, high, events[0]);
      RunKeepsRecent(c, d, Next(c, t, events[0]), past + [events[0]], events[1..], Max(high, events[0].at));
      assert past + [events[0]] + events[1..] == past + events;
    }
  }

  /** The event looks its address up, which prunes the table if that is due. */
  predicate LooksUp(c: Config, e: Event) {
    (e.Http? && c.maxHttpRequestsPerIp > 0) || (e.Acquire? && Limit(c, e.kind) > 0)
  }

  lemma LookupIsPruned(c: Config, t: Table, e: Event)
    requires LooksUp(c, e)
    ensures Next(c, t, e).lastPruned >= e.at - if c.window == 0 then 0 else c.window - 1
  {
  }

  /** Nothing idle stays: after every look-up each entry without a guard belongs to an address
      that had an event less than three window lengths ago, give or take the disorder. */
  lemma IdleEntriesLeave(c: Config, d: nat, events: seq<Event>, e: Event, start: int, ip: Ip)
    requires Timely(d, start, events + [e]) && LooksUp(c, e)
    ensures var t := Run(c, Table(map[], start), events + [e]);
      ip in t.entries && Unguarded(t.entries[ip]) ==>
        exists at :: e.at - d - (if c.window == 0 then 0 else 3 * c.window - 2) <= at && Happened(events + [e], ip, at)
  {
    var all, empty := events + [e], Table(map[], start);
    RunKeepsRecent(c, d, empty, [], all, start);
    assert [] + all == all;
    RunAppend(c, empty, events, e);
    LookupIsPruned(c, Run(c, empty, events), e);
    var t := Run(c, empty, all);
    if ip in t.entries && Unguarded(t.entries[ip]) {
      assert Happened(all, ip, t.entries[ip].lastSeen);
    }
  }

  lemma {:induction false} RunAppend(c: Config, t: Table, events: seq<Event>, e: Event)
    ensures Run(c, t, events + [e]) == Next(c, Run(c, t, events), e)
    decreases |events|
  {
    if events == [] {
      assert [] + [e] == [e] && [e][1..] == [];
    } else {
      assert (events + [e])[1..] == events[1..] + [e];
      RunAppend(c, Next(c, t, events[0]), events[1..], e);
    }
  }

  lemma EventKeepsEntry(c: Config, t: Table, e: Event, ip: Ip, from: int)
    requires ip in t.entries && from <= t.entries[ip].lastSeen && from <= e.at < from + 2 * c.window && 2 * c.window <= DURATION_MAX
    ensures ip in Next(c, t, e).entries && from <= Next(c, t, e).entries[ip].lastSeen
  {
  }

  /** And nothing in use is forgotten: an entry outlasts all events of the two window lengths after
      it was last seen. */
  lemma {:induction false} RecentEntriesStay(c: Config, t: Table, events: seq<Event>, ip: Ip, from: int)
    requires ip in t.entries && from <= t.entries[ip].lastSeen && 2 * c.window <= DURATION_MAX
    requires forall k | 0 <= k < |events| :: from <= events[k].at < from + 2 * c.window
    ensures ip in Run(c, t, events).entries
    decreases |events|
  {
    if events != [] {
      EventKeepsEntry(c, t, events[0], ip, from);
      RecentEntriesStay(c, Next(c, t, events[0]), events[1..], ip, from);
    }
  }
}
