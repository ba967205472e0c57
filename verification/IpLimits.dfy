/** The per-IP table (server/src/limits.rs): HTTP request windows and live guards per address. */
module IpLimits {
  import opened Arithmetic
  import opened Common

  const MAX_IP_LIMIT_ENTRIES: nat := 8192
  const DURATION_MAX: nat := U64 * 1_000_000_000 - 1   // nanoseconds

  /** `window` is http_rate_limit_window; a limit of zero means no limit. */
  datatype Config = Config(window: nat, maxHttpRequestsPerIp: nat, maxStreamersPerIp: nat, maxListenersPerIp: nat)

  datatype Kind = Streamer | Listener

  datatype Entry = Entry(windowStarted: int, requestCount: nat, streamers: nat, listeners: nat, lastSeen: int)

  datatype Table = Table(entries: map<Ip, Entry>, lastPruned: int)

  datatype Acquired = Guarded | Unlimited | TableFull | LimitReached

  function Limit(c: Config, kind: Kind): nat {
    if kind.Streamer? then c.maxStreamersPerIp else c.maxListenersPerIp
  }

  function Count(e: Entry, kind: Kind): nat {
    if kind.Streamer? then e.streamers else e.listeners
  }

  function WithCount(e: Entry, kind: Kind, n: nat): Entry {
    if kind.Streamer? then e.(streamers := n) else e.(listeners := n)
  }

  /** duration_since, which is zero for an earlier instant. */
  function Since(now: int, then_: int): nat {
    if now >= then_ then now - then_ else 0
  }

  function IdleTimeout(c: Config): nat {
    if 2 * c.window <= DURATION_MAX then 2 * c.window else DURATION_MAX
  }

  predicate Kept(c: Config, e: Entry, now: int) {
    e.streamers != 0 || e.listeners != 0 || Since(now, e.lastSeen) < IdleTimeout(c)
  }

  function Pruned(c: Config, t: Table, now: int): Table {
    if Since(now, t.lastPruned) < c.window then t
    else Table(map ip | ip in t.entries && Kept(c, t.entries[ip], now) :: t.entries[ip], now)
  }

  /** The table after the look-up of `ip`, which may fail to make room for it. */
  function LookedUp(c: Config, t: Table, ip: Ip, now: int): Table {
    var p := Pruned(c, t, now);
    if ip in p.entries || |p.entries| >= MAX_IP_LIMIT_ENTRIES then p
    else p.(entries := p.entries[ip := Entry(now, 0, 0, 0, now)])
  }

  function Update(t: Table, ip: Ip, e: Entry): Table {
    t.(entries := t.entries[ip := e])
  }

  /** The entry as a request finds it: a new window if the old one is over. */
  function CurrentWindow(c: Config, e: Entry, now: int): Entry {
    if Since(now, e.windowStarted) >= c.window then e.(windowStarted := now, requestCount := 0) else e
  }

  predicate HttpAllowed(c: Config, t: Table, ip: Ip, now: int) {
    c.maxHttpRequestsPerIp == 0 ||
    var u := LookedUp(c, t, ip, now);
    ip in u.entries && CurrentWindow(c, u.entries[ip], now).requestCount < c.maxHttpRequestsPerIp
  }

  function AfterHttp(c: Config, t: Table, ip: Ip, now: int): Table {
    if c.maxHttpRequestsPerIp == 0 then t
    else
      var u := LookedUp(c, t, ip, now);
      if ip !in u.entries then u
      else
        var e := CurrentWindow(c, u.entries[ip], now).(lastSeen := now);
        Update(u, ip, if e.requestCount < c.maxHttpRequestsPerIp then e.(requestCount := e.requestCount + 1) else e)
  }

  function AcquireResult(c: Config, t: Table, ip: Ip, kind: Kind, now: int): Acquired {
    if Limit(c, kind) == 0 then Unlimited
    else
      var u := LookedUp(c, t, ip, now);
      if ip !in u.entries then TableFull
      else if Count(u.entries[ip], kind) >= Limit(c, kind) then LimitReached
      else Guarded
  }

  function AfterAcquire(c: Config, t: Table, ip: Ip, kind: Kind, now: int): Table {
    if Limit(c, kind) == 0 then t
    else
      var u := LookedUp(c, t, ip, now);
      if ip !in u.entries then u
      else
        var e := u.entries[ip].(lastSeen := now);
        Update(u, ip, if Count(e, kind) < Limit(c, kind) then WithCount(e, kind, Count(e, kind) + 1) else e)
  }

  function AfterDrop(t: Table, ip: Ip, kind: Kind, now: int): Table {
    if ip !in t.entries then t
    else
      var e := t.entries[ip];
      Update(t, ip, WithCount(e, kind, if Count(e, kind) > 0 then Count(e, kind) - 1 else 0).(lastSeen := now))
  }

  class IpLimitTable {
    var entries: map<Ip, Entry>
    var lastPruned: int

    function State(): Table
      reads this
    {
      Table(entries, lastPruned)
    }

    constructor (now: int)
      ensures State() == Table(map[], now)
    {
      entries, lastPruned := map[], now;
    }

    method PruneIfDue(c: Config, now: int)
      modifies this
      ensures State() == Pruned(c, old(State()), now)
    {
      if Since(now, lastPruned) < c.window {
        return;
      }
      lastPruned := now;
      entries := map ip | ip in entries && Kept(c, entries[ip], now) :: entries[ip];
    }

    method FindEntry(c: Config, ip: Ip, now: int) returns (found: bool)
      modifies this
      ensures State() == LookedUp(c, old(State()), ip, now) && found == (ip in entries)
    {
      PruneIfDue(c, now);
      var canInsert := |entries| < MAX_IP_LIMIT_ENTRIES;
      if ip in entries {
        return true;
      }
      if canInsert {
        entries := entries[ip := Entry(now, 0, 0, 0, now)];
      }
      return canInsert;
    }

    method AllowHttpRequest(c: Config, ip: Ip, now: int) returns (ok: bool)
      modifies this
      ensures ok == HttpAllowed(c, old(State()), ip, now) && State() == AfterHttp(c, old(State()), ip, now)
    {
      if c.maxHttpRequestsPerIp == 0 {
        return true;
      }
      var found := FindEntry(c, ip, now);
      if !found {
        return false;
      }
      var e := entries[ip];
      if Since(now, e.windowStarted) >= c.window {
        e := e.(windowStarted := now, requestCount := 0);
      }
      e := e.(lastSeen := now);
      ok := e.requestCount < c.maxHttpRequestsPerIp;
      if ok {
        e := e.(requestCount := e.requestCount + 1);
      }
      entries := entries[ip := e];
    }

    method TryAcquireIp(c: Config, ip: Ip, kind: Kind, now: int) returns (r: Acquired)
      modifies this
      ensures r == AcquireResult(c, old(State()), ip, kind, now) && State() == AfterAcquire(c, old(State()), ip, kind, now)
    {
      if Limit(c, kind) == 0 {
        return Unlimited;
      }
      var found := FindEntry(c, ip, now);
      if !found {
        return TableFull;
      }
      var e := entries[ip].(lastSeen := now);
      r := LimitReached;
      if Count(e, kind) < Limit(c, kind) {
        e := WithCount(e, kind, Count(e, kind) + 1);
        r := Guarded;
      }
      entries := entries[ip := e];
    }

    method DropGuard(ip: Ip, kind: Kind, now: int)
      modifies this
      ensures State() == AfterDrop(old(State()), ip, kind, now)
    {
      if ip in entries {
        var e := entries[ip];
        e := WithCount(e, kind, if Count(e, kind) > 0 then Count(e, kind) - 1 else 0);
        entries := entries[ip := e.(lastSeen := now)];
      }
    }
  }

  // ----- runs -----

  datatype Guard = Guard(ip: Ip, kind: Kind)

  datatype Event =
    | Http(ip: Ip, at: int)
    | Acquire(ip: Ip, kind: Kind, at: int)
    | Drop(ip: Ip, kind: Kind, at: int)

  function Next(c: Config, t: Table, e: Event): Table {
    match e
    case Http(ip, at) => AfterHttp(c, t, ip, at)
    case Acquire(ip, kind, at) => AfterAcquire(c, t, ip, kind, at)
    case Drop(ip, kind, at) => AfterDrop(t, ip, kind, at)
  }

  /** The guards alive after an event. */
  function LiveAfter(c: Config, t: Table, live: multiset<Guard>, e: Event): multiset<Guard> {
    match e
    case Http(_, _) => live
    case Acquire(ip, kind, at) =>
      if AcquireResult(c, t, ip, kind, at).Guarded? then live + multiset{Guard(ip, kind)} else live
    case Drop(ip, kind, _) => live - multiset{Guard(ip, kind)}
  }

  /** Only a live guard is dropped. */
  predicate Legal(c: Config, t: Table, live: multiset<Guard>, events: seq<Event>)
    decreases |events|
  {
    events == [] ||
    (var e := events[0];
     (e.Drop? ==> Guard(e.ip, e.kind) in live) && Legal(c, Next(c, t, e), LiveAfter(c, t, live, e), events[1..]))
  }

  function Run(c: Config, t: Table, events: seq<Event>): Table
    decreases |events|
  {
    if events == [] then t else Run(c, Next(c, t, events[0]), events[1..])
  }

  function LiveAtEnd(c: Config, t: Table, live: multiset<Guard>, events: seq<Event>): multiset<Guard>
    decreases |events|
  {
    if events == [] then live
    else LiveAtEnd(c, Next(c, t, events[0]), LiveAfter(c, t, live, events[0]), events[1..])
  }

  function Tracked(t: Table, g: Guard): nat {
    if g.ip in t.entries then Count(t.entries[g.ip], g.kind) else 0
  }

  /** Each entry counts exactly the live guards of its address, within the limits. */
  ghost predicate Agrees(c: Config, t: Table, live: multiset<Guard>) {
    && |t.entries| <= 8192
    && forall g: Guard :: Tracked(t, g) == live[g] && live[g] <= Limit(c, g.kind)
  }

  lemma PruneAgrees(c: Config, t: Table, live: multiset<Guard>, now: int)
    requires Agrees(c, t, live)
    ensures Agrees(c, Pruned(c, t, now), live)
  {
    var p := Pruned(c, t, now);
    assert p.entries.Keys <= t.entries.Keys;
    SubsetSize(p.entries.Keys, t.entries.Keys);
    forall g: Guard ensures Tracked(p, g) == live[g] {
      assert Tracked(t, g) == live[g];
    }
  }

  lemma LookupAgrees(c: Config, t: Table, live: multiset<Guard>, ip: Ip, now: int)
    requires Agrees(c, t, live)
    ensures Agrees(c, LookedUp(c, t, ip, now), live)
  {
    PruneAgrees(c, t, live, now);
    var p, u := Pruned(c, t, now), LookedUp(c, t, ip, now);
    assert u != p ==> u.entries.Keys == p.entries.Keys + {ip};
    forall g: Guard ensures Tracked(u, g) == live[g] {
      assert Tracked(p, g) == live[g];
    }
  }

  ghost predicate Counts(c: Config, e: Entry, ip: Ip, live: multiset<Guard>) {
    && e.streamers == live[Guard(ip, Streamer)] <= c.maxStreamersPerIp
    && e.listeners == live[Guard(ip, Listener)] <= c.maxListenersPerIp
  }

  lemma UpdateAgrees(c: Config, t: Table, live: multiset<Guard>, ip: Ip, e: Entry, live': multiset<Guard>)
    requires Agrees(c, t, live) && ip in t.entries
    requires forall g: Guard :: g.ip != ip ==> live'[g] == live[g]
    requires Counts(c, e, ip, live')
    ensures Agrees(c, Update(t, ip, e), live')
  {
    var u := Update(t, ip, e);
    assert u.entries.Keys == t.entries.Keys;
    forall g: Guard ensures Tracked(u, g) == live'[g] && live'[g] <= Limit(c, g.kind) {
      assert Tracked(t, g) == live[g];
      assert g == Guard(g.ip, Streamer) || g == Guard(g.ip, Listener);
    }
  }

  lemma CountsOf(c: Config, t: Table, live: multiset<Guard>, ip: Ip)
    requires Agrees(c, t, live) && ip in t.entries
    ensures Counts(c, t.entries[ip], ip, live)
  {
    assert Tracked(t, Guard(ip, Streamer)) == live[Guard(ip, Streamer)];
    assert Tracked(t, Guard(ip, Listener)) == live[Guard(ip, Listener)];
  }

  lemma HttpAgrees(c: Config, t: Table, live: multiset<Guard>, ip: Ip, now: int)
    requires Agrees(c, t, live)
    ensures Agrees(c, AfterHttp(c, t, ip, now), live)
  {
    var u := LookedUp(c, t, ip, now);
    LookupAgrees(c, t, live, ip, now);
    if c.maxHttpRequestsPerIp > 0 && ip in u.entries {
      CountsOf(c, u, live, ip);
      UpdateAgrees(c, u, live, ip, AfterHttp(c, t, ip, now).entries[ip], live);
    }
  }

  /** One more guard and one more counted. */
  lemma GrantAgrees(c: Config, u: Table, live: multiset<Guard>, ip: Ip, kind: Kind, now: int)
    requires Agrees(c, u, live) && ip in u.entries && Count(u.entries[ip], kind) < Limit(c, kind)
    ensures var e := u.entries[ip].(lastSeen := now);
      Agrees(c, Update(u, ip, WithCount(e, kind, Count(e, kind) + 1)), live + multiset{Guard(ip, kind)})
  {
    var e := u.entries[ip].(lastSeen := now);
    CountsOf(c, u, live, ip);
    UpdateAgrees(c, u, live, ip, WithCount(e, kind, Count(e, kind) + 1), live + multiset{Guard(ip, kind)});
  }

  lemma RefusalAgrees(c: Config, u: Table, live: multiset<Guard>, ip: Ip, now: int)
    requires Agrees(c, u, live) && ip in u.entries
    ensures Agrees(c, Update(u, ip, u.entries[ip].(lastSeen := now)), live)
  {
    CountsOf(c, u, live, ip);
    UpdateAgrees(c, u, live, ip, u.entries[ip].(lastSeen := now), live);
  }

  lemma AcquireAgrees(c: Config, t: Table, live: multiset<Guard>, ip: Ip, kind: Kind, now: int)
    requires Agrees(c, t, live)
    ensures Agrees(c, AfterAcquire(c, t, ip, kind, now), LiveAfter(c, t, live, Acquire(ip, kind, now)))
  {
    var u := LookedUp(c, t, ip, now);
    LookupAgrees(c, t, live, ip, now);
    if Limit(c, kind) > 0 && ip in u.entries {
      if Count(u.entries[ip], kind) < Limit(c, kind) {
        GrantAgrees(c, u, live, ip, kind, now);
      } else {
        RefusalAgrees(c, u, live, ip, now);
      }
    }
  }

  /** The subtraction of a drop never clips. */
  lemma DropAgrees(c: Config, t: Table, live: multiset<Guard>, ip: Ip, kind: Kind, now: int)
    requires Agrees(c, t, live) && Guard(ip, kind) in live
    ensures ip in t.entries && Count(t.entries[ip], kind) > 0
    ensures Agrees(c, AfterDrop(t, ip, kind, now), live - multiset{Guard(ip, kind)})
  {
    assert Tracked(t, Guard(ip, kind)) == live[Guard(ip, kind)];
    CountsOf(c, t, live, ip);
    UpdateAgrees(c, t, live, ip, AfterDrop(t, ip, kind, now).entries[ip], live - multiset{Guard(ip, kind)});
  }

  /** A guard is granted exactly while the address holds fewer than the limit and has an entry. */
  lemma GuardedIff(c: Config, t: Table, live: multiset<Guard>, ip: Ip, kind: Kind, now: int)
    requires Agrees(c, t, live) && Limit(c, kind) > 0
    ensures AcquireResult(c, t, ip, kind, now) ==
      if ip !in LookedUp(c, t, ip, now).entries then TableFull
      else if live[Guard(ip, kind)] < Limit(c, kind) then Guarded else LimitReached
    ensures ip !in LookedUp(c, t, ip, now).entries ==> live[Guard(ip, kind)] == 0
  {
    LookupAgrees(c, t, live, ip, now);
    assert Tracked(LookedUp(c, t, ip, now), Guard(ip, kind)) == live[Guard(ip, kind)];
  }

  /** Over every run the table agrees with the live guards. */
  lemma {:induction false} CountsAreLiveGuards(c: Config, t: Table, live: multiset<Guard>, events: seq<Event>)
    requires Agrees(c, t, live) && Legal(c, t, live, events)
    ensures Agrees(c, Run(c, t, events), LiveAtEnd(c, t, live, events))
    decreases |events|
  {
    if events != [] {
      match events[0] {
        case Http(ip, at) => HttpAgrees(c, t, live, ip, at);
        case Acquire(ip, kind, at) => AcquireAgrees(c, t, live, ip, kind, at);
        case Drop(ip, kind, at) => DropAgrees(c, t, live, ip, kind, at);
      }
      CountsAreLiveGuards(c, Next(c, t, events[0]), LiveAfter(c, t, live, events[0]), events[1..]);
    }
  }
}
