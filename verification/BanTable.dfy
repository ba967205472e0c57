/** The table of streamer IP bans (server/src/main.rs): each ban links an IP to the
    blacklisted stream ID that caused it.  The table is bounded; IDs whose bans did not
    fit are remembered in `overflowed`, and while any is left every IP counts as blocked.

    The functions describe one lock-protected section each; class StreamerIpBans is the
    in-place code, proved against them.  The bounded table is then related, over every
    run, to the unbounded relation of all bans whose ID is still blacklisted. */
module BanTable {
  import opened Common

  type Key = string  // a stream ID
  type Ban = (Ip, Key)

  const MAX_STREAMER_IP_BANS: nat := 65_536

  datatype Bans = Bans(byIp: map<Ip, set<Key>>, associations: nat, overflowed: set<Key>)

  const NO_BANS := Bans(map[], 0, {})

  predicate Recorded(b: Bans, ip: Ip, key: Key) {
    ip in b.byIp && key in b.byIp[ip]
  }

  /** What the table remembers about one ban: the pair itself, or at least its ID. */
  predicate Remembered(b: Bans, ip: Ip, key: Key) {
    Recorded(b, ip, key) || key in b.overflowed
  }

  predicate IsBlocked(b: Bans, ip: Ip) {
    ip in b.byIp || b.overflowed != {}
  }

  function IdsOf(m: map<Ip, set<Key>>, ip: Ip): set<Key> {
    if ip in m then m[ip] else {}
  }

  /** block_streamer_ip_if_blacklisted, under the read lock on the blacklist. */
  function Block(b: Bans, blacklist: set<Key>, key: Key, ip: Ip): Bans {
    if key !in blacklist || Recorded(b, ip, key) then b
    else if b.associations < MAX_STREAMER_IP_BANS then
      b.(byIp := b.byIp[ip := IdsOf(b.byIp, ip) + {key}], associations := b.associations + 1)
    else b.(overflowed := b.overflowed + {key})
  }

  function KeptIds(m: map<Ip, set<Key>>, entries: set<Key>): map<Ip, set<Key>> {
    map ip | ip in m && m[ip] * entries != {} :: m[ip] * entries
  }

  /** The rewrite of the table in replace_stream_blacklist. */
  ghost function Retain(b: Bans, entries: set<Key>): Bans {
    var kept := KeptIds(b.byIp, entries);
    Bans(kept, |Pairs(kept)|, b.overflowed * entries)
  }

  ghost function Pairs(m: map<Ip, set<Key>>): set<Ban> {
    set ip, key | ip in m && key in m[ip] :: (ip, key)
  }

  // ----- the table as the server updates it -----

  class StreamerIpBans {
    var blacklist: set<Key>
    var byIp: map<Ip, set<Key>>
    var associations: nat
    var overflowedIds: set<Key>

    function Table(): Bans
      reads this
    {
      Bans(byIp, associations, overflowedIds)
    }

    constructor (entries: set<Key>)
      ensures blacklist == entries && Table() == NO_BANS
    {
      blacklist, byIp, associations, overflowedIds := entries, map[], 0, {};
    }

    method StreamerIpIsBlocked(ip: Ip) returns (blocked: bool)
      ensures blocked == IsBlocked(Table(), ip)
    {
      blocked := ip in byIp || overflowedIds != {};
    }

    method BlockStreamerIpIfBlacklisted(key: Key, ip: Ip) returns (blacklisted: bool)
      modifies this
      ensures blacklist == old(blacklist)
      ensures blacklisted == (key in blacklist)
      ensures Table() == Block(old(Table()), blacklist, key, ip)
    {
      if key !in blacklist {
        return false;
      }
      if ip in byIp && key in byIp[ip] {
        return true;
      }
      if associations < MAX_STREAMER_IP_BANS {
        var ids := if ip in byIp then byIp[ip] else {};
        byIp := byIp[ip := ids + {key}];
        associations := associations + 1;
      } else if key !in overflowedIds {
        overflowedIds := overflowedIds + {key};
      }
      return true;
    }

    /** Returns whether the list changed; the caller then notifies the streamers. */
    method ReplaceStreamBlacklist(entries: set<Key>) returns (changed: bool)
      modifies this
      ensures blacklist == entries
      ensures changed == (old(blacklist) != entries)
      ensures Table() == if changed then Retain(old(Table()), entries) else old(Table())
    {
      if blacklist == entries {
        return false;
      }
      var kept: map<Ip, set<Key>> := map[];
      var total := 0;
      var todo := byIp.Keys;
      while todo != {}
        invariant todo <= byIp.Keys
        invariant kept == KeptIds(Without(byIp, todo), entries)
        invariant total == |Pairs(kept)|
        invariant byIp == old(byIp) && overflowedIds == old(overflowedIds)
        decreases |todo|
      {
        var ip :| ip in todo;
        var ids := byIp[ip] * entries;
        KeptMore(byIp, todo, entries, ip);
        if ids != {} {
          PairsExtend(kept, ip, ids);
          kept := kept[ip := ids];
          total := total + |ids|;
        }
        todo := todo - {ip};
      }
      assert Without(byIp, {}) == byIp;
      byIp := kept;
      associations := total;
      overflowedIds := overflowedIds * entries;
      blacklist := entries;
      return true;
    }
  }

  function Without(m: map<Ip, set<Key>>, todo: set<Ip>): map<Ip, set<Key>> {
    map ip | ip in m && ip !in todo :: m[ip]
  }

  lemma KeptMore(m: map<Ip, set<Key>>, todo: set<Ip>, entries: set<Key>, ip: Ip)
    requires ip in todo && ip in m
    ensures ip !in KeptIds(Without(m, todo), entries)
    ensures var ids, kept := m[ip] * entries, KeptIds(Without(m, todo), entries);
      KeptIds(Without(m, todo - {ip}), entries) == if ids == {} then kept else kept[ip := ids]
  {
  }

  /** The bans of one IP. */
  ghost function BansOf(ip: Ip, ids: set<Key>): set<Ban> {
    set key | key in ids :: (ip, key)
  }

  lemma OneMoreBan(ip: Ip, ids: set<Key>, key: Key)
    requires key in ids
    ensures BansOf(ip, ids) == BansOf(ip, ids - {key}) + {(ip, key)} && (ip, key) !in BansOf(ip, ids - {key})
  {
  }

  lemma DisjointSize<T>(a: set<T>, b: set<T>)
    requires a !! b
    ensures |a + b| == |a| + |b|
  {
  }

  lemma PairsOfOne(ip: Ip, ids: set<Key>)
    ensures |BansOf(ip, ids)| == |ids|
    decreases |ids|
  {
    if ids == {} {
      assert BansOf(ip, ids) == {};
    } else {
      var k :| k in ids;
      PairsOfOne(ip, ids - {k});
      OneMoreBan(ip, ids, k);
      DisjointSize(BansOf(ip, ids - {k}), {(ip, k)});
    }
  }

  lemma PairsSplit(m: map<Ip, set<Key>>, ip: Ip, ids: set<Key>)
    requires ip !in m
    ensures Pairs(m[ip := ids]) == Pairs(m) + BansOf(ip, ids) && Pairs(m) !! BansOf(ip, ids)
  {
  }

  lemma PairsExtend(m: map<Ip, set<Key>>, ip: Ip, ids: set<Key>)
    requires ip !in m
    ensures |Pairs(m[ip := ids])| == |Pairs(m)| + |ids|
  {
    PairsOfOne(ip, ids);
    PairsSplit(m, ip, ids);
    DisjointSize(Pairs(m), BansOf(ip, ids));
  }

  // ----- every run, against the unbounded table -----

  datatype Event = Attempt(key: Key, ip: Ip) | Reload(entries: set<Key>)

  /** `all` holds every ban the unbounded table would hold. */
  datatype World = World(blacklist: set<Key>, bans: Bans, all: set<Ban>)

  ghost function Apply(w: World, e: Event): World {
    match e
    case Attempt(key, ip) =>
      w.(bans := Block(w.bans, w.blacklist, key, ip),
         all := if key in w.blacklist then w.all + {(ip, key)} else w.all)
    case Reload(entries) =>
      if entries == w.blacklist then w
      else World(entries, Retain(w.bans, entries), set p | p in w.all && p.1 in entries)
  }

  ghost function Run(initial: set<Key>, events: seq<Event>): World {
    if events == [] then World(initial, NO_BANS, {})
    else Apply(Run(initial, events[..|events| - 1]), events[|events| - 1])
  }

  ghost predicate WellFormed(b: Bans, blacklist: set<Key>) {
    && b.associations == |Pairs(b.byIp)| <= MAX_STREAMER_IP_BANS
    && (forall ip | ip in b.byIp :: b.byIp[ip] != {} && b.byIp[ip] <= blacklist)
    && b.overflowed <= blacklist
  }

  ghost predicate Refines(w: World) {
    && (forall p | p in w.all :: p.1 in w.blacklist && Remembered(w.bans, p.0, p.1))
    && (forall ip, key | Recorded(w.bans, ip, key) :: (ip, key) in w.all)
    && (forall key | key in w.bans.overflowed :: exists ip :: (ip, key) in w.all)
  }

  lemma PairsPlus(m: map<Ip, set<Key>>, ip: Ip, key: Key)
    requires !(ip in m && key in m[ip])
    ensures Pairs(m[ip := IdsOf(m, ip) + {key}]) == Pairs(m) + {(ip, key)} && (ip, key) !in Pairs(m)
  {
  }

  lemma PairsAdd(m: map<Ip, set<Key>>, ip: Ip, key: Key)
    requires !(ip in m && key in m[ip])
    ensures |Pairs(m[ip := IdsOf(m, ip) + {key}])| == |Pairs(m)| + 1
  {
    PairsPlus(m, ip, key);
    DisjointSize(Pairs(m), {(ip, key)});
  }

  lemma BlockKeeps(b: Bans, blacklist: set<Key>, key: Key, ip: Ip)
    requires WellFormed(b, blacklist)
    ensures WellFormed(Block(b, blacklist, key, ip), blacklist)
  {
    if key in blacklist && !Recorded(b, ip, key) {
      PairsAdd(b.byIp, ip, key);
    }
  }

  lemma BlockRemembers(b: Bans, blacklist: set<Key>, key: Key, ip: Ip)
    ensures key in blacklist ==> Remembered(Block(b, blacklist, key, ip), ip, key)
    ensures forall i, k | Remembered(b, i, k) :: Remembered(Block(b, blacklist, key, ip), i, k)
  {
  }

  lemma PairsMonotone(m: map<Ip, set<Key>>, n: map<Ip, set<Key>>)
    requires Pairs(m) <= Pairs(n)
    ensures |Pairs(m)| <= |Pairs(n)|
  {
    SubsetSize(Pairs(m), Pairs(n));
  }

  lemma RetainKeeps(b: Bans, blacklist: set<Key>, entries: set<Key>)
    requires WellFormed(b, blacklist)
    ensures WellFormed(Retain(b, entries), entries)
    ensures forall ip, key :: Recorded(Retain(b, entries), ip, key) <==> Recorded(b, ip, key) && key in entries
    ensures forall ip, key :: Remembered(Retain(b, entries), ip, key) <==> Remembered(b, ip, key) && key in entries
  {
    PairsMonotone(KeptIds(b.byIp, entries), b.byIp);
    forall ip, key ensures Recorded(Retain(b, entries), ip, key) <==> Recorded(b, ip, key) && key in entries {
      if Recorded(b, ip, key) && key in entries {
        assert key in b.byIp[ip] * entries;
      }
    }
  }

  lemma ApplyRefines(w: World, e: Event)
    requires WellFormed(w.bans, w.blacklist) && Refines(w)
    ensures WellFormed(Apply(w, e).bans, Apply(w, e).blacklist) && Refines(Apply(w, e))
  {
    var w' := Apply(w, e);
    match e {
      case Attempt(key, ip) =>
        BlockKeeps(w.bans, w.blacklist, key, ip);
        BlockRemembers(w.bans, w.blacklist, key, ip);
        forall k | k in w'.bans.overflowed ensures exists i :: (i, k) in w'.all {
          if k in w.bans.overflowed {
            var i :| (i, k) in w.all;
            assert (i, k) in w'.all;
          } else {
            assert (ip, k) in w'.all;
          }
        }
      case Reload(entries) =>
        if entries != w.blacklist {
          RetainKeeps(w.bans, w.blacklist, entries);
          forall k | k in w'.bans.overflowed ensures exists i :: (i, k) in w'.all {
            var i :| (i, k) in w.all;
            assert (i, k) in w'.all;
          }
        }
    }
  }

  /** The bounded table refines the unbounded one in every run. */
  lemma {:induction false} RunRefines(initial: set<Key>, events: seq<Event>)
    ensures var w := Run(initial, events); WellFormed(w.bans, w.blacklist) && Refines(w)
  {
    if events == [] {
      assert Pairs(map[]) == {};
    } else {
      RunRefines(initial, events[..|events| - 1]);
      ApplyRefines(Run(initial, events[..|events| - 1]), events[|events| - 1]);
    }
  }

  /** An IP is reported blocked exactly when some ban of it stands, or some ID overflowed. */
  lemma BlockedMeans(initial: set<Key>, events: seq<Event>, ip: Ip)
    ensures var w := Run(initial, events);
      IsBlocked(w.bans, ip) <==> (exists key :: (ip, key) in w.all) || w.bans.overflowed != {}
  {
    RunRefines(initial, events);
    var w := Run(initial, events);
    if ip in w.bans.byIp {
      var key :| key in w.bans.byIp[ip];
      assert Recorded(w.bans, ip, key);
    }
  }

  lemma AboveAll(all: set<Ban>) returns (bound: nat)
    ensures forall p | p in all :: p.0.address < bound
    decreases |all|
  {
    if all == {} {
      bound := 0;
    } else {
      var p :| p in all;
      var b := AboveAll(all - {p});
      bound := if b <= p.0.address then p.0.address + 1 else b;
    }
  }

  /** The bounded answer is right for every IP if and only if no ID overflowed. */
  lemma ExactIffNoOverflow(initial: set<Key>, events: seq<Event>)
    ensures var w := Run(initial, events);
      (forall ip :: IsBlocked(w.bans, ip) <==> exists key :: (ip, key) in w.all) <==> w.bans.overflowed == {}
  {
    var w := Run(initial, events);
    forall ip ensures IsBlocked(w.bans, ip) <==> (exists key :: (ip, key) in w.all) || w.bans.overflowed != {} {
      BlockedMeans(initial, events, ip);
    }
    if w.bans.overflowed != {} {
      var bound := AboveAll(w.all);
      var unseen := Ip(bound);
      assert IsBlocked(w.bans, unseen) && !(exists key :: (unseen, key) in w.all);
    }
  }

  /** Dropping every ID that caused bans releases every IP: nothing stale is left behind. */
  lemma EmptyListReleasesAll(initial: set<Key>, events: seq<Event>, ip: Ip)
    ensures var w := Run(initial, events + [Reload({})]); !IsBlocked(w.bans, ip) && w.bans.associations == 0
  {
    var all := events + [Reload({})];
    RunRefines(initial, all);
    var w := Run(initial, all);
    assert all[..|all| - 1] == events;
    assert w.blacklist == {};
    assert forall i | i in w.bans.byIp :: false;
    assert Pairs(w.bans.byIp) == {};
  }

  // ----- when an ID overflows -----

  /** An attempt makes an ID overflow exactly if the ID is listed, its ban is new, and 65,536
      bans are recorded. */
  lemma OverflowsIffFull(initial: set<Key>, events: seq<Event>, key: Key, ip: Ip)
    ensures var w := Run(initial, events);
      var w' := Apply(w, Attempt(key, ip));
      w'.bans.overflowed == w.bans.overflowed
        + if key in w.blacklist && !Recorded(w.bans, ip, key) && |Pairs(w.bans.byIp)| == 65_536 then {key} else {}
  {
    RunRefines(initial, events);
  }

  /** A reload lets no ID overflow. */
  lemma ReloadOverflowsNothing(w: World, entries: set<Key>)
    ensures Apply(w, Reload(entries)).bans.overflowed <= w.bans.overflowed
  {
  }

  lemma RecordedIsAll(w: World)
    requires Refines(w) && w.bans.overflowed == {}
    ensures Pairs(w.bans.byIp) == w.all
  {
    forall p ensures p in Pairs(w.bans.byIp) <==> p in w.all {
      if p in w.all {
        assert Remembered(w.bans, p.0, p.1);
      }
      if p in Pairs(w.bans.byIp) {
        assert Recorded(w.bans, p.0, p.1);
      }
    }
  }

  /** Fewer than 65,536 bans stand at every attempt. */
  ghost predicate NeverFull(initial: set<Key>, events: seq<Event>) {
    events == [] ||
    (var before := events[..|events| - 1];
     && NeverFull(initial, before)
     && (events[|events| - 1].Attempt? ==> |Run(initial, before).all| < 65_536))
  }

  lemma {:induction false} RoomIsEnough(initial: set<Key>, events: seq<Event>)
    requires NeverFull(initial, events)
    ensures Run(initial, events).bans.overflowed == {}
    decreases |events|
  {
    if events != [] {
      var before, e := events[..|events| - 1], events[|events| - 1];
      RoomIsEnough(initial, before);
      match e {
        case Attempt(key, ip) =>
          RunRefines(initial, before);
          RecordedIsAll(Run(initial, before));
          OverflowsIffFull(initial, before, key, ip);
        case Reload(entries) => ReloadOverflowsNothing(Run(initial, before), entries);
      }
    }
  }

  /** While there is room, the answer is right for every IP. */
  lemma ExactWhileRoom(initial: set<Key>, events: seq<Event>, ip: Ip)
    requires NeverFull(initial, events)
    ensures Run(initial, events).bans.overflowed == {}
    ensures IsBlocked(Run(initial, events).bans, ip) <==> exists key :: (ip, key) in Run(initial, events).all
  {
    RoomIsEnough(initial, events);
    BlockedMeans(initial, events, ip);
  }
}
