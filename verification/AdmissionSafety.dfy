/** Who gets in, over all interleavings: an IP ban keeps every session out while it stands, and
    nobody is turned away without a cause. */
module AdmissionSafety {
  import opened BanTable
  import opened Common
  import opened KickSafety
  import opened Registry
  import opened RegistrySafety

  // ----- one thread between two states of a run -----

  /** The thread has just been spawned, or has made one step of its own. */
  lemma Mover(cfg: Config, s: State, s': State, t: Tid) returns (e: Effect)
    requires Next(cfg, s, s') && t in s.pcs && t in s'.pcs && s'.pcs[t] != s.pcs[t]
    ensures ThreadStep(cfg, s, t, e, s'.pcs[t], s')
  {
    if u :| u !in s.pcs && s' == s.(pcs := s.pcs[u := Idle]) {
      assert false;
    } else if u, f, pc' :| ThreadStep(cfg, s, u, f, pc', s') {
      assert u == t;
      e := f;
    } else {
      ReloadIsSame(s, s');
      assert false;
    }
  }

  lemma Spawned(cfg: Config, s: State, s': State, t: Tid)
    requires Next(cfg, s, s') && t !in s.pcs && t in s'.pcs
    ensures s'.pcs[t] == Idle
  {
    if u :| u !in s.pcs && s' == s.(pcs := s.pcs[u := Idle]) {
    } else if u, f, pc' :| ThreadStep(cfg, s, u, f, pc', s') {
    } else {
      ReloadIsSame(s, s');
    }
  }

  // ----- bans keep sessions out -----

  /** Some ban of the IP is recorded, or some ID's bans did not fit. */
  ghost predicate Banned(b: Bans, ip: Ip) {
    (exists key :: Recorded(b, ip, key)) || (exists key :: key in b.overflowed)
  }

  /** The session has passed the checks on its way in. */
  predicate Inside(pc: Pc) {
    IsPublisher(pc) && !pc.Arriving? && !pc.Vetting? && !pc.Departed?
  }

  predicate OnAir(pc: Pc) {
    pc.Streaming? || pc.Woken?
  }

  /** What a thread of this IP may have reached. */
  predicate KeptOut(s: State, t: Tid) {
    t in s.pcs ==> !Inside(s.pcs[t])
  }

  predicate KeptOff(s: State, t: Tid) {
    t in s.pcs ==> !OnAir(s.pcs[t])
  }

  lemma BannedMeans(s: State, ip: Ip)
    requires WellFormed(s.bans, s.blacklist)
    ensures IsBlocked(s.bans, ip) <==> Banned(s.bans, ip)
  {
    if ip in s.bans.byIp {
      var key :| key in s.bans.byIp[ip];
      assert Recorded(s.bans, ip, key);
    }
    if s.bans.overflowed != {} {
      var key :| key in s.bans.overflowed;
    }
  }

  /** The step that lets a session in, or on air. */
  predicate Enters(pc: Pc, pc': Pc) {
    (Inside(pc') && !Inside(pc)) || (OnAir(pc') && !OnAir(pc))
  }

  lemma ReserveDoesNotEnter(cfg: Config, s: State, pc: Pc, e: Effect, pc': Pc)
    requires pc.Reserving? && ReserveRow(cfg, s, pc, e, pc')
    ensures !Enters(pc, pc')
  {
  }

  lemma OthersDoNotEnter(cfg: Config, s: State, pc: Pc, e: Effect, pc': Pc)
    requires (pc.Cleaning? && CleanRow(s, pc, e, pc')) || CloseRow(pc, e, pc') || ListenerRow(cfg, s, pc, e, pc')
    ensures !Enters(pc, pc')
  {
  }

  lemma PublisherEnters(cfg: Config, s: State, t: Tid, pc: Pc, e: Effect, pc': Pc)
    requires PublisherRow(cfg, s, t, pc, e, pc') && Enters(pc, pc')
    ensures !IsBlocked(s.bans, t.ip)
  {
  }

  lemma EntersUnbanned(cfg: Config, s: State, t: Tid, e: Effect, pc': Pc, s': State)
    requires ThreadStep(cfg, s, t, e, pc', s') && WellFormed(s.bans, s.blacklist) && Enters(s.pcs[t], pc')
    ensures !Banned(s.bans, t.ip)
  {
    var pc := s.pcs[t];
    BannedMeans(s, t.ip);
    if pc.Reserving? {
      ReserveDoesNotEnter(cfg, s, pc, e, pc');
    } else if !pc.Cleaning? && PublisherRow(cfg, s, t, pc, e, pc') {
      PublisherEnters(cfg, s, t, pc, e, pc');
    } else {
      OthersDoNotEnter(cfg, s, pc, e, pc');
    }
  }

  /** While the IP stays banned, nobody of it gets in, and nobody of it gets on air. */
  lemma BannedStep(cfg: Config, s: State, s': State, t: Tid)
    requires Next(cfg, s, s') && WellFormed(s.bans, s.blacklist) && Banned(s.bans, t.ip)
    ensures KeptOut(s, t) ==> KeptOut(s', t)
    ensures KeptOff(s, t) ==> KeptOff(s', t)
  {
    if t in s'.pcs {
      if t !in s.pcs {
        Spawned(cfg, s, s', t);
      } else if s'.pcs[t] != s.pcs[t] {
        var e := Mover(cfg, s, s', t);
        if Enters(s.pcs[t], s'.pcs[t]) {
          EntersUnbanned(cfg, s, t, e, s'.pcs[t], s');
        }
      }
    }
  }

  lemma PrefixIsRun(cfg: Config, run: seq<State>, n: nat)
    requires IsRun(cfg, run) && 0 < n <= |run|
    ensures IsRun(cfg, run[..n])
  {
    assert run[..n][0] == run[0];
  }

  lemma StateIsGood(cfg: Config, run: seq<State>, i: nat)
    requires IsRun(cfg, run) && i < |run|
    ensures Inv(cfg, run[i]) && KickInv(run[i])
  {
    PrefixIsRun(cfg, run, i + 1);
    RunKeeps(cfg, run[..i + 1]);
    RunKeepsKick(cfg, run[..i + 1]);
  }

  lemma BannedStepAt(cfg: Config, run: seq<State>, m: nat, t: Tid)
    requires IsRun(cfg, run) && m + 1 < |run| && Banned(run[m].bans, t.ip)
    ensures KeptOut(run[m], t) ==> KeptOut(run[m + 1], t)
    ensures KeptOff(run[m], t) ==> KeptOff(run[m + 1], t)
  {
    StateIsGood(cfg, run, m);
    assert Next(cfg, run[m], run[m + 1]);
    BannedStep(cfg, run[m], run[m + 1], t);
  }

  lemma {:induction false} KeptOn(run: seq<State>, i: nat, j: nat, t: Tid)
    requires i <= j < |run|
    requires forall m: nat | i <= m < j ::
      (KeptOut(run[m], t) ==> KeptOut(run[m + 1], t)) && (KeptOff(run[m], t) ==> KeptOff(run[m + 1], t))
    ensures KeptOut(run[i], t) ==> KeptOut(run[j], t)
    ensures KeptOff(run[i], t) ==> KeptOff(run[j], t)
    decreases j
  {
    if i < j {
      KeptOn(run, i, j - 1, t);
      assert run[j - 1 + 1] == run[j];
    }
  }

  /** In every run: from a state on, while the IP stays banned, a thread of it that is outside
      stays outside, and one that is not streaming does not stream. */
  lemma BannedStaysOut(cfg: Config, run: seq<State>, i: nat, j: nat, t: Tid)
    requires IsRun(cfg, run) && i <= j < |run|
    requires forall m | i <= m < j :: Banned(run[m].bans, t.ip)
    ensures KeptOut(run[i], t) ==> KeptOut(run[j], t)
    ensures KeptOff(run[i], t) ==> KeptOff(run[j], t)
  {
    forall m: nat | i <= m < j
      ensures (KeptOut(run[m], t) ==> KeptOut(run[m + 1], t)) && (KeptOff(run[m], t) ==> KeptOff(run[m + 1], t))
    {
      BannedStepAt(cfg, run, m, t);
    }
    KeptOn(run, i, j, t);
  }

  // ----- a kicked publisher cannot come back -----

  lemma StaysRemembered(cfg: Config, s: State, s': State, ip: Ip, key: Key)
    requires Next(cfg, s, s') && WellFormed(s.bans, s.blacklist)
    requires Remembered(s.bans, ip, key) && key in s'.blacklist
    ensures Remembered(s'.bans, ip, key)
  {
    if u :| u !in s.pcs && s' == s.(pcs := s.pcs[u := Idle]) {
    } else if u, e, pc' :| ThreadStep(cfg, s, u, e, pc', s') {
      if e.BlockIp? {
        BlockRemembers(s.bans, s.blacklist, e.key, e.ip);
      }
    } else if s.reload.ReloadIdle? {
      var entries :| entries != s.blacklist && s' == Rewrite(s, entries);
      RetainKeeps(s.bans, s.blacklist, entries);
    }
  }

  lemma RememberedAt(cfg: Config, run: seq<State>, m: nat, ip: Ip, key: Key)
    requires IsRun(cfg, run) && m + 1 < |run| && Remembered(run[m].bans, ip, key) && key in run[m + 1].blacklist
    ensures Remembered(run[m + 1].bans, ip, key)
  {
    StateIsGood(cfg, run, m);
    assert Next(cfg, run[m], run[m + 1]);
    StaysRemembered(cfg, run[m], run[m + 1], ip, key);
  }

  lemma {:induction false} RememberedOn(run: seq<State>, i: nat, j: nat, ip: Ip, key: Key)
    requires i <= j < |run| && Remembered(run[i].bans, ip, key)
    requires forall m: nat | i <= m < j :: Remembered(run[m].bans, ip, key) ==> Remembered(run[m + 1].bans, ip, key)
    ensures Remembered(run[j].bans, ip, key)
    decreases j
  {
    if i < j {
      RememberedOn(run, i, j - 1, ip, key);
      assert run[j - 1 + 1] == run[j];
    }
  }

  /** A ban is remembered for as long as its ID is listed. */
  lemma ListedIsRemembered(cfg: Config, run: seq<State>, i: nat, j: nat, ip: Ip, key: Key)
    requires IsRun(cfg, run) && i <= j < |run| && Remembered(run[i].bans, ip, key)
    requires forall m | i <= m <= j :: key in run[m].blacklist
    ensures Remembered(run[j].bans, ip, key)
  {
    forall m: nat | i <= m < j ensures Remembered(run[m].bans, ip, key) ==> Remembered(run[m + 1].bans, ip, key) {
      if Remembered(run[m].bans, ip, key) {
        RememberedAt(cfg, run, m, ip, key);
      }
    }
    RememberedOn(run, i, j, ip, key);
  }

  /** The session was torn down with its guard. */
  predicate TornDown(pc: Pc) {
    pc.Checked? || ((pc.Cleaning? || pc.Gone? || pc.Departed?) && pc.guarded)
  }

  /** A publisher that a reload found streaming and that has been torn down: while its ID stays
      listed, no thread of its IP gets in or on air any more, under whatever ID. */
  lemma KickedStaysOut(cfg: Config, run: seq<State>, i: nat, j: nat, t: Tid, u: Tid)
    requires IsRun(cfg, run) && i <= j < |run| && u.ip == t.ip
    requires t in run[i].seen && t in run[i].pcs && TornDown(run[i].pcs[t]) && IsPublisher(run[i].pcs[t])
    requires forall m | i <= m <= j :: run[i].pcs[t].key in run[m].blacklist
    ensures KeptOut(run[i], u) ==> KeptOut(run[j], u)
    ensures KeptOff(run[i], u) ==> KeptOff(run[j], u)
  {
    var key := run[i].pcs[t].key;
    PrefixIsRun(cfg, run, i + 1);
    NoKickedSessionEscapes(cfg, run[..i + 1], t);
    forall m: nat | i <= m < j ensures Banned(run[m].bans, u.ip) {
      ListedIsRemembered(cfg, run, i, m, t.ip, key);
    }
    BannedStaysOut(cfg, run, i, j, u);
  }

  /** A session that has built its guard, up to the end of its thread. */
  predicate HasGuard(pc: Pc) {
    pc.Starting? || pc.StartVetting? || pc.Streaming? || pc.Woken? || pc.Closing? || pc.Unset? || (TornDown(pc) && IsPublisher(pc))
  }

  lemma PublisherKeepsGuard(cfg: Config, s: State, t: Tid, pc: Pc, e: Effect, pc': Pc)
    requires HasGuard(pc) && PublisherRow(cfg, s, t, pc, e, pc')
    ensures HasGuard(pc') && pc'.key == pc.key
  {
  }

  lemma OthersKeepGuard(cfg: Config, s: State, pc: Pc, e: Effect, pc': Pc)
    requires HasGuard(pc)
    requires (pc.Cleaning? && CleanRow(s, pc, e, pc')) || CloseRow(pc, e, pc') || ListenerRow(cfg, s, pc, e, pc')
    ensures HasGuard(pc') && pc'.key == pc.key
  {
  }

  lemma StepKeepsGuard(cfg: Config, s: State, t: Tid, e: Effect, pc': Pc, s': State)
    requires ThreadStep(cfg, s, t, e, pc', s') && HasGuard(s.pcs[t])
    ensures HasGuard(pc') && pc'.key == s.pcs[t].key
  {
    if !s.pcs[t].Cleaning? && PublisherRow(cfg, s, t, s.pcs[t], e, pc') {
      PublisherKeepsGuard(cfg, s, t, s.pcs[t], e, pc');
    } else {
      OthersKeepGuard(cfg, s, s.pcs[t], e, pc');
    }
  }

  /** Found by a reload, and its ID is `key`. */
  ghost predicate IsFound(s: State, t: Tid, key: Key) {
    t in s.seen && t in s.pcs && HasGuard(s.pcs[t]) && s.pcs[t].key == key
  }

  lemma StaysFound(cfg: Config, s: State, s': State, t: Tid, key: Key)
    requires Next(cfg, s, s') && IsFound(s, t, key) && key in s'.blacklist
    ensures IsFound(s', t, key)
  {
    if u :| u !in s.pcs && s' == s.(pcs := s.pcs[u := Idle]) {
    } else if u, e, pc' :| ThreadStep(cfg, s, u, e, pc', s') {
      if u == t {
        StepKeepsGuard(cfg, s, t, e, pc', s');
      }
    } else {
      assert ReloadStep(s, s');
    }
  }

  lemma {:induction false} FoundOn(run: seq<State>, i: nat, j: nat, t: Tid, key: Key)
    requires i <= j < |run| && IsFound(run[i], t, key)
    requires forall m: nat | i <= m < j :: IsFound(run[m], t, key) ==> IsFound(run[m + 1], t, key)
    ensures IsFound(run[j], t, key)
    decreases j
  {
    if i < j {
      FoundOn(run, i, j - 1, t, key);
      assert run[j - 1 + 1] == run[j];
    }
  }

  lemma FoundThroughout(cfg: Config, run: seq<State>, i: nat, j: nat, t: Tid, key: Key)
    requires IsRun(cfg, run) && i <= j < |run| && IsFound(run[i], t, key)
    requires forall m | i <= m <= j :: key in run[m].blacklist
    ensures IsFound(run[j], t, key)
  {
    forall m: nat | i <= m < j ensures IsFound(run[m], t, key) ==> IsFound(run[m + 1], t, key) {
      if IsFound(run[m], t, key) {
        assert Next(cfg, run[m], run[m + 1]);
        StaysFound(cfg, run[m], run[m + 1], t, key);
      }
    }
    FoundOn(run, i, j, t, key);
  }

  /** The step from `s` to `s'` is the reloader's load that finds the session's channel streaming. */
  predicate FindsSession(s: State, s': State, t: Tid) {
    s.reload.Notifying? && s'.reload.Granting? && t in s.pcs && HasGuard(s.pcs[t]) && HoldsStreamer(s.pcs[t], s'.reload.c)
  }

  lemma FindingIsSeen(cfg: Config, s: State, s': State, t: Tid)
    requires Next(cfg, s, s') && FindsSession(s, s', t)
    ensures IsFound(s', t, s.pcs[t].key)
  {
    if u :| u !in s.pcs && s' == s.(pcs := s.pcs[u := Idle]) {
    } else if u, e, pc' :| ThreadStep(cfg, s, u, e, pc', s') {
    } else {
      assert ReloadStep(s, s');
    }
  }

  /** Gone from its channel. */
  predicate HasLeft(pc: Pc) {
    pc.Checked? || pc.Cleaning? || pc.Gone? || pc.Departed?
  }

  /** A session that a reload finds streaming, and that has left its channel since: while its ID
      stays listed, no thread of its IP gets in or on air any more, under whatever ID. */
  lemma FoundStaysOut(cfg: Config, run: seq<State>, h: nat, i: nat, j: nat, t: Tid, u: Tid)
    requires IsRun(cfg, run) && h < i <= j < |run| && u.ip == t.ip
    requires FindsSession(run[h], run[h + 1], t)
    requires t in run[i].pcs && HasLeft(run[i].pcs[t])
    requires forall m | h < m <= j :: run[h].pcs[t].key in run[m].blacklist
    ensures KeptOut(run[i], u) ==> KeptOut(run[j], u)
    ensures KeptOff(run[i], u) ==> KeptOff(run[j], u)
  {
    var key := run[h].pcs[t].key;
    assert Next(cfg, run[h], run[h + 1]);
    FindingIsSeen(cfg, run[h], run[h + 1], t);
    FoundThroughout(cfg, run, h + 1, i, t, key);
    KickedStaysOut(cfg, run, i, j, t, u);
  }

  // ----- nobody is turned away without a cause -----

  predicate Reached(limit: nat, threads: int) {
    limit != 0 && threads >= limit
  }

  ghost predicate KeyIsStreamed(s: State, key: Key) {
    exists u :: u in s.pcs && Streams(s.pcs[u], key)
  }

  /** What decides where a publisher on its way in goes on to. */
  predicate DecidedOutside(cfg: Config, listed: bool, banned: bool, connections: int, pc: Pc, pc': Pc) {
    match pc
    case Arriving(key) => pc' == if listed then Departed(key, false) else Vetting(key)
    case Vetting(key) => pc' == if banned then Departed(key, false) else Admitted(key)
    case Admitted(key) =>
      pc' == if Reached(cfg.maxConnections, connections) then Departed(key, false) else Reserving(Publisher, key, WantRead)
    case _ => true
  }

  predicate DecidedLocated(cfg: Config, streamed: bool, listeners: int, pc: Pc, pc': Pc)
    requires Located(pc)
  {
    match pc.role
    case Publisher => pc' == if streamed then Gone(pc.key, false) else Claimed(pc.key, pc.at.c)
    case Listener =>
      pc' == if Reached(cfg.maxListenersPerStream, listeners) then Leaving(pc.key, pc.at.c) else Listening(pc.key, pc.at.c)
  }

  /** A session may close at any time; it goes on only if its ID is not listed and its IP not
      banned. */
  predicate DecidedSession(cfg: Config, listed: bool, banned: bool, streamers: int, pc: Pc, pc': Pc) {
    match pc
    case Claimed(key, c) => pc' == if Reached(cfg.maxStreamers, streamers) then Refused(key, c) else Starting(key, c)
    case Starting(key, c) => pc' == Closing(key, c) || (!listed && pc' == StartVetting(key, c))
    case StartVetting(key, c) => pc' == Closing(key, c) || (!banned && pc' == Streaming(key, c))
    case Woken(key, c) => pc' == Closing(key, c) || (!listed && pc' == Streaming(key, c))
    case _ => true
  }

  predicate HasKey(pc: Pc) {
    !pc.Idle? && !pc.Connected?
  }

  /** Every decision, in terms of the list, the bans, and what the threads are doing. */
  ghost predicate Decided(cfg: Config, s: State, t: Tid, pc: Pc, pc': Pc) {
    HasKey(pc) ==>
      && DecidedOutside(cfg, pc.key in s.blacklist, Banned(s.bans, t.ip), Count(s.pcs, AllConnections), pc, pc')
      && (Located(pc) ==> DecidedLocated(cfg, KeyIsStreamed(s, pc.key), Count(s.pcs, OnListener(pc.at.c)), pc, pc'))
      && DecidedSession(cfg, pc.key in s.blacklist, Banned(s.bans, t.ip), Count(s.pcs, AllStreamers), pc, pc')
  }

  /** The streamer flag of a located channel is set exactly if some session streams its key. */
  lemma FlagMeans(cfg: Config, s: State, t: Tid)
    requires Inv(cfg, s) && t in s.pcs && Located(s.pcs[t])
    ensures s.pcs[t].at.c < |s.objects|
    ensures s.objects[s.pcs[t].at.c].streamer <==> KeyIsStreamed(s, s.pcs[t].key)
  {
    var c, key := s.pcs[t].at.c, s.pcs[t].key;
    assert HasChannel(s.pcs[t]) && ChannelOf(s.pcs[t]) == c && Relies(s.pcs[t]);
    assert s.channels[key] == c;
    if s.objects[c].streamer {
      assert Value(s, OnStreamer(c)) == Count(s.pcs, OnStreamer(c));
      Witness(s.pcs, OnStreamer(c));
      var u :| u in s.pcs && Sees(OnStreamer(c), s.pcs[u]);
      assert HasChannel(s.pcs[u]) && ChannelOf(s.pcs[u]) == c;
      assert Streams(s.pcs[u], key);
    }
    if u :| u in s.pcs && Streams(s.pcs[u], key) {
      assert Relies(s.pcs[u]);
      HolderSets(s, u, c);
    }
  }

  lemma CountersMean(cfg: Config, s: State)
    requires Inv(cfg, s)
    ensures s.connections == Count(s.pcs, AllConnections) && s.streamers == Count(s.pcs, AllStreamers)
    ensures forall c: nat | c < |s.objects| :: s.objects[c].listeners == Count(s.pcs, OnListener(c))
  {
    assert Value(s, AllConnections) == Count(s.pcs, AllConnections);
    assert Value(s, AllStreamers) == Count(s.pcs, AllStreamers);
    forall c: nat | c < |s.objects| ensures s.objects[c].listeners == Count(s.pcs, OnListener(c)) {
      assert Value(s, OnListener(c)) == Count(s.pcs, OnListener(c));
    }
  }

  lemma OutsideDecided(cfg: Config, s: State, t: Tid, pc: Pc, e: Effect, pc': Pc)
    requires PublisherRow(cfg, s, t, pc, e, pc') && HasKey(pc)
    ensures DecidedOutside(cfg, pc.key in s.blacklist, IsBlocked(s.bans, t.ip), s.connections, pc, pc')
  {
  }

  lemma SessionDecided(cfg: Config, s: State, t: Tid, pc: Pc, e: Effect, pc': Pc)
    requires HasKey(pc) && PublisherRow(cfg, s, t, pc, e, pc')
    ensures DecidedSession(cfg, pc.key in s.blacklist, IsBlocked(s.bans, t.ip), s.streamers, pc, pc')
  {
  }

  lemma ClosingDecided(cfg: Config, s: State, t: Tid, pc: Pc, e: Effect, pc': Pc)
    requires HasKey(pc) && CloseRow(pc, e, pc')
    ensures DecidedOutside(cfg, pc.key in s.blacklist, IsBlocked(s.bans, t.ip), s.connections, pc, pc')
    ensures DecidedSession(cfg, pc.key in s.blacklist, IsBlocked(s.bans, t.ip), s.streamers, pc, pc')
  {
  }

  lemma ClaimDecided(cfg: Config, s: State, pc: Pc, e: Effect, pc': Pc)
    requires Located(pc) && ClaimRow(cfg, s, pc.role, pc.key, pc.at.c, e, pc')
    ensures pc.at.c < |s.objects|
    ensures DecidedLocated(cfg, s.objects[pc.at.c].streamer, s.objects[pc.at.c].listeners, pc, pc')
  {
  }

  lemma LocatedDecided(cfg: Config, s: State, pc: Pc, e: Effect, pc': Pc)
    requires Located(pc) && ReserveRow(cfg, s, pc, e, pc')
    ensures pc.at.c < |s.objects|
    ensures DecidedLocated(cfg, s.objects[pc.at.c].streamer, s.objects[pc.at.c].listeners, pc, pc')
  {
    ClaimDecided(cfg, s, pc, e, pc');
  }

  lemma SessionOpen(cfg: Config, s: State, pc: Pc, e: Effect, pc': Pc)
    requires HasKey(pc) && ListenerRow(cfg, s, pc, e, pc')
    ensures pc.Listening? || pc.Leaving?
  {
  }

  lemma RowDecided(cfg: Config, s: State, t: Tid, pc: Pc, e: Effect, pc': Pc)
    requires PublisherRow(cfg, s, t, pc, e, pc') || CloseRow(pc, e, pc') || ListenerRow(cfg, s, pc, e, pc')
    requires HasKey(pc) && !Located(pc)
    ensures DecidedOutside(cfg, pc.key in s.blacklist, IsBlocked(s.bans, t.ip), s.connections, pc, pc')
    ensures DecidedSession(cfg, pc.key in s.blacklist, IsBlocked(s.bans, t.ip), s.streamers, pc, pc')
  {
    if PublisherRow(cfg, s, t, pc, e, pc') {
      OutsideDecided(cfg, s, t, pc, e, pc');
      SessionDecided(cfg, s, t, pc, e, pc');
    } else if CloseRow(pc, e, pc') {
      ClosingDecided(cfg, s, t, pc, e, pc');
    } else {
      SessionOpen(cfg, s, pc, e, pc');
    }
  }

  lemma StepDecided(cfg: Config, s: State, t: Tid, e: Effect, pc': Pc, s': State)
    requires Inv(cfg, s) && WellFormed(s.bans, s.blacklist) && ThreadStep(cfg, s, t, e, pc', s')
    ensures Decided(cfg, s, t, s.pcs[t], pc')
  {
    var pc := s.pcs[t];
    CountersMean(cfg, s);
    BannedMeans(s, t.ip);
    if Located(pc) {
      FlagMeans(cfg, s, t);
      LocatedDecided(cfg, s, pc, e, pc');
    } else if HasKey(pc) && !pc.Reserving? && !pc.Cleaning? {
      RowDecided(cfg, s, t, pc, e, pc');
    }
  }

  /** Whoever arrives or ends while listed leaves a ban behind, or its ID among the overflowed. */
  predicate ChecksId(pc: Pc) {
    pc.Arriving? || pc.Unset?
  }

  lemma CheckBlocks(cfg: Config, s: State, t: Tid, pc: Pc, e: Effect, pc': Pc)
    requires ChecksId(pc) && PublisherRow(cfg, s, t, pc, e, pc')
    ensures e == BlockIp(pc.key, t.ip)
  {
  }

  lemma CheckIsPublisher(cfg: Config, s: State, t: Tid, pc: Pc, e: Effect, pc': Pc)
    requires ChecksId(pc) && Row(cfg, s, t, pc, e, pc')
    ensures PublisherRow(cfg, s, t, pc, e, pc')
  {
  }

  lemma CheckRemembers(cfg: Config, s: State, t: Tid, e: Effect, pc': Pc, s': State)
    requires ThreadStep(cfg, s, t, e, pc', s') && ChecksId(s.pcs[t]) && s.pcs[t].key in s.blacklist
    ensures Remembered(s'.bans, t.ip, s.pcs[t].key)
  {
    CheckIsPublisher(cfg, s, t, s.pcs[t], e, pc');
    CheckBlocks(cfg, s, t, s.pcs[t], e, pc');
    BlockRemembers(s.bans, s.blacklist, s.pcs[t].key, t.ip);
  }

  /** In every run each admission and each refusal is right in the state where it is decided: a
      listed ID, a ban, a limit reached by that many threads, another session of the same key. */
  lemma DecidedRightly(cfg: Config, run: seq<State>, i: nat, t: Tid)
    requires IsRun(cfg, run) && i + 1 < |run|
    requires t in run[i].pcs && t in run[i + 1].pcs && run[i + 1].pcs[t] != run[i].pcs[t]
    ensures Decided(cfg, run[i], t, run[i].pcs[t], run[i + 1].pcs[t])
    ensures ChecksId(run[i].pcs[t]) && run[i].pcs[t].key in run[i].blacklist ==>
      Remembered(run[i + 1].bans, t.ip, run[i].pcs[t].key)
  {
    StateIsGood(cfg, run, i);
    assert Next(cfg, run[i], run[i + 1]);
    var e := Mover(cfg, run[i], run[i + 1], t);
    StepDecided(cfg, run[i], t, e, run[i + 1].pcs[t], run[i + 1]);
    if ChecksId(run[i].pcs[t]) && run[i].pcs[t].key in run[i].blacklist {
      CheckRemembers(cfg, run[i], t, e, run[i + 1].pcs[t], run[i + 1]);
    }
  }
}
