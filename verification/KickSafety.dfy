/** No publisher escapes a blacklist reload, over all interleavings of reload, start-up and
    teardown. */
module KickSafety {
  import opened BanTable
  import opened Common
  import opened Registry
  import opened RegistrySafety

  // ----- every blacklisted session has been told -----

  /** The session has passed its start-up check and will look again only when notified. */
  predicate Watching(pc: Pc) {
    pc.StartVetting? || pc.Streaming?
  }

  predicate PendingKick(r: Reload, key: Key) {
    r.Written? || (ReloadReads(r) && key in r.left) || (r.Granting? && key == r.key)
  }

  ghost predicate Told(s: State) {
    forall t | t in s.pcs && Watching(s.pcs[t]) && s.pcs[t].key in s.blacklist && s.pcs[t].c < |s.objects| ::
      s.objects[s.pcs[t].c].permit || PendingKick(s.reload, s.pcs[t].key)
  }

  /** The reloader's channel stays the one mapped under its key: it holds the read lock. */
  predicate GrantMapped(s: State) {
    s.reload.Granting? ==>
      s.reload.c < |s.objects| && s.reload.key in s.channels && s.channels[s.reload.key] == s.reload.c
  }

  ghost predicate WatchFacts(s: State, pc: Pc, e: Effect, pc': Pc) {
    && (Watching(pc') ==> pc'.key !in s.blacklist || (Watching(pc) && pc'.key == pc.key && pc'.c == pc.c && !e.TakePermit?))
    && (e.TakePermit? ==> HoldsStreamer(pc, e.c))
    && (e.Insert? || e.Remove? ==> WriteLocks(pc))
  }

  lemma PublisherWatch(cfg: Config, s: State, t: Tid, pc: Pc, e: Effect, pc': Pc)
    requires PublisherRow(cfg, s, t, pc, e, pc')
    ensures WatchFacts(s, pc, e, pc')
  {
  }

  lemma ReserveWatch(cfg: Config, s: State, pc: Pc, e: Effect, pc': Pc)
    requires pc.Reserving? && ReserveRow(cfg, s, pc, e, pc')
    ensures WatchFacts(s, pc, e, pc')
  {
  }

  lemma CleanWatch(s: State, pc: Pc, e: Effect, pc': Pc)
    requires pc.Cleaning? && CleanRow(s, pc, e, pc')
    ensures WatchFacts(s, pc, e, pc')
  {
  }

  lemma OtherWatch(cfg: Config, s: State, pc: Pc, e: Effect, pc': Pc)
    requires CloseRow(pc, e, pc') || ListenerRow(cfg, s, pc, e, pc')
    ensures WatchFacts(s, pc, e, pc')
  {
  }

  lemma RowWatch(cfg: Config, s: State, t: Tid, pc: Pc, e: Effect, pc': Pc)
    requires Row(cfg, s, t, pc, e, pc')
    ensures WatchFacts(s, pc, e, pc')
  {
    if pc.Reserving? {
      ReserveWatch(cfg, s, pc, e, pc');
    } else if pc.Cleaning? {
      CleanWatch(s, pc, e, pc');
    } else if PublisherRow(cfg, s, t, pc, e, pc') {
      PublisherWatch(cfg, s, t, pc, e, pc');
    } else {
      OtherWatch(cfg, s, pc, e, pc');
    }
  }

  lemma SoleHolder(s: State, t: Tid, u: Tid, c: nat)
    requires Counted(s) && t in s.pcs && u in s.pcs && HoldsStreamer(s.pcs[t], c) && HoldsStreamer(s.pcs[u], c)
    ensures t == u
  {
    CountAtLeast(s.pcs, {t, u}, OnStreamer(c));
    assert Value(s, OnStreamer(c)) == Count(s.pcs, OnStreamer(c));
    assert t != u ==> |{t, u}| == 2;
  }

  lemma StepTold(s: State, t: Tid, e: Effect, pc': Pc, s': State)
    requires Shape(s) && Counted(s) && Told(s) && Moves(s, t, e, pc', s') && WatchFacts(s, s.pcs[t], e, pc')
    ensures Told(s')
  {
    forall u | u in s'.pcs && Watching(s'.pcs[u]) && s'.pcs[u].key in s'.blacklist && s'.pcs[u].c < |s'.objects|
      ensures s'.objects[s'.pcs[u].c].permit || PendingKick(s'.reload, s'.pcs[u].key)
    {
      if u != t && e.TakePermit? && s.pcs[u].c == e.c {
        SoleHolder(s, t, u, e.c);
      }
      assert ChannelOf(s.pcs[u]) < |s.objects|;
    }
  }

  lemma StepGrantMapped(s: State, t: Tid, e: Effect, pc': Pc, s': State)
    requires Exclusion(s) && GrantMapped(s) && Moves(s, t, e, pc', s') && WatchFacts(s, s.pcs[t], e, pc')
    ensures GrantMapped(s')
  {
  }

  lemma ReloadGrantMapped(s: State, s': State)
    requires GrantMapped(s) && ReloadStep(s, s')
    ensures GrantMapped(s')
  {
  }

  /** A new list leaves every listed session to be notified. */
  lemma RewriteTold(s: State, entries: set<Key>)
    ensures Told(Rewrite(s, entries))
  {
  }

  lemma LookTold(s: State, key: Key)
    requires Shape(s) && Counted(s) && Mapped(s) && Told(s) && s.reload.Notifying?
    ensures Told(Look(s, key))
  {
    var s' := Look(s, key);
    forall u | u in s'.pcs && Watching(s'.pcs[u]) && s'.pcs[u].key in s'.blacklist && s'.pcs[u].c < |s'.objects|
      ensures s'.objects[s'.pcs[u].c].permit || PendingKick(s'.reload, s'.pcs[u].key)
    {
      assert ChannelOf(s.pcs[u]) == s.pcs[u].c;
      HolderSets(s, u, s.pcs[u].c);
    }
  }

  lemma GrantTold(s: State)
    requires Mapped(s) && Told(s) && GrantMapped(s) && s.reload.Granting?
    ensures Told(Grant(s))
  {
    var s' := Grant(s);
    forall u | u in s'.pcs && Watching(s'.pcs[u]) && s'.pcs[u].key in s'.blacklist && s'.pcs[u].c < |s'.objects|
      ensures s'.objects[s'.pcs[u].c].permit || PendingKick(s'.reload, s'.pcs[u].key)
    {
      assert Relies(s.pcs[u]) && ChannelOf(s.pcs[u]) == s.pcs[u].c;
    }
  }

  lemma ReloadTold(s: State, s': State)
    requires Shape(s) && Counted(s) && Mapped(s) && Told(s) && GrantMapped(s) && ReloadStep(s, s')
    ensures Told(s')
  {
    match s.reload {
      case ReloadIdle =>
        var entries :| entries != s.blacklist && s' == Rewrite(s, entries);
        RewriteTold(s, entries);
      case Written =>
      case Notifying(left) =>
        if left != {} {
          var key :| key in left && s' == Look(s, key);
          LookTold(s, key);
        }
      case Granting(_, _, _) => GrantTold(s);
    }
  }

  // ----- every session a reload found is remembered -----

  /** The session's last blacklist check is still to come. */
  predicate BeforeFinalCheck(pc: Pc) {
    pc.Claimed? || pc.Starting? || pc.StartVetting? || pc.Streaming? || pc.Woken? || pc.Closing? || pc.Unset?
  }

  /** The session never built a StreamerGuard. */
  predicate Unguarded(pc: Pc) {
    pc.Refused? || ((pc.Cleaning? || pc.Gone? || pc.Departed?) && !pc.guarded)
  }

  /** The session of a publisher whose compare-exchange succeeded. */
  predicate AfterClaim(pc: Pc) {
    BeforeFinalCheck(pc) || Unguarded(pc) || pc.Checked? || pc.Cleaning? || pc.Gone? || pc.Departed?
  }

  ghost predicate Answers(s: State, t: Tid) {
    && t in s.pcs && IsPublisher(s.pcs[t]) && AfterClaim(s.pcs[t]) && s.pcs[t].key in s.blacklist
    && (BeforeFinalCheck(s.pcs[t]) || Unguarded(s.pcs[t]) || Remembered(s.bans, t.ip, s.pcs[t].key))
  }

  ghost predicate Found(s: State) {
    forall t | t in s.seen :: Answers(s, t)
  }

  ghost predicate FinalFacts(t: Tid, pc: Pc, e: Effect, pc': Pc)
    requires IsPublisher(pc)
  {
    AfterClaim(pc) ==>
      && IsPublisher(pc') && AfterClaim(pc') && pc'.key == pc.key
      && (BeforeFinalCheck(pc) ==> BeforeFinalCheck(pc') || Unguarded(pc') || e == BlockIp(pc.key, t.ip))
      && (Unguarded(pc) ==> Unguarded(pc'))
  }

  lemma GuardedFinal(cfg: Config, s: State, t: Tid, pc: Pc, e: Effect, pc': Pc)
    requires Guarded(pc) && PublisherRow(cfg, s, t, pc, e, pc')
    ensures FinalFacts(t, pc, e, pc')
  {
  }

  lemma ReleaseFinal(cfg: Config, s: State, t: Tid, pc: Pc, e: Effect, pc': Pc)
    requires IsPublisher(pc) && !Guarded(pc) && PublisherRow(cfg, s, t, pc, e, pc')
    ensures FinalFacts(t, pc, e, pc')
  {
  }

  lemma PublisherFinal(cfg: Config, s: State, t: Tid, pc: Pc, e: Effect, pc': Pc)
    requires IsPublisher(pc) && PublisherRow(cfg, s, t, pc, e, pc')
    ensures FinalFacts(t, pc, e, pc')
  {
    if Guarded(pc) {
      GuardedFinal(cfg, s, t, pc, e, pc');
    } else {
      ReleaseFinal(cfg, s, t, pc, e, pc');
    }
  }

  lemma OtherFinal(cfg: Config, s: State, t: Tid, pc: Pc, e: Effect, pc': Pc)
    requires IsPublisher(pc)
    requires (pc.Cleaning? && CleanRow(s, pc, e, pc')) || CloseRow(pc, e, pc') || ListenerRow(cfg, s, pc, e, pc')
    ensures FinalFacts(t, pc, e, pc')
  {
  }

  lemma RowFinal(cfg: Config, s: State, t: Tid, pc: Pc, e: Effect, pc': Pc)
    requires IsPublisher(pc) && Row(cfg, s, t, pc, e, pc')
    ensures FinalFacts(t, pc, e, pc')
  {
    if !pc.Reserving? {
      if !pc.Cleaning? && PublisherRow(cfg, s, t, pc, e, pc') {
        PublisherFinal(cfg, s, t, pc, e, pc');
      } else {
        OtherFinal(cfg, s, t, pc, e, pc');
      }
    }
  }

  lemma StepFound(s: State, t: Tid, e: Effect, pc': Pc, s': State)
    requires Found(s) && Moves(s, t, e, pc', s') && (IsPublisher(s.pcs[t]) ==> FinalFacts(t, s.pcs[t], e, pc'))
    ensures Found(s')
  {
    forall u | u in s'.seen ensures Answers(s', u) {
      assert Answers(s, u);
      if e.BlockIp? {
        BlockRemembers(s.bans, s.blacklist, e.key, e.ip);
      }
    }
  }

  lemma ReloadFound(s: State, s': State, entries: set<Key>)
    requires Found(s) && s' == Rewrite(s, entries) && WellFormed(s.bans, s.blacklist)
    ensures Found(s')
  {
    RetainKeeps(s.bans, s.blacklist, entries);
  }

  /** The reloader only walks over listed IDs. */
  ghost predicate LeftListed(s: State) {
    ReloadReads(s.reload) ==> s.reload.left <= s.blacklist
  }

  lemma LookFound(s: State, key: Key)
    requires Shape(s) && Found(s) && LeftListed(s) && s.reload.Notifying? && key in s.reload.left
    ensures Found(Look(s, key))
  {
    var s' := Look(s, key);
    forall t | t in s'.seen ensures Answers(s', t) {
      if t in s.seen {
        assert Answers(s, t);
      } else {
        var c := s.channels[key];
        assert HoldsStreamer(s.pcs[t], c) && ChannelOf(s.pcs[t]) == c;
        assert s.objects[c].key == key == s.pcs[t].key;
      }
    }
  }

  // ----- every run -----

  ghost predicate KickInv(s: State) {
    Told(s) && GrantMapped(s) && Found(s) && LeftListed(s) && WellFormed(s.bans, s.blacklist)
  }

  lemma ThreadKeepsKick(cfg: Config, s: State, t: Tid, e: Effect, pc': Pc, s': State)
    requires Inv(cfg, s) && KickInv(s) && ThreadStep(cfg, s, t, e, pc', s')
    ensures KickInv(s')
  {
    RowWatch(cfg, s, t, s.pcs[t], e, pc');
    StepTold(s, t, e, pc', s');
    StepGrantMapped(s, t, e, pc', s');
    if IsPublisher(s.pcs[t]) {
      RowFinal(cfg, s, t, s.pcs[t], e, pc');
    }
    StepFound(s, t, e, pc', s');
    if e.BlockIp? {
      BlockKeeps(s.bans, s.blacklist, e.key, e.ip);
    }
  }

  lemma ReloadKeepsKick(cfg: Config, s: State, s': State)
    requires Inv(cfg, s) && KickInv(s) && ReloadStep(s, s')
    ensures KickInv(s')
  {
    ReloadTold(s, s');
    ReloadGrantMapped(s, s');
    match s.reload {
      case ReloadIdle =>
        var entries :| entries != s.blacklist && s' == Rewrite(s, entries);
        ReloadFound(s, s', entries);
        RetainKeeps(s.bans, s.blacklist, entries);
      case Written =>
        assert forall t | t in s.seen :: Answers(s, t) ==> Answers(s', t);
      case Notifying(left) =>
        if left == {} {
          assert forall t | t in s.seen :: Answers(s, t) ==> Answers(s', t);
        } else {
          var key :| key in left && s' == Look(s, key);
          LookFound(s, key);
        }
      case Granting(_, _, _) =>
        assert forall t | t in s.seen :: Answers(s, t) ==> Answers(s', t);
    }
  }

  lemma NextKeepsKick(cfg: Config, s: State, s': State)
    requires Inv(cfg, s) && KickInv(s) && Next(cfg, s, s')
    ensures KickInv(s')
  {
    if t :| t !in s.pcs && s' == s.(pcs := s.pcs[t := Idle]) {
      assert forall u | u in s.seen :: Answers(s, u) ==> Answers(s', u);
    } else if t, e, pc' :| ThreadStep(cfg, s, t, e, pc', s') {
      ThreadKeepsKick(cfg, s, t, e, pc', s');
    } else {
      ReloadKeepsKick(cfg, s, s');
    }
  }

  lemma {:induction false} RunKeepsKick(cfg: Config, run: seq<State>)
    requires IsRun(cfg, run)
    ensures KickInv(run[|run| - 1])
    decreases |run|
  {
    if |run| == 1 {
      assert Pairs(map[]) == {};
    } else {
      var before := run[..|run| - 1];
      assert before[0] == run[0];
      RunKeepsKick(cfg, before);
      RunKeeps(cfg, before);
      NextKeepsKick(cfg, run[|run| - 2], run[|run| - 1]);
    }
  }

  /** A session the reloader found streaming, whose ID is still listed, and which has been torn
      down with its guard, has left its ban (or its ID among the overflowed) behind: its IP is
      blocked. */
  lemma NoKickedSessionEscapes(cfg: Config, run: seq<State>, t: Tid)
    requires IsRun(cfg, run)
    requires t in run[|run| - 1].seen
    ensures var s := run[|run| - 1];
      && t in s.pcs && IsPublisher(s.pcs[t]) && s.pcs[t].key in s.blacklist
      && ((s.pcs[t].Checked? || s.pcs[t].Cleaning? || s.pcs[t].Gone? || s.pcs[t].Departed?) && !Unguarded(s.pcs[t]) ==>
            Remembered(s.bans, t.ip, s.pcs[t].key) && IsBlocked(s.bans, t.ip))
  {
    RunKeepsKick(cfg, run);
    assert Answers(run[|run| - 1], t);
  }

  /** While no reload is under way, every streaming session with a listed ID has a notification
      waiting for it. */
  lemma ListedSessionsAreNotified(cfg: Config, run: seq<State>, t: Tid)
    requires IsRun(cfg, run)
    requires t in run[|run| - 1].pcs && run[|run| - 1].pcs[t].Streaming?
    requires run[|run| - 1].reload.ReloadIdle? && run[|run| - 1].pcs[t].key in run[|run| - 1].blacklist
    ensures var s := run[|run| - 1]; s.pcs[t].c < |s.objects| && s.objects[s.pcs[t].c].permit
  {
    RunKeepsKick(cfg, run);
    RunKeeps(cfg, run);
    assert ChannelOf(run[|run| - 1].pcs[t]) < |run[|run| - 1].objects|;
  }

  // ----- one notification, one wake -----

  /** The step from state `j` of the run notifies channel `c`. */
  predicate NotifiedAt(run: seq<State>, j: nat, c: nat) {
    j + 1 < |run| && run[j].reload.Granting? && run[j].reload.c == c && run[j + 1].reload.Notifying?
  }

  predicate Wakes(s: State, s': State, t: Tid, c: nat) {
    t in s.pcs && t in s'.pcs && s.pcs[t].Streaming? && s.pcs[t].c == c && s'.pcs[t].Woken?
  }

  ghost predicate SomeoneWakes(s: State, s': State, c: nat) {
    exists t :: Wakes(s, s', t, c)
  }

  ghost predicate WokenAt(run: seq<State>, m: nat, c: nat) {
    m + 1 < |run| && SomeoneWakes(run[m], run[m + 1], c)
  }

  predicate HasPermit(s: State, c: nat) {
    c < |s.objects| && s.objects[c].permit
  }

  lemma DoGivesNoPermit(s: State, e: Effect, c: nat)
    requires Sound(s, e) && HasPermit(Do(s, e), c)
    ensures HasPermit(s, c)
  {
  }

  lemma ReloadGivesPermit(s: State, s': State, c: nat)
    requires ReloadStep(s, s') && HasPermit(s', c) && !HasPermit(s, c)
    ensures s.reload.Granting? && s.reload.c == c && s'.reload.Notifying?
  {
  }

  lemma PermitStep(cfg: Config, s: State, s': State, c: nat)
    requires Next(cfg, s, s') && HasPermit(s', c) && !HasPermit(s, c)
    ensures s.reload.Granting? && s.reload.c == c && s'.reload.Notifying?
  {
    if t :| t !in s.pcs && s' == s.(pcs := s.pcs[t := Idle]) {
    } else if t, e, pc' :| ThreadStep(cfg, s, t, e, pc', s') {
      DoGivesNoPermit(s, e, c);
    } else {
      ReloadGivesPermit(s, s', c);
    }
  }

  lemma WakeRow(cfg: Config, s: State, t: Tid, pc: Pc, e: Effect, pc': Pc)
    requires Row(cfg, s, t, pc, e, pc') && pc.Streaming? && pc'.Woken?
    ensures pc.c < |s.objects| && s.objects[pc.c].permit && e == TakePermit(pc.c)
  {
  }

  lemma WakeTakes(cfg: Config, s: State, s': State, t: Tid, c: nat)
    requires Next(cfg, s, s') && Wakes(s, s', t, c)
    ensures HasPermit(s, c) && !HasPermit(s', c)
  {
    if u :| u !in s.pcs && s' == s.(pcs := s.pcs[u := Idle]) {
    } else if u, e, pc' :| ThreadStep(cfg, s, u, e, pc', s') {
      WakeRow(cfg, s, u, s.pcs[u], e, pc');
    } else {
      ReloadIsSame(s, s');
    }
  }

  lemma WakeTakesAt(cfg: Config, run: seq<State>, m: nat, c: nat)
    requires IsRun(cfg, run) && WokenAt(run, m, c)
    ensures HasPermit(run[m], c) && !HasPermit(run[m + 1], c)
  {
    assert Next(cfg, run[m], run[m + 1]);
    var t :| Wakes(run[m], run[m + 1], t, c);
    WakeTakes(cfg, run[m], run[m + 1], t, c);
  }

  lemma PermitStepAt(cfg: Config, run: seq<State>, i: nat, c: nat)
    requires IsRun(cfg, run) && i < |run| && HasPermit(run[i], c)
    ensures i > 0 && (HasPermit(run[i - 1], c) || NotifiedAt(run, i - 1, c))
  {
    if i > 0 {
      assert Next(cfg, run[i - 1], run[i]);
      if !HasPermit(run[i - 1], c) {
        PermitStep(cfg, run[i - 1], run[i], c);
      }
    }
  }

  /** A waiting permit was given by a notification, and nobody has taken it since. */
  lemma {:induction false} PermitHasCause(cfg: Config, run: seq<State>, i: nat, c: nat) returns (j: nat)
    requires IsRun(cfg, run) && i < |run| && HasPermit(run[i], c)
    ensures j < i && NotifiedAt(run, j, c) && forall m | j < m <= i :: HasPermit(run[m], c)
    decreases i
  {
    PermitStepAt(cfg, run, i, c);
    if HasPermit(run[i - 1], c) {
      j := PermitHasCause(cfg, run, i - 1, c);
    } else {
      j := i - 1;
    }
  }

  /** In every run each wake of a session answers a notification of its channel that no other
      wake has answered. */
  lemma WakesHaveCause(cfg: Config, run: seq<State>, i: nat, c: nat) returns (j: nat)
    requires IsRun(cfg, run) && WokenAt(run, i, c)
    ensures j < i && NotifiedAt(run, j, c) && forall m: nat | j < m < i :: !WokenAt(run, m, c)
  {
    WakeTakesAt(cfg, run, i, c);
    j := PermitHasCause(cfg, run, i, c);
    forall m: nat | j < m < i ensures !WokenAt(run, m, c) {
      if WokenAt(run, m, c) {
        WakeTakesAt(cfg, run, m, c);
      }
    }
  }

  // ----- a pass over the list ends -----

  /** The steps a pass can still take. */
  function Remaining(s: State): nat {
    match s.reload
    case ReloadIdle => 0
    case Written => 2 * |s.blacklist| + 2
    case Notifying(left) => 2 * |left| + 1
    case Granting(left, _, _) => 2 * |left| + 2
  }

  /** A step of the reloader brings the end of the pass nearer. */
  predicate Nears(s: State, s': State) {
    Remaining(s') + (if s.reload == s'.reload then 0 else 1) <= Remaining(s)
  }

  lemma ReloadNears(s: State, s': State)
    requires ReloadStep(s, s') && !s.reload.ReloadIdle?
    ensures Nears(s, s')
  {
    if s.reload.Notifying? && s.reload.left != {} {
      var key :| key in s.reload.left && s' == Look(s, key);
      assert |s.reload.left - {key}| == |s.reload.left| - 1;
    }
  }

  lemma DoKeepsPass(s: State, e: Effect)
    requires Sound(s, e)
    ensures Do(s, e).reload == s.reload && Do(s, e).blacklist == s.blacklist
  {
  }

  lemma PassStep(cfg: Config, s: State, s': State)
    requires Next(cfg, s, s') && !s.reload.ReloadIdle?
    ensures Nears(s, s')
  {
    if t :| t !in s.pcs && s' == s.(pcs := s.pcs[t := Idle]) {
    } else if t, e, pc' :| ThreadStep(cfg, s, t, e, pc', s') {
      DoKeepsPass(s, e);
    } else {
      ReloadNears(s, s');
    }
  }

  /** How often the reloader has moved between two states of a run. */
  function ReloaderMoves(run: seq<State>, i: nat, j: nat): nat
    requires i <= j < |run|
    decreases j
  {
    if i == j then 0 else ReloaderMoves(run, i, j - 1) + if run[j - 1].reload == run[j].reload then 0 else 1
  }

  lemma {:induction false} MovesAreFew(run: seq<State>, i: nat, j: nat)
    requires i <= j < |run| && forall m: nat | i <= m < j :: Nears(run[m], run[m + 1])
    ensures ReloaderMoves(run, i, j) + Remaining(run[j]) <= Remaining(run[i])
    decreases j
  {
    if i < j {
      MovesAreFew(run, i, j - 1);
      assert Nears(run[j - 1], run[j - 1 + 1]);
    }
  }

  /** Whatever the threads do meanwhile, a pass over a list of n IDs is over after at most 2n + 2
      steps of the reloader. */
  lemma PassEnds(cfg: Config, run: seq<State>, i: nat, j: nat)
    requires IsRun(cfg, run) && i <= j < |run| && run[i].reload.Written?
    requires forall m | i <= m < j :: !run[m].reload.ReloadIdle?
    ensures ReloaderMoves(run, i, j) <= 2 * |run[i].blacklist| + 2
    ensures ReloaderMoves(run, i, j) == 2 * |run[i].blacklist| + 2 ==> run[j].reload.ReloadIdle?
  {
    forall m: nat | i <= m < j ensures Nears(run[m], run[m + 1]) {
      assert Next(cfg, run[m], run[m + 1]);
      PassStep(cfg, run[m], run[m + 1]);
    }
    MovesAreFew(run, i, j);
  }
}
