/** Safety of the channel registry and of every counter, over all interleavings. */
module RegistrySafety {
  import opened BanTable
  import opened Common
  import opened Registry

  // ----- what each counter counts -----

  datatype Probe = OnStreamer(c: nat) | OnListener(c: nat) | AllStreamers | AllListeners | AllConnections

  /** Whether a thread at `pc` accounts for one unit of the probed counter. */
  predicate Sees(q: Probe, pc: Pc) {
    match q
    case OnStreamer(c) => HoldsStreamer(pc, c)
    case OnListener(c) => pc.Listening? && pc.c == c
    case AllStreamers =>
      pc.Starting? || pc.StartVetting? || pc.Streaming? || pc.Woken? || pc.Closing? || pc.Unset? || pc.Checked?
    case AllListeners => (pc.Reserving? && pc.role == Listener) || pc.Listening? || pc.Leaving?
    case AllConnections =>
      !pc.Idle? && !pc.Arriving? && !pc.Vetting? && !pc.Admitted? && !pc.Departed?
  }

  ghost function Count(pcs: map<Tid, Pc>, q: Probe): nat {
    |set t | t in pcs && Sees(q, pcs[t])|
  }

  /** The probed counter itself; a flag counts as 0 or 1. */
  function Value(s: State, q: Probe): int {
    match q
    case OnStreamer(c) => if c < |s.objects| && s.objects[c].streamer then 1 else 0
    case OnListener(c) => if c < |s.objects| then s.objects[c].listeners else 0
    case AllStreamers => s.streamers
    case AllListeners => s.listeners
    case AllConnections => s.connections
  }

  lemma OneDiffers<T>(before: set<T>, after: set<T>, t: T)
    requires forall u | u != t :: u in before <==> u in after
    ensures |after| == |before| - (if t in before then 1 else 0) + (if t in after then 1 else 0)
  {
    assert after - {t} == before - {t};
    assert t in after ==> after == (after - {t}) + {t};
    assert t in before ==> before == (before - {t}) + {t};
  }

  lemma CountUpdate(pcs: map<Tid, Pc>, t: Tid, pc': Pc, q: Probe)
    ensures Count(pcs[t := pc'], q)
      == Count(pcs, q) - (if t in pcs && Sees(q, pcs[t]) then 1 else 0) + (if Sees(q, pc') then 1 else 0)
  {
    var pcs' := pcs[t := pc'];
    OneDiffers((set u | u in pcs && Sees(q, pcs[u])), (set u | u in pcs' && Sees(q, pcs'[u])), t);
  }

  lemma CountAtLeast(pcs: map<Tid, Pc>, ts: set<Tid>, q: Probe)
    requires forall t | t in ts :: t in pcs && Sees(q, pcs[t])
    ensures |ts| <= Count(pcs, q)
  {
    SubsetSize(ts, set t | t in pcs && Sees(q, pcs[t]));
  }

  // ----- the invariant -----

  predicate HasChannel(pc: Pc) {
    || pc.Claimed? || pc.Refused? || pc.Starting? || pc.StartVetting? || pc.Streaming? || pc.Woken?
    || pc.Closing? || pc.Unset? || pc.Checked? || pc.Listening? || pc.Leaving? || pc.Cleaning?
    || (pc.Reserving? && (pc.at.ReadFound? || pc.at.WriteFound?))
  }

  function ChannelOf(pc: Pc): nat
    requires HasChannel(pc)
  {
    if pc.Reserving? then pc.at.c else pc.c
  }

  /** The thread relies on its channel being the one mapped under its key. */
  predicate Relies(pc: Pc) {
    HasChannel(pc) && !pc.Unset? && !pc.Checked? && !pc.Leaving? && (pc.Cleaning? ==> pc.sweep.LockedIdle?)
  }

  ghost predicate Shape(s: State) {
    && (forall k | k in s.channels :: s.channels[k] < |s.objects| && s.objects[s.channels[k]].key == k)
    && (forall t | t in s.pcs && HasChannel(s.pcs[t]) ::
          ChannelOf(s.pcs[t]) < |s.objects| && s.objects[ChannelOf(s.pcs[t])].key == s.pcs[t].key)
  }

  ghost predicate Exclusion(s: State) {
    && (forall t, u | t in s.pcs && u in s.pcs && WriteLocks(s.pcs[t]) && (WriteLocks(s.pcs[u]) || ReadLocks(s.pcs[u])) :: t == u)
    && (ReloadReads(s.reload) ==> MayRead(s))
  }

  ghost predicate Counted(s: State) {
    forall q :: Value(s, q) == Count(s.pcs, q)
  }

  ghost predicate Mapped(s: State) {
    forall t | t in s.pcs && Relies(s.pcs[t]) ::
      && s.pcs[t].key in s.channels && s.channels[s.pcs[t].key] == ChannelOf(s.pcs[t])
      && (s.pcs[t].Cleaning? && ChannelOf(s.pcs[t]) < |s.objects| ==> !s.objects[ChannelOf(s.pcs[t])].streamer)
  }

  ghost predicate Unused(s: State, c: nat) {
    c < |s.objects| && !s.objects[c].streamer && s.objects[c].listeners == 0
  }

  /** The thread has yet to take its last look at channel `c`, or is about to use it. */
  predicate Owes(pc: Pc, c: nat) {
    HasChannel(pc) && ChannelOf(pc) == c
    && (pc.Unset? || pc.Checked? || pc.Leaving? || pc.Cleaning? || (pc.Reserving? && pc.at.WriteFound?))
  }

  ghost predicate Owed(s: State) {
    forall k | k in s.channels && Unused(s, s.channels[k]) :: exists t :: t in s.pcs && Owes(s.pcs[t], s.channels[k])
  }

  ghost predicate Limited(cfg: Config, s: State) {
    && (cfg.maxConnections != 0 ==> s.connections <= cfg.maxConnections)
    && (cfg.maxStreamers != 0 ==> s.streamers <= cfg.maxStreamers)
    && (cfg.maxListenersTotal != 0 ==> s.listeners <= cfg.maxListenersTotal)
    && (cfg.maxListenersPerStream != 0 ==> forall c | 0 <= c < |s.objects| :: s.objects[c].listeners <= cfg.maxListenersPerStream)
  }

  ghost predicate Inv(cfg: Config, s: State) {
    Shape(s) && Exclusion(s) && Counted(s) && Mapped(s) && Owed(s) && Limited(cfg, s)
  }

  // ----- what the rows guarantee -----

  ghost predicate LockFacts(s: State, pc: Pc, pc': Pc) {
    && (WriteLocks(pc') ==> WriteLocks(pc) || MayWrite(s))
    && (ReadLocks(pc') ==> ReadLocks(pc) || MayRead(s))
  }

  predicate SameChannel(pc: Pc, pc': Pc)
    requires HasChannel(pc')
  {
    HasChannel(pc) && ChannelOf(pc') == ChannelOf(pc) && pc'.key == pc.key
  }

  /** The thread has just found or made the channel under its key. */
  ghost predicate Finds(s: State, pc: Pc, e: Effect, pc': Pc)
    requires HasChannel(pc')
  {
    || (e == Quiet && pc'.key in s.channels && ChannelOf(pc') == s.channels[pc'.key])
    || (e == Insert(pc'.key) && ChannelOf(pc') == |s.objects|)
  }

  ghost predicate ShapeFacts(s: State, pc: Pc, e: Effect, pc': Pc) {
    HasChannel(pc') ==> SameChannel(pc, pc') || Finds(s, pc, e, pc')
  }

  ghost predicate MapFacts(s: State, pc: Pc, e: Effect, pc': Pc) {
    && (Relies(pc') ==> (Relies(pc) && SameChannel(pc, pc')) || Finds(s, pc, e, pc'))
    && (Relies(pc') && pc'.Cleaning? ==> e == Quiet && pc'.c < |s.objects| && !s.objects[pc'.c].streamer)
    && (e.SetStreamer? && e.on ==> WriteLocks(pc) || ReadLocks(pc))
    && (e.Insert? ==> e.key !in s.channels)
    && (e.Remove? ==>
          && !Relies(pc') && pc.Cleaning? && pc.sweep.LockedIdle? && pc.key == e.key
          && pc.c < |s.objects| && s.objects[pc.c].listeners == 0)
  }

  /** Why a thread may stop owing a look at channel `c`. */
  ghost predicate Settled(s: State, pc: Pc, e: Effect, c: nat)
    requires HasChannel(pc) && c < |s.objects|
  {
    || e == SetStreamer(c, true) || e == ChannelListeners(c, 1) || e == Remove(pc.key)
    || (e == Quiet && (s.objects[c].streamer || s.objects[c].listeners != 0 || !(pc.key in s.channels && s.channels[pc.key] == c)))
  }

  ghost predicate OweFacts(s: State, pc: Pc, e: Effect, pc': Pc) {
    && (e.SetStreamer? && !e.on ==> Owes(pc', e.c))
    && (e.ChannelListeners? ==> e.d == 1 || (e.d == -1 && Owes(pc', e.c)))
    && (e.Insert? ==> Owes(pc', |s.objects|))
    && (forall c: nat | c < |s.objects| && Owes(pc, c) && !Owes(pc', c) :: Settled(s, pc, e, c))
  }

  ghost predicate LimitFacts(cfg: Config, s: State, e: Effect) {
    && (e.Connections? ==> e.d == -1 || (e.d == 1 && LimitAllows(cfg.maxConnections, s.connections)))
    && (e.Streamers? ==> e.d == -1 || (e.d == 1 && LimitAllows(cfg.maxStreamers, s.streamers)))
    && (e.Listeners? ==> e.d == -1 || (e.d == 1 && LimitAllows(cfg.maxListenersTotal, s.listeners)))
    && (e.ChannelListeners? ==>
          && e.c < |s.objects|
          && (e.d == -1 || (e.d == 1 && LimitAllows(cfg.maxListenersPerStream, s.objects[e.c].listeners))))
  }

  ghost predicate Facts(cfg: Config, s: State, pc: Pc, e: Effect, pc': Pc) {
    && LockFacts(s, pc, pc') && ShapeFacts(s, pc, e, pc') && MapFacts(s, pc, e, pc')
    && OweFacts(s, pc, e, pc') && LimitFacts(cfg, s, e)
  }

  lemma LookFacts(cfg: Config, s: State, pc: Pc, e: Effect, pc': Pc)
    requires pc.Reserving? && (pc.at.WantRead? || pc.at.Reading?) && ReserveRow(cfg, s, pc, e, pc')
    ensures Facts(cfg, s, pc, e, pc')
  {
  }

  lemma InsertFacts(cfg: Config, s: State, pc: Pc, e: Effect, pc': Pc)
    requires pc.Reserving? && (pc.at.WantWrite? || pc.at.Writing?) && ReserveRow(cfg, s, pc, e, pc')
    ensures Facts(cfg, s, pc, e, pc')
  {
  }

  predicate Located(pc: Pc) {
    pc.Reserving? && (pc.at.ReadFound? || pc.at.WriteFound?)
  }

  lemma StreamerClaimFacts(cfg: Config, s: State, pc: Pc, e: Effect, pc': Pc)
    requires Located(pc) && pc.role == Publisher && ReserveRow(cfg, s, pc, e, pc')
    ensures Facts(cfg, s, pc, e, pc')
  {
  }

  lemma ListenerClaimFacts(cfg: Config, s: State, pc: Pc, e: Effect, pc': Pc)
    requires Located(pc) && pc.role == Listener && ReserveRow(cfg, s, pc, e, pc')
    ensures Facts(cfg, s, pc, e, pc')
  {
  }

  lemma ReserveFacts(cfg: Config, s: State, pc: Pc, e: Effect, pc': Pc)
    requires pc.Reserving? && ReserveRow(cfg, s, pc, e, pc')
    ensures Facts(cfg, s, pc, e, pc')
  {
    match pc.at {
      case WantRead => LookFacts(cfg, s, pc, e, pc');
      case Reading => LookFacts(cfg, s, pc, e, pc');
      case WantWrite => InsertFacts(cfg, s, pc, e, pc');
      case Writing => InsertFacts(cfg, s, pc, e, pc');
      case _ =>
        match pc.role {
          case Publisher => StreamerClaimFacts(cfg, s, pc, e, pc');
          case Listener => ListenerClaimFacts(cfg, s, pc, e, pc');
        }
    }
  }

  lemma CleanFacts(cfg: Config, s: State, pc: Pc, e: Effect, pc': Pc)
    requires pc.Cleaning? && CleanRow(s, pc, e, pc')
    ensures Facts(cfg, s, pc, e, pc')
  {
  }

  /** The session holds its guard, and nothing in it has been released. */
  predicate Guarded(pc: Pc) {
    pc.Starting? || pc.StartVetting? || pc.Streaming? || pc.Woken?
  }

  lemma GuardedFacts(cfg: Config, s: State, t: Tid, pc: Pc, e: Effect, pc': Pc)
    requires Sound(s, e) && Guarded(pc) && PublisherRow(cfg, s, t, pc, e, pc')
    ensures Facts(cfg, s, pc, e, pc')
  {
  }

  lemma ReleaseFacts(cfg: Config, s: State, t: Tid, pc: Pc, e: Effect, pc': Pc)
    requires Sound(s, e) && HasChannel(pc) && !Guarded(pc) && PublisherRow(cfg, s, t, pc, e, pc')
    ensures Facts(cfg, s, pc, e, pc')
  {
  }

  lemma OutsideFacts(cfg: Config, s: State, t: Tid, pc: Pc, e: Effect, pc': Pc)
    requires Sound(s, e) && !HasChannel(pc) && PublisherRow(cfg, s, t, pc, e, pc')
    ensures Facts(cfg, s, pc, e, pc')
  {
  }

  lemma PublisherFacts(cfg: Config, s: State, t: Tid, pc: Pc, e: Effect, pc': Pc)
    requires Sound(s, e) && PublisherRow(cfg, s, t, pc, e, pc')
    ensures Facts(cfg, s, pc, e, pc')
  {
    if Guarded(pc) {
      GuardedFacts(cfg, s, t, pc, e, pc');
    } else if HasChannel(pc) {
      ReleaseFacts(cfg, s, t, pc, e, pc');
    } else {
      OutsideFacts(cfg, s, t, pc, e, pc');
    }
  }

  lemma ListenerFacts(cfg: Config, s: State, pc: Pc, e: Effect, pc': Pc)
    requires Sound(s, e) && (ListenerRow(cfg, s, pc, e, pc') || CloseRow(pc, e, pc'))
    ensures Facts(cfg, s, pc, e, pc')
  {
  }

  lemma RowFacts(cfg: Config, s: State, t: Tid, pc: Pc, e: Effect, pc': Pc)
    requires Sound(s, e) && Row(cfg, s, t, pc, e, pc')
    ensures Facts(cfg, s, pc, e, pc')
  {
    if pc.Reserving? {
      ReserveFacts(cfg, s, pc, e, pc');
    } else if pc.Cleaning? {
      CleanFacts(cfg, s, pc, e, pc');
    } else if PublisherRow(cfg, s, t, pc, e, pc') {
      PublisherFacts(cfg, s, t, pc, e, pc');
    } else {
      ListenerFacts(cfg, s, pc, e, pc');
    }
  }

  // ----- preservation by one thread step -----

  /** The step of a thread, without the table. */
  ghost predicate Moves(s: State, t: Tid, e: Effect, pc': Pc, s': State) {
    t in s.pcs && Sound(s, e) && s' == Do(s, e).(pcs := s.pcs[t := pc'])
  }

  lemma MapShape(s: State, t: Tid, e: Effect, pc': Pc, s': State)
    requires Shape(s) && Moves(s, t, e, pc', s')
    ensures forall k | k in s'.channels :: s'.channels[k] < |s'.objects| && s'.objects[s'.channels[k]].key == k
  {
  }

  /** Channel objects are never lost and never change their key. */
  lemma ObjectsStay(s: State, t: Tid, e: Effect, pc': Pc, s': State)
    requires Moves(s, t, e, pc', s')
    ensures |s.objects| <= |s'.objects| && forall c | 0 <= c < |s.objects| :: s'.objects[c].key == s.objects[c].key
    ensures e.Insert? ==> |s'.objects| == |s.objects| + 1 && s'.objects[|s.objects|].key == e.key
  {
  }

  lemma StepShape(s: State, t: Tid, e: Effect, pc': Pc, s': State)
    requires Shape(s) && Moves(s, t, e, pc', s') && ShapeFacts(s, s.pcs[t], e, pc')
    ensures Shape(s')
  {
    MapShape(s, t, e, pc', s');
    ObjectsStay(s, t, e, pc', s');
    forall u | u in s'.pcs && HasChannel(s'.pcs[u])
      ensures ChannelOf(s'.pcs[u]) < |s'.objects| && s'.objects[ChannelOf(s'.pcs[u])].key == s'.pcs[u].key
    {
      if u != t || SameChannel(s.pcs[t], pc') {
        assert ChannelOf(s.pcs[u]) < |s.objects|;
      }
    }
  }

  lemma StepExclusion(s: State, t: Tid, e: Effect, pc': Pc, s': State)
    requires Exclusion(s) && Moves(s, t, e, pc', s') && LockFacts(s, s.pcs[t], pc')
    ensures Exclusion(s')
  {
    assert s'.reload == s.reload;
    assert forall u | u in s.pcs && u != t :: s'.pcs[u] == s.pcs[u];
  }

  /** Whoever holds the streamer flag of a channel keeps it set. */
  lemma HolderSets(s: State, t: Tid, c: nat)
    requires Counted(s) && t in s.pcs && HoldsStreamer(s.pcs[t], c)
    ensures c < |s.objects| && s.objects[c].streamer
  {
    CountAtLeast(s.pcs, {t}, OnStreamer(c));
    assert Value(s, OnStreamer(c)) == Count(s.pcs, OnStreamer(c));
  }

  lemma ListenerCounts(s: State, t: Tid, c: nat)
    requires Counted(s) && t in s.pcs && s.pcs[t].Listening? && s.pcs[t].c == c
    ensures c < |s.objects| && s.objects[c].listeners > 0
  {
    CountAtLeast(s.pcs, {t}, OnListener(c));
    assert Value(s, OnListener(c)) == Count(s.pcs, OnListener(c));
  }

  function Unit(b: bool): int { if b then 1 else 0 }

  /** What an effect does to the probed counter. */
  function Change(s: State, e: Effect, q: Probe): int
    requires Sound(s, e)
  {
    match e
    case Connections(d) => if q == AllConnections then d else 0
    case Streamers(d) => if q == AllStreamers then d else 0
    case Listeners(d) => if q == AllListeners then d else 0
    case SetStreamer(c, on) => if q == OnStreamer(c) then Unit(on) - Unit(s.objects[c].streamer) else 0
    case ChannelListeners(c, d) => if q == OnListener(c) then d else 0
    case _ => 0
  }

  lemma ChangeIs(s: State, t: Tid, e: Effect, pc': Pc, s': State, q: Probe)
    requires Moves(s, t, e, pc', s')
    ensures Value(s', q) == Value(s, q) + Change(s, e, q)
  {
  }

  ghost predicate Balanced(s: State, pc: Pc, e: Effect, pc': Pc, q: Probe)
    requires Sound(s, e)
  {
    Change(s, e, q) == Unit(Sees(q, pc')) - Unit(Sees(q, pc))
  }

  lemma StreamerClaimBalances(cfg: Config, s: State, pc: Pc, e: Effect, pc': Pc, q: Probe)
    requires Sound(s, e) && Located(pc) && pc.role == Publisher && ReserveRow(cfg, s, pc, e, pc')
    ensures Balanced(s, pc, e, pc', q)
  {
  }

  lemma ListenerClaimBalances(cfg: Config, s: State, pc: Pc, e: Effect, pc': Pc, q: Probe)
    requires Sound(s, e) && Located(pc) && pc.role == Listener && ReserveRow(cfg, s, pc, e, pc')
    ensures Balanced(s, pc, e, pc', q)
  {
  }

  lemma ReserveBalances(cfg: Config, s: State, pc: Pc, e: Effect, pc': Pc, q: Probe)
    requires Sound(s, e) && pc.Reserving? && ReserveRow(cfg, s, pc, e, pc')
    ensures Balanced(s, pc, e, pc', q)
  {
    if Located(pc) && pc.role == Publisher {
      StreamerClaimBalances(cfg, s, pc, e, pc', q);
    } else if Located(pc) {
      ListenerClaimBalances(cfg, s, pc, e, pc', q);
    } else {
      assert e.Quiet? || e.Insert?;
    }
  }

  lemma GuardedBalances(cfg: Config, s: State, t: Tid, pc: Pc, e: Effect, pc': Pc, q: Probe)
    requires Sound(s, e) && Guarded(pc) && PublisherRow(cfg, s, t, pc, e, pc')
    ensures Balanced(s, pc, e, pc', q)
  {
  }

  lemma ReleaseBalances(cfg: Config, s: State, t: Tid, pc: Pc, e: Effect, pc': Pc, q: Probe)
    requires Sound(s, e) && HasChannel(pc) && !Guarded(pc) && PublisherRow(cfg, s, t, pc, e, pc')
    requires pc.Closing? || pc.Refused? ==> pc.c < |s.objects| && s.objects[pc.c].streamer
    ensures Balanced(s, pc, e, pc', q)
  {
  }

  lemma OutsideBalances(cfg: Config, s: State, t: Tid, pc: Pc, e: Effect, pc': Pc, q: Probe)
    requires Sound(s, e) && !HasChannel(pc) && PublisherRow(cfg, s, t, pc, e, pc')
    ensures Balanced(s, pc, e, pc', q)
  {
  }

  lemma PublisherBalances(cfg: Config, s: State, t: Tid, pc: Pc, e: Effect, pc': Pc, q: Probe)
    requires Sound(s, e) && PublisherRow(cfg, s, t, pc, e, pc')
    requires pc.Closing? || pc.Refused? ==> pc.c < |s.objects| && s.objects[pc.c].streamer
    ensures Balanced(s, pc, e, pc', q)
  {
    if Guarded(pc) {
      GuardedBalances(cfg, s, t, pc, e, pc', q);
    } else if HasChannel(pc) {
      ReleaseBalances(cfg, s, t, pc, e, pc', q);
    } else {
      OutsideBalances(cfg, s, t, pc, e, pc', q);
    }
  }

  lemma CleanBalances(s: State, pc: Pc, e: Effect, pc': Pc, q: Probe)
    requires Sound(s, e) && pc.Cleaning? && CleanRow(s, pc, e, pc')
    ensures Balanced(s, pc, e, pc', q)
  {
  }

  lemma ListenerBalances(cfg: Config, s: State, pc: Pc, e: Effect, pc': Pc, q: Probe)
    requires Sound(s, e) && (CloseRow(pc, e, pc') || ListenerRow(cfg, s, pc, e, pc'))
    ensures Balanced(s, pc, e, pc', q)
  {
  }

  /** Every row changes a counter by exactly what the thread starts or stops accounting for. */
  lemma RowBalances(cfg: Config, s: State, t: Tid, pc: Pc, e: Effect, pc': Pc, q: Probe)
    requires Sound(s, e) && Row(cfg, s, t, pc, e, pc')
    requires pc.Closing? || pc.Refused? ==> pc.c < |s.objects| && s.objects[pc.c].streamer
    ensures Balanced(s, pc, e, pc', q)
  {
    if pc.Reserving? {
      ReserveBalances(cfg, s, pc, e, pc', q);
    } else if pc.Cleaning? {
      CleanBalances(s, pc, e, pc', q);
    } else if PublisherRow(cfg, s, t, pc, e, pc') {
      PublisherBalances(cfg, s, t, pc, e, pc', q);
    } else {
      ListenerBalances(cfg, s, pc, e, pc', q);
    }
  }

  lemma StepCounted(cfg: Config, s: State, t: Tid, e: Effect, pc': Pc, s': State)
    requires Counted(s) && ThreadStep(cfg, s, t, e, pc', s')
    ensures Counted(s')
  {
    var pc := s.pcs[t];
    if pc.Closing? || pc.Refused? {
      HolderSets(s, t, pc.c);
    }
    forall q ensures Value(s', q) == Count(s'.pcs, q) {
      RowBalances(cfg, s, t, pc, e, pc', q);
      ChangeIs(s, t, e, pc', s', q);
      CountUpdate(s.pcs, t, pc', q);
      assert Value(s, q) == Count(s.pcs, q);
    }
  }

  /** A channel about to be removed is used by nobody. */
  lemma RemovalIsSafe(s: State, t: Tid, u: Tid)
    requires Exclusion(s) && Counted(s) && Mapped(s)
    requires t in s.pcs && s.pcs[t].Cleaning? && s.pcs[t].sweep.LockedIdle?
    requires s.pcs[t].c < |s.objects| && s.objects[s.pcs[t].c].listeners == 0
    requires u in s.pcs && u != t && Relies(s.pcs[u])
    ensures s.pcs[u].key != s.pcs[t].key
  {
    var c := s.pcs[t].c;
    assert Relies(s.pcs[t]) && WriteLocks(s.pcs[t]);
    if s.pcs[u].key == s.pcs[t].key {
      if HoldsStreamer(s.pcs[u], c) {
        HolderSets(s, u, c);
      } else if s.pcs[u].Listening? {
        ListenerCounts(s, u, c);
      }
    }
  }

  lemma StepMapped(s: State, t: Tid, e: Effect, pc': Pc, s': State)
    requires Exclusion(s) && Counted(s) && Mapped(s) && Moves(s, t, e, pc', s') && MapFacts(s, s.pcs[t], e, pc')
    ensures Mapped(s')
  {
    forall u | u in s'.pcs && Relies(s'.pcs[u])
      ensures && s'.pcs[u].key in s'.channels && s'.channels[s'.pcs[u].key] == ChannelOf(s'.pcs[u])
              && (s'.pcs[u].Cleaning? && ChannelOf(s'.pcs[u]) < |s'.objects| ==> !s'.objects[ChannelOf(s'.pcs[u])].streamer)
    {
      if u != t {
        OtherMapped(s, t, e, pc', s', u);
      }
    }
  }

  lemma OtherMapped(s: State, t: Tid, e: Effect, pc': Pc, s': State, u: Tid)
    requires Exclusion(s) && Counted(s) && Mapped(s) && Moves(s, t, e, pc', s') && MapFacts(s, s.pcs[t], e, pc')
    requires u in s.pcs && u != t && Relies(s.pcs[u])
    ensures s.pcs[u].key in s'.channels && s'.channels[s.pcs[u].key] == ChannelOf(s.pcs[u])
    ensures s.pcs[u].Cleaning? && ChannelOf(s.pcs[u]) < |s'.objects| ==> !s'.objects[ChannelOf(s.pcs[u])].streamer
  {
    assert s.pcs[u].key in s.channels && s.channels[s.pcs[u].key] == ChannelOf(s.pcs[u]);
    if e.Remove? {
      RemovalIsSafe(s, t, u);
    }
    if s.pcs[u].Cleaning? {
      assert WriteLocks(s.pcs[u]);
    }
  }

  lemma NoNegative(s: State, c: nat)
    requires Counted(s) && c < |s.objects|
    ensures s.objects[c].listeners >= 0
  {
    assert Value(s, OnListener(c)) == Count(s.pcs, OnListener(c));
  }

  /** Whoever owed a look at a channel that stays unused still owes it. */
  lemma StillOwed(s: State, t: Tid, e: Effect, pc': Pc, s': State, k: Key, u: Tid)
    requires Shape(s) && Moves(s, t, e, pc', s') && OweFacts(s, s.pcs[t], e, pc')
    requires k in s.channels && k in s'.channels && s'.channels[k] == s.channels[k]
    requires Unused(s, s.channels[k]) && Unused(s', s.channels[k]) && !Owes(pc', s.channels[k])
    requires u in s.pcs && Owes(s.pcs[u], s.channels[k])
    ensures u in s'.pcs && Owes(s'.pcs[u], s'.channels[k])
  {
  }

  lemma StepOwed(s: State, t: Tid, e: Effect, pc': Pc, s': State)
    requires Shape(s) && Counted(s) && Owed(s) && Moves(s, t, e, pc', s')
    requires OweFacts(s, s.pcs[t], e, pc')
    ensures Owed(s')
  {
    forall k | k in s'.channels && Unused(s', s'.channels[k])
      ensures exists u :: u in s'.pcs && Owes(s'.pcs[u], s'.channels[k])
    {
      var c := s'.channels[k];
      if Owes(pc', c) {
        assert t in s'.pcs && Owes(s'.pcs[t], c);
      } else {
        NotNew(s, t, e, pc', s', k);
        var u :| u in s.pcs && Owes(s.pcs[u], c);
        StillOwed(s, t, e, pc', s', k, u);
      }
    }
  }

  /** Only a step that leaves its thread owing can make a mapped channel unused. */
  lemma NotNew(s: State, t: Tid, e: Effect, pc': Pc, s': State, k: Key)
    requires Shape(s) && Counted(s) && Moves(s, t, e, pc', s') && OweFacts(s, s.pcs[t], e, pc')
    requires k in s'.channels && Unused(s', s'.channels[k]) && !Owes(pc', s'.channels[k])
    ensures k in s.channels && s.channels[k] == s'.channels[k] && Unused(s, s.channels[k])
  {
    if e.ChannelListeners? && e.c == s'.channels[k] {
      NoNegative(s, e.c);
    }
  }

  lemma StepLimited(cfg: Config, s: State, t: Tid, e: Effect, pc': Pc, s': State)
    requires Limited(cfg, s) && Moves(s, t, e, pc', s') && LimitFacts(cfg, s, e)
    ensures Limited(cfg, s')
  {
  }

  lemma StepKeeps(cfg: Config, s: State, t: Tid, e: Effect, pc': Pc, s': State)
    requires Inv(cfg, s) && ThreadStep(cfg, s, t, e, pc', s')
    ensures Inv(cfg, s')
  {
    RowFacts(cfg, s, t, s.pcs[t], e, pc');
    StepShape(s, t, e, pc', s');
    StepExclusion(s, t, e, pc', s');
    StepCounted(cfg, s, t, e, pc', s');
    StepMapped(s, t, e, pc', s');
    StepOwed(s, t, e, pc', s');
    StepLimited(cfg, s, t, e, pc', s');
  }

  // ----- the other steps -----

  lemma SpawnKeeps(cfg: Config, s: State, t: Tid)
    requires Inv(cfg, s) && t !in s.pcs
    ensures Inv(cfg, s.(pcs := s.pcs[t := Idle]))
  {
    var s' := s.(pcs := s.pcs[t := Idle]);
    forall q ensures Value(s', q) == Count(s'.pcs, q) {
      CountUpdate(s.pcs, t, Idle, q);
      assert Value(s, q) == Count(s.pcs, q);
    }
    forall k | k in s'.channels && Unused(s', s'.channels[k])
      ensures exists u :: u in s'.pcs && Owes(s'.pcs[u], s'.channels[k])
    {
      assert Unused(s, s.channels[k]);
      var u :| u in s.pcs && Owes(s.pcs[u], s.channels[k]);
      assert s'.pcs[u] == s.pcs[u];
    }
  }

  /** The reloader touches neither the registry nor any counter. */
  ghost predicate SameRegistry(s: State, s': State) {
    && s'.channels == s.channels && s'.pcs == s.pcs
    && s'.connections == s.connections && s'.streamers == s.streamers && s'.listeners == s.listeners
    && |s'.objects| == |s.objects|
    && forall c | 0 <= c < |s.objects| :: s'.objects[c].(permit := false) == s.objects[c].(permit := false)
  }

  lemma ReloadIsSame(s: State, s': State)
    requires ReloadStep(s, s')
    ensures SameRegistry(s, s')
    ensures ReloadReads(s'.reload) ==> ReloadReads(s.reload) || MayRead(s)
  {
  }

  lemma SameKeeps(cfg: Config, s: State, s': State)
    requires Inv(cfg, s) && SameRegistry(s, s') && (ReloadReads(s'.reload) ==> MayRead(s'))
    ensures Inv(cfg, s')
  {
    forall q ensures Value(s', q) == Count(s'.pcs, q) {
      assert Value(s, q) == Count(s.pcs, q);
    }
    forall k | k in s'.channels && Unused(s', s'.channels[k])
      ensures exists u :: u in s'.pcs && Owes(s'.pcs[u], s'.channels[k])
    {
      assert Unused(s, s.channels[k]);
    }
  }

  lemma NextKeeps(cfg: Config, s: State, s': State)
    requires Inv(cfg, s) && Next(cfg, s, s')
    ensures Inv(cfg, s')
  {
    if t :| t !in s.pcs && s' == s.(pcs := s.pcs[t := Idle]) {
      SpawnKeeps(cfg, s, t);
    } else if t, e, pc' :| ThreadStep(cfg, s, t, e, pc', s') {
      StepKeeps(cfg, s, t, e, pc', s');
    } else {
      ReloadIsSame(s, s');
      SameKeeps(cfg, s, s');
    }
  }

  lemma InitialHolds(cfg: Config, blacklist: set<Key>)
    ensures Inv(cfg, Initial(blacklist))
  {
  }

  // ----- the theorems -----

  lemma {:induction false} RunKeeps(cfg: Config, run: seq<State>)
    requires IsRun(cfg, run)
    ensures Inv(cfg, run[|run| - 1])
    decreases |run|
  {
    if |run| == 1 {
      var blacklist :| run[0] == Initial(blacklist);
      InitialHolds(cfg, blacklist);
    } else {
      var before := run[..|run| - 1];
      assert before[0] == run[0];
      RunKeeps(cfg, before);
      NextKeeps(cfg, run[|run| - 2], run[|run| - 1]);
    }
  }

  lemma Witness(pcs: map<Tid, Pc>, q: Probe)
    requires Count(pcs, q) > 0
    ensures exists t :: t in pcs && Sees(q, pcs[t])
  {
    var ts := set t | t in pcs && Sees(q, pcs[t]);
    assert ts != {};
    var t :| t in ts;
  }

  /** Registry safety: a channel object in use is exactly the one mapped under its key. */
  lemma UsedIsMapped(cfg: Config, run: seq<State>, c: nat)
    requires IsRun(cfg, run)
    ensures var s := run[|run| - 1];
      c < |s.objects| && (s.objects[c].streamer || s.objects[c].listeners != 0) ==>
        s.objects[c].key in s.channels && s.channels[s.objects[c].key] == c
  {
    RunKeeps(cfg, run);
    var s := run[|run| - 1];
    if c < |s.objects| && (s.objects[c].streamer || s.objects[c].listeners != 0) {
      var q := if s.objects[c].streamer then OnStreamer(c) else OnListener(c);
      assert Value(s, q) == Count(s.pcs, q);
      Witness(s.pcs, q);
      var t :| t in s.pcs && Sees(q, s.pcs[t]);
      assert Relies(s.pcs[t]) && ChannelOf(s.pcs[t]) == c;
    }
  }

  /** No guard is held and no operation is under way. */
  ghost predicate Quiescent(s: State) {
    forall t | t in s.pcs :: !HasChannel(s.pcs[t])
  }

  lemma MappedIsWanted(cfg: Config, s: State, k: Key)
    requires Inv(cfg, s) && k in s.channels
    ensures exists t :: t in s.pcs && HasChannel(s.pcs[t]) && ChannelOf(s.pcs[t]) == s.channels[k]
  {
    var c := s.channels[k];
    if Unused(s, c) {
      var t :| t in s.pcs && Owes(s.pcs[t], c);
    } else {
      var q := if s.objects[c].streamer then OnStreamer(c) else OnListener(c);
      assert Value(s, q) == Count(s.pcs, q);
      Witness(s.pcs, q);
    }
  }

  /** No leak: every unused mapped channel is still owed a cleanup, so a quiescent registry is empty. */
  lemma NoLeak(cfg: Config, run: seq<State>)
    requires IsRun(cfg, run)
    ensures Owed(run[|run| - 1])
    ensures Quiescent(run[|run| - 1]) ==> run[|run| - 1].channels == map[]
  {
    RunKeeps(cfg, run);
    var s := run[|run| - 1];
    forall k | k in s.channels ensures !Quiescent(s) {
      MappedIsWanted(cfg, s, k);
    }
    assert Quiescent(s) ==> forall k | k in s.channels :: false;
  }

  predicate Streams(pc: Pc, k: Key) {
    HasChannel(pc) && pc.key == k && HoldsStreamer(pc, ChannelOf(pc))
  }

  /** At most one session per key lies between its compare-exchange and its store(false). */
  lemma OneStreamerPerKey(cfg: Config, run: seq<State>, t: Tid, u: Tid, k: Key)
    requires IsRun(cfg, run)
    requires t in run[|run| - 1].pcs && Streams(run[|run| - 1].pcs[t], k)
    requires u in run[|run| - 1].pcs && Streams(run[|run| - 1].pcs[u], k)
    ensures t == u
  {
    RunKeeps(cfg, run);
    var s := run[|run| - 1];
    var c := ChannelOf(s.pcs[t]);
    assert ChannelOf(s.pcs[u]) == c;
    CountAtLeast(s.pcs, {t, u}, OnStreamer(c));
    assert Value(s, OnStreamer(c)) == Count(s.pcs, OnStreamer(c));
    assert t != u ==> |{t, u}| == 2;
  }

  function TotalListeners(objects: seq<Channel>): int {
    if objects == [] then 0 else TotalListeners(objects[..|objects| - 1]) + objects[|objects| - 1].listeners
  }

  ghost function ListeningBelow(pcs: map<Tid, Pc>, n: nat): set<Tid> {
    set t | t in pcs && pcs[t].Listening? && pcs[t].c < n
  }

  lemma {:induction false} TotalCounts(s: State, n: nat)
    requires Counted(s) && n <= |s.objects|
    ensures TotalListeners(s.objects[..n]) == |ListeningBelow(s.pcs, n)|
  {
    if n == 0 {
      assert ListeningBelow(s.pcs, 0) == {};
    } else {
      TotalCounts(s, n - 1);
      var last := set t | t in s.pcs && Sees(OnListener(n - 1), s.pcs[t]);
      assert ListeningBelow(s.pcs, n) == ListeningBelow(s.pcs, n - 1) + last;
      assert s.objects[..n][..n - 1] == s.objects[..n - 1];
      assert Value(s, OnListener(n - 1)) == Count(s.pcs, OnListener(n - 1));
    }
  }

  /** Counter safety: no underflow, every non-zero limit holds, and the channels' listeners
      never add up to more than active_listeners. */
  lemma CountersAreSafe(cfg: Config, run: seq<State>)
    requires IsRun(cfg, run)
    ensures var s := run[|run| - 1];
      && 0 <= s.connections && 0 <= s.streamers
      && 0 <= TotalListeners(s.objects) <= s.listeners
      && (forall c | 0 <= c < |s.objects| :: 0 <= s.objects[c].listeners)
      && Limited(cfg, s)
  {
    RunKeeps(cfg, run);
    var s := run[|run| - 1];
    assert Value(s, AllConnections) == Count(s.pcs, AllConnections);
    assert Value(s, AllStreamers) == Count(s.pcs, AllStreamers);
    assert Value(s, AllListeners) == Count(s.pcs, AllListeners);
    assert s.objects[..|s.objects|] == s.objects;
    TotalCounts(s, |s.objects|);
    CountAtLeast(s.pcs, ListeningBelow(s.pcs, |s.objects|), AllListeners);
    forall c | 0 <= c < |s.objects| ensures 0 <= s.objects[c].listeners {
      NoNegative(s, c);
    }
  }
}
