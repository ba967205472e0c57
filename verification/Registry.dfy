/** The state that publishers, RTSP listeners and the blacklist reloader share: the channel
    registry, the channel objects, the global counters, the blacklist and the ban table.

    Every thread has a program counter.  One step is one atomic operation, one lock
    acquisition, or one section under an exclusive lock; memory is sequentially consistent.
    Each step is a row of a table: from one program counter, under a condition on what is
    read, one effect on the shared state and the next program counter.  The registry's
    read-write lock is not a variable: who holds it follows from the program counters. */
module Registry {
  import opened BanTable
  import opened Common

  /** A thread never changes its address. */
  datatype Tid = Tid(n: nat, ip: Ip)

  datatype Role = Publisher | Listener

  /** Progress through reserve_channel. */
  datatype Phase =
    | WantRead                 // about to take the read lock
    | Reading                  // read lock held, map not looked at yet
    | ReadFound(c: nat)        // read lock held, channel found
    | WantWrite                // not found, read lock dropped
    | Writing                  // write lock held
    | WriteFound(c: nat)       // write lock held, channel found or inserted

  /** Progress through cleanup_channel. */
  datatype Sweep =
    | LoadStreamer | LoadListeners   // the unlocked first look
    | AwaitWrite
    | Locked                         // write lock held, second look
    | LockedIdle                     // write lock held, same channel, no streamer

  datatype Pc =
    | Idle
    // publisher: ingest_ws, streamer_session, StreamerGuard::drop
    | Arriving(key: Key) | Vetting(key: Key) | Admitted(key: Key)
    | Reserving(role: Role, key: Key, at: Phase)
    | Claimed(key: Key, c: nat)        // compare_exchange succeeded, streamer not counted
    | Refused(key: Key, c: nat)        // over the streamer limit
    | Starting(key: Key, c: nat)       // guard built, startup blacklist check pending
    | StartVetting(key: Key, c: nat)   // startup IP check pending
    | Streaming(key: Key, c: nat)
    | Woken(key: Key, c: nat)          // blacklist notification taken, check pending
    | Closing(key: Key, c: nat)        // guard dropped, store(false) pending
    | Unset(key: Key, c: nat)          // final blacklist check pending
    | Checked(key: Key, c: nat)        // still counted in active_streamers
    // listener: handle_rtsp_client, subscribe_listener, ListenerGuard::drop
    | Connected
    | Listening(key: Key, c: nat)
    | Leaving(key: Key, c: nat)        // still counted in active_listeners
    // both
    | Cleaning(role: Role, key: Key, c: nat, sweep: Sweep, guarded: bool)
    | Gone(key: Key, guarded: bool)    // publisher holding only its connection
    | Departed(key: Key, guarded: bool)

  /** Progress through replace_stream_blacklist and notify_blacklisted_streamers. */
  datatype Reload =
    | ReloadIdle
    | Written                                      // both write locks dropped
    | Notifying(left: set<Key>)                    // read locks held
    | Granting(left: set<Key>, key: Key, c: nat)   // read locks held, channel found streaming

  datatype Channel = Channel(key: Key, streamer: bool, listeners: int, permit: bool)

  datatype Config = Config(maxConnections: nat, maxStreamers: nat, maxListenersTotal: nat, maxListenersPerStream: nat)

  datatype State = State(
    channels: map<Key, nat>,       // the registry: key to channel object
    objects: seq<Channel>,         // every channel object ever made
    connections: int, streamers: int, listeners: int,
    blacklist: set<Key>, bans: Bans,
    reload: Reload,
    pcs: map<Tid, Pc>,
    seen: set<Tid>)                // publishers a reload found streaming, their ID still listed

  /** Zero disables a limit. */
  predicate LimitAllows(limit: nat, current: int) {
    limit == 0 || current < limit
  }

  function Initial(blacklist: set<Key>): State {
    State(map[], [], 0, 0, 0, blacklist, NO_BANS, ReloadIdle, map[], {})
  }

  // ----- the registry lock -----

  predicate ReadLocks(pc: Pc) {
    pc.Reserving? && (pc.at.Reading? || pc.at.ReadFound?)
  }

  predicate WriteLocks(pc: Pc) {
    || (pc.Reserving? && (pc.at.Writing? || pc.at.WriteFound?))
    || (pc.Cleaning? && (pc.sweep.Locked? || pc.sweep.LockedIdle?))
  }

  predicate ReloadReads(r: Reload) {
    r.Notifying? || r.Granting?
  }

  predicate MayRead(s: State) {
    forall u | u in s.pcs :: !WriteLocks(s.pcs[u])
  }

  predicate MayWrite(s: State) {
    MayRead(s) && !ReloadReads(s.reload) && forall u | u in s.pcs :: !ReadLocks(s.pcs[u])
  }

  // ----- effects -----

  datatype Effect =
    | Quiet
    | Connections(d: int) | Streamers(d: int) | Listeners(d: int)
    | SetStreamer(c: nat, on: bool)
    | ChannelListeners(c: nat, d: int)
    | Insert(key: Key)
    | Remove(key: Key)
    | TakePermit(c: nat)
    | BlockIp(key: Key, ip: Ip)

  predicate Sound(s: State, e: Effect) {
    match e
    case SetStreamer(c, _) => c < |s.objects|
    case ChannelListeners(c, _) => c < |s.objects|
    case TakePermit(c) => c < |s.objects|
    case _ => true
  }

  function Do(s: State, e: Effect): State
    requires Sound(s, e)
  {
    match e
    case Quiet => s
    case Connections(d) => s.(connections := s.connections + d)
    case Streamers(d) => s.(streamers := s.streamers + d)
    case Listeners(d) => s.(listeners := s.listeners + d)
    case SetStreamer(c, on) => s.(objects := s.objects[c := s.objects[c].(streamer := on)])
    case ChannelListeners(c, d) =>
      s.(objects := s.objects[c := s.objects[c].(listeners := s.objects[c].listeners + d)])
    case Insert(key) =>
      s.(channels := s.channels[key := |s.objects|], objects := s.objects + [Channel(key, false, 0, false)])
    case Remove(key) => s.(channels := s.channels - {key})
    case TakePermit(c) => s.(objects := s.objects[c := s.objects[c].(permit := false)])
    case BlockIp(key, ip) => s.(bans := Block(s.bans, s.blacklist, key, ip))
  }

  // ----- the table -----

  predicate ReserveRow(cfg: Config, s: State, pc: Pc, e: Effect, pc': Pc)
    requires pc.Reserving?
  {
    var Reserving(role, key, at) := pc;
    match at
    case WantRead => e == Quiet && MayRead(s) && pc' == pc.(at := Reading)
    case Reading =>
      e == Quiet && pc' == pc.(at := if key in s.channels then ReadFound(s.channels[key]) else WantWrite)
    case WantWrite => e == Quiet && MayWrite(s) && pc' == pc.(at := Writing)
    case Writing =>
      if key in s.channels then e == Quiet && pc' == pc.(at := WriteFound(s.channels[key]))
      else e == Insert(key) && pc' == pc.(at := WriteFound(|s.objects|))
    case ReadFound(c) => ClaimRow(cfg, s, role, key, c, e, pc')
    case WriteFound(c) => ClaimRow(cfg, s, role, key, c, e, pc')
  }

  /** The caller's atomic reservation; the lock is dropped right after it. */
  predicate ClaimRow(cfg: Config, s: State, role: Role, key: Key, c: nat, e: Effect, pc': Pc) {
    && c < |s.objects|
    && match role
       case Publisher =>
         if s.objects[c].streamer then e == Quiet && pc' == Gone(key, false)
         else e == SetStreamer(c, true) && pc' == Claimed(key, c)
       case Listener =>
         if LimitAllows(cfg.maxListenersPerStream, s.objects[c].listeners)
         then e == ChannelListeners(c, 1) && pc' == Listening(key, c)
         else e == Quiet && pc' == Leaving(key, c)
  }

  predicate CleanRow(s: State, pc: Pc, e: Effect, pc': Pc)
    requires pc.Cleaning?
  {
    var Cleaning(role, key, c, sweep, guarded) := pc;
    var out := if role == Publisher then Gone(key, guarded) else Connected;
    && c < |s.objects|
    && match sweep
       case LoadStreamer => e == Quiet && pc' == if s.objects[c].streamer then out else pc.(sweep := LoadListeners)
       case LoadListeners => e == Quiet && pc' == if s.objects[c].listeners != 0 then out else pc.(sweep := AwaitWrite)
       case AwaitWrite => e == Quiet && MayWrite(s) && pc' == pc.(sweep := Locked)
       case Locked =>
         e == Quiet &&
         pc' == if key in s.channels && s.channels[key] == c && !s.objects[c].streamer
                then pc.(sweep := LockedIdle) else out
       case LockedIdle =>
         pc' == out && e == if s.objects[c].listeners == 0 then Remove(key) else Quiet
  }

  predicate PublisherRow(cfg: Config, s: State, t: Tid, pc: Pc, e: Effect, pc': Pc) {
    match pc
    case Idle => e == Quiet && pc'.Arriving?
    case Arriving(key) =>
      e == BlockIp(key, t.ip) && pc' == if key in s.blacklist then Departed(key, false) else Vetting(key)
    case Vetting(key) =>
      e == Quiet && pc' == if IsBlocked(s.bans, t.ip) then Departed(key, false) else Admitted(key)
    case Admitted(key) =>
      if LimitAllows(cfg.maxConnections, s.connections)
      then e == Connections(1) && pc' == Reserving(Publisher, key, WantRead)
      else e == Quiet && pc' == Departed(key, false)
    case Claimed(key, c) =>
      if LimitAllows(cfg.maxStreamers, s.streamers)
      then e == Streamers(1) && pc' == Starting(key, c)
      else e == Quiet && pc' == Refused(key, c)
    case Refused(key, c) => e == SetStreamer(c, false) && pc' == Cleaning(Publisher, key, c, LoadStreamer, false)
    case Starting(key, c) =>
      e == BlockIp(key, t.ip) && pc' == if key in s.blacklist then Closing(key, c) else StartVetting(key, c)
    case StartVetting(key, c) =>
      e == Quiet && pc' == if IsBlocked(s.bans, t.ip) then Closing(key, c) else Streaming(key, c)
    case Streaming(key, c) =>  // any other end of the session is CloseRow
      c < |s.objects| && s.objects[c].permit && e == TakePermit(c) && pc' == Woken(key, c)
    case Woken(key, c) =>
      e == BlockIp(key, t.ip) && pc' == if key in s.blacklist then Closing(key, c) else Streaming(key, c)
    case Closing(key, c) => e == SetStreamer(c, false) && pc' == Unset(key, c)
    case Unset(key, c) => e == BlockIp(key, t.ip) && pc' == Checked(key, c)
    case Checked(key, c) => e == Streamers(-1) && pc' == Cleaning(Publisher, key, c, LoadStreamer, true)
    case Gone(key, guarded) => e == Connections(-1) && pc' == Departed(key, guarded)
    case _ => false
  }

  /** A session that holds its guard may end at any time. */
  predicate CloseRow(pc: Pc, e: Effect, pc': Pc) {
    (pc.Starting? || pc.StartVetting? || pc.Streaming? || pc.Woken?) && e == Quiet && pc' == Closing(pc.key, pc.c)
  }

  predicate ListenerRow(cfg: Config, s: State, pc: Pc, e: Effect, pc': Pc) {
    match pc
    case Idle => LimitAllows(cfg.maxConnections, s.connections) && e == Connections(1) && pc' == Connected
    case Connected =>
      || (e == Connections(-1) && pc' == Idle)
      || (LimitAllows(cfg.maxListenersTotal, s.listeners) && e == Listeners(1)
          && pc'.Reserving? && pc' == Reserving(Listener, pc'.key, WantRead))
    case Listening(key, c) => e == ChannelListeners(c, -1) && pc' == Leaving(key, c)
    case Leaving(key, c) => e == Listeners(-1) && pc' == Cleaning(Listener, key, c, LoadStreamer, false)
    case _ => false
  }

  predicate Row(cfg: Config, s: State, t: Tid, pc: Pc, e: Effect, pc': Pc) {
    if pc.Reserving? then ReserveRow(cfg, s, pc, e, pc')
    else if pc.Cleaning? then CleanRow(s, pc, e, pc')
    else PublisherRow(cfg, s, t, pc, e, pc') || CloseRow(pc, e, pc') || ListenerRow(cfg, s, pc, e, pc')
  }

  // ----- steps and runs -----

  ghost predicate ThreadStep(cfg: Config, s: State, t: Tid, e: Effect, pc': Pc, s': State) {
    && t in s.pcs
    && Sound(s, e)
    && Row(cfg, s, t, s.pcs[t], e, pc')
    && s' == Do(s, e).(pcs := s.pcs[t := pc'])
  }

  predicate HoldsStreamer(pc: Pc, c: nat) {
    && (pc.Claimed? || pc.Refused? || pc.Starting? || pc.StartVetting? || pc.Streaming? || pc.Woken? || pc.Closing?)
    && pc.c == c
  }

  predicate IsPublisher(pc: Pc) {
    !pc.Idle? && !pc.Connected? && !pc.Listening? && !pc.Leaving?
    && (pc.Reserving? ==> pc.role == Publisher) && (pc.Cleaning? ==> pc.role == Publisher)
  }

  /** replace_stream_blacklist under both write locks. */
  ghost function Rewrite(s: State, entries: set<Key>): State {
    s.(blacklist := entries, bans := Retain(s.bans, entries), reload := Written,
       seen := set t | t in s.seen && t in s.pcs && IsPublisher(s.pcs[t]) && s.pcs[t].key in entries)
  }

  /** The load of `streamer` at one listed key. */
  ghost function Look(s: State, key: Key): State
    requires s.reload.Notifying?
  {
    var left := s.reload.left - {key};
    if key in s.channels && s.channels[key] < |s.objects| && s.objects[s.channels[key]].streamer then
      var c := s.channels[key];
      s.(reload := Granting(left, key, c), seen := s.seen + set t | t in s.pcs && HoldsStreamer(s.pcs[t], c))
    else s.(reload := Notifying(left))
  }

  /** notify_one on the channel found. */
  function Grant(s: State): State
    requires s.reload.Granting? && s.reload.c < |s.objects|
  {
    var c := s.reload.c;
    s.(objects := s.objects[c := s.objects[c].(permit := true)], reload := Notifying(s.reload.left))
  }

  ghost predicate ReloadStep(s: State, s': State) {
    match s.reload
    case ReloadIdle => exists entries :: entries != s.blacklist && s' == Rewrite(s, entries)
    case Written => MayRead(s) && s' == s.(reload := Notifying(s.blacklist))
    case Notifying(left) =>
      if left == {} then s' == s.(reload := ReloadIdle)
      else exists key :: key in left && s' == Look(s, key)
    case Granting(_, _, c) => c < |s.objects| && s' == Grant(s)
  }

  ghost predicate Next(cfg: Config, s: State, s': State) {
    || (exists t :: t !in s.pcs && s' == s.(pcs := s.pcs[t := Idle]))
    || (exists t, e, pc' :: ThreadStep(cfg, s, t, e, pc', s'))
    || ReloadStep(s, s')
  }

  /** A finite run, as the sequence of its states. */
  ghost predicate IsRun(cfg: Config, run: seq<State>) {
    && |run| > 0
    && (exists blacklist :: run[0] == Initial(blacklist))
    && forall i | 0 < i < |run| :: Next(cfg, run[i - 1], run[i])
  }
}
