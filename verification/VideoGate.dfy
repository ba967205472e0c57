/** Which live video frames a listener is sent (VideoRtpTrack, server/src/rtsp.rs). */
module VideoGate {
  import opened Options

  datatype Message = Wake | Frame(keyframe: bool)

  datatype VideoState = Offline | AudioOnly | Video

  /** What the publisher and its listeners share: two flags, the resync epoch, and everything
      ever broadcast.  A receiver is a position in that log. */
  datatype Channel = Channel(streamer: bool, active: bool, epoch: nat, log: seq<Message>)

  const NEW_CHANNEL := Channel(false, false, 0, [])

  /** channel_video_state, from its two loads. */
  function StateFrom(streamer: bool, active: bool): VideoState {
    if !streamer then Offline else if active then Video else AudioOnly
  }

  function StateOf(ch: Channel): VideoState {
    StateFrom(ch.streamer, ch.active)
  }

  // ----- one track, as values -----

  /** `sent` lists the log positions of the live frames written to the listener. */
  datatype Track = Track(rx: nat, seenKeyframe: bool, lastState: Option<VideoState>, sent: seq<nat>)

  function Joined(rx: nat): Track {
    Track(rx, false, None, [])
  }

  function Resynced(t: Track, ch: Channel): Track {
    t.(rx := |ch.log|, seenKeyframe := false, lastState := None)
  }

  /** sync_state after it has read the channel's state. */
  function Synced(t: Track, state: VideoState): Track {
    if t.lastState == Some(state) then t else t.(seenKeyframe := false, lastState := Some(state))
  }

  /** Which placeholder pictures are configured. */
  datatype Placeholders = Placeholders(offline: bool, audioOnly: bool)

  function PictureFor(placeholders: Placeholders, state: VideoState): Option<VideoState> {
    if (state == Offline && placeholders.offline) || (state == AudioOnly && placeholders.audioOnly) then Some(state) else None
  }

  /** The placeholder picture sync_state sends, named by its state. */
  function PictureSent(t: Track, state: VideoState, placeholders: Placeholders, suppressed: bool): Option<VideoState> {
    if t.lastState == Some(state) || suppressed then None else PictureFor(placeholders, state)
  }

  /** The receiver has fallen more than the ring's capacity behind. */
  predicate Lags(t: Track, ch: Channel, capacity: nat) {
    t.rx + capacity < |ch.log|
  }

  predicate CanReceive(t: Track, ch: Channel) {
    t.rx < |ch.log|
  }

  /** What the broadcast receiver returns: the message at a log position, or that it has lagged. */
  datatype Received = Lagged | Message(at: nat)

  function NextReceived(t: Track, ch: Channel, capacity: nat): Received {
    if Lags(t, ch, capacity) then Lagged else Message(t.rx)
  }

  function AfterReceive(t: Track, ch: Channel, capacity: nat): Track {
    if Lags(t, ch, capacity) then t else t.(rx := t.rx + 1)
  }

  /** handle_event on what has been received, `state` having been read since; `late` says the
      frame is over a second old.  Whether more is queued, and where the live edge is, is seen
      at the end. */
  function Handled(t: Track, ch: Channel, received: Received, state: VideoState, late: bool): Track
    requires received.Message? ==> received.at < |ch.log|
  {
    match received
    case Lagged => t.(rx := |ch.log|, seenKeyframe := false)
    case Message(at) =>
      match ch.log[at]
      case Wake => t.(seenKeyframe := false, lastState := None)
      case Frame(keyframe) =>
        if state != Video then t
        else if late && t.rx < |ch.log| then t.(rx := |ch.log|, seenKeyframe := false)
        else
          var seen := keyframe || (t.seenKeyframe && t.lastState == Some(Video));
          var live := t.(seenKeyframe := seen, lastState := Some(Video));
          if seen then live.(sent := t.sent + [at]) else live
  }

  // ----- the track as the server updates it -----

  class VideoRtpTrack {
    var rx: nat
    var seenKeyframe: bool
    var lastState: Option<VideoState>
    ghost var sent: seq<nat>

    ghost function Value(): Track
      reads this
    {
      Track(rx, seenKeyframe, lastState, sent)
    }

    constructor (position: nat)
      ensures Value() == Joined(position)
    {
      rx, seenKeyframe, lastState, sent := position, false, None, [];
    }

    method Resync(ch: Channel)
      modifies this
      ensures Value() == Resynced(old(Value()), ch)
    {
      rx := |ch.log|;
      seenKeyframe := false;
      lastState := None;
    }

    /** `current` is the channel's state as read; returns the placeholder picture to send. */
    method SyncState(current: VideoState, placeholders: Placeholders, suppressPlaceholders: bool) returns (picture: Option<VideoState>)
      modifies this
      ensures Value() == Synced(old(Value()), current)
      ensures picture == PictureSent(old(Value()), current, placeholders, suppressPlaceholders)
    {
      if lastState == Some(current) {
        return None;
      }
      seenKeyframe := false;
      lastState := Some(current);
      if suppressPlaceholders {
        return None;
      }
      return PictureFor(placeholders, current);
    }

    /** The receive itself; a lagging receiver is moved when the lag is handled. */
    method Receive(ch: Channel, capacity: nat) returns (received: Received)
      requires CanReceive(Value(), ch)
      modifies `rx
      ensures received == NextReceived(old(Value()), ch, capacity)
      ensures Value() == AfterReceive(old(Value()), ch, capacity)
    {
      if rx + capacity < |ch.log| {
        return Lagged;
      }
      received := Message(rx);
      rx := rx + 1;
    }

    method HandleEvent(ch: Channel, received: Received, state: VideoState, late: bool)
      requires received.Message? ==> received.at < |ch.log|
      modifies this
      ensures Value() == Handled(old(Value()), ch, received, state, late)
    {
      if received.Lagged? {
        rx := |ch.log|;
        seenKeyframe := false;
        return;
      }
      var message := ch.log[received.at];
      if message.Wake? {
        seenKeyframe := false;
        lastState := None;
        return;
      }
      if state != Video {
        return;
      }
      var queued := rx < |ch.log|;
      if queued && late {
        rx := |ch.log|;
        seenKeyframe := false;
        return;
      }
      if lastState != Some(Video) {
        seenKeyframe := false;
        lastState := Some(Video);
      }
      if message.keyframe {
        seenKeyframe := true;
      }
      if !seenKeyframe {
        return;
      }
      sent := sent + [received.at];
    }
  }

  // ----- publishers, atomic operation by atomic operation -----

  /** What is left of a publisher's command or of a guard's drop; one step is one atomic
      operation on the channel. */
  datatype Task =
    | Done
    | SwapThenSend(keyframe: bool)   // video frame: video_active.swap(true)
    | WakeThenSend(keyframe: bool)   // the swap found it false
    | SendFrame(keyframe: bool)
    | Activate                       // VideoStart
    | Deactivate                     // VideoStop; also within a guard drop
    | BumpThenWake                   // VideoReset, and the greeting of a new session
    | BumpOnly                       // ForceResync
    | SendWake                       // first audio frame
    | ClearStreamer                  // guard drop
    | Retract                        // refused at the streamer limit: no guard

  function Advance(ch: Channel, task: Task): (Channel, Task) {
    match task
    case Done => (ch, Done)
    case SwapThenSend(k) => (ch.(active := true), if ch.active then SendFrame(k) else WakeThenSend(k))
    case WakeThenSend(k) => (ch.(log := ch.log + [Wake]), SendFrame(k))
    case SendFrame(k) => (ch.(log := ch.log + [Frame(k)]), Done)
    case Activate => (ch.(active := true), SendWake)
    case Deactivate => (ch.(active := false), BumpThenWake)
    case BumpThenWake => (ch.(epoch := ch.epoch + 1), SendWake)
    case BumpOnly => (ch.(epoch := ch.epoch + 1), Done)
    case SendWake => (ch.(log := ch.log + [Wake]), Done)
    case ClearStreamer => (ch.(streamer := false), Deactivate)
    case Retract => (ch.(streamer := false), Done)
  }

  predicate IsCommand(task: Task) {
    task.SwapThenSend? || task.Activate? || task.Deactivate? || task.BumpThenWake? || task.BumpOnly? || task.SendWake?
  }

  predicate BumpDue(task: Task) {
    task.ClearStreamer? || task.Deactivate? || task.BumpThenWake? || task.BumpOnly?
  }

  // ----- the whole system -----

  datatype Session = Absent | Claimed | Open

  /** Where the listener's loop stands, one load of shared state at a time: at its head the epoch
      is read, then the two flags; then an event is received, and for a frame the two flags are
      read again before it is handled. */
  datatype Place =
    | Away | LoopHead | EpochRead | FlagRead(streamer: bool) | AwaitEvent
    | Arrived(received: Received) | HalfJudged(at: nat, streamer: bool) | Judged(at: nat, state: VideoState)

  /** `skipped`: a live frame was dropped unseen since the last one sent. */
  datatype System = System(
    ch: Channel, session: Session, task: Task, drops: seq<Task>,
    place: Place, epoch: nat, track: Track, skipped: bool)

  const START := System(NEW_CHANNEL, Absent, Done, [], Away, 0, Joined(0), false)

  /** `overlap`: a new session may claim the channel while an earlier guard is still being
      dropped.  At the head of the listener's loop publishers may run, with `splitHead`, between
      the epoch read and the first load of sync_state, and, with `splitLoads`, between its two
      loads. */
  datatype Policy = Policy(capacity: nat, overlap: bool, splitHead: bool, splitLoads: bool)

  datatype Action =
    | Claim | Refuse | Greet | Command(task: Task) | Proceed | EndSession | ProceedDrop(i: nat)
    | Join(rx: nat) | ReadEpoch | ReadFlag | SyncHead | Receive | LoadStreamer | LoadActive | Handle(late: bool) | OtherEvent

  predicate Drained(drops: seq<Task>) {
    forall i | 0 <= i < |drops| :: drops[i] == Done
  }

  predicate Publishes(a: Action) {
    a.Claim? || a.Refuse? || a.Greet? || a.Command? || a.Proceed? || a.EndSession? || a.ProceedDrop?
  }

  predicate Admits(p: Policy, place: Place) {
    && (place.EpochRead? ==> p.splitHead)
    && (place.FlagRead? ==> p.splitLoads)
  }

  /** What has been received can be handled: a frame only once the state has been read. */
  predicate Ready(s: System) {
    match s.place
    case Arrived(Lagged) => true
    case Arrived(Message(at)) => at < |s.ch.log| && s.ch.log[at].Wake?
    case Judged(at, _) => at < |s.ch.log|
    case _ => false
  }

  predicate Enabled(p: Policy, s: System, a: Action) {
    && (Publishes(a) ==> Admits(p, s.place))
    && match a
       case Claim => s.session == Absent && !s.ch.streamer && (p.overlap || Drained(s.drops))
       case Refuse => s.session == Claimed
       case Greet => s.session == Claimed
       case Command(task) => s.session == Open && s.task == Done && IsCommand(task)
       case Proceed => s.task != Done
       case EndSession => s.session != Absent && s.task == Done   // a session may end before it greets
       case ProceedDrop(i) => i < |s.drops| && s.drops[i] != Done
       case Join(rx) => s.place == Away && rx <= |s.ch.log|
       case ReadEpoch => s.place == LoopHead
       case ReadFlag => s.place == EpochRead
       case SyncHead => s.place.FlagRead?
       case Receive => s.place == AwaitEvent && CanReceive(s.track, s.ch)
       case LoadStreamer =>
         s.place.Arrived? && s.place.received.Message? && s.place.received.at < |s.ch.log| && s.ch.log[s.place.received.at].Frame?
       case LoadActive => s.place.HalfJudged?
       case Handle(_) => Ready(s)
       case OtherEvent => s.place == AwaitEvent   // audio, silence, or an RTCP report
  }

  function ReceivedAt(place: Place): Received
    requires place.Arrived? || place.Judged?
  {
    match place
    case Arrived(received) => received
    case Judged(at, _) => Message(at)
  }

  function HandledAt(s: System, late: bool): Track
    requires Ready(s)
  {
    Handled(s.track, s.ch, ReceivedAt(s.place), if s.place.Judged? then s.place.state else Offline, late)
  }

  /** A frame is dropped that would otherwise have counted as live. */
  predicate Skips(s: System) {
    s.place.Judged? && s.place.at < |s.ch.log| && s.ch.log[s.place.at].Frame? && s.place.state != Video
  }

  function Do(p: Policy, s: System, a: Action): System
    requires Enabled(p, s, a)
  {
    match a
    case Claim => s.(session := Claimed, ch := s.ch.(streamer := true))
    case Refuse => s.(session := Absent, drops := s.drops + [Retract])
    case Greet => s.(session := Open, task := BumpThenWake)
    case Command(task) => s.(task := task)
    case Proceed => var (ch, task) := Advance(s.ch, s.task); s.(ch := ch, task := task)
    case EndSession => s.(session := Absent, drops := s.drops + [ClearStreamer])
    case ProceedDrop(i) => var (ch, task) := Advance(s.ch, s.drops[i]); s.(ch := ch, drops := s.drops[i := task])
    case Join(rx) => s.(place := LoopHead, epoch := s.ch.epoch, track := Joined(rx))
    case ReadEpoch =>
      if s.ch.epoch == s.epoch then s.(place := EpochRead)
      else s.(place := EpochRead, epoch := s.ch.epoch, track := Resynced(s.track, s.ch))
    case ReadFlag => s.(place := FlagRead(s.ch.streamer))
    case SyncHead => s.(place := AwaitEvent, track := Synced(s.track, StateFrom(s.place.streamer, s.ch.active)))
    case Receive => s.(place := Arrived(NextReceived(s.track, s.ch, p.capacity)), track := AfterReceive(s.track, s.ch, p.capacity))
    case LoadStreamer => s.(place := HalfJudged(s.place.received.at, s.ch.streamer))
    case LoadActive => s.(place := Judged(s.place.at, StateFrom(s.place.streamer, s.ch.active)))
    case Handle(late) =>
      var track := HandledAt(s, late);
      s.(place := LoopHead, track := track, skipped := if |track.sent| > |s.track.sent| then false else s.skipped || Skips(s))
    case OtherEvent => s.(place := LoopHead)
  }

  ghost predicate Legal(p: Policy, acts: seq<Action>) {
    acts == [] || (Legal(p, acts[..|acts| - 1]) && Enabled(p, Run(p, acts[..|acts| - 1]), acts[|acts| - 1]))
  }

  ghost function Run(p: Policy, acts: seq<Action>): System {
    if acts == [] then START
    else
      var s := Run(p, acts[..|acts| - 1]);
      if Enabled(p, s, acts[|acts| - 1]) then Do(p, s, acts[|acts| - 1]) else s
  }

  // ----- decodable forwarding -----

  predicate FrameWithin(log: seq<Message>, from: nat, to: nat) {
    exists i :: from <= i < to && i < |log| && log[i].Frame?
  }

  /** The sent positions are frames in order; the first is a keyframe, and each later one is a
      keyframe or comes right after its predecessor in the published frame sequence. */
  ghost predicate Decodable(log: seq<Message>, sent: seq<nat>) {
    && (forall i | 0 <= i < |sent| :: sent[i] < |log| && log[sent[i]].Frame?)
    && (|sent| > 0 ==> log[sent[0]].keyframe)
    && (forall i | 0 < i < |sent| :: sent[i - 1] < sent[i])
    && (forall i | 0 < i < |sent| :: log[sent[i]].keyframe || !FrameWithin(log, sent[i - 1] + 1, sent[i]))
  }
}
