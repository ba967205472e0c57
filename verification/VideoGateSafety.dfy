/** Every run forwards a decodable video stream, exactly under the conditions stated here. */
module VideoGateSafety {
  import opened Common
  import opened Options
  import opened VideoGate

  ghost predicate Bumping(s: System) {
    BumpDue(s.task) || exists i :: 0 <= i < |s.drops| && BumpDue(s.drops[i])
  }

  // ----- publishers, one at a time -----

  ghost predicate Ordered(s: System) {
    && (s.session == Absent ==> s.task == Done)
    && (s.session == Claimed ==> s.task == Done && !s.ch.active)
    && (s.session != Absent ==> s.ch.streamer && Drained(s.drops))
    && !s.task.ClearStreamer? && !s.task.Retract?
    && (forall i, j | 0 <= i < |s.drops| && 0 <= j < |s.drops| && s.drops[i] != Done && s.drops[j] != Done :: i == j)
    && (forall i | 0 <= i < |s.drops| && s.drops[i] != Done :: DropFits(s.ch, s.drops[i]))
    && (s.session == Absent && Drained(s.drops) ==> !s.ch.streamer && !s.ch.active)
  }

  predicate DropFits(ch: Channel, task: Task) {
    match task
    case ClearStreamer => ch.streamer
    case Retract => ch.streamer && !ch.active
    case Deactivate => !ch.streamer
    case BumpThenWake => !ch.streamer && !ch.active
    case SendWake => !ch.streamer && !ch.active
    case _ => false
  }

  // ----- the listener -----

  predicate InHead(place: Place) {
    place.EpochRead? || place.FlagRead?
  }

  /** The log position of the message that is being handled. */
  function InHand(place: Place): Option<nat> {
    match place
    case Arrived(Message(at)) => Some(at)
    case HalfJudged(at, _) => Some(at)
    case Judged(at, _) => Some(at)
    case _ => None
  }

  /** Everything before this position has been handled. */
  function Upto(s: System): nat {
    if InHand(s.place).Some? then InHand(s.place).value else s.track.rx
  }

  /** What was sent is decodable, and nothing was missed since unless `skipped`. */
  ghost predicate TrackFits(log: seq<Message>, t: Track, skipped: bool, upto: nat) {
    && Decodable(log, t.sent)
    && upto <= t.rx <= |log|
    && (|t.sent| > 0 ==> t.sent[|t.sent| - 1] < upto)
    && (t.seenKeyframe ==>
          && |t.sent| > 0
          && (!skipped ==> !FrameWithin(log, t.sent[|t.sent| - 1] + 1, upto)))
  }

  predicate HandFits(log: seq<Message>, t: Track, place: Place) {
    && (InHand(place).Some? ==> InHand(place).value + 1 == t.rx <= |log|)
    && (place.HalfJudged? || place.Judged? ==> InHand(place).value < |log| && log[InHand(place).value].Frame?)
  }

  ghost predicate Contiguous(s: System) {
    HandFits(s.ch.log, s.track, s.place) && TrackFits(s.ch.log, s.track, s.skipped, Upto(s))
  }

  /** The channel is live, or the listener has an epoch change to learn of. */
  ghost predicate Watched(s: System) {
    s.epoch < s.ch.epoch || StateOf(s.ch) == Video || Bumping(s)
  }

  /** The channel is not live, and the listener has an epoch change to learn of. */
  ghost predicate Lapsed(s: System) {
    s.epoch < s.ch.epoch || (StateOf(s.ch) != Video && Bumping(s))
  }

  /** A keyframe seen earlier still counts only while nothing can have been missed. */
  ghost predicate Current(s: System) {
    s.track.seenKeyframe ==> s.place != Away && s.track.lastState == Some(Video) && Watched(s)
  }

  ghost predicate Caught(s: System) {
    && (s.place != Away ==> s.epoch <= s.ch.epoch)
    && (InHead(s.place) ==> s.epoch == s.ch.epoch)
    && (s.place.FlagRead? ==> s.place.streamer == s.ch.streamer)
    && (s.track.seenKeyframe && s.skipped ==> (s.place == LoopHead || InHead(s.place)) && Lapsed(s))
  }

  /** What has been read for the frame in hand: a state other than live is not forgotten, and a
      live one still holds or has an epoch change to come. */
  ghost predicate Judging(s: System) {
    && (s.place.HalfJudged? && !s.place.streamer && s.track.seenKeyframe ==> Lapsed(s))
    && (s.place.Judged? && s.place.state != Video && s.track.seenKeyframe ==> Lapsed(s))
    && (s.place.Judged? && s.place.state == Video ==> Watched(s))
  }

  ghost predicate Good(s: System) {
    Ordered(s) && Contiguous(s) && Current(s) && Caught(s) && Judging(s)
  }

  predicate AtomicPolicy(p: Policy) {
    !p.overlap && !p.splitHead && !p.splitLoads
  }

  lemma DropsOrdered(p: Policy, s: System, a: Action)
    requires !p.overlap && Ordered(s) && Enabled(p, s, a) && Publishes(a)
    ensures Ordered(Do(p, s, a))
  {
    var s' := Do(p, s, a);
    if a.ProceedDrop? {
      assert !Drained(s.drops);
      assert forall j | 0 <= j < |s.drops| && j != a.i :: s'.drops[j] == s.drops[j] == Done;
      assert s'.drops[a.i] == Done ==> Drained(s'.drops);
    } else if a.EndSession? || a.Refuse? {
      assert s'.drops[|s.drops|] != Done;
    }
  }

  lemma AdvanceGrows(ch: Channel, task: Task)
    ensures ch.log <= Advance(ch, task).0.log && ch.epoch <= Advance(ch, task).0.epoch
  {
  }

  /** Publishers only append to the log. */
  lemma LogGrows(p: Policy, s: System, a: Action)
    requires Enabled(p, s, a)
    ensures s.ch.log <= Do(p, s, a).ch.log && s.ch.epoch <= Do(p, s, a).ch.epoch
  {
    match a
    case Proceed => AdvanceGrows(s.ch, s.task);
    case ProceedDrop(i) => AdvanceGrows(s.ch, s.drops[i]);
    case _ =>
  }

  lemma FramesStay(log: seq<Message>, log': seq<Message>, from: nat, to: nat)
    requires log <= log' && to <= |log|
    ensures FrameWithin(log', from, to) == FrameWithin(log, from, to)
  {
    assert forall i | from <= i < to :: log'[i] == log[i];
  }

  lemma DecodableStays(log: seq<Message>, log': seq<Message>, sent: seq<nat>)
    requires log <= log' && Decodable(log, sent)
    ensures Decodable(log', sent)
  {
    forall i | 0 < i < |sent| ensures log'[sent[i]].keyframe || !FrameWithin(log', sent[i - 1] + 1, sent[i]) {
      FramesStay(log, log', sent[i - 1] + 1, sent[i]);
    }
  }

  lemma PublisherKeepsTrack(p: Policy, s: System, a: Action)
    requires Contiguous(s) && Enabled(p, s, a) && Publishes(a)
    ensures Contiguous(Do(p, s, a))
  {
    var s' := Do(p, s, a);
    LogGrows(p, s, a);
    assert s'.track == s.track && s'.place == s.place && s'.skipped == s.skipped;
    DecodableStays(s.ch.log, s'.ch.log, s.track.sent);
    if s.track.seenKeyframe {
      FramesStay(s.ch.log, s'.ch.log, s.track.sent[|s.track.sent| - 1] + 1, Upto(s));
    }
  }

  /** The channel leaves the video state only with an epoch bump to come, and enters it only
      with none. */
  lemma StateChanges(p: Policy, s: System, a: Action)
    requires !p.overlap && Ordered(s) && Enabled(p, s, a) && Publishes(a)
    ensures var s' := Do(p, s, a);
      && (StateOf(s.ch) == Video && StateOf(s'.ch) != Video ==> Bumping(s'))
      && (StateOf(s.ch) != Video && StateOf(s'.ch) == Video ==> !Bumping(s))
      && (Bumping(s) ==> Bumping(s') || s.ch.epoch < s'.ch.epoch)
  {
    var s' := Do(p, s, a);
    if a.ProceedDrop? {
      assert s'.drops[a.i] == Advance(s.ch, s.drops[a.i]).1;
      if Bumping(s) && !BumpDue(s.task) {
        var j :| 0 <= j < |s.drops| && BumpDue(s.drops[j]);
        assert j == a.i;
      }
    } else {
      assert forall j | 0 <= j < |s.drops| :: s'.drops[j] == s.drops[j];
    }
  }

  lemma PublisherKeepsWatch(p: Policy, s: System, a: Action)
    requires !p.overlap && Ordered(s) && Enabled(p, s, a) && Publishes(a)
    ensures s.epoch <= s.ch.epoch && Watched(s) ==> Watched(Do(p, s, a))
    ensures s.epoch <= s.ch.epoch && Lapsed(s) ==> Lapsed(Do(p, s, a))
  {
    StateChanges(p, s, a);
    LogGrows(p, s, a);
  }

  lemma PublisherLeaves(p: Policy, s: System, a: Action)
    requires Enabled(p, s, a) && Publishes(a)
    ensures var s' := Do(p, s, a);
      s'.track == s.track && s'.place == s.place && s'.epoch == s.epoch && s'.skipped == s.skipped
  {
  }

  lemma PublisherKeeps(p: Policy, s: System, a: Action)
    requires AtomicPolicy(p) && Good(s) && Enabled(p, s, a) && Publishes(a)
    ensures Good(Do(p, s, a))
  {
    DropsOrdered(p, s, a);
    PublisherKeepsTrack(p, s, a);
    PublisherKeepsWatch(p, s, a);
    PublisherLeaves(p, s, a);
    LogGrows(p, s, a);
    assert !InHead(s.place);
  }

  /** The frame at `at`, if it is sent, may follow what was sent before. */
  lemma SendKeepsDecodable(log: seq<Message>, sent: seq<nat>, at: nat)
    requires Decodable(log, sent) && at < |log| && log[at].Frame?
    requires |sent| > 0 ==> sent[|sent| - 1] < at
    requires log[at].keyframe || (|sent| > 0 && !FrameWithin(log, sent[|sent| - 1] + 1, at))
    ensures Decodable(log, sent + [at])
  {
    var sent' := sent + [at];
    forall i | 0 < i < |sent'|
      ensures sent'[i - 1] < sent'[i] && (log[sent'[i]].keyframe || !FrameWithin(log, sent'[i - 1] + 1, sent'[i]))
    {
      if i < |sent| {
        assert sent'[i - 1] == sent[i - 1] && sent'[i] == sent[i];
      }
    }
  }

  /** Sending leaves no frame behind. */
  lemma SentFits(log: seq<Message>, t: Track, t': Track, at: nat)
    requires Decodable(log, t'.sent) && at + 1 == t.rx == t'.rx <= |log| && t'.sent == t.sent + [at]
    ensures TrackFits(log, t', false, t'.rx)
  {
  }

  /** Not sending is harmless if it drops the keyframe, or counts as a skip, or no frame was
      passed over. */
  lemma UnsentFits(log: seq<Message>, t: Track, t': Track, skipped: bool, skipped': bool, upto: nat, upto': nat)
    requires TrackFits(log, t, skipped, upto) && upto <= upto' <= t'.rx <= |log| && t'.sent == t.sent
    requires t'.seenKeyframe ==> t.seenKeyframe && (skipped' || (skipped' == skipped && upto' == upto))
    ensures TrackFits(log, t', skipped', upto')
  {
  }

  /** Either the frame in hand is sent, or nothing is, and then a keyframe still counts only if
      the frame is skipped. */
  lemma SendsOrNot(p: Policy, s: System, late: bool)
    requires Contiguous(s) && Ready(s)
    ensures var t, t' := s.track, HandledAt(s, late);
      if |t'.sent| > |t.sent| then
        && s.place.Judged? && s.place.state == Video && t'.sent == t.sent + [s.place.at] && t'.rx == t.rx
        && t'.seenKeyframe && t'.lastState == Some(Video) && (s.ch.log[s.place.at].keyframe || t.seenKeyframe)
      else
        && t'.sent == t.sent && t.rx <= t'.rx <= |s.ch.log|
        && (t'.seenKeyframe ==> t == t' && Skips(s))
  {
  }

  lemma HandleKeepsTrack(p: Policy, s: System, late: bool)
    requires Contiguous(s) && Enabled(p, s, Handle(late)) && !(s.track.seenKeyframe && s.skipped)
    ensures Contiguous(Do(p, s, Handle(late)))
  {
    var t, t' := s.track, HandledAt(s, late);
    SendsOrNot(p, s, late);
    if |t'.sent| > |t.sent| {
      SendKeepsDecodable(s.ch.log, t.sent, s.place.at);
      SentFits(s.ch.log, t, t', s.place.at);
    } else {
      UnsentFits(s.ch.log, t, t', s.skipped, s.skipped || Skips(s), Upto(s), t'.rx);
    }
  }

  lemma HandleKeeps(p: Policy, s: System, late: bool)
    requires Good(s) && Enabled(p, s, Handle(late))
    ensures Good(Do(p, s, Handle(late)))
  {
    assert Ordered(Do(p, s, Handle(late)));
    assert !(s.track.seenKeyframe && s.skipped);
    HandleKeepsTrack(p, s, late);
    SendsOrNot(p, s, late);
    HandleKeepsWatch(p, s, late);
  }

  lemma HandleKeepsWatch(p: Policy, s: System, late: bool)
    requires Contiguous(s) && Current(s) && Caught(s) && Judging(s) && Enabled(p, s, Handle(late))
    ensures var s' := Do(p, s, Handle(late)); Current(s') && Caught(s') && Judging(s')
  {
    SendsOrNot(p, s, late);
    var s' := Do(p, s, Handle(late));
    assert Watched(s') == Watched(s) && Lapsed(s') == Lapsed(s);
  }

  lemma ReceiveKeepsTrack(p: Policy, s: System)
    requires Contiguous(s) && Enabled(p, s, Receive)
    ensures Contiguous(Do(p, s, Receive))
  {
    UnsentFits(s.ch.log, s.track, AfterReceive(s.track, s.ch, p.capacity), s.skipped, s.skipped, Upto(s), Upto(Do(p, s, Receive)));
  }

  /** A flag read as clear means that the channel is not live now. */
  lemma LoadsKeepWatch(p: Policy, s: System, a: Action)
    requires Ordered(s) && Contiguous(s) && Current(s) && Caught(s) && Judging(s)
    requires Enabled(p, s, a) && (a.LoadStreamer? || a.LoadActive?)
    ensures var s' := Do(p, s, a); Current(s') && Caught(s') && Judging(s')
  {
    var s' := Do(p, s, a);
    assert Watched(s') == Watched(s) && Lapsed(s') == Lapsed(s);
    if s.ch.active {
      ActiveIsWatched(s);
    }
  }

  /** While `video_active` is set, the channel is live or is about to bump its epoch. */
  lemma ActiveIsWatched(s: System)
    requires Ordered(s) && s.ch.active
    ensures Watched(s)
  {
    if !s.ch.streamer {
      assert !Drained(s.drops);
      var i :| 0 <= i < |s.drops| && s.drops[i] != Done;
      assert DropFits(s.ch, s.drops[i]) && BumpDue(s.drops[i]);
    }
  }

  lemma LoadsKeep(p: Policy, s: System, a: Action)
    requires Good(s) && Enabled(p, s, a) && (a.LoadStreamer? || a.LoadActive?)
    ensures Good(Do(p, s, a))
  {
    assert Ordered(Do(p, s, a));
    LoadsKeepWatch(p, s, a);
  }

  lemma ReceiveKeeps(p: Policy, s: System)
    requires Good(s) && Enabled(p, s, Receive)
    ensures Good(Do(p, s, Receive))
  {
    var s' := Do(p, s, Receive);
    assert Ordered(s');
    ReceiveKeepsTrack(p, s);
    assert Watched(s') == Watched(s);
  }

  lemma ReadKeepsTrack(p: Policy, s: System)
    requires Contiguous(s) && Enabled(p, s, ReadEpoch)
    ensures Contiguous(Do(p, s, ReadEpoch))
  {
    UnsentFits(s.ch.log, s.track, Resynced(s.track, s.ch), s.skipped, s.skipped, Upto(s), |s.ch.log|);
  }

  lemma ReadKeepsState(p: Policy, s: System)
    requires Current(s) && Caught(s) && Judging(s) && Enabled(p, s, ReadEpoch)
    ensures var s' := Do(p, s, ReadEpoch); Current(s') && Caught(s') && Judging(s')
  {
  }

  lemma ReadKeeps(p: Policy, s: System)
    requires Good(s) && Enabled(p, s, ReadEpoch)
    ensures Good(Do(p, s, ReadEpoch))
  {
    assert Ordered(Do(p, s, ReadEpoch));
    ReadKeepsTrack(p, s);
    ReadKeepsState(p, s);
  }

  lemma FlagKeeps(p: Policy, s: System)
    requires Good(s) && Enabled(p, s, ReadFlag)
    ensures Good(Do(p, s, ReadFlag))
  {
    var s' := Do(p, s, ReadFlag);
    assert Ordered(s');
    assert Watched(s') == Watched(s) && Lapsed(s') == Lapsed(s);
  }

  lemma SyncKeeps(p: Policy, s: System)
    requires Good(s) && Enabled(p, s, SyncHead)
    ensures Good(Do(p, s, SyncHead))
  {
    var s' := Do(p, s, SyncHead);
    assert Ordered(s');
    assert StateFrom(s.place.streamer, s.ch.active) == StateOf(s.ch);
    UnsentFits(s.ch.log, s.track, s'.track, s.skipped, s.skipped, Upto(s), Upto(s'));
  }

  lemma OtherKeeps(p: Policy, s: System, a: Action)
    requires Good(s) && Enabled(p, s, a) && (a.Join? || a.OtherEvent?)
    ensures Good(Do(p, s, a))
  {
    var s' := Do(p, s, a);
    assert Ordered(s');
    assert a.OtherEvent? ==> Watched(s') == Watched(s);
  }

  lemma ListenerKeeps(p: Policy, s: System, a: Action)
    requires Good(s) && Enabled(p, s, a) && !Publishes(a)
    ensures Good(Do(p, s, a))
  {
    match a
    case ReadEpoch => ReadKeeps(p, s);
    case ReadFlag => FlagKeeps(p, s);
    case SyncHead => SyncKeeps(p, s);
    case Receive => ReceiveKeeps(p, s);
    case LoadStreamer => LoadsKeep(p, s, a);
    case LoadActive => LoadsKeep(p, s, a);
    case Handle(late) => HandleKeeps(p, s, late);
    case _ => OtherKeeps(p, s, a);
  }

  lemma {:induction false} AtomicRunsStayGood(p: Policy, acts: seq<Action>)
    requires AtomicPolicy(p) && Legal(p, acts)
    ensures Good(Run(p, acts))
  {
    if acts != [] {
      var before, a := acts[..|acts| - 1], acts[|acts| - 1];
      AtomicRunsStayGood(p, before);
      if Publishes(a) {
        PublisherKeeps(p, Run(p, before), a);
      } else {
        ListenerKeeps(p, Run(p, before), a);
      }
    }
  }

  // ----- nothing is withheld -----

  /** The listener holds a keyframe and takes the channel to be live, and so does what it has
      read so far. */
  predicate Live(s: System) {
    && s.place != Away && s.track.seenKeyframe && s.track.lastState == Some(Video)
    && (s.place.FlagRead? ==> s.place.streamer)
    && (s.place.Arrived? ==> s.place.received.Message? && s.place.received.at + 1 == s.track.rx <= |s.ch.log|
                             && s.ch.log[s.place.received.at].Frame?)
    && (s.place.HalfJudged? ==> s.place.streamer && s.place.at + 1 == s.track.rx <= |s.ch.log| && s.ch.log[s.place.at].Frame?)
    && (s.place.Judged? ==> s.place.state == Video && s.place.at + 1 == s.track.rx <= |s.ch.log| && s.ch.log[s.place.at].Frame?)
  }

  /** No lag, no frame late while more is queued, no wake, no new epoch, and every flag read is set. */
  predicate Smooth(p: Policy, s: System, a: Action)
    requires Enabled(p, s, a)
  {
    match a
    case ReadEpoch => s.epoch == s.ch.epoch
    case ReadFlag => s.ch.streamer
    case SyncHead => s.ch.active
    case Receive => !Lags(s.track, s.ch, p.capacity) && s.ch.log[s.track.rx].Frame?
    case LoadStreamer => s.ch.streamer
    case LoadActive => s.ch.active
    case Handle(late) => !(late && CanReceive(s.track, s.ch))
    case _ => true
  }

  predicate SmoothRun(p: Policy, s: System, acts: seq<Action>)
    decreases |acts|
  {
    acts == [] || (Enabled(p, s, acts[0]) && Smooth(p, s, acts[0]) && SmoothRun(p, Do(p, s, acts[0]), acts[1..]))
  }

  function Continue(p: Policy, s: System, acts: seq<Action>): System
    requires SmoothRun(p, s, acts)
    decreases |acts|
  {
    if acts == [] then s else Continue(p, Do(p, s, acts[0]), acts[1..])
  }

  /** The log positions handled on the way. */
  function HandledOn(p: Policy, s: System, acts: seq<Action>): seq<nat>
    requires SmoothRun(p, s, acts)
    decreases |acts|
  {
    if acts == [] then []
    else
      (if acts[0].Handle? && InHand(s.place).Some? then [InHand(s.place).value] else [])
      + HandledOn(p, Do(p, s, acts[0]), acts[1..])
  }

  /** One action of a smooth run: a frame handled is sent, and nothing else changes what was. */
  lemma SmoothStep(p: Policy, s: System, a: Action)
    requires Live(s) && Enabled(p, s, a) && Smooth(p, s, a)
    ensures var s' := Do(p, s, a);
      && Live(s') && Upto(s') == Upto(s) + (if a.Handle? then 1 else 0)
      && s'.track.sent == if a.Handle? then s.track.sent + [Upto(s)] else s.track.sent
    ensures a.Handle? ==> InHand(s.place) == Some(Upto(s))
  {
    LogGrows(p, s, a);
  }

  predicate Consecutive(positions: seq<nat>, from: nat) {
    positions == [] || (positions[0] == from && Consecutive(positions[1..], from + 1))
  }

  /** Over any continuation of a run in which a keyframe has been sent, publishers running
      between any two loads, every frame handled is sent and none is missed in between. */
  lemma {:induction false} LiveIsComplete(p: Policy, s: System, acts: seq<Action>)
    requires Live(s) && SmoothRun(p, s, acts)
    ensures Continue(p, s, acts).track.sent == s.track.sent + HandledOn(p, s, acts)
    ensures Consecutive(HandledOn(p, s, acts), Upto(s))
    decreases |acts|
  {
    if acts == [] {
      assert s.track.sent + [] == s.track.sent;
    } else {
      var s', rest := Do(p, s, acts[0]), HandledOn(p, Do(p, s, acts[0]), acts[1..]);
      SmoothStep(p, s, acts[0]);
      LiveIsComplete(p, s', acts[1..]);
      if acts[0].Handle? {
        Regroup(s.track.sent, [Upto(s)], rest);
        assert ([Upto(s)] + rest)[1..] == rest;
      } else {
        assert [] + rest == rest;
      }
    }
  }

  /** Handling a keyframe, the channel read as live, starts such a continuation. */
  lemma KeyframeStarts(p: Policy, s: System, late: bool)
    requires Contiguous(s) && s.place.Judged? && s.place.state == Video && s.ch.log[s.place.at].keyframe
    requires !(late && CanReceive(s.track, s.ch))
    ensures Enabled(p, s, Handle(late))
    ensures var s' := Do(p, s, Handle(late)); Live(s') && s'.track.sent == s.track.sent + [s.place.at]
  {
  }

  // ----- what has been passed over stays unsent -----

  predicate LegalFrom(p: Policy, s: System, acts: seq<Action>)
    decreases |acts|
  {
    acts == [] || (Enabled(p, s, acts[0]) && LegalFrom(p, Do(p, s, acts[0]), acts[1..]))
  }

  function RunFrom(p: Policy, s: System, acts: seq<Action>): System
    requires LegalFrom(p, s, acts)
    decreases |acts|
  {
    if acts == [] then s else RunFrom(p, Do(p, s, acts[0]), acts[1..])
  }

  /** The listener is handling the message just before its place in the log, or none. */
  predicate Positioned(s: System) {
    s.place != Away && s.track.rx <= |s.ch.log| && HandFits(s.ch.log, s.track, s.place)
  }

  /** Nothing before `from` has been added to what was sent. */
  predicate OnlyFrom(before: seq<nat>, after: seq<nat>, from: nat) {
    before <= after && forall i | |before| <= i < |after| :: after[i] >= from
  }

  lemma StepMovesOn(p: Policy, s: System, a: Action)
    requires Positioned(s) && Enabled(p, s, a)
    ensures var s' := Do(p, s, a);
      Positioned(s') && Upto(s) <= Upto(s') && OnlyFrom(s.track.sent, s'.track.sent, Upto(s))
  {
    LogGrows(p, s, a);
  }

  lemma {:induction false} MovesOn(p: Policy, s: System, acts: seq<Action>)
    requires Positioned(s) && LegalFrom(p, s, acts)
    ensures OnlyFrom(s.track.sent, RunFrom(p, s, acts).track.sent, Upto(s))
    decreases |acts|
  {
    if acts != [] {
      StepMovesOn(p, s, acts[0]);
      MovesOn(p, Do(p, s, acts[0]), acts[1..]);
    }
  }

  /** The listener learns of a new epoch, of a lag, or that a frame is late while more is queued. */
  predicate FallsBehind(s: System, a: Action) {
    || (a.ReadEpoch? && s.epoch != s.ch.epoch)
    || (a.Handle? && s.place == Arrived(Lagged))
    || (a.Handle? && a.late && s.place.Judged? && s.place.state == Video && s.track.rx < |s.ch.log|)
  }

  /** Then the step sends nothing, and nothing published before it is ever sent after it. */
  lemma JumpsToLive(p: Policy, s: System, a: Action, acts: seq<Action>)
    requires Positioned(s) && Enabled(p, s, a) && FallsBehind(s, a) && LegalFrom(p, Do(p, s, a), acts)
    ensures Do(p, s, a).track.sent == s.track.sent
    ensures OnlyFrom(s.track.sent, RunFrom(p, Do(p, s, a), acts).track.sent, |s.ch.log|)
  {
    StepMovesOn(p, s, a);
    MovesOn(p, Do(p, s, a), acts);
  }

  // ----- the three ways to fail -----

  lemma Then(p: Policy, acts: seq<Action>, a: Action) returns (more: seq<Action>)
    requires Legal(p, acts) && Enabled(p, Run(p, acts), a)
    ensures Legal(p, more) && Run(p, more) == Do(p, Run(p, acts), a)
  {
    more := acts + [a];
    assert more[..|more| - 1] == acts;
  }

  /** Then, with the states spelled out. */
  lemma Reach(p: Policy, acts: seq<Action>, s: System, a: Action, s': System) returns (more: seq<Action>)
    requires Legal(p, acts) && Run(p, acts) == s && Enabled(p, s, a) && Do(p, s, a) == s'
    ensures Legal(p, more) && Run(p, more) == s'
  {
    more := Then(p, acts, a);
  }

  /** The loop head while the epoch stands. */
  function AfterHead(s: System): System {
    s.(place := AwaitEvent, track := Synced(s.track, StateOf(s.ch)))
  }

  lemma PassHead(p: Policy, acts: seq<Action>, s: System) returns (more: seq<Action>)
    requires Legal(p, acts) && Run(p, acts) == s && s.place == LoopHead && s.epoch == s.ch.epoch
    ensures Legal(p, more) && Run(p, more) == AfterHead(s)
  {
    more := Reach(p, acts, s, ReadEpoch, s.(place := EpochRead));
    more := FinishHead(p, more, s.(place := EpochRead));
  }

  lemma FinishHead(p: Policy, acts: seq<Action>, s: System) returns (more: seq<Action>)
    requires Legal(p, acts) && Run(p, acts) == s && s.place == EpochRead
    ensures Legal(p, more) && Run(p, more) == AfterHead(s)
  {
    var s' := s.(place := FlagRead(s.ch.streamer));
    more := Reach(p, acts, s, ReadFlag, s');
    more := Reach(p, more, s', SyncHead, AfterHead(s));
  }

  predicate FrameWaits(p: Policy, s: System) {
    s.place == AwaitEvent && CanReceive(s.track, s.ch) && !Lags(s.track, s.ch, p.capacity) && s.ch.log[s.track.rx].Frame?
  }

  /** The next frame, taken in good time and with no publisher in between. */
  function AfterFrame(p: Policy, s: System): System
    requires FrameWaits(p, s)
  {
    var track := Handled(s.track.(rx := s.track.rx + 1), s.ch, Message(s.track.rx), StateOf(s.ch), false);
    s.(place := LoopHead, track := track,
       skipped := if |track.sent| > |s.track.sent| then false else s.skipped || StateOf(s.ch) != Video)
  }

  lemma JudgeFrame(p: Policy, acts: seq<Action>, s: System) returns (more: seq<Action>)
    requires Legal(p, acts) && Run(p, acts) == s && FrameWaits(p, s)
    ensures Legal(p, more)
    ensures Run(p, more) == s.(place := Judged(s.track.rx, StateOf(s.ch)), track := s.track.(rx := s.track.rx + 1))
  {
    var s1 := s.(place := Arrived(Message(s.track.rx)), track := s.track.(rx := s.track.rx + 1));
    var s2 := s1.(place := HalfJudged(s.track.rx, s.ch.streamer));
    more := Reach(p, acts, s, Receive, s1);
    more := Reach(p, more, s1, LoadStreamer, s2);
    more := Reach(p, more, s2, LoadActive, s1.(place := Judged(s.track.rx, StateOf(s.ch))));
  }

  lemma TakeFrame(p: Policy, acts: seq<Action>, s: System) returns (more: seq<Action>)
    requires Legal(p, acts) && Run(p, acts) == s && FrameWaits(p, s)
    ensures Legal(p, more) && Run(p, more) == AfterFrame(p, s)
  {
    more := JudgeFrame(p, acts, s);
    var s' := s.(place := Judged(s.track.rx, StateOf(s.ch)), track := s.track.(rx := s.track.rx + 1));
    more := Reach(p, more, s', Handle(false), AfterFrame(p, s));
  }

  const LIVE_LOG := [Wake, Wake, Frame(true), Frame(false), Frame(false)]
  const LIVE := Channel(true, true, 1, LIVE_LOG)

  /** The listener has been sent the keyframe; two more frames are waiting. */
  const TWO_WAITING := System(LIVE, Open, Done, [], LoopHead, 1, Track(3, true, Some(Video), [2]), false)

  const GREETED := System(Channel(true, false, 0, []), Open, BumpThenWake, [], Away, 0, Joined(0), false)
  const BUMPED := System(Channel(true, false, 1, []), Open, SendWake, [], Away, 0, Joined(0), false)
  const STARTED := System(Channel(true, false, 1, [Wake]), Open, Done, [], Away, 0, Joined(0), false)

  lemma GreetSession(p: Policy) returns (acts: seq<Action>)
    ensures Legal(p, acts) && Run(p, acts) == GREETED
  {
    acts := Then(p, [], Claim);
    acts := Then(p, acts, Greet);
  }

  lemma BumpEpoch(p: Policy) returns (acts: seq<Action>)
    ensures Legal(p, acts) && Run(p, acts) == BUMPED
  {
    acts := GreetSession(p);
    acts := Reach(p, acts, GREETED, Proceed, BUMPED);
  }

  lemma StartSession(p: Policy) returns (acts: seq<Action>)
    ensures Legal(p, acts) && Run(p, acts) == STARTED
  {
    acts := BumpEpoch(p);
    acts := Reach(p, acts, BUMPED, Proceed, STARTED);
  }

  lemma StartStreaming(p: Policy) returns (acts: seq<Action>)
    ensures Legal(p, acts)
    ensures Run(p, acts) == START.(
      ch := Channel(true, true, 1, [Wake, Wake]), session := Open, task := SendFrame(true))
  {
    acts := StartSession(p);
    acts := Then(p, acts, Command(SwapThenSend(true)));
    acts := Then(p, acts, Proceed);
    acts := Then(p, acts, Proceed);
  }

  /** A listener has joined, and the keyframe has been sent to it. */
  const JOINED := System(Channel(true, true, 1, [Wake, Wake, Frame(true)]), Open, Done, [], LoopHead, 1, Joined(2), false)

  lemma JoinListener(p: Policy) returns (acts: seq<Action>)
    ensures Legal(p, acts) && Run(p, acts) == JOINED
  {
    acts := StartStreaming(p);
    acts := Then(p, acts, Join(2));
    acts := Then(p, acts, Proceed);
    assert Run(p, acts).ch.log == [Wake, Wake, Frame(true)];
  }

  lemma SendKeyframe(p: Policy) returns (acts: seq<Action>)
    requires p.capacity >= 2
    ensures Legal(p, acts)
    ensures Run(p, acts) == JOINED.(track := Track(3, true, Some(Video), [2]))
  {
    acts := JoinListener(p);
    acts := PassHead(p, acts, JOINED);
    acts := TakeFrame(p, acts, AfterHead(JOINED));
  }

  lemma QueueTwoFrames(p: Policy) returns (acts: seq<Action>)
    requires p.capacity >= 2
    ensures Legal(p, acts) && Run(p, acts) == TWO_WAITING
  {
    acts := SendKeyframe(p);
    acts := Then(p, acts, Command(SwapThenSend(false)));
    acts := Then(p, acts, Proceed);
    acts := Then(p, acts, Proceed);
    assert Run(p, acts).ch.log == [Wake, Wake, Frame(true), Frame(false)];
    acts := Then(p, acts, Command(SwapThenSend(false)));
    acts := Then(p, acts, Proceed);
    acts := Then(p, acts, Proceed);
  }

  /** Frame 4 follows the dropped frame 3. */
  lemma GapIsUndecodable(log: seq<Message>)
    requires LIVE_LOG <= log
    ensures !Decodable(log, [2, 4])
  {
    assert log[3] == LIVE_LOG[3] && log[4] == LIVE_LOG[4];
    assert FrameWithin(log, 3, 4);
    assert [2, 4][0] == 2 && [2, 4][1] == 4;
  }

  /** The guard drop has cleared `streamer` only, and the listener has dropped frame 3. */
  const DURING_DROP := TWO_WAITING.(ch := LIVE.(streamer := false), session := Absent,
    drops := [Deactivate], track := Track(4, true, Some(Video), [2]), skipped := true)

  lemma ReachAwait(p: Policy) returns (acts: seq<Action>)
    requires p.capacity >= 2
    ensures Legal(p, acts) && Run(p, acts) == TWO_WAITING.(place := AwaitEvent)
  {
    acts := QueueTwoFrames(p);
    acts := PassHead(p, acts, TWO_WAITING);
  }

  lemma ReachDrop(p: Policy) returns (acts: seq<Action>)
    requires p.capacity >= 2
    ensures Legal(p, acts) && Run(p, acts) == DURING_DROP
  {
    acts := ReachAwait(p);
    var waiting := TWO_WAITING.(place := AwaitEvent);
    var ended := waiting.(session := Absent, drops := [ClearStreamer]);
    var clearing := ended.(ch := LIVE.(streamer := false), drops := [Deactivate]);
    acts := Reach(p, acts, waiting, EndSession, ended);
    acts := Reach(p, acts, ended, ProceedDrop(0), clearing);
    acts := TakeFrame(p, acts, clearing);
  }

  lemma ReachOverlap(p: Policy) returns (acts: seq<Action>)
    requires p.capacity >= 2 && p.overlap
    ensures Legal(p, acts)
    ensures Run(p, acts) == DURING_DROP.(ch := LIVE, session := Claimed, place := AwaitEvent)
  {
    var claimed := DURING_DROP.(ch := LIVE, session := Claimed);
    acts := ReachDrop(p);
    acts := Reach(p, acts, DURING_DROP, Claim, claimed);
    acts := PassHead(p, acts, claimed);
  }

  /** Live and unaware of the gap, the listener sends frame 4. */
  lemma SendsFour(p: Policy, acts: seq<Action>, s: System) returns (more: seq<Action>)
    requires Legal(p, acts) && Run(p, acts) == s
    requires p.capacity >= 2 && s.place == AwaitEvent && s.track == Track(4, true, Some(Video), [2])
    requires LIVE_LOG <= s.ch.log && |s.ch.log| <= 6 && StateOf(s.ch) == Video
    ensures Legal(p, more) && Run(p, more).ch == s.ch && Run(p, more).track.sent == [2, 4]
  {
    assert s.ch.log[4] == LIVE_LOG[4];
    more := TakeFrame(p, acts, s);
  }

  /** A new session claims the channel between an old guard's store(false) on `streamer` and its
      store(false) on `video_active`: the listener sees live, not live, live again, all in one
      epoch, and misses the frame in the middle. */
  lemma OverlapFails(p: Policy) returns (acts: seq<Action>)
    requires p.capacity >= 2 && p.overlap
    ensures Legal(p, acts) && !Decodable(Run(p, acts).ch.log, Run(p, acts).track.sent)
  {
    acts := ReachOverlap(p);
    acts := SendsFour(p, acts, DURING_DROP.(ch := LIVE, session := Claimed, place := AwaitEvent));
    GapIsUndecodable(LIVE_LOG);
  }

  /** Video has been stopped but not yet restarted, and the listener has read the old epoch. */
  const INSIDE_HEAD := TWO_WAITING.(ch := LIVE.(active := false), task := BumpThenWake,
    place := EpochRead, track := Track(4, true, Some(Video), [2]), skipped := true)

  lemma ReachHead(p: Policy) returns (acts: seq<Action>)
    requires p.capacity >= 2
    ensures Legal(p, acts) && Run(p, acts) == INSIDE_HEAD
  {
    var waiting := TWO_WAITING.(place := AwaitEvent);
    var stopping := waiting.(task := Deactivate);
    var stopped := waiting.(ch := LIVE.(active := false), task := BumpThenWake);
    acts := ReachAwait(p);
    acts := Reach(p, acts, waiting, Command(Deactivate), stopping);
    acts := Reach(p, acts, stopping, Proceed, stopped);
    acts := TakeFrame(p, acts, stopped);
    acts := Reach(p, acts, INSIDE_HEAD.(place := LoopHead), ReadEpoch, INSIDE_HEAD);
  }

  /** Video has been restarted since. */
  const RESTARTED := INSIDE_HEAD.(ch := Channel(true, true, 2, LIVE_LOG + [Wake]), task := SendWake)

  lemma Restart(p: Policy, acts: seq<Action>, place: Place) returns (more: seq<Action>)
    requires Legal(p, acts) && Run(p, acts) == INSIDE_HEAD.(place := place) && Admits(p, place)
    ensures Legal(p, more) && Run(p, more) == RESTARTED.(place := place)
  {
    var s := INSIDE_HEAD.(place := place);
    var bumped := s.(ch := Channel(true, false, 2, LIVE_LOG), task := SendWake);
    var woken := s.(ch := Channel(true, false, 2, LIVE_LOG + [Wake]), task := Done);
    more := Reach(p, acts, s, Proceed, bumped);
    more := Reach(p, more, bumped, Proceed, woken);
    more := Reach(p, more, woken, Command(Activate), woken.(task := Activate));
    more := Reach(p, more, woken.(task := Activate), Proceed, RESTARTED.(place := place));
  }

  /** The publisher stops and restarts video between the listener's epoch read and its
      sync_state: both reads look as before, and a frame is missed. */
  lemma SplitHeadFails(p: Policy) returns (acts: seq<Action>)
    requires p.capacity >= 2 && p.splitHead
    ensures Legal(p, acts) && !Decodable(Run(p, acts).ch.log, Run(p, acts).track.sent)
  {
    acts := ReachHead(p);
    acts := Restart(p, acts, EpochRead);
    acts := FinishHead(p, acts, RESTARTED);
    acts := SendsFour(p, acts, AfterHead(RESTARTED));
    GapIsUndecodable(LIVE_LOG + [Wake]);
  }

  /** The same between the two loads of sync_state alone. */
  lemma SplitLoadsFails(p: Policy) returns (acts: seq<Action>)
    requires p.capacity >= 2 && p.splitLoads
    ensures Legal(p, acts) && !Decodable(Run(p, acts).ch.log, Run(p, acts).track.sent)
  {
    acts := ReachHead(p);
    acts := Reach(p, acts, INSIDE_HEAD, ReadFlag, INSIDE_HEAD.(place := FlagRead(true)));
    acts := Restart(p, acts, FlagRead(true));
    acts := Reach(p, acts, RESTARTED.(place := FlagRead(true)), SyncHead, AfterHead(RESTARTED));
    acts := SendsFour(p, acts, AfterHead(RESTARTED));
    GapIsUndecodable(LIVE_LOG + [Wake]);
  }

  // ----- the theorem -----

  ghost predicate Forwards(p: Policy, acts: seq<Action>) {
    Legal(p, acts) ==> Decodable(Run(p, acts).ch.log, Run(p, acts).track.sent)
  }

  /** With sessions that do not overlap and an undivided loop head, whatever the ring's size; the
      handling of an event may be divided. */
  lemma AtomicRunsForward(p: Policy, acts: seq<Action>)
    requires AtomicPolicy(p)
    ensures Forwards(p, acts)
  {
    if Legal(p, acts) {
      AtomicRunsStayGood(p, acts);
    }
  }

  /** Every run forwards a decodable stream if and only if no session claims the channel during
      an earlier guard's drop and no publisher runs inside the loop head. */
  lemma ForwardsIffAtomic(p: Policy)
    requires p.capacity >= 2
    ensures (forall acts :: Forwards(p, acts)) <==> !p.overlap && !p.splitHead && !p.splitLoads
  {
    if p.overlap {
      var acts := OverlapFails(p);
      assert !Forwards(p, acts);
    } else if p.splitHead {
      var acts := SplitHeadFails(p);
      assert !Forwards(p, acts);
    } else if p.splitLoads {
      var acts := SplitLoadsFails(p);
      assert !Forwards(p, acts);
    } else {
      forall acts ensures Forwards(p, acts) {
        AtomicRunsForward(p, acts);
      }
    }
  }

  // ----- single runs of the code as it is -----

  /** In this run no session claims the channel during a drop, and no publisher runs inside the
      loop head. */
  ghost predicate Undisturbed(p: Policy, acts: seq<Action>) {
    acts == [] ||
    (var before, a := acts[..|acts| - 1], acts[|acts| - 1];
     && Undisturbed(p, before)
     && (a.Claim? ==> Drained(Run(p, before).drops))
     && (Publishes(a) ==> !InHead(Run(p, before).place)))
  }

  function Atomic(p: Policy): Policy {
    p.(overlap := false, splitHead := false, splitLoads := false)
  }

  lemma {:induction false} UndisturbedIsAtomic(p: Policy, acts: seq<Action>)
    requires Legal(p, acts) && Undisturbed(p, acts)
    ensures Legal(Atomic(p), acts) && Run(Atomic(p), acts) == Run(p, acts)
    decreases |acts|
  {
    if acts != [] {
      UndisturbedIsAtomic(p, acts[..|acts| - 1]);
    }
  }

  /** Any run of the code, whatever its policy allows, forwards a decodable stream if neither
      interleaving occurs in it. */
  lemma UndisturbedRunsForward(p: Policy, acts: seq<Action>)
    requires Legal(p, acts) && Undisturbed(p, acts)
    ensures Decodable(Run(p, acts).ch.log, Run(p, acts).track.sent)
  {
    UndisturbedIsAtomic(p, acts);
    AtomicRunsForward(Atomic(p), acts);
  }
}
