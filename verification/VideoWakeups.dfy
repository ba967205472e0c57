/** A listener that waits for an event knows the channel's state, or will be woken. */
module VideoWakeups {
  import opened Options
  import opened VideoGate
  import opened VideoPlaceholders

  /** The publisher's operation still ends in a message. */
  predicate WillWake(task: Task) {
    task != Done && task != BumpOnly && task != Retract
  }

  ghost predicate WakePending(s: System) {
    WillWake(s.task) || s.session == Claimed || exists i :: 0 <= i < |s.drops| && WillWake(s.drops[i])
  }

  /** The listener waits, nothing is queued for it, no publisher is about to send anything, and
      what it has been told is not what the channel says. */
  ghost predicate Asleep(s: System) {
    s.place == AwaitEvent && !CanReceive(s.track, s.ch) && !WakePending(s) && s.track.lastState != Some(StateOf(s.ch))
  }

  /** What the listener has read of the channel is no longer so. */
  predicate Outdated(s: System) {
    || (s.place.FlagRead? && s.place.streamer != s.ch.streamer)
    || (s.place == AwaitEvent && s.track.lastState != Some(StateOf(s.ch)))
  }

  ghost predicate NothingRetracted(s: System) {
    s.task != Retract && forall i | 0 <= i < |s.drops| :: s.drops[i] != Retract
  }

  ghost predicate Watchful(s: System) {
    && s.track.rx <= |s.ch.log| && NothingRetracted(s)
    && (Outdated(s) ==> CanReceive(s.track, s.ch) || WakePending(s))
  }

  /** One atomic operation keeps the promise of a message, unless it sends it. */
  lemma AdvanceWakes(ch: Channel, task: Task)
    requires task != Retract
    ensures var (ch', task') := Advance(ch, task);
      && task' != Retract && ch.log <= ch'.log
      && (WillWake(task) ==> WillWake(task') || |ch'.log| > |ch.log|)
      && (!WillWake(task) ==> ch'.streamer == ch.streamer && ch'.active == ch.active)
  {
  }

  lemma ProceedIsWatchful(p: Policy, s: System)
    requires Watchful(s) && Enabled(p, s, Proceed)
    ensures Watchful(Do(p, s, Proceed))
  {
    AdvanceWakes(s.ch, s.task);
    var s' := Do(p, s, Proceed);
    if i :| 0 <= i < |s.drops| && WillWake(s.drops[i]) {
      assert WillWake(s'.drops[i]);
    }
  }

  lemma DropIsWatchful(p: Policy, s: System, i: nat)
    requires Watchful(s) && Enabled(p, s, ProceedDrop(i))
    ensures Watchful(Do(p, s, ProceedDrop(i)))
  {
    AdvanceWakes(s.ch, s.drops[i]);
    var s' := Do(p, s, ProceedDrop(i));
    if WillWake(s'.drops[i]) {
    } else if j :| 0 <= j < |s.drops| && WillWake(s.drops[j]) && j != i {
      assert WillWake(s'.drops[j]);
    }
  }

  lemma SessionIsWatchful(p: Policy, s: System, a: Action)
    requires Watchful(s) && Enabled(p, s, a) && (a.Claim? || a.Greet? || a.Command? || a.EndSession?)
    ensures Watchful(Do(p, s, a))
  {
    var s' := Do(p, s, a);
    if a.EndSession? {
      assert s'.drops[|s.drops|] == ClearStreamer;
    }
    if i :| 0 <= i < |s.drops| && WillWake(s.drops[i]) {
      assert WillWake(s'.drops[i]);
    }
  }

  lemma ListenerIsWatchful(p: Policy, s: System, a: Action)
    requires Watchful(s) && Enabled(p, s, a) && !Publishes(a)
    ensures Watchful(Do(p, s, a))
  {
  }

  lemma StepIsWatchful(p: Policy, s: System, a: Action)
    requires Watchful(s) && Enabled(p, s, a) && !a.Refuse?
    ensures Watchful(Do(p, s, a))
  {
    match a
    case Proceed => ProceedIsWatchful(p, s);
    case ProceedDrop(i) => DropIsWatchful(p, s, i);
    case _ =>
      if Publishes(a) {
        SessionIsWatchful(p, s, a);
      } else {
        ListenerIsWatchful(p, s, a);
      }
  }

  /** No session of the run is refused at the streamer limit after its claim. */
  predicate NoneRefused(acts: seq<Action>) {
    forall i | 0 <= i < |acts| :: !acts[i].Refuse?
  }

  lemma {:induction false} RunIsWatchful(p: Policy, acts: seq<Action>)
    requires Legal(p, acts) && NoneRefused(acts)
    ensures Watchful(Run(p, acts))
  {
    if acts != [] {
      RunIsWatchful(p, acts[..|acts| - 1]);
      StepIsWatchful(p, Run(p, acts[..|acts| - 1]), acts[|acts| - 1]);
    }
  }

  /** In every run without a refused session, whatever is interleaved with whatever: a listener
      with nothing to receive, and no message on its way, has been told the state the channel is
      in, and was sent the picture configured for it last. */
  lemma RestShowsState(p: Policy, placeholders: Placeholders, acts: seq<Action>)
    requires Legal(p, acts) && NoneRefused(acts)
    ensures var s := Run(p, acts);
      s.place == AwaitEvent && !CanReceive(s.track, s.ch) && !WakePending(s) ==>
        && Told(p, acts) == Some(StateOf(s.ch))
        && (IsConfigured(placeholders, StateOf(s.ch)) ==>
              EndsWith(Output(p, placeholders, false, acts), Picture(StateOf(s.ch))))
  {
    RunIsWatchful(p, acts);
    ToldIs(p, acts);
    var state := StateOf(Run(p, acts).ch);
    if IsConfigured(placeholders, state) && Told(p, acts) == Some(state) {
      PictureStands(p, placeholders, acts, state);
    }
  }

  // ----- a refused session -----

  lemma Then(p: Policy, acts: seq<Action>, a: Action, s: System) returns (more: seq<Action>)
    requires Legal(p, acts) && Enabled(p, Run(p, acts), a) && s == Do(p, Run(p, acts), a)
    ensures Legal(p, more) && Run(p, more) == s
  {
    more := acts + [a];
    assert more[..|more| - 1] == acts;
  }

  /** A listener has joined between a session's claim and its greeting. */
  function Between(place: Place, track: Track): System {
    System(NEW_CHANNEL.(streamer := true), Claimed, Done, [], place, 0, track, false)
  }

  lemma JoinBetween(p: Policy) returns (acts: seq<Action>)
    ensures Legal(p, acts) && Run(p, acts) == Between(EpochRead, Joined(0))
  {
    acts := Then(p, [], Claim, START.(session := Claimed, ch := NEW_CHANNEL.(streamer := true)));
    acts := Then(p, acts, Join(0), Between(LoopHead, Joined(0)));
    acts := Then(p, acts, ReadEpoch, Between(EpochRead, Joined(0)));
  }

  function WaitsToldAudio(): Track {
    Joined(0).(lastState := Some(AudioOnly))
  }

  lemma ToldBetween(p: Policy) returns (acts: seq<Action>)
    ensures Legal(p, acts) && Run(p, acts) == Between(AwaitEvent, WaitsToldAudio())
  {
    acts := JoinBetween(p);
    acts := Then(p, acts, ReadFlag, Between(FlagRead(true), Joined(0)));
    acts := Then(p, acts, SyncHead, Between(AwaitEvent, WaitsToldAudio()));
  }

  /** A listener that reads the streamer flag between the claim of a session and its refusal
      sleeps on: the refusal clears the flag and wakes nobody. */
  lemma RefusalLeavesAsleep(p: Policy) returns (acts: seq<Action>)
    ensures Legal(p, acts) && Asleep(Run(p, acts))
  {
    var told := WaitsToldAudio();
    acts := ToldBetween(p);
    acts := Then(p, acts, Refuse, Between(AwaitEvent, told).(session := Absent, drops := [Retract]));
    acts := Then(p, acts, ProceedDrop(0), System(NEW_CHANNEL, Absent, Done, [Done], AwaitEvent, 0, told, false));
  }

  ghost predicate NeverAsleep(p: Policy, refusals: bool) {
    forall acts :: Legal(p, acts) && (refusals || NoneRefused(acts)) ==> !Asleep(Run(p, acts))
  }

  /** Whatever may be interleaved: no listener ever sleeps on an outdated state, if and only if no
      session is refused after its claim. */
  lemma AwakeIffNoneRefused(p: Policy, refusals: bool)
    ensures NeverAsleep(p, refusals) <==> !refusals
  {
    if refusals {
      var acts := RefusalLeavesAsleep(p);
    } else {
      forall acts | Legal(p, acts) && NoneRefused(acts) ensures !Asleep(Run(p, acts)) {
        RunIsWatchful(p, acts);
      }
    }
  }
}
