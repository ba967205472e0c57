/** What a listener sees: the placeholder pictures between the live frames. */
module VideoPlaceholders {
  import opened Options
  import opened VideoGate

  datatype Item = Picture(state: VideoState) | Live(at: nat)

  /** What one step of a run sends to the listener. */
  function Sends(p: Policy, s: System, a: Action, placeholders: Placeholders, suppressed: bool): seq<Item>
    requires Enabled(p, s, a)
  {
    match a
    case SyncHead =>
      var picture := PictureSent(s.track, StateFrom(s.place.streamer, s.ch.active), placeholders, suppressed);
      if picture.Some? then [Picture(picture.value)] else []
    case Handle(late) =>
      var sent := HandledAt(s, late).sent;
      if |sent| > |s.track.sent| then [Live(sent[|sent| - 1])] else []
    case _ => []
  }

  ghost function Output(p: Policy, placeholders: Placeholders, suppressed: bool, acts: seq<Action>): seq<Item> {
    if acts == [] then []
    else
      var before, a := acts[..|acts| - 1], acts[|acts| - 1];
      var out := Output(p, placeholders, suppressed, before);
      if Enabled(p, Run(p, before), a) then out + Sends(p, Run(p, before), a, placeholders, suppressed) else out
  }

  /** Every live frame sent is in the output, and nothing else is live in it. */
  function LiveOf(out: seq<Item>): seq<nat> {
    if out == [] then []
    else
      var last := out[|out| - 1];
      LiveOf(out[..|out| - 1]) + if last.Live? then [last.at] else []
  }

  lemma LiveSnoc(out: seq<Item>, item: Item)
    ensures LiveOf(out + [item]) == LiveOf(out) + if item.Live? then [item.at] else []
  {
    assert (out + [item])[..|out|] == out;
  }

  lemma OneMore(p: Policy, s: System, late: bool)
    requires Enabled(p, s, Handle(late))
    ensures var sent := HandledAt(s, late).sent;
      sent == s.track.sent || (|sent| == |s.track.sent| + 1 && sent == s.track.sent + [sent[|sent| - 1]])
  {
  }

  /** What the listener has been told last, from the events alone. */
  ghost function Told(p: Policy, acts: seq<Action>): Option<VideoState> {
    if acts == [] then None
    else
      var before, a := acts[..|acts| - 1], acts[|acts| - 1];
      if Enabled(p, Run(p, before), a) then ToldBy(Told(p, before), Run(p, before), a) else Told(p, before)
  }

  /** A read of the state tells it, a live frame tells of video, and a wake-up, a new epoch, or
      joining leaves everything to be told again. */
  ghost function ToldBy(told: Option<VideoState>, s: System, a: Action): Option<VideoState> {
    match a
    case Join(_) => None
    case ReadEpoch => if s.ch.epoch != s.epoch then None else told
    case SyncHead =>
      if !s.place.FlagRead? then told
      else if !s.place.streamer then Some(Offline)
      else if !s.ch.active then Some(AudioOnly)
      else Some(Video)
    case Handle(late) => ToldByMessage(told, s, late)
    case _ => told
  }

  ghost function ToldByMessage(told: Option<VideoState>, s: System, late: bool): Option<VideoState> {
    match s.place
    case Arrived(Message(at)) => None
    case Judged(at, state) =>
      if at < |s.ch.log| && s.ch.log[at].Wake? then None
      else if state == Video && !(late && s.track.rx < |s.ch.log|) then Some(Video)
      else told
    case _ => told
  }

  lemma ToldStep(p: Policy, s: System, a: Action)
    requires Enabled(p, s, a)
    ensures Do(p, s, a).track.lastState == ToldBy(s.track.lastState, s, a)
  {
  }

  lemma {:induction false} ToldIs(p: Policy, acts: seq<Action>)
    ensures Run(p, acts).track.lastState == Told(p, acts)
  {
    if acts != [] {
      var before, a := acts[..|acts| - 1], acts[|acts| - 1];
      ToldIs(p, before);
      if Enabled(p, Run(p, before), a) {
        ToldStep(p, Run(p, before), a);
      }
    }
  }

  predicate IsConfigured(placeholders: Placeholders, state: VideoState) {
    match state
    case Offline => placeholders.offline
    case AudioOnly => placeholders.audioOnly
    case Video => false
  }

  predicate EndsWith(out: seq<Item>, item: Item) {
    out != [] && out[|out| - 1] == item
  }

  lemma StandsStep(p: Policy, s: System, a: Action, placeholders: Placeholders, out: seq<Item>, state: VideoState)
    requires Enabled(p, s, a) && IsConfigured(placeholders, state) && ToldBy(s.track.lastState, s, a) == Some(state)
    requires s.track.lastState == Some(state) ==> EndsWith(out, Picture(state))
    ensures EndsWith(out + Sends(p, s, a, placeholders, false), Picture(state))
  {
    var sends := Sends(p, s, a, placeholders, false);
    if s.track.lastState == Some(state) {
      assert sends == [] && out + sends == out;
    } else {
      assert a.SyncHead? && sends == [Picture(state)];
    }
  }

  /** In every run: a listener that has been told of a state with a configured picture, and
      that pictures are not suppressed for, was sent that picture last. */
  lemma {:induction false} PictureStands(p: Policy, placeholders: Placeholders, acts: seq<Action>, state: VideoState)
    requires IsConfigured(placeholders, state) && Told(p, acts) == Some(state)
    ensures EndsWith(Output(p, placeholders, false, acts), Picture(state))
  {
    if acts != [] {
      var before, a := acts[..|acts| - 1], acts[|acts| - 1];
      ToldIs(p, before);
      if Told(p, before) == Some(state) {
        PictureStands(p, placeholders, before, state);
      }
      if Enabled(p, Run(p, before), a) {
        StandsStep(p, Run(p, before), a, placeholders, Output(p, placeholders, false, before), state);
      }
    }
  }

  /** A picture is sent exactly where the state is read, if it is news to the listener, if that
      picture is configured and not suppressed; and it is the picture of the state read. */
  lemma PictureIffNews(p: Policy, placeholders: Placeholders, suppressed: bool, acts: seq<Action>, a: Action, state: VideoState)
    requires Enabled(p, Run(p, acts), a)
    ensures Output(p, placeholders, suppressed, acts + [a])
      == Output(p, placeholders, suppressed, acts) + Sends(p, Run(p, acts), a, placeholders, suppressed)
    ensures Picture(state) in Sends(p, Run(p, acts), a, placeholders, suppressed) <==>
      (&& a.SyncHead? && Told(p, acts + [a]) == Some(state) && Told(p, acts) != Some(state)
       && IsConfigured(placeholders, state) && !suppressed)
  {
    assert (acts + [a])[..|acts|] == acts;
    ToldIs(p, acts);
  }

  lemma {:induction false} NothingYet(p: Policy, acts: seq<Action>)
    ensures Run(p, acts).place == Away ==> Run(p, acts).track.sent == []
  {
    if acts != [] {
      NothingYet(p, acts[..|acts| - 1]);
    }
  }

  /** Pictures aside, the output is the live frames sent, in order. */
  lemma {:induction false} LiveIsSent(p: Policy, placeholders: Placeholders, suppressed: bool, acts: seq<Action>)
    requires Legal(p, acts)
    ensures LiveOf(Output(p, placeholders, suppressed, acts)) == Run(p, acts).track.sent
  {
    if acts != [] {
      var before, a := acts[..|acts| - 1], acts[|acts| - 1];
      LiveIsSent(p, placeholders, suppressed, before);
      NothingYet(p, before);
      LiveStep(p, Run(p, before), a, placeholders, suppressed, Output(p, placeholders, suppressed, before));
    }
  }

  lemma LiveStep(p: Policy, s: System, a: Action, placeholders: Placeholders, suppressed: bool, out: seq<Item>)
    requires Enabled(p, s, a) && LiveOf(out) == s.track.sent && (a.Join? ==> s.track.sent == [])
    ensures LiveOf(out + Sends(p, s, a, placeholders, suppressed)) == Do(p, s, a).track.sent
  {
    var sends := Sends(p, s, a, placeholders, suppressed);
    if sends == [] {
      assert out + sends == out;
      if a.Handle? {
        OneMore(p, s, a.late);
      }
    } else {
      LiveSnoc(out, sends[0]);
      if a.Handle? {
        OneMore(p, s, a.late);
      }
    }
  }
}
