/** What the video worker offers, decided from the history of its events alone: which frame, at
    which timestamp, and whether as a keyframe. */
module PacingHistory {
  import opened Arithmetic
  import opened Options
  import opened Pacing

  /** A position of the audio clock and the time at which it was first reported. */
  datatype Audio = Audio(samples: int, at: real)

  /** What has happened so far.  `waiting` holds the source frames that came since the last
      placeholder, after the last one offered; `dueMs` is one frame period after the first frame
      since the last placeholder. */
  datatype History = History(
    fps: nat, stopped: Stops, audio: Option<Audio>,
    live: bool, shown: bool, waiting: seq<nat>, dueMs: real, offered: Option<nat>,
    forced: bool, lastKeyframe: int, lastTimestamp: int)

  datatype Stops = Stops(closed: bool, paused: bool, network: bool)

  /** The keyframe interval, one frame period rounded to microseconds times the frame rate. */
  function GapUs(fps: nat): int
    requires fps > 0
  {
    fps * ((2_000_000 + fps) / (2 * fps))
  }

  function Start(fps: nat): History
    requires fps > 0
  {
    History(fps, Stops(false, false, false), None, false, false, [], 0.0, None, true, -GapUs(fps), -1)
  }

  /** The media time: the greatest position reported, and at most 100 ms of the time since. */
  function MediaMs(h: History, rate: nat, now: real): real
    requires rate > 0
  {
    match h.audio
    case None => 0.0
    case Some(a) => a.samples as real * 1000.0 / rate as real + MinReal(MaxReal(0.0, now - a.at), 100.0)
  }

  function Behind(waiting: seq<nat>, frame: nat): seq<nat> {
    if waiting == [] then [] else if waiting[0] == frame then waiting[1..] else Behind(waiting[1..], frame)
  }

  function Reported(h: History, samples: int, now: real): History {
    if samples < 0 || (h.audio.Some? && samples <= h.audio.value.samples) then h
    else h.(audio := Some(Audio(samples, now)), forced := h.forced || (h.audio.Some? && now - h.audio.value.at >= 1000.0))
  }

  function Ticked(h: History, o: Offer, closes: bool): History {
    var waiting := if o.shown.Source? then Behind(h.waiting, o.shown.frame) else h.waiting;
    var offered := if o.shown.Source? then Some(o.shown.frame) else h.offered;
    var g := h.(waiting := waiting, offered := offered, lastTimestamp := o.timestamp,
                stopped := if closes then Stops(true, true, false) else h.stopped);
    if !o.encoded then g
    else g.(shown := h.shown || o.shown.Source?, forced := false,
            lastKeyframe := if o.keyframe then o.timestamp else h.lastKeyframe)
  }

  /** The history after an event and what was offered in it. */
  function Then(h: History, rate: nat, e: Event, offer: Option<Offer>): History
    requires rate > 0 && h.fps > 0 && (e.EndReconfigure? ==> e.fps > 0)
  {
    match e
    case AudioClock(samples, now) => Reported(h, samples, now)
    case Timer(_, _, outcome, _) => if offer.None? then h else Ticked(h, offer.value, outcome.Threw?)
    case SourceFrame(frame, now, _) =>
      if h.live then h.(waiting := h.waiting + [frame])
      else h.(live := true, shown := false, waiting := [frame], forced := true,
              dueMs := MediaMs(h, rate, now) + 1000.0 / h.fps as real)
    case ShowPlaceholder(_) => h.(live := false, shown := false, waiting := [], forced := true)
    case DoResume(_) => h.(stopped := h.stopped.(paused := false), forced := true)
    case DoTransportPause => h.(stopped := h.stopped.(network := true))
    case DoTransportResume(_) => h.(stopped := h.stopped.(network := false), forced := true)
    case BeginReconfigure => h.(stopped := h.stopped.(paused := true))
    case EndReconfigure(fps) => h.(fps := fps, lastKeyframe := h.lastTimestamp - GapUs(fps), forced := true)
    case AbortReconfigure(_) => h.(stopped := h.stopped.(paused := false))
    case CloseWorker => h.(stopped := Stops(true, true, false))
  }

  /** The oldest waiting frame that two later ones have not pushed out. */
  function Oldest(waiting: seq<nat>): nat
    requires waiting != []
  {
    if |waiting| == 1 then waiting[0] else waiting[|waiting| - 2]
  }

  /** Once live, a frame is shown as soon as another one is there, or one frame period after it
      came; after the first, at once. */
  predicate TakesNext(h: History, mediaMs: real) {
    h.live && h.waiting != [] && (h.shown || |h.waiting| >= 2 || mediaMs >= h.dueMs)
  }

  function ToShow(h: History, mediaMs: real): Shown {
    if TakesNext(h, mediaMs) then Source(Oldest(h.waiting)) else if !h.live || !h.shown then Placeholder else Repeat
  }

  /** Frame `index` is the last one not after the media time. */
  predicate IsDue(index: int, mediaMs: real, fps: nat) {
    index as real * 1000.0 <= mediaMs * fps as real < index as real * 1000.0 + 1000.0
  }

  /** The timestamp of the due frame, or of the one after it if that would not increase. */
  predicate TimestampOf(timestamp: int, index: int, fps: nat, last: int)
    requires fps > 0
  {
    if FrameTimestampUs(index, fps) > last then timestamp == FrameTimestampUs(index, fps)
    else timestamp == FrameTimestampUs(index + 1, fps) > last
  }

  ghost predicate Timed(h: History, mediaMs: real, timestamp: int)
    requires h.fps > 0
  {
    timestamp > h.lastTimestamp
    && exists index :: IsDue(index, mediaMs, h.fps) && TimestampOf(timestamp, index, h.fps, h.lastTimestamp)
  }

  /** An offer as the history demands it. */
  ghost predicate Right(h: History, rate: nat, e: Event, o: Offer)
    requires rate > 0 && h.fps > 0 && e.Timer?
  {
    && h.stopped == Stops(false, false, false)
    && o.shown == ToShow(h, MediaMs(h, rate, e.drawn))
    && (o.shown.Source? && h.offered.Some? ==> h.offered.value < o.shown.frame)
    && o.keyframe == (h.forced || o.timestamp - h.lastKeyframe >= GapUs(h.fps))
    && o.encoded == e.outcome.Encoded?
    && Timed(h, MediaMs(h, rate, e.now), o.timestamp)
  }

  // ----- the worker keeps to its history -----

  predicate Ascending(s: seq<nat>) {
    forall i, j | 0 <= i < j < |s| :: s[i] < s[j]
  }

  function LastTwo(s: seq<nat>): seq<nat> {
    if |s| <= 2 then s else s[|s| - 2..]
  }

  /** `high` bounds the numbers of the frames that came so far. */
  predicate BufferAgrees(p: Picture, h: History, high: int) {
    && p.buffer == LastTwo(h.waiting) && Ascending(h.waiting)
    && (forall i | 0 <= i < |h.waiting| :: h.waiting[i] <= high)
    && (h.offered.Some? ==> h.offered.value <= high && forall i | 0 <= i < |h.waiting| :: h.offered.value < h.waiting[i])
  }

  predicate PictureAgrees(p: Picture, h: History, high: int) {
    && BufferAgrees(p, h, high)
    && p.placeholder == !h.live && p.rendered == h.shown && (!h.live ==> h.waiting == [] && !h.shown)
    && (h.live ==> p.readyAt == h.dueMs)
    && p.forceKeyframe == h.forced && p.lastKeyframeUs == h.lastKeyframe
  }

  predicate ClockAgrees(w: Worker, h: History) {
    && w.audioClockReady == h.audio.Some?
    && (h.audio.Some? ==>
          && h.audio.value.samples >= 0 && w.audioSampleRate > 0
          && w.audioClockMs == ClockMs(h.audio.value.samples, w.audioSampleRate) && w.audioClockUpdatedAt == h.audio.value.at)
  }

  predicate Agrees(w: Worker, h: History, high: int) {
    && ClockAgrees(w, h) && PictureAgrees(w.picture, h, high)
    && w.fps == h.fps && w.lastTimestampUs == h.lastTimestamp
    && h.stopped == Stops(w.closed, w.paused, w.networkPaused)
  }

  lemma GapIs(fps: nat)
    requires fps > 0
    ensures KeyframeGapUs(fps) == GapUs(fps)
  {
  }

  lemma MediaIs(w: Worker, h: History, now: real)
    requires ClockAgrees(w, h) && w.audioSampleRate > 0
    ensures MediaTimeMs(w, now) == MediaMs(h, w.audioSampleRate, now)
  {
  }

  lemma ClockOrder(a: int, b: int, rate: nat)
    requires rate > 0
    ensures ClockMs(a, rate) > ClockMs(b, rate) <==> a > b
  {
    var f := rate as real;
    Quotient(a as real * 1000.0, f);
    Quotient(b as real * 1000.0, f);
    if ClockMs(a, rate) > ClockMs(b, rate) {
      Scaled(ClockMs(b, rate), ClockMs(a, rate), f);
    } else {
      Compare(ClockMs(a, rate), ClockMs(b, rate), f, a as real * 1000.0, b as real * 1000.0);
    }
  }

  lemma Scaled(a: real, b: real, f: real)
    requires a < b && f > 0.0
    ensures a * f < b * f
  {
    assert (b - a) * f > 0.0;
  }

  // ----- the buffer -----

  lemma {:induction false} BehindIs(waiting: seq<nat>, k: nat)
    requires Ascending(waiting) && k < |waiting|
    ensures Behind(waiting, waiting[k]) == waiting[k + 1..]
    decreases k
  {
    if k > 0 {
      BehindIs(waiting[1..], k - 1);
      assert waiting[1..][k - 1] == waiting[k];
    }
  }

  lemma FrameAgrees(p: Picture, h: History, high: int, frame: nat)
    requires BufferAgrees(p, h, high) && frame > high
    ensures BufferAgrees(p.(buffer := WithFrame(p.buffer, frame)), h.(waiting := h.waiting + [frame]), frame)
  {
    var waiting := h.waiting + [frame];
    LastTwoAppend(h.waiting, frame);
  }

  lemma LastTwoAppend(waiting: seq<nat>, frame: nat)
    ensures LastTwo(waiting + [frame]) == WithFrame(LastTwo(waiting), frame)
  {
    if |waiting| > 1 {
      assert LastTwo(waiting + [frame]) == [waiting[|waiting| - 1], frame];
    }
  }

  lemma TakenAgrees(p: Picture, h: History, high: int)
    requires BufferAgrees(p, h, high) && p.buffer != []
    ensures p.buffer[0] == Oldest(h.waiting) && (h.offered.Some? ==> h.offered.value < p.buffer[0])
    ensures BufferAgrees(p.(buffer := p.buffer[1..]), h.(waiting := Behind(h.waiting, p.buffer[0]), offered := Some(p.buffer[0])), high)
  {
    var k := if |h.waiting| <= 2 then 0 else |h.waiting| - 2;
    assert p.buffer[0] == h.waiting[k];
    BehindIs(h.waiting, k);
  }

  // ----- one event -----

  /** Starting or scheduling output leaves alone what the history is about. */
  lemma StartLeaves(w: Worker, h: History, high: int, now: real)
    requires Agrees(w, h, high)
    ensures Agrees(Started(w, now), h, high) && Agrees(Scheduled(w, now), h, high)
  {
  }

  lemma ClockSet(w: Worker, h: History, high: int, samples: int, now: real)
    requires Agrees(w, h, high) && w.audioSampleRate > 0 && samples >= 0
    requires h.audio.Some? ==> samples > h.audio.value.samples
    ensures Agrees(WithClock(w, ClockMs(samples, w.audioSampleRate), now), Reported(h, samples, now), high)
  {
  }

  lemma ClockStep(w: Worker, h: History, high: int, samples: int, now: real)
    requires Inv(w) && Agrees(w, h, high)
    ensures Agrees(Synced(w, samples, now), Reported(h, samples, now), high)
  {
    if samples >= 0 && h.audio.Some? {
      ClockOrder(samples, h.audio.value.samples, w.audioSampleRate);
    }
    if Advances(w, samples) {
      ClockSet(w, h, high, samples, now);
      StartLeaves(WithClock(w, ClockMs(samples, w.audioSampleRate), now), Reported(h, samples, now), high, now);
    }
  }

  function Arrived(h: History, rate: nat, frame: nat, now: real): History
    requires rate > 0 && h.fps > 0
  {
    Then(h, rate, SourceFrame(frame, now, now), None)
  }

  lemma PictureArrives(w: Worker, h: History, high: int, frame: nat, now: real)
    requires w.fps > 0 && w.audioSampleRate > 0 && w.fps == h.fps && ClockAgrees(w, h) && PictureAgrees(w.picture, h, high) && frame > high
    ensures PictureAgrees(SourcePicture(w, frame, now), Arrived(h, w.audioSampleRate, frame, now), frame)
  {
    MediaIs(w, h, now);
    FrameAgrees(w.picture, h, high, frame);
    assert h.waiting == [] ==> h.waiting + [frame] == [frame];
  }

  lemma SourceStep(w: Worker, h: History, high: int, frame: nat, now: real, later: real)
    requires Inv(w) && Agrees(w, h, high) && frame > high
    ensures Agrees(SourceArrived(w, frame, now, later), Then(h, w.audioSampleRate, SourceFrame(frame, now, later), None), frame)
  {
    PictureArrives(w, h, high, frame, now);
    StartLeaves(w.(picture := SourcePicture(w, frame, now)), Arrived(h, w.audioSampleRate, frame, now), frame, later);
  }

  lemma ShownAgrees(p: Picture, h: History, high: int, mediaMs: real)
    requires PictureAgrees(p, h, high)
    ensures ShownAt(p, mediaMs) == ToShow(h, mediaMs) && TakesSource(p, mediaMs) == TakesNext(h, mediaMs)
  {
    if p.buffer != [] {
      TakenAgrees(p, h, high);
    }
  }

  /** The picture after an offer. */
  lemma DrawnAgrees(p: Picture, h: History, high: int, timestamp: int, mediaMs: real, outcome: Outcome)
    requires PictureAgrees(p, h, high) && h.fps > 0
    ensures var o := OfferOfPicture(p, h.fps, timestamp, mediaMs, outcome);
      PictureAgrees(Drawn(p, h.fps, timestamp, mediaMs, outcome), Ticked(h, o, outcome.Threw?), high)
  {
    ShownAgrees(p, h, high, mediaMs);
    if TakesSource(p, mediaMs) {
      TakenAgrees(p, h, high);
    }
  }

  lemma OfferIsRight(w: Worker, h: History, high: int, e: Event)
    requires Inv(w) && Agrees(w, h, high) && e.Timer? && w.timer && Fires(w, e.now)
    ensures Right(h, w.audioSampleRate, e, OfferNow(w, e.now, e.drawn, e.outcome))
  {
    MediaIs(w, h, e.now);
    MediaIs(w, h, e.drawn);
    GapIs(w.fps);
    ShownAgrees(w.picture, h, high, MediaTimeMs(w, e.drawn));
    if w.picture.buffer != [] {
      TakenAgrees(w.picture, h, high);
    }
    OfferIsTimed(w, h, high, e.now);
  }

  lemma OfferIsTimed(w: Worker, h: History, high: int, now: real)
    requires Inv(w) && Agrees(w, h, high) && w.timer && Fires(w, now)
    ensures Timed(h, MediaMs(h, w.audioSampleRate, now), FrameTimestampUs(FrameIndex(w, now), w.fps))
  {
    MediaIs(w, h, now);
    CandidateIsDue(w, now);
    RepairOnce(w, Candidate(w, now));
    var index := Candidate(w, now);
    assert IsDue(index, MediaMs(h, w.audioSampleRate, now), h.fps);
    assert TimestampOf(FrameTimestampUs(FrameIndex(w, now), w.fps), index, h.fps, h.lastTimestamp);
  }

  lemma FiredAgrees(w: Worker, h: History, high: int, now: real, drawn: real, outcome: Outcome)
    requires Inv(w) && Agrees(w, h, high)
    ensures Agrees(Fired(w, now, drawn, outcome), Ticked(h, OfferNow(w, now, drawn, outcome), false), high)
  {
    DrawnAgrees(w.picture, h, high, FrameTimestampUs(FrameIndex(w, now), w.fps), MediaTimeMs(w, drawn), outcome);
  }

  lemma ContinuedAgrees(w: Worker, h: History, high: int, o: Offer, outcome: Outcome, later: real)
    requires Agrees(w, Ticked(h, o, false), high)
    ensures Agrees(Continued(w, outcome, later), Ticked(h, o, outcome.Threw?), high)
  {
    StartLeaves(w, Ticked(h, o, false), high, later);
  }

  lemma SameFiring(w: Worker, now: real, drawn: real, outcome: Outcome)
    requires w.fps > 0
    ensures Fires(w.(timer := false), now) == Fires(w, now)
    ensures OfferNow(w.(timer := false), now, drawn, outcome) == OfferNow(w, now, drawn, outcome)
  {
  }

  lemma TimerStep(w: Worker, h: History, high: int, e: Event)
    requires Inv(w) && Agrees(w, h, high) && e.Timer? && w.timer
    ensures Agrees(Next(w, e), Then(h, w.audioSampleRate, e, OfferOf(w, e)), high)
    ensures OfferOf(w, e).Some? ==> Right(h, w.audioSampleRate, e, OfferOf(w, e).value)
  {
    var w0 := w.(timer := false);
    SameFiring(w, e.now, e.drawn, e.outcome);
    if Fires(w, e.now) {
      OfferIsRight(w, h, high, e);
      FiredAgrees(w0, h, high, e.now, e.drawn, e.outcome);
      ContinuedAgrees(Fired(w0, e.now, e.drawn, e.outcome), h, high, OfferNow(w0, e.now, e.drawn, e.outcome), e.outcome, e.later);
    }
  }

  /** The events that start or restart output. */
  lemma StartStep(w: Worker, h: History, high: int, e: Event)
    requires Inv(w) && Agrees(w, h, high) && Enabled(w, e)
    requires e.ShowPlaceholder? || e.DoResume?
    ensures Agrees(Next(w, e), Then(h, w.audioSampleRate, e, None), high)
  {
    var h' := Then(h, w.audioSampleRate, e, None);
    match e
    case ShowPlaceholder(now) => StartLeaves(w.(picture := Cleared(w.picture)), h', high, now);
    case DoResume(now) => StartLeaves(Forced(w.(paused := false)), h', high, now);
  }

  lemma RestartStep(w: Worker, h: History, high: int, e: Event)
    requires Inv(w) && Agrees(w, h, high) && Enabled(w, e)
    requires e.DoTransportResume? || e.AbortReconfigure?
    ensures Agrees(Next(w, e), Then(h, w.audioSampleRate, e, None), high)
  {
    var h' := Then(h, w.audioSampleRate, e, None);
    match e
    case DoTransportResume(now) => StartLeaves(Forced(w.(networkPaused := false)), h', high, now);
    case AbortReconfigure(now) => StartLeaves(w.(paused := false), h', high, now);
  }

  lemma StopStep(w: Worker, h: History, high: int, e: Event)
    requires Inv(w) && Agrees(w, h, high) && Enabled(w, e)
    requires e.DoTransportPause? || e.BeginReconfigure? || e.EndReconfigure? || e.CloseWorker?
    ensures Agrees(Next(w, e), Then(h, w.audioSampleRate, e, None), high)
  {
    if e.EndReconfigure? {
      GapIs(e.fps);
    }
  }

  // ----- every run -----

  /** Frames come with increasing numbers. */
  predicate Numbered(high: int, events: seq<Event>)
    decreases |events|
  {
    events == [] ||
    if events[0].SourceFrame? then high < events[0].frame && Numbered(events[0].frame, events[1..])
    else Numbered(high, events[1..])
  }

  ghost predicate AllRight(w: Worker, h: History, events: seq<Event>)
    requires Inv(w) && Legal(w, events) && h.fps > 0
    decreases |events|
  {
    events == [] ||
    (var e, offer := events[0], OfferOf(w, events[0]);
     && (offer.Some? ==> Right(h, w.audioSampleRate, e, offer.value))
     && (NextKeeps(w, e); AllRight(Next(w, e), Then(h, w.audioSampleRate, e, offer), events[1..])))
  }

  lemma EventStep(w: Worker, h: History, high: int, e: Event)
    requires Inv(w) && Agrees(w, h, high) && Enabled(w, e) && (e.SourceFrame? ==> e.frame > high)
    ensures Agrees(Next(w, e), Then(h, w.audioSampleRate, e, OfferOf(w, e)), if e.SourceFrame? then e.frame else high)
    ensures OfferOf(w, e).Some? ==> e.Timer? && Right(h, w.audioSampleRate, e, OfferOf(w, e).value)
  {
    match e
    case Timer(_, _, _, _) => TimerStep(w, h, high, e);
    case AudioClock(samples, now) => ClockStep(w, h, high, samples, now);
    case SourceFrame(frame, now, later) => SourceStep(w, h, high, frame, now, later);
    case ShowPlaceholder(_) => StartStep(w, h, high, e);
    case DoResume(_) => StartStep(w, h, high, e);
    case DoTransportResume(_) => RestartStep(w, h, high, e);
    case AbortReconfigure(_) => RestartStep(w, h, high, e);
    case _ => StopStep(w, h, high, e);
  }

  /** Over every run every offer is what the history demands: while output is not stopped, at the
      frame that is due; source frames in order, each at most once, the oldest that has not been
      pushed out; a placeholder or a repeat only if no source frame is to be shown; and a keyframe
      exactly if one was forced or the interval is over. */
  lemma {:induction false} HistoryDecides(w: Worker, h: History, high: int, events: seq<Event>)
    requires Inv(w) && Agrees(w, h, high) && Legal(w, events) && Numbered(high, events)
    ensures AllRight(w, h, events)
    decreases |events|
  {
    if events != [] {
      var e := events[0];
      NextKeeps(w, e);
      EventStep(w, h, high, e);
      HistoryDecides(Next(w, e), Then(h, w.audioSampleRate, e, OfferOf(w, e)), if e.SourceFrame? then e.frame else high, events[1..]);
    }
  }

  // ----- when the timer runs -----

  /** There is a placeholder, a source frame that waits, or a picture to repeat. */
  predicate Something(h: History) {
    !h.live || h.waiting != [] || h.shown
  }

  predicate MayRun(h: History) {
    h.stopped == Stops(false, false, false) && h.audio.Some? && Something(h)
  }

  /** And the audio clock has moved within the last 100 ms. */
  predicate MustRun(h: History, now: real) {
    MayRun(h) && now - h.audio.value.at < 100.0
  }

  /** After each event the timer is set if it must be, and an event sets it only if it may be. */
  ghost predicate AllTimed(w: Worker, h: History, from: real, events: seq<Event>)
    requires Inv(w) && Legal(w, events) && h.fps > 0
    decreases |events|
  {
    events == [] ||
    (var e := events[0];
     var w', h', last := Next(w, e), Then(h, w.audioSampleRate, e, OfferOf(w, e)), LastReading(from, e);
     && (MustRun(h', last) ==> w'.timer)
     && (w'.timer && !w.timer ==> MayRun(h'))
     && (NextKeeps(w, e); AllTimed(w', h', last, events[1..])))
  }

  lemma RunsAsTold(w: Worker, h: History, high: int, now: real)
    requires Agrees(w, h, high)
    ensures MayRun(h) <==> !Stopped(w) && w.audioClockReady && HasOutput(w.picture)
    ensures Ticking(w, now) && MustRun(h, now) ==> w.timer
  {
  }

  lemma StartsIfMay(w: Worker, e: Event)
    requires Inv(w) && Enabled(w, e) && !w.timer && Next(w, e).timer
    ensures var w' := Next(w, e); !Stopped(w') && w'.audioClockReady && HasOutput(w'.picture)
  {
  }

  /** Over every run with clock readings in order: while nothing stops output, something can be
      shown and the clock has moved within 100 ms, the timer is set; and no event but the timer's
      own sets it without something to show, a clock, and leave to run. */
  lemma {:induction false} HistoryKeepsTime(w: Worker, h: History, high: int, from: real, events: seq<Event>)
    requires Inv(w) && Agrees(w, h, high) && Legal(w, events) && Numbered(high, events) && Timely(from, events) && Ticking(w, from)
    ensures AllTimed(w, h, from, events)
    decreases |events|
  {
    if events != [] {
      var e := events[0];
      var h', high' := Then(h, w.audioSampleRate, e, OfferOf(w, e)), if e.SourceFrame? then e.frame else high;
      NextKeeps(w, e);
      EventStep(w, h, high, e);
      NextTicks(w, e, from);
      RunsAsTold(Next(w, e), h', high', LastReading(from, e));
      if Next(w, e).timer && !w.timer {
        StartsIfMay(w, e);
      }
      HistoryKeepsTime(Next(w, e), h', high', LastReading(from, e), events[1..]);
    }
  }

  lemma StartAgrees(fps: nat, audioSampleRate: nat)
    requires fps > 0 && audioSampleRate > 0
    ensures Agrees(Initial(fps, audioSampleRate), Start(fps), -1)
  {
    GapIs(fps);
  }
}
