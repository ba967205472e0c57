/** The video worker's pacing (client/scripts/video-worker.js): frames are offered to the encoder
    on a timer that follows the audio clock.  Clock times are reals, in milliseconds; frame
    timestamps are integers, in microseconds.  A source frame is known by a number. */
module Pacing {
  import opened Arithmetic
  import opened Options

  const MAX_FPS: nat := 1_000_000   // far above the 65535 that can be configured
  const SOURCE_BUFFER_FRAMES: nat := 2
  const AUDIO_CLOCK_GRACE_MS: real := 100.0
  const AUDIO_CLOCK_KEYFRAME_GAP_MS: real := 1000.0

  function Ceil(x: real): int {
    -(-x).Floor
  }

  /** Math.round(index * 1000000 / fps), that is, floor of that plus one half. */
  function FrameTimestampUs(index: int, fps: nat): int
    requires fps > 0
  {
    (2 * index * 1_000_000 + fps) / (2 * fps)
  }

  /** keyframeInterval * framePeriodUs */
  function KeyframeGapUs(fps: nat): int
    requires fps > 0
  {
    fps * FrameTimestampUs(1, fps)
  }

  /** What the canvas holds; it is blank when new and whenever its size has been assigned. */
  datatype Canvas = Blank | OfPlaceholder | OfSource(frame: nat)

  /** What there is to show, and when the next keyframe is due. */
  datatype Picture = Picture(
    placeholder: bool, rendered: bool, buffer: seq<nat>, readyAt: real, forceKeyframe: bool, lastKeyframeUs: int,
    canvas: Canvas)

  datatype Worker = Worker(
    fps: nat, closed: bool, paused: bool, networkPaused: bool, timer: bool, scheduledFrameIndex: int,
    lastFrameIndex: int, lastTimestampUs: int, audioSampleRate: nat,
    audioClockMs: real, audioClockUpdatedAt: real, audioClockReady: bool, picture: Picture)

  function MediaTimeMs(w: Worker, now: real): real {
    if !w.audioClockReady then 0.0
    else w.audioClockMs + MinReal(MaxReal(0.0, now - w.audioClockUpdatedAt), AUDIO_CLOCK_GRACE_MS)
  }

  predicate Fresh(w: Worker, now: real) {
    w.audioClockReady && now - w.audioClockUpdatedAt < AUDIO_CLOCK_GRACE_MS
  }

  predicate Stopped(w: Worker) {
    w.closed || w.paused || w.networkPaused
  }

  predicate HasOutput(p: Picture) {
    p.placeholder || p.rendered || p.buffer != []
  }

  /** What every event keeps. */
  predicate Inv(w: Worker) {
    && 1 <= w.fps <= MAX_FPS && w.audioSampleRate > 0
    && w.lastTimestampUs * w.fps < (w.lastFrameIndex + 1) * 1_000_000
    && (w.timer ==> !Stopped(w) && w.audioClockReady && w.scheduledFrameIndex >= w.lastFrameIndex + 1)
    && |w.picture.buffer| <= SOURCE_BUFFER_FRAMES && !(w.picture.placeholder && w.picture.rendered)
  }

  // ----- the timer -----

  function FrameTimeMs(index: int, fps: nat): real
    requires fps > 0
  {
    index as real * 1000.0 / fps as real
  }

  /** The frame that is due once `elapsedMs` have passed, and the first one that is not before. */
  function FloorIndex(elapsedMs: real, fps: nat): int {
    (elapsedMs * fps as real / 1000.0).Floor
  }

  function CeilIndex(elapsedMs: real, fps: nat): int {
    Ceil(elapsedMs * fps as real / 1000.0)
  }

  /** scheduleNextFrame */
  function Scheduled(w: Worker, now: real): Worker {
    if Stopped(w) || w.timer || !w.audioClockReady then w
    else w.(scheduledFrameIndex := Max(CeilIndex(MediaTimeMs(w, now), w.fps), w.lastFrameIndex + 1), timer := true)
  }

  /** startCurrentOutput */
  function Started(w: Worker, now: real): Worker {
    if Stopped(w) || !HasOutput(w.picture) then w else Scheduled(w, now)
  }

  function Forced(w: Worker): Worker {
    w.(picture := w.picture.(forceKeyframe := true))
  }

  predicate Stale(w: Worker, now: real) {
    w.audioClockReady && now - w.audioClockUpdatedAt >= AUDIO_CLOCK_KEYFRAME_GAP_MS
  }

  function ClockMs(samples: int, rate: nat): real
    requires rate > 0
  {
    samples as real * 1000.0 / rate as real
  }

  predicate Advances(w: Worker, samples: int)
    requires w.audioSampleRate > 0
  {
    samples >= 0 && (!w.audioClockReady || ClockMs(samples, w.audioSampleRate) > w.audioClockMs)
  }

  function WithClock(w: Worker, clockMs: real, now: real): Worker {
    var w1 := if Stale(w, now) then Forced(w) else w;
    w1.(audioClockMs := clockMs, audioClockUpdatedAt := now, audioClockReady := true)
  }

  function Synced(w: Worker, samples: int, now: real): Worker
    requires w.audioSampleRate > 0
  {
    if Advances(w, samples) then Started(WithClock(w, ClockMs(samples, w.audioSampleRate), now), now) else w
  }

  predicate TooEarly(w: Worker, now: real)
    requires w.fps > 0
  {
    FrameTimeMs(w.scheduledFrameIndex, w.fps) > MediaTimeMs(w, now)
  }

  /** The index that the timer starts from. */
  function Candidate(w: Worker, now: real): int {
    Max(Max(w.scheduledFrameIndex, FloorIndex(MediaTimeMs(w, now), w.fps)), w.lastFrameIndex + 1)
  }

  /** The index after the repair of a timestamp that would not increase: one step is enough. */
  function Repaired(w: Worker, first: int): int
    requires w.fps > 0
  {
    if FrameTimestampUs(first, w.fps) > w.lastTimestampUs then first else first + 1
  }

  function FrameIndex(w: Worker, now: real): int
    requires w.fps > 0
  {
    Repaired(w, Candidate(w, now))
  }

  predicate Fires(w: Worker, now: real)
    requires w.fps > 0
  {
    !Stopped(w) && !TooEarly(w, now)
  }

  // ----- what is shown -----

  datatype Shown = Source(frame: nat) | Placeholder | Repeat

  /** The encoder takes the frame, drops it (its queue is full or it is not configured), or
      fails. */
  datatype Outcome = Encoded | Dropped | Threw

  /** `content` is what the frame holds if it is encoded. */
  datatype Offer = Offer(timestamp: int, shown: Shown, content: Canvas, keyframe: bool, encoded: bool)

  /** createOutputFrame: the canvas is drawn on, unless the last picture is used again. */
  function Painted(canvas: Canvas, shown: Shown): Canvas {
    match shown
    case Source(frame) => OfSource(frame)
    case Placeholder => OfPlaceholder
    case Repeat => canvas
  }

  /** `mediaMs` is the media time when the choice is made. */
  predicate TakesSource(p: Picture, mediaMs: real) {
    && !p.placeholder && p.buffer != []
    && (p.rendered || |p.buffer| >= SOURCE_BUFFER_FRAMES || mediaMs >= p.readyAt)
  }

  function ShownAt(p: Picture, mediaMs: real): Shown {
    if TakesSource(p, mediaMs) then Source(p.buffer[0])
    else if p.placeholder || !p.rendered then Placeholder
    else Repeat
  }

  predicate KeyframeDue(p: Picture, fps: nat, timestamp: int)
    requires fps > 0
  {
    p.forceKeyframe || timestamp - p.lastKeyframeUs >= KeyframeGapUs(fps)
  }

  /** The picture after a frame has been drawn and offered. */
  function Drawn(p: Picture, fps: nat, timestamp: int, mediaMs: real, outcome: Outcome): Picture
    requires fps > 0
  {
    var takes := TakesSource(p, mediaMs);
    var q := if takes then p.(buffer := p.buffer[1..]) else p;
    if !outcome.Encoded? then q
    else q.(rendered := p.rendered || takes, forceKeyframe := false,
            lastKeyframeUs := if KeyframeDue(p, fps, timestamp) then timestamp else p.lastKeyframeUs,
            canvas := Painted(p.canvas, ShownAt(p, mediaMs)))
  }

  function Close(w: Worker): Worker {
    w.(closed := true, paused := true, networkPaused := false, timer := false)
  }

  /** The timestamp of the frame is settled. */
  function Advanced(w: Worker, now: real): Worker
    requires w.fps > 0
  {
    var index := FrameIndex(w, now);
    w.(lastFrameIndex := index, lastTimestampUs := FrameTimestampUs(index, w.fps))
  }

  /** A frame is chosen, drawn and offered. */
  function Fired(w: Worker, now: real, drawn: real, outcome: Outcome): Worker
    requires w.fps > 0
  {
    var w' := Advanced(w, now);
    w'.(picture := Drawn(w.picture, w.fps, w'.lastTimestampUs, MediaTimeMs(w, drawn), outcome))
  }

  function Continued(w: Worker, outcome: Outcome, later: real): Worker {
    if outcome.Threw? then Close(w) else Scheduled(w, later)
  }

  /** runPacing; the media time is read at `now`, at `drawn` and at `later`. */
  function Paced(w: Worker, now: real, drawn: real, outcome: Outcome, later: real): Worker
    requires w.fps > 0
  {
    Ticked(w.(timer := false), now, drawn, outcome, later)
  }

  function Ticked(w: Worker, now: real, drawn: real, outcome: Outcome, later: real): Worker
    requires w.fps > 0
  {
    if Stopped(w) then w
    else if TooEarly(w, now) then w.(timer := Fresh(w, now))
    else Continued(Fired(w, now, drawn, outcome), outcome, later)
  }

  function OfferOfPicture(p: Picture, fps: nat, timestamp: int, mediaMs: real, outcome: Outcome): Offer
    requires fps > 0
  {
    var shown := ShownAt(p, mediaMs);
    Offer(timestamp, shown, Painted(p.canvas, shown), KeyframeDue(p, fps, timestamp), outcome.Encoded?)
  }

  function OfferAt(w: Worker, now: real, drawn: real, outcome: Outcome): Option<Offer>
    requires w.fps > 0
  {
    if Fires(w, now) then Some(OfferNow(w, now, drawn, outcome)) else None
  }

  function OfferNow(w: Worker, now: real, drawn: real, outcome: Outcome): Offer
    requires w.fps > 0
  {
    var timestamp := FrameTimestampUs(FrameIndex(w, now), w.fps);
    OfferOfPicture(w.picture, w.fps, timestamp, MediaTimeMs(w, drawn), outcome)
  }

  function WithFrame(buffer: seq<nat>, frame: nat): seq<nat> {
    (if |buffer| == SOURCE_BUFFER_FRAMES then buffer[1..] else buffer) + [frame]
  }

  function FramePeriodMs(fps: nat): real
    requires fps > 0
  {
    1000.0 / fps as real
  }

  function SourcePicture(w: Worker, frame: nat, now: real): Picture
    requires w.fps > 0
  {
    var q := w.picture.(buffer := WithFrame(w.picture.buffer, frame), placeholder := false);
    if !w.picture.placeholder then q
    else q.(readyAt := MediaTimeMs(w, now) + FramePeriodMs(w.fps), rendered := false, forceKeyframe := true)
  }

  /** onSourceFrame */
  function SourceArrived(w: Worker, frame: nat, now: real, later: real): Worker
    requires w.fps > 0
  {
    Started(w.(picture := SourcePicture(w, frame, now)), later)
  }

  function Cleared(p: Picture): Picture {
    p.(buffer := [], rendered := false, placeholder := true, forceKeyframe := true)
  }

  /** enterPlaceholder */
  function PlaceholderEntered(w: Worker, now: real): Worker {
    Started(w.(picture := Cleared(w.picture)), now)
  }

  function Resumed(w: Worker, now: real): Worker {
    Started(Forced(w.(paused := false)), now)
  }

  function TransportPaused(w: Worker): Worker {
    w.(networkPaused := true, timer := false)
  }

  function TransportResumed(w: Worker, now: real): Worker {
    Started(Forced(w.(networkPaused := false)), now)
  }

  function PausedForReconfigure(w: Worker): Worker {
    w.(paused := true, timer := false)
  }

  /** Assigning the canvas its size erases it. */
  function Restarted(p: Picture, fps: nat, timestamp: int): Picture
    requires fps > 0
  {
    p.(lastKeyframeUs := timestamp - KeyframeGapUs(fps), forceKeyframe := true, canvas := Blank)
  }

  function Reconfigured(w: Worker, fps: nat): Worker
    requires fps > 0
  {
    w.(fps := fps, lastFrameIndex := w.lastTimestampUs * fps / 1_000_000, picture := Restarted(w.picture, fps, w.lastTimestampUs))
  }

  function ReconfigureFailed(w: Worker, now: real): Worker {
    Started(w.(paused := false), now)
  }

  function Initial(fps: nat, audioSampleRate: nat): Worker
    requires fps > 0
  {
    Worker(fps, false, false, false, false, 0, -1, -1, audioSampleRate, 0.0, 0.0, false,
           Picture(true, false, [], 0.0, true, -KeyframeGapUs(fps), Blank))
  }

  // ----- the worker as the client updates it -----

  class VideoWorker {
    var fps: nat
    var closed: bool
    var paused: bool
    var networkPaused: bool
    var pacingTimer: bool
    var scheduledFrameIndex: int
    var lastFrameIndex: int
    var lastTimestampUs: int
    var audioSampleRate: nat
    var audioClockMs: real
    var audioClockUpdatedAt: real
    var audioClockReady: bool
    var placeholder: bool
    var renderedSourceFrame: bool
    var sourceBuffer: seq<nat>
    var sourceBufferReadyAt: real
    var forceNextKeyframe: bool
    var lastKeyframeTimestampUs: int
    var canvas: Canvas

    function PictureState(): Picture
      reads this
    {
      Picture(placeholder, renderedSourceFrame, sourceBuffer, sourceBufferReadyAt, forceNextKeyframe, lastKeyframeTimestampUs,
              canvas)
    }

    function State(): Worker
      reads this
    {
      Worker(fps, closed, paused, networkPaused, pacingTimer, scheduledFrameIndex, lastFrameIndex, lastTimestampUs,
             audioSampleRate, audioClockMs, audioClockUpdatedAt, audioClockReady, PictureState())
    }

    /** The state that `init` sets before its first clock message. */
    constructor (fps: nat, audioSampleRate: nat)
      requires 1 <= fps <= MAX_FPS && audioSampleRate > 0
      ensures State() == Initial(fps, audioSampleRate) && Inv(State())
    {
      this.fps, this.audioSampleRate := fps, audioSampleRate;
      closed, paused, networkPaused, pacingTimer := false, false, false, false;
      scheduledFrameIndex, lastFrameIndex, lastTimestampUs := 0, -1, -1;
      audioClockMs, audioClockUpdatedAt, audioClockReady := 0.0, 0.0, false;
      placeholder, renderedSourceFrame, sourceBuffer, sourceBufferReadyAt := true, false, [], 0.0;
      forceNextKeyframe, lastKeyframeTimestampUs := true, -KeyframeGapUs(fps);
      canvas := Blank;
    }

    method ScheduleNextFrame(now: real)
      modifies this
      ensures State() == Scheduled(old(State()), now)
    {
      if closed || paused || networkPaused || pacingTimer || !audioClockReady {
        return;
      }
      var elapsedMs := MediaTimeMs(State(), now);
      var elapsedFrame := CeilIndex(elapsedMs, fps);
      scheduledFrameIndex := Max(elapsedFrame, lastFrameIndex + 1);
      pacingTimer := true;
    }

    method StartCurrentOutput(now: real)
      modifies this
      ensures State() == Started(old(State()), now)
    {
      if closed || paused || networkPaused {
        return;
      }
      if !placeholder && !renderedSourceFrame && |sourceBuffer| == 0 {
        return;
      }
      ScheduleNextFrame(now);
    }

    /** A negative `samples` stands for anything that is not a safe non-negative integer. */
    method SyncAudioClock(samples: int, now: real)
      requires audioSampleRate > 0
      modifies this
      ensures State() == Synced(old(State()), samples, now)
    {
      if samples < 0 {
        return;
      }
      var nextClockMs := ClockMs(samples, audioSampleRate);
      if audioClockReady && nextClockMs <= audioClockMs {
        return;
      }
      SetClock(nextClockMs, now);
      StartCurrentOutput(now);
    }

    method SetClock(nextClockMs: real, now: real)
      modifies `audioClockMs, `audioClockUpdatedAt, `audioClockReady, `forceNextKeyframe
      ensures State() == WithClock(old(State()), nextClockMs, now)
    {
      if audioClockReady && now - audioClockUpdatedAt >= AUDIO_CLOCK_KEYFRAME_GAP_MS {
        forceNextKeyframe := true;
      }
      audioClockMs := nextClockMs;
      audioClockUpdatedAt := now;
      audioClockReady := true;
    }

    /** The first index from `first` on whose timestamp increases. */
    method RepairTimestamp(first: int) returns (frameIndex: int, timestamp: int)
      requires Inv(State()) && first >= lastFrameIndex + 1
      ensures frameIndex == Repaired(State(), first) && timestamp == FrameTimestampUs(frameIndex, fps)
      ensures timestamp > lastTimestampUs
    {
      frameIndex := first;
      timestamp := FrameTimestampUs(frameIndex, fps);
      RepairOnce(State(), first);
      while timestamp <= lastTimestampUs
        invariant first <= frameIndex <= first + 1 && timestamp == FrameTimestampUs(frameIndex, fps)
        invariant frameIndex == first + 1 ==> FrameTimestampUs(first, fps) <= lastTimestampUs
        decreases first + 1 - frameIndex
      {
        frameIndex := frameIndex + 1;
        timestamp := FrameTimestampUs(frameIndex, fps);
      }
    }

    /** submitFrame, for a worker that is neither closed nor paused; the canvas is drawn on only
        for a frame that the encoder takes. */
    method SubmitFrame(timestamp: int, shown: Shown, outcome: Outcome) returns (keyFrame: bool)
      requires fps > 0
      modifies `forceNextKeyframe, `lastKeyframeTimestampUs, `renderedSourceFrame, `canvas
      ensures keyFrame == KeyframeDue(old(PictureState()), fps, timestamp)
      ensures PictureState() == if !outcome.Encoded? then old(PictureState())
        else old(PictureState()).(rendered := old(renderedSourceFrame) || shown.Source?, forceKeyframe := false,
               lastKeyframeUs := if keyFrame then timestamp else old(lastKeyframeTimestampUs),
               canvas := Painted(old(canvas), shown))
    {
      keyFrame := forceNextKeyframe || timestamp - lastKeyframeTimestampUs >= KeyframeGapUs(fps);
      if outcome.Encoded? {
        match shown {
          case Source(frame) => canvas := OfSource(frame);
          case Placeholder => canvas := OfPlaceholder;
          case Repeat =>
        }
        forceNextKeyframe := false;
        if keyFrame {
          lastKeyframeTimestampUs := timestamp;
        }
        if shown.Source? {
          renderedSourceFrame := true;
        }
      }
    }

    /** Chooses what to show, and offers it. */
    method DrawFrame(timestamp: int, mediaMs: real, outcome: Outcome) returns (offer: Offer)
      requires fps > 0
      modifies `sourceBuffer, `forceNextKeyframe, `lastKeyframeTimestampUs, `renderedSourceFrame, `canvas
      ensures PictureState() == Drawn(old(PictureState()), fps, timestamp, mediaMs, outcome)
      ensures offer == OfferOfPicture(old(PictureState()), fps, timestamp, mediaMs, outcome)
    {
      var sourceReady := !placeholder
        && (renderedSourceFrame || |sourceBuffer| >= SOURCE_BUFFER_FRAMES || mediaMs >= sourceBufferReadyAt);
      var shown := if placeholder || !renderedSourceFrame then Placeholder else Repeat;
      if sourceReady && |sourceBuffer| > 0 {
        shown := Source(sourceBuffer[0]);
        sourceBuffer := sourceBuffer[1..];
      }
      var content := Painted(canvas, shown);
      var keyFrame := SubmitFrame(timestamp, shown, outcome);
      return Offer(timestamp, shown, content, keyFrame, outcome.Encoded?);
    }

    method AdvanceFrame(now: real)
      requires Inv(State())
      modifies `lastFrameIndex, `lastTimestampUs
      ensures State() == Advanced(old(State()), now)
    {
      lastFrameIndex, lastTimestampUs := RepairTimestamp(Candidate(State(), now));
    }

    method FireFrame(now: real, drawn: real, outcome: Outcome) returns (offer: Offer)
      requires Inv(State())
      modifies `lastFrameIndex, `lastTimestampUs
      modifies `sourceBuffer, `forceNextKeyframe, `lastKeyframeTimestampUs, `renderedSourceFrame, `canvas
      ensures State() == Fired(old(State()), now, drawn, outcome)
      ensures offer == OfferNow(old(State()), now, drawn, outcome)
    {
      AdvanceFrame(now);
      var mediaMs := MediaTimeMs(State(), drawn);
      offer := DrawFrame(lastTimestampUs, mediaMs, outcome);
    }

    /** What is offered to the encoder, if a frame is due. */
    method RunPacing(now: real, drawn: real, outcome: Outcome, later: real) returns (offer: Option<Offer>)
      requires Inv(State())
      modifies this
      ensures State() == Paced(old(State()), now, drawn, outcome, later)
      ensures offer == OfferAt(old(State()), now, drawn, outcome)
    {
      SameOffer(State(), now, drawn, outcome);
      pacingTimer := false;
      offer := Tick(now, drawn, outcome, later);
    }

    /** runPacing after it has cleared the timer. */
    method Tick(now: real, drawn: real, outcome: Outcome, later: real) returns (offer: Option<Offer>)
      requires Inv(State())
      modifies this
      ensures State() == Ticked(old(State()), now, drawn, outcome, later)
      ensures offer == OfferAt(old(State()), now, drawn, outcome)
    {
      if closed || paused || networkPaused {
        return None;
      }
      if TooEarly(State(), now) {
        pacingTimer := Fresh(State(), now);
        return None;
      }
      var fired := FireFrame(now, drawn, outcome);
      ContinuePacing(outcome, later);
      return Some(fired);
    }

    method ContinuePacing(outcome: Outcome, later: real)
      modifies this
      ensures State() == Continued(old(State()), outcome, later)
    {
      if outcome.Threw? {
        CloseAll();
      } else {
        ScheduleNextFrame(later);
      }
    }

    method BufferFrame(frame: nat, now: real)
      requires fps > 0
      modifies `placeholder, `renderedSourceFrame, `sourceBuffer, `sourceBufferReadyAt, `forceNextKeyframe
      ensures PictureState() == SourcePicture(old(State()), frame, now)
    {
      var mediaTimeMs := MediaTimeMs(State(), now);
      if |sourceBuffer| == SOURCE_BUFFER_FRAMES {
        sourceBuffer := sourceBuffer[1..];
      }
      sourceBuffer := sourceBuffer + [frame];
      if placeholder {
        sourceBufferReadyAt := mediaTimeMs + FramePeriodMs(fps);
        renderedSourceFrame := false;
        forceNextKeyframe := true;
      }
      placeholder := false;
    }

    method OnSourceFrame(frame: nat, now: real, later: real)
      requires fps > 0
      modifies this
      ensures State() == SourceArrived(old(State()), frame, now, later)
    {
      BufferFrame(frame, now);
      StartCurrentOutput(later);
    }

    method EnterPlaceholder(now: real)
      modifies this
      ensures State() == PlaceholderEntered(old(State()), now)
    {
      ClearSource();
      StartCurrentOutput(now);
    }

    method ClearSource()
      modifies `placeholder, `renderedSourceFrame, `sourceBuffer, `forceNextKeyframe
      ensures PictureState() == Cleared(old(PictureState()))
    {
      sourceBuffer := [];
      renderedSourceFrame := false;
      placeholder := true;
      forceNextKeyframe := true;
    }

    /** What closes the worker; the source buffer is cleared after that. */
    method CloseAll()
      modifies this
      ensures State() == Close(old(State()))
    {
      closed, paused, networkPaused, pacingTimer := true, true, false, false;
    }

    method Resume(now: real)
      modifies this
      ensures State() == Resumed(old(State()), now)
    {
      paused := false;
      forceNextKeyframe := true;
      StartCurrentOutput(now);
    }

    method TransportPause()
      modifies this
      ensures State() == TransportPaused(old(State()))
    {
      networkPaused := true;
      pacingTimer := false;
    }

    method TransportResume(now: real)
      modifies this
      ensures State() == TransportResumed(old(State()), now)
    {
      networkPaused := false;
      forceNextKeyframe := true;
      StartCurrentOutput(now);
    }

    /** The first half of reconfigure, up to the flush of the previous encoder. */
    method PauseForReconfigure()
      modifies this
      ensures State() == PausedForReconfigure(old(State()))
    {
      paused := true;
      pacingTimer := false;
    }

    /** The second half, after the flush. */
    method FinishReconfigure(fps: nat)
      requires fps > 0
      modifies this
      ensures State() == Reconfigured(old(State()), fps)
    {
      this.fps := fps;
      lastFrameIndex := lastTimestampUs * fps / 1_000_000;
      RestartPicture(fps);
    }

    method RestartPicture(fps: nat)
      requires fps > 0
      modifies `canvas, `lastKeyframeTimestampUs, `forceNextKeyframe
      ensures PictureState() == Restarted(old(PictureState()), fps, lastTimestampUs)
    {
      canvas := Blank;
      lastKeyframeTimestampUs := lastTimestampUs - KeyframeGapUs(fps);
      forceNextKeyframe := true;
    }

    method FailReconfigure(now: real)
      modifies this
      ensures State() == ReconfigureFailed(old(State()), now)
    {
      paused := false;
      StartCurrentOutput(now);
    }
  }

  // ----- arithmetic -----

  lemma Twice(a: int, b: int)
    ensures (2 * b) * a == 2 * (a * b)
  {
  }

  lemma TimestampBounds(index: int, fps: nat)
    requires fps > 0
    ensures var t := FrameTimestampUs(index, fps);
      2 * (t * fps) <= 2_000_000 * index + fps < 2 * (t * fps) + 2 * fps
  {
    var n := 2 * index * 1_000_000 + fps;
    assert n == (2 * fps) * (n / (2 * fps)) + n % (2 * fps);
    Twice(n / (2 * fps), fps);
  }

  /** Past the last frame a timestamp is at least the last one, and the next one is greater. */
  lemma RepairOnce(w: Worker, index: int)
    requires Inv(w) && index >= w.lastFrameIndex + 1
    ensures FrameTimestampUs(index, w.fps) >= w.lastTimestampUs
    ensures FrameTimestampUs(index + 1, w.fps) > w.lastTimestampUs
  {
    TimestampBounds(index, w.fps);
    TimestampBounds(index + 1, w.fps);
    CompareMultiples(FrameTimestampUs(index, w.fps), w.lastTimestampUs, w.fps);
    CompareMultiples(FrameTimestampUs(index + 1, w.fps), w.lastTimestampUs, w.fps);
  }

  /** The offer does not depend on the timer. */
  lemma SameOffer(w: Worker, now: real, drawn: real, outcome: Outcome)
    requires w.fps > 0
    ensures OfferAt(w.(timer := false), now, drawn, outcome) == OfferAt(w, now, drawn, outcome)
  {
  }

  // ----- runs -----

  datatype Event =
    | AudioClock(samples: int, now: real)
    | Timer(now: real, drawn: real, outcome: Outcome, later: real)
    | SourceFrame(frame: nat, now: real, later: real)
    | ShowPlaceholder(now: real)
    | DoResume(now: real)
    | DoTransportPause
    | DoTransportResume(now: real)
    | BeginReconfigure
    | EndReconfigure(fps: nat)
    | AbortReconfigure(now: real)
    | CloseWorker

  /** The timer fires only when set, messages come only while open, and reconfigure finishes
      only while it has output paused. */
  predicate Enabled(w: Worker, e: Event) {
    match e
    case Timer(_, _, _, _) => w.timer
    case EndReconfigure(fps) => w.paused && 1 <= fps <= MAX_FPS
    case DoResume(_) => !w.closed
    case DoTransportPause => !w.closed
    case DoTransportResume(_) => !w.closed
    case _ => true
  }

  function Next(w: Worker, e: Event): Worker
    requires Inv(w) && Enabled(w, e)
  {
    match e
    case AudioClock(samples, now) => Synced(w, samples, now)
    case Timer(now, drawn, outcome, later) => Paced(w, now, drawn, outcome, later)
    case SourceFrame(frame, now, later) => SourceArrived(w, frame, now, later)
    case ShowPlaceholder(now) => PlaceholderEntered(w, now)
    case DoResume(now) => Resumed(w, now)
    case DoTransportPause => TransportPaused(w)
    case DoTransportResume(now) => TransportResumed(w, now)
    case BeginReconfigure => PausedForReconfigure(w)
    case EndReconfigure(fps) => Reconfigured(w, fps)
    case AbortReconfigure(now) => ReconfigureFailed(w, now)
    case CloseWorker => Close(w)
  }

  /** What an event offers to the encoder. */
  function OfferOf(w: Worker, e: Event): Option<Offer>
    requires Inv(w)
  {
    if e.Timer? then OfferAt(w, e.now, e.drawn, e.outcome) else None
  }

  lemma PacedKeeps(w: Worker, now: real, drawn: real, outcome: Outcome, later: real)
    requires Inv(w) && w.timer
    ensures Inv(Paced(w, now, drawn, outcome, later))
    ensures Fires(w, now) ==>
      var timestamp := FrameTimestampUs(FrameIndex(w, now), w.fps);
      timestamp > w.lastTimestampUs && Paced(w, now, drawn, outcome, later).lastTimestampUs == timestamp
  {
    if Fires(w, now) {
      var w0 := w.(timer := false);
      FiredKeeps(w0, now, drawn, outcome);
      assert FrameIndex(w0, now) == FrameIndex(w, now);
    }
  }

  lemma FiredKeeps(w: Worker, now: real, drawn: real, outcome: Outcome)
    requires Inv(w) && !w.timer
    ensures Inv(Fired(w, now, drawn, outcome)) && !Fired(w, now, drawn, outcome).timer
    ensures FrameTimestampUs(FrameIndex(w, now), w.fps) > w.lastTimestampUs
  {
    RepairOnce(w, Candidate(w, now));
    TimestampBounds(FrameIndex(w, now), w.fps);
  }

  lemma ReconfigureKeeps(w: Worker, fps: nat)
    requires Inv(w) && Enabled(w, EndReconfigure(fps))
    ensures Inv(Reconfigured(w, fps))
  {
    var n := w.lastTimestampUs * fps;
    assert n == 1_000_000 * (n / 1_000_000) + n % 1_000_000;
  }

  /** Every event keeps the invariant, and only an offer moves the last timestamp. */
  lemma NextKeeps(w: Worker, e: Event)
    requires Inv(w) && Enabled(w, e)
    ensures Inv(Next(w, e))
    ensures match OfferOf(w, e)
            case None => Next(w, e).lastTimestampUs == w.lastTimestampUs
            case Some(offer) => w.lastTimestampUs < offer.timestamp == Next(w, e).lastTimestampUs
  {
    match e {
      case Timer(now, drawn, outcome, later) => PacedKeeps(w, now, drawn, outcome, later);
      case EndReconfigure(fps) => ReconfigureKeeps(w, fps);
      case AudioClock(samples, now) => SyncKeeps(w, samples, now);
      case SourceFrame(frame, now, later) => SourceKeeps(w, frame, now, later);
      case _ =>
    }
  }

  lemma SyncKeeps(w: Worker, samples: int, now: real)
    requires Inv(w)
    ensures Inv(Synced(w, samples, now)) && Synced(w, samples, now).lastTimestampUs == w.lastTimestampUs
  {
  }

  lemma SourceKeeps(w: Worker, frame: nat, now: real, later: real)
    requires Inv(w)
    ensures Inv(SourceArrived(w, frame, now, later))
    ensures SourceArrived(w, frame, now, later).lastTimestampUs == w.lastTimestampUs
  {
  }

  // ----- distance from the audio clock -----

  /** The timer's first index is the last one not after the media time. */
  lemma CandidateIsDue(w: Worker, now: real)
    requires Inv(w) && w.timer && Fires(w, now)
    ensures var product := MediaTimeMs(w, now) * w.fps as real;
      Candidate(w, now) as real * 1000.0 <= product < Candidate(w, now) as real * 1000.0 + 1000.0
  {
    DueBy(w.scheduledFrameIndex, w.fps, MediaTimeMs(w, now));
    FloorDue(MediaTimeMs(w, now), w.fps);
  }

  lemma FloorDue(elapsedMs: real, fps: nat)
    ensures FloorIndex(elapsedMs, fps) as real * 1000.0 <= elapsedMs * fps as real
    ensures elapsedMs * fps as real < FloorIndex(elapsedMs, fps) as real * 1000.0 + 1000.0
  {
    var product := elapsedMs * fps as real;
    assert (product / 1000.0).Floor as real <= product / 1000.0 < (product / 1000.0).Floor as real + 1.0;
  }

  /** A multiple of the timestamp, against the same multiple of the media time. */
  predicate NearProduct(multiple: int, product: real, fps: nat) {
    && multiple as real <= 1000.0 * product + 1_000_000.0 + fps as real / 2.0
    && multiple as real >= 1000.0 * product - 1_000_000.0 - fps as real / 2.0
  }

  lemma MultipleIsNear(multiple: int, index: int, first: int, product: real, fps: nat)
    requires 2 * multiple <= 2_000_000 * index + fps < 2 * multiple + 2 * fps && first <= index <= first + 1
    requires first as real * 1000.0 <= product < first as real * 1000.0 + 1000.0
    ensures NearProduct(multiple, product, fps)
  {
    assert (2 * multiple) as real <= (2_000_000 * index + fps) as real < (2 * multiple + 2 * fps) as real;
  }

  lemma DueBy(index: int, fps: nat, elapsedMs: real)
    requires fps > 0 && FrameTimeMs(index, fps) <= elapsedMs
    ensures index as real * 1000.0 <= elapsedMs * fps as real
  {
    var f, q := fps as real, FrameTimeMs(index, fps);
    assert q * f == index as real * 1000.0;
    assert (elapsedMs - q) * f >= 0.0;
    assert (elapsedMs - q) * f == elapsedMs * f - q * f;
  }

  /** Within the grace of 100 ms, one frame period and half a microsecond of the audio clock. */
  predicate NearClock(w: Worker, timestamp: int)
    requires w.fps > 0
  {
    var period := 1_000_000.0 / w.fps as real;
    && timestamp as real <= 1000.0 * (w.audioClockMs + AUDIO_CLOCK_GRACE_MS) + period + 0.5
    && timestamp as real >= 1000.0 * w.audioClockMs - period - 0.5
  }

  lemma DivideOut(t: int, x: real, fps: nat)
    requires fps > 0 && NearProduct(t * fps, x * fps as real, fps)
    ensures t as real <= 1000.0 * x + 1_000_000.0 / fps as real + 0.5
    ensures t as real >= 1000.0 * x - 1_000_000.0 / fps as real - 0.5
  {
    var f, period := fps as real, 1_000_000.0 / fps as real;
    Times(t, fps);
    Quotient(1_000_000.0, f);
    var high := Expand(x, period + 0.5, f);
    var low := Expand(x, -period - 0.5, f);
    var slack := Expand(0.0, period, f);
    assert slack == 1_000_000.0;
    assert high == 1000.0 * (x * f) + 1_000_000.0 + f / 2.0;
    assert low == 1000.0 * (x * f) - 1_000_000.0 - f / 2.0;
    Compare(t as real, 1000.0 * x + (period + 0.5), f, (t * fps) as real, high);
    Compare(1000.0 * x + (-period - 0.5), t as real, f, low, (t * fps) as real);
  }

  lemma Times(t: int, fps: nat)
    ensures (t * fps) as real == t as real * fps as real
  {
  }

  lemma Quotient(a: real, f: real)
    requires f > 0.0
    ensures a / f * f == a
  {
  }

  lemma Expand(x: real, y: real, f: real) returns (product: real)
    ensures product == (1000.0 * x + y) * f == 1000.0 * (x * f) + y * f
  {
    product := (1000.0 * x + y) * f;
  }

  lemma Compare(a: real, b: real, f: real, af: real, bf: real)
    requires f > 0.0 && af == a * f && bf == b * f && af <= bf
    ensures a <= b
  {
    var d := a - b;
    assert d * f == a * f - b * f;
    assert d > 0.0 ==> d * f > 0.0;
  }

  lemma OfferIsNear(w: Worker, now: real)
    requires Inv(w) && w.timer && Fires(w, now)
    ensures NearClock(w, FrameTimestampUs(FrameIndex(w, now), w.fps))
  {
    OfferIsNearMedia(w, now);
    DivideOut(FrameTimestampUs(FrameIndex(w, now), w.fps), MediaTimeMs(w, now), w.fps);
    MediaTimeBounds(w, now);
  }

  lemma OfferIsNearMedia(w: Worker, now: real)
    requires Inv(w) && w.timer && Fires(w, now)
    ensures NearProduct(FrameTimestampUs(FrameIndex(w, now), w.fps) * w.fps, MediaTimeMs(w, now) * w.fps as real, w.fps)
  {
    var index := FrameIndex(w, now);
    TimestampBounds(index, w.fps);
    CandidateIsDue(w, now);
    MultipleIsNear(FrameTimestampUs(index, w.fps) * w.fps, index, Candidate(w, now), MediaTimeMs(w, now) * w.fps as real, w.fps);
  }

  lemma MediaTimeBounds(w: Worker, now: real)
    requires w.audioClockReady
    ensures w.audioClockMs <= MediaTimeMs(w, now) <= w.audioClockMs + AUDIO_CLOCK_GRACE_MS
  {
  }

  // ----- whole runs -----

  predicate Legal(w: Worker, events: seq<Event>)
    requires Inv(w)
    decreases |events|
  {
    events == [] || (Enabled(w, events[0]) && (NextKeeps(w, events[0]); Legal(Next(w, events[0]), events[1..])))
  }

  /** Every offered timestamp exceeds all earlier ones and is near the audio clock of its time. */
  predicate Safe(w: Worker, last: int, events: seq<Event>)
    requires Inv(w) && Legal(w, events)
    decreases |events|
  {
    events == [] ||
    (var offer := OfferOf(w, events[0]);
     && (offer.Some? ==> last < offer.value.timestamp && NearClock(w, offer.value.timestamp))
     && (NextKeeps(w, events[0]);
         Safe(Next(w, events[0]), if offer.Some? then offer.value.timestamp else last, events[1..])))
  }

  /** Over every run, clock steps, pauses, resumes and reconfigurations included. */
  lemma {:induction false} PacingIsSafe(w: Worker, last: int, events: seq<Event>)
    requires Inv(w) && last <= w.lastTimestampUs && Legal(w, events)
    ensures Safe(w, last, events)
    decreases |events|
  {
    if events != [] {
      var e := events[0];
      NextKeeps(w, e);
      var offer := OfferOf(w, e);
      if offer.Some? {
        OfferIsNear(w, e.now);
      }
      PacingIsSafe(Next(w, e), if offer.Some? then offer.value.timestamp else last, events[1..]);
    }
  }

  function After(w: Worker, events: seq<Event>): Worker
    requires Inv(w) && Legal(w, events)
    decreases |events|
  {
    if events == [] then w else NextKeeps(w, events[0]); After(Next(w, events[0]), events[1..])
  }

  // ----- pacing never stalls -----

  /** The clock readings of an event come in order, none before `from`. */
  predicate InOrder(from: real, e: Event) {
    match e
    case Timer(now, drawn, _, later) => from <= now <= drawn <= later
    case SourceFrame(_, now, later) => from <= now <= later
    case AudioClock(_, now) => from <= now
    case ShowPlaceholder(now) => from <= now
    case DoResume(now) => from <= now
    case DoTransportResume(now) => from <= now
    case AbortReconfigure(now) => from <= now
    case _ => true
  }

  function LastReading(from: real, e: Event): real {
    match e
    case Timer(_, _, _, later) => later
    case SourceFrame(_, _, later) => later
    case AudioClock(_, now) => now
    case ShowPlaceholder(now) => now
    case DoResume(now) => now
    case DoTransportResume(now) => now
    case AbortReconfigure(now) => now
    case _ => from
  }

  predicate Timely(from: real, events: seq<Event>)
    decreases |events|
  {
    events == [] || (InOrder(from, events[0]) && Timely(LastReading(from, events[0]), events[1..]))
  }

  function EndTime(from: real, events: seq<Event>): real
    decreases |events|
  {
    if events == [] then from else EndTime(LastReading(from, events[0]), events[1..])
  }

  /** With something to show and a fresh clock, the timer is set. */
  predicate Ticking(w: Worker, now: real) {
    !Stopped(w) && HasOutput(w.picture) && Fresh(w, now) ==> w.timer
  }

  lemma TimerTicks(w: Worker, now: real, drawn: real, outcome: Outcome, later: real)
    requires Inv(w) && w.timer && now <= later
    ensures Ticking(Paced(w, now, drawn, outcome, later), later)
  {
  }

  lemma NextTicks(w: Worker, e: Event, from: real)
    requires Inv(w) && Enabled(w, e) && InOrder(from, e) && Ticking(w, from)
    ensures Ticking(Next(w, e), LastReading(from, e))
  {
    match e {
      case Timer(now, drawn, outcome, later) => TimerTicks(w, now, drawn, outcome, later);
      case AudioClock(samples, now) => assert !Advances(w, samples) ==> Next(w, e) == w;
      case _ =>
    }
  }

  /** At the end of any run with clock readings in order, and at any time after it, the timer is
      set unless output is stopped, there is nothing to show, or the clock is not fresh. */
  lemma {:induction false} NeverStalls(w: Worker, events: seq<Event>, from: real, now: real)
    requires Inv(w) && Legal(w, events) && Timely(from, events) && Ticking(w, from) && EndTime(from, events) <= now
    ensures Ticking(After(w, events), now)
    decreases |events|
  {
    if events != [] {
      NextKeeps(w, events[0]);
      NextTicks(w, events[0], from);
      NeverStalls(Next(w, events[0]), events[1..], LastReading(from, events[0]), now);
    }
  }

  /** A new worker is ticking. */
  lemma StartsTicking(fps: nat, audioSampleRate: nat, now: real)
    requires fps > 0
    ensures Ticking(Initial(fps, audioSampleRate), now)
  {
  }

  // ----- keyframes and repeats -----

  /** The first frame that is encoded, if there is one, is a keyframe. */
  predicate KeyframeFirst(w: Worker, events: seq<Event>)
    requires Inv(w) && Legal(w, events)
    decreases |events|
  {
    events == [] ||
    (var offer := OfferOf(w, events[0]);
     if offer.Some? && offer.value.encoded then offer.value.keyframe
     else NextKeeps(w, events[0]); KeyframeFirst(Next(w, events[0]), events[1..]))
  }

  lemma StaysForced(w: Worker, e: Event)
    requires Inv(w) && Enabled(w, e) && w.picture.forceKeyframe
    ensures (OfferOf(w, e).Some? && OfferOf(w, e).value.encoded) || Next(w, e).picture.forceKeyframe
  {
  }

  /** A forced keyframe is not lost to a full encoder queue, a pause or a reconfiguration. */
  lemma {:induction false} ForcedIsNext(w: Worker, events: seq<Event>)
    requires Inv(w) && Legal(w, events) && w.picture.forceKeyframe
    ensures KeyframeFirst(w, events)
    decreases |events|
  {
    if events != [] {
      var e := events[0];
      NextKeeps(w, e);
      StaysForced(w, e);
      if OfferOf(w, e).None? || !OfferOf(w, e).value.encoded {
        ForcedIsNext(Next(w, e), events[1..]);
      }
    }
  }

  // ----- the picture that is shown again -----

  /** The last source frame that has been encoded. */
  function LastSource(w: Worker, last: Option<nat>, e: Event): Option<nat>
    requires Inv(w)
  {
    match OfferOf(w, e)
    case Some(offer) => if offer.encoded && offer.shown.Source? then Some(offer.shown.frame) else last
    case None => last
  }

  /** An encoded repeat holds the last source frame that was encoded before it. */
  predicate ShowsLast(last: Option<nat>, offer: Option<Offer>) {
    offer.Some? && offer.value.encoded && offer.value.shown.Repeat? ==> last.Some? && offer.value.content == OfSource(last.value)
  }

  predicate RepeatsLast(w: Worker, last: Option<nat>, events: seq<Event>)
    requires Inv(w) && Legal(w, events)
    decreases |events|
  {
    events == [] ||
    (&& ShowsLast(last, OfferOf(w, events[0]))
     && (NextKeeps(w, events[0]);
         RepeatsLast(Next(w, events[0]), LastSource(w, last, events[0]), events[1..])))
  }

  /** Nothing on the canvas will be shown again before it is drawn on. */
  predicate Unshown(w: Worker) {
    w.closed || !w.picture.rendered
  }

  /** Reconfiguration erases the canvas only where nothing on it will be shown again. */
  predicate ErasesUnshown(w: Worker, events: seq<Event>)
    requires Inv(w) && Legal(w, events)
    decreases |events|
  {
    events == [] ||
    (&& (events[0].EndReconfigure? ==> Unshown(w))
     && (NextKeeps(w, events[0]); ErasesUnshown(Next(w, events[0]), events[1..])))
  }

  predicate CanvasKept(w: Worker, last: Option<nat>) {
    Unshown(w) || (last.Some? && w.picture.canvas == OfSource(last.value))
  }

  lemma DrawnKeepsCanvas(p: Picture, fps: nat, timestamp: int, mediaMs: real, outcome: Outcome, last: Option<nat>)
    requires fps > 0 && !(p.placeholder && p.rendered) && (p.rendered ==> last.Some? && p.canvas == OfSource(last.value))
    ensures var offer, q := OfferOfPicture(p, fps, timestamp, mediaMs, outcome), Drawn(p, fps, timestamp, mediaMs, outcome);
      var last' := if offer.encoded && offer.shown.Source? then Some(offer.shown.frame) else last;
      ShowsLast(last, Some(offer)) && (q.rendered ==> last'.Some? && q.canvas == OfSource(last'.value))
  {
  }

  lemma OtherKeepsCanvas(w: Worker, e: Event)
    requires Inv(w) && Enabled(w, e) && !e.Timer? && (e.EndReconfigure? ==> Unshown(w))
    ensures Unshown(w) ==> Unshown(Next(w, e))
    ensures Unshown(Next(w, e)) || Next(w, e).picture.canvas == w.picture.canvas
  {
  }

  lemma NextKeepsCanvas(w: Worker, last: Option<nat>, e: Event)
    requires Inv(w) && Enabled(w, e) && CanvasKept(w, last) && (e.EndReconfigure? ==> Unshown(w))
    ensures CanvasKept(Next(w, e), LastSource(w, last, e)) && ShowsLast(last, OfferOf(w, e))
  {
    if e.Timer? {
      if !w.closed {
        DrawnKeepsCanvas(w.picture, w.fps, FrameTimestampUs(FrameIndex(w, e.now), w.fps), MediaTimeMs(w, e.drawn), e.outcome, last);
      }
    } else {
      OtherKeepsCanvas(w, e);
    }
  }

  /** Over every run in which reconfiguration erases nothing that is shown again, a repeat holds
      the last source frame encoded. */
  lemma {:induction false} KeptIsRepeated(w: Worker, last: Option<nat>, events: seq<Event>)
    requires Inv(w) && Legal(w, events) && CanvasKept(w, last) && ErasesUnshown(w, events)
    ensures RepeatsLast(w, last, events)
    decreases |events|
  {
    if events != [] {
      NextKeeps(w, events[0]);
      NextKeepsCanvas(w, last, events[0]);
      KeptIsRepeated(Next(w, events[0]), LastSource(w, last, events[0]), events[1..]);
    }
  }

  // ----- a reconfiguration that is seen -----

  lemma WholeSeconds(s: nat, rate: nat)
    requires rate > 0
    ensures ClockMs(rate * s, rate) == 1000.0 * s as real
  {
    var r := rate as real;
    assert (rate * s) as real == r * s as real;
    assert (rate * s) as real * 1000.0 == 1000.0 * s as real * r;
    Quotient((rate * s) as real * 1000.0, r);
    SameFactor(ClockMs(rate * s, rate), 1000.0 * s as real, r);
  }

  lemma SameFactor(a: real, b: real, f: real)
    requires f > 0.0 && a * f == b * f
    ensures a == b
  {
    assert (a - b) * f == 0.0;
  }

  lemma IndexOfSecond(s: nat, fps: nat)
    requires fps > 0
    ensures CeilIndex(1000.0 * s as real, fps) == s * fps
  {
    assert 1000.0 * s as real * fps as real / 1000.0 == s as real * fps as real == (s * fps) as real;
  }

  lemma DueAtSecond(index: int, s: nat, fps: nat)
    requires fps > 0 && index <= s * fps
    ensures FrameTimeMs(index, fps) <= 1000.0 * s as real
  {
    var f := fps as real;
    Quotient(index as real * 1000.0, f);
    assert (s * fps) as real == s as real * f;
    assert index as real * 1000.0 <= (s * fps) as real * 1000.0 == 1000.0 * s as real * f;
    Compare(FrameTimeMs(index, fps), 1000.0 * s as real, f, index as real * 1000.0, 1000.0 * s as real * f);
  }

  lemma AtLeast(s: nat, index: int, fps: nat)
    requires fps > 0 && index <= s
    ensures index <= s * fps
  {
    assert s * fps == s + s * (fps - 1) && s * (fps - 1) >= 0;
  }

  /** A running worker that has shown the source, its canvas erased. */
  predicate Running(w: Worker) {
    Inv(w) && !Stopped(w) && w.picture.rendered && w.picture.canvas == Blank
  }

  /** A clock message after which the timer fires at once. */
  lemma FiresAfterClock(w: Worker, t: real) returns (samples: nat)
    requires Running(w)
    ensures var w' := Synced(w, samples, t);
      && Running(w') && w'.timer && Fires(w', t) && w'.picture.buffer == w.picture.buffer
  {
    var s: nat := Max(1, Max(Max(w.lastFrameIndex + 1, w.scheduledFrameIndex), (w.audioClockMs / 1000.0).Floor + 1));
    samples := w.audioSampleRate * s;
    WholeSeconds(s, w.audioSampleRate);
    assert 1000.0 * s as real > w.audioClockMs;
    IndexOfSecond(s, w.fps);
    AtLeast(s, w.lastFrameIndex + 1, w.fps);
    AtLeast(s, w.scheduledFrameIndex, w.fps);
    var w' := Synced(w, samples, t);
    assert MediaTimeMs(w', t) == 1000.0 * s as real;
    DueAtSecond(w'.scheduledFrameIndex, s, w.fps);
    SyncKeeps(w, samples, t);
  }

  lemma RunOn(w: Worker, last: Option<nat>, e: Event, events: seq<Event>, from: real)
    requires Inv(w) && Enabled(w, e) && Inv(Next(w, e)) && Legal(Next(w, e), events)
    requires InOrder(from, e) && Timely(LastReading(from, e), events)
    requires !RepeatsLast(Next(w, e), LastSource(w, last, e), events)
    ensures Legal(w, [e] + events) && Timely(from, [e] + events) && !RepeatsLast(w, last, [e] + events)
    ensures !e.EndReconfigure? && ErasesUnshown(Next(w, e), events) ==> ErasesUnshown(w, [e] + events)
  {
    assert ([e] + events)[0] == e && ([e] + events)[1..] == events;
  }

  lemma LastFails(w: Worker, last: Option<nat>, t: real)
    requires Running(w) && w.timer && Fires(w, t) && w.picture.buffer == []
    ensures var events := [Timer(t, t, Encoded, t)];
      Legal(w, events) && Timely(t, events) && ErasesUnshown(w, events) && !RepeatsLast(w, last, events)
  {
    var e := Timer(t, t, Encoded, t);
    NextKeeps(w, e);
    assert [e][1..] == [];
    assert OfferOf(w, e).value.shown == Repeat && OfferOf(w, e).value.content == Blank;
  }

  /** Dropping a frame leaves one less in the buffer, and the canvas as it is. */
  lemma DropLeaves(w: Worker, last: Option<nat>, t: real)
    requires Running(w) && w.timer && Fires(w, t) && w.picture.buffer != []
    ensures var e := Timer(t, t, Dropped, t);
      && Enabled(w, e) && Running(Next(w, e)) && LastSource(w, last, e) == last
      && Next(w, e).picture.buffer == w.picture.buffer[1..]
  {
    NextKeeps(w, Timer(t, t, Dropped, t));
  }

  /** Once the buffered frames have been dropped on a full queue, the blank canvas is encoded. */
  lemma {:induction false} BlankIsShown(w: Worker, last: Option<nat>, t: real) returns (events: seq<Event>)
    requires Running(w)
    ensures Legal(w, events) && Timely(t, events) && ErasesUnshown(w, events) && !RepeatsLast(w, last, events)
    decreases |w.picture.buffer|
  {
    var samples := FiresAfterClock(w, t);
    var clock, w' := AudioClock(samples, t), Synced(w, samples, t);
    if w'.picture.buffer == [] {
      LastFails(w', last, t);
      events := [Timer(t, t, Encoded, t)];
    } else {
      DropLeaves(w', last, t);
      events := BlankIsShown(Next(w', Timer(t, t, Dropped, t)), last, t);
      RunOn(w', last, Timer(t, t, Dropped, t), events, t);
      events := [Timer(t, t, Dropped, t)] + events;
    }
    RunOn(w, last, clock, events, t);
    events := [clock] + events;
  }

  /** Resumed after the reconfiguration. */
  lemma ErasedIsShown(w: Worker, last: Option<nat>, t: real) returns (events: seq<Event>)
    requires Inv(w) && !w.closed && w.picture.rendered && w.picture.canvas == Blank
    ensures Legal(w, events) && Timely(t, events) && ErasesUnshown(w, events) && !RepeatsLast(w, last, events)
  {
    var w1 := Next(w, DoTransportResume(t));
    NextKeeps(w, DoTransportResume(t));
    var w2 := Next(w1, DoResume(t));
    NextKeeps(w1, DoResume(t));
    events := BlankIsShown(w2, last, t);
    RunOn(w1, last, DoResume(t), events, t);
    events := [DoResume(t)] + events;
    RunOn(w, last, DoTransportResume(t), events, t);
    events := [DoTransportResume(t)] + events;
  }

  // One such run from the start: at 30 frames per second source frame 7 is shown, and after a
  // reconfiguration to 60 nothing new has come when the next frame is due.

  const TICKING := Worker(30, false, false, false, true, 0, -1, -1, 48_000, 0.0, 0.0, true, Initial(30, 48_000).picture)

  const ARRIVED := TICKING.(picture := Picture(false, false, [7], FramePeriodMs(30), true, -KeyframeGapUs(30), Blank))

  const SHOWN := Worker(30, false, false, false, true, 2, 0, 0, 48_000, 0.0, 0.0, true,
    Picture(false, true, [], FramePeriodMs(30), false, 0, OfSource(7)))

  lemma ClockStarts()
    ensures Inv(TICKING) && Next(Initial(30, 48_000), AudioClock(0, 0.0)) == TICKING
  {
    assert ClockMs(0, 48_000) == 0.0 && CeilIndex(0.0, 30) == 0;
  }

  lemma FrameArrives()
    ensures Inv(ARRIVED) && SourceArrived(TICKING, 7, 0.0, 0.0) == ARRIVED
  {
  }

  lemma FrameIsFirst()
    ensures Fires(ARRIVED, 0.0) && FrameIndex(ARRIVED, 0.0) == 0 && FrameTimestampUs(0, 30) == 0
  {
    assert FrameTimeMs(0, 30) == 0.0 && FloorIndex(0.0, 30) == 0;
  }

  lemma FrameIsDrawn()
    ensures MediaTimeMs(ARRIVED, 50.0) == 50.0 >= FramePeriodMs(30)
    ensures Drawn(ARRIVED.picture, 30, 0, 50.0, Encoded) == SHOWN.picture
  {
    assert FramePeriodMs(30) * 30.0 == 1000.0;
    assert [7][1..] == [];
  }

  lemma FrameIsFired()
    ensures Fired(ARRIVED.(timer := false), 0.0, 50.0, Encoded) == SHOWN.(timer := false, scheduledFrameIndex := 0)
  {
    FrameIsFirst();
    FrameIsDrawn();
  }

  lemma NextIsScheduled()
    ensures Scheduled(SHOWN.(timer := false, scheduledFrameIndex := 0), 50.0) == SHOWN
  {
    assert 50.0 * 30.0 / 1000.0 == 1.5 && CeilIndex(50.0, 30) == 2;
  }

  lemma SourceIsShown()
    ensures Paced(ARRIVED, 0.0, 50.0, Encoded, 50.0) == SHOWN
  {
    FrameIsFirst();
    FrameIsFired();
    NextIsScheduled();
  }

  lemma SevenIsLast()
    ensures LastSource(ARRIVED, None, Timer(0.0, 50.0, Encoded, 50.0)) == Some(7)
  {
    FrameArrives();
    FrameIsFirst();
    FrameIsDrawn();
  }

  lemma ShownIsErased()
    ensures Inv(SHOWN) && Inv(PausedForReconfigure(SHOWN))
    ensures var w := Reconfigured(PausedForReconfigure(SHOWN), 60);
      Inv(w) && Running(Next(w, DoResume(50.0))) && Next(w, DoResume(50.0)).timer && Fires(Next(w, DoResume(50.0)), 50.0)
      && Next(w, DoResume(50.0)).picture.buffer == []
  {
    assert 50.0 * 60.0 / 1000.0 == 3.0 && CeilIndex(50.0, 60) == 3;
    assert FrameTimeMs(3, 60) == 50.0;
  }

  const ERASING: seq<Event> :=
    [BeginReconfigure] + ([EndReconfigure(60)] + ([DoResume(50.0)] + [Timer(50.0, 50.0, Encoded, 50.0)]))

  const ERASING_RUN: seq<Event> :=
    [AudioClock(0, 0.0)] + ([SourceFrame(7, 0.0, 0.0)] + ([Timer(0.0, 50.0, Encoded, 50.0)] + ERASING))

  lemma ErasingFails()
    ensures Inv(SHOWN) && Legal(SHOWN, ERASING) && Timely(50.0, ERASING) && !RepeatsLast(SHOWN, Some(7), ERASING)
  {
    ShownIsErased();
    var w1 := PausedForReconfigure(SHOWN);
    var w2 := Reconfigured(w1, 60);
    var w3 := Next(w2, DoResume(50.0));
    LastFails(w3, Some(7), 50.0);
    var events := [Timer(50.0, 50.0, Encoded, 50.0)];
    RunOn(w2, Some(7), DoResume(50.0), events, 50.0);
    events := [DoResume(50.0)] + events;
    RunOn(w1, Some(7), EndReconfigure(60), events, 50.0);
    events := [EndReconfigure(60)] + events;
    RunOn(SHOWN, Some(7), BeginReconfigure, events, 50.0);
  }

  /** The code shows a blank picture as a repeat of source frame 7. */
  lemma BlankIsRepeated()
    ensures var w := Initial(30, 48_000);
      Inv(w) && Legal(w, ERASING_RUN) && Timely(0.0, ERASING_RUN) && !RepeatsLast(w, None, ERASING_RUN)
  {
    ClockStarts();
    FrameArrives();
    SourceIsShown();
    SevenIsLast();
    ErasingFails();
    RunOn(ARRIVED, None, Timer(0.0, 50.0, Encoded, 50.0), ERASING, 0.0);
    var events := [Timer(0.0, 50.0, Encoded, 50.0)] + ERASING;
    RunOn(TICKING, None, SourceFrame(7, 0.0, 0.0), events, 0.0);
    events := [SourceFrame(7, 0.0, 0.0)] + events;
    RunOn(Initial(30, 48_000), None, AudioClock(0, 0.0), events, 0.0);
  }

  /** Every run from `w` whose clock readings are in order, later reconfigurations aside. */
  ghost predicate AlwaysRepeatsLast(w: Worker, last: Option<nat>)
    requires Inv(w)
  {
    forall from, events :: Legal(w, events) && Timely(from, events) && ErasesUnshown(w, events) ==> RepeatsLast(w, last, events)
  }

  /** A reconfiguration does no harm to what is shown after it exactly if no source frame was
      rendered, or the worker is closed. */
  lemma ReconfigureHarmlessIff(w: Worker, fps: nat, last: Option<nat>)
    requires Inv(w) && Enabled(w, EndReconfigure(fps))
    ensures Inv(Reconfigured(w, fps))
    ensures AlwaysRepeatsLast(Reconfigured(w, fps), last) <==> w.closed || !w.picture.rendered
  {
    ReconfigureKeeps(w, fps);
    var w' := Reconfigured(w, fps);
    if Unshown(w) {
      forall from, events | Legal(w', events) && Timely(from, events) && ErasesUnshown(w', events)
        ensures RepeatsLast(w', last, events)
      {
        KeptIsRepeated(w', last, events);
      }
    } else {
      var events := ErasedIsShown(w', last, 0.0);
      assert !RepeatsLast(w', last, events);
    }
  }
}
