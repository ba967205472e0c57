/** The check of an ingested H.264 access unit (inspect_h264_access_unit and
    for_each_h264_nal, server/src/media.rs). */
module AccessUnit {
  import opened Options
  import opened AnnexB

  datatype Reason =
    | TooSmall | TooLarge | ContainerFormat | MpegTs | MpegAudio | NoStartCode
    | TooManyNals | ForbiddenBit | UnsupportedNal | NoNals | NoSlice | NoIdr

  datatype Verdict = Accepted(singleNal: bool) | Rejected(reason: Reason)

  // "ftyp", "OggS", "RIFF", "fLaC", "ID3" and the EBML magic
  const FTYP: Bytes := [0x66, 0x74, 0x79, 0x70]
  const SIGNATURES: seq<Bytes> := [
    FTYP, [0x4f, 0x67, 0x67, 0x53], [0x52, 0x49, 0x46, 0x46], [0x66, 0x4c, 0x61, 0x43],
    [0x49, 0x44, 0x33], [0x1a, 0x45, 0xdf, 0xa3]]

  predicate StartsWithAny(frame: Bytes, signatures: seq<Bytes>) {
    signatures != [] && (signatures[0] <= frame || StartsWithAny(frame, signatures[1..]))
  }

  function ContainerSignature(frame: Bytes): Option<Reason>
    requires |frame| >= 2
  {
    if StartsWithAny(frame, SIGNATURES) || (|frame| >= 8 && frame[4..8] == FTYP)
    then Some(ContainerFormat)
    else if frame[0] == 0x47 && |frame| > 188 && frame[188] == 0x47 then Some(MpegTs)
    else if frame[0] == 0xff && frame[1] >= 0xe0 then Some(MpegAudio)
    else None
  }

  function NalType(nal: Bytes): nat
  {
    if nal == [] then 0 else nal[0] % 32
  }

  function NalError(nal: Bytes): Option<Reason>
  {
    if nal != [] && nal[0] >= 128 then Some(ForbiddenBit)
    else if NalType(nal) == 1 || 5 <= NalType(nal) <= 12 || NalType(nal) == 14 then None
    else Some(UnsupportedNal)
  }

  predicate IsSlice(nal: Bytes)
  {
    NalType(nal) == 1 || NalType(nal) == 5
  }

  /** The first failure met when the NAL units are visited in order, `count` having passed. */
  function FirstError(nals: seq<Bytes>, count: nat): Option<Reason>
  {
    if nals == [] then None
    else if count + 1 > H264_MAX_NAL_UNITS then Some(TooManyNals)
    else if NalError(nals[0]).Some? then NalError(nals[0])
    else FirstError(nals[1..], count + 1)
  }

  ghost predicate Sliced(nals: seq<Bytes>)
  {
    exists i | 0 <= i < |nals| :: IsSlice(nals[i])
  }

  ghost predicate HasIdr(nals: seq<Bytes>)
  {
    exists i | 0 <= i < |nals| :: NalType(nals[i]) == 5
  }

  ghost function Inspect(au: Bytes, keyframe: bool, maxBytes: nat): Verdict {
    if |au| < 5 then Rejected(TooSmall)
    else if |au| > maxBytes then Rejected(TooLarge)
    else if ContainerSignature(au).Some? then Rejected(ContainerSignature(au).value)
    else match NextStart(au, 0)
      case None => Rejected(NoStartCode)
      case Some(i) =>
        var start := i + CodeLen(au, i);
        var nals := NalsFrom(au, start);
        if FirstError(nals, 0).Some? then Rejected(FirstError(nals, 0).value)
        else if nals == [] then Rejected(NoNals)
        else if !Sliced(nals) then Rejected(NoSlice)
        else if keyframe && !HasIdr(nals) then Rejected(NoIdr)
        else Accepted(|nals| == 1 && NextStart(au, start).None?)
  }

  // ----- the visit of all NAL units, for any visitor -----

  datatype Visit<S> = Stop(reason: Reason) | Go(state: S)

  /** How far a visit has come. */
  datatype Progress<S> = Failed(reason: Reason) | Passed(count: nat, state: S)

  /** One NAL unit: the count check, then the visitor. */
  function Add<S>(visitor: (S, Bytes) -> Visit<S>, count: nat, state: S, nal: Bytes): Progress<S> {
    if count + 1 > H264_MAX_NAL_UNITS then Failed(TooManyNals)
    else match visitor(state, nal)
      case Stop(reason) => Failed(reason)
      case Go(next) => Passed(count + 1, next)
  }

  function AddIfAny<S>(visitor: (S, Bytes) -> Visit<S>, count: nat, state: S, nal: Bytes): Progress<S> {
    if nal == [] then Passed(count, state) else Add(visitor, count, state, nal)
  }

  /** The visit as the loop makes it, NAL unit by NAL unit from `start` on. */
  function VisitedFrom<S>(visitor: (S, Bytes) -> Visit<S>, au: Bytes, start: nat, count: nat, state: S): Progress<S>
    requires start <= |au|
    decreases |au| - start
  {
    match NextStart(au, start)
    case None => AddIfAny(visitor, count, state, au[start..|au|])
    case Some(i) =>
      var here := AddIfAny(visitor, count, state, au[start..i]);
      if here.Failed? then here else VisitedFrom(visitor, au, i + CodeLen(au, i), here.count, here.state)
  }

  /** The visit of a list of NAL units. */
  function VisitedAll<S>(visitor: (S, Bytes) -> Visit<S>, count: nat, state: S, nals: seq<Bytes>): Progress<S>
    decreases |nals|
  {
    if nals == [] then Passed(count, state)
    else
      var here := Add(visitor, count, state, nals[0]);
      if here.Failed? then here else VisitedAll(visitor, here.count, here.state, nals[1..])
  }

  /** Calls the visitor on every NAL unit in order, up to the first failure; also says whether
      there is more than one start code. */
  method ForEachH264Nal<S>(au: Bytes, visitor: (S, Bytes) -> Visit<S>, initial: S)
    returns (outcome: Progress<S>, multiple: bool)
    ensures NextStart(au, 0).None? ==> outcome == Failed(NoStartCode)
    ensures NextStart(au, 0).Some? ==>
      var visited := VisitedAll(visitor, 0, initial, NalsOf(au));
      outcome == if visited.Passed? && visited.count == 0 then Failed(NoNals) else visited
    ensures outcome.Passed? ==> multiple == NextStart(au, FirstNal(au)).Some?
  {
    var first := FindH264StartCode(au, 0);
    if first.None? {
      return Failed(NoStartCode), false;
    }
    outcome, multiple := VisitFrom(au, first.value.0 + first.value.1, visitor, initial);
    ghost var visited := VisitIsOfAll(visitor, au, FirstNal(au), 0, initial);
    if outcome.Passed? && outcome.count == 0 {
      outcome := Failed(NoNals);
    }
  }

  method VisitFrom<S>(au: Bytes, first: nat, visitor: (S, Bytes) -> Visit<S>, initial: S)
    returns (outcome: Progress<S>, multiple: bool)
    requires first <= |au|
    ensures outcome == VisitedFrom(visitor, au, first, 0, initial)
    ensures outcome.Passed? ==> multiple == NextStart(au, first).Some?
  {
    var nalStart, count, state := first, 0, initial;
    multiple := false;
    while true
      invariant nalStart <= |au|
      invariant VisitedFrom(visitor, au, nalStart, count, state) == VisitedFrom(visitor, au, first, 0, initial)
      invariant if multiple then NextStart(au, first).Some? else nalStart == first
      decreases |au| - nalStart
    {
      var next := FindH264StartCode(au, nalStart);
      var nalEnd := if next.None? then |au| else next.value.0;
      if nalEnd > nalStart {
        outcome := Add(visitor, count, state, au[nalStart..nalEnd]);
        if outcome.Failed? {
          return;
        }
        count, state := outcome.count, outcome.state;
      }
      if next.None? {
        return Passed(count, state), multiple;
      }
      multiple := true;
      nalStart := next.value.0 + next.value.1;
    }
  }

  lemma VisitFirst<S>(visitor: (S, Bytes) -> Visit<S>, count: nat, state: S, nal: Bytes, rest: seq<Bytes>)
    ensures var here := AddIfAny(visitor, count, state, nal);
      VisitedAll(visitor, count, state, AtMostOne(nal) + rest)
      == if here.Failed? then here else VisitedAll(visitor, here.count, here.state, rest)
  {
    var all := AtMostOne(nal) + rest;
    if nal == [] {
      assert all == rest;
    } else {
      assert all[0] == nal && all[1..] == rest;
    }
  }

  lemma VisitOne<S>(visitor: (S, Bytes) -> Visit<S>, count: nat, state: S, nal: Bytes)
    ensures VisitedAll(visitor, count, state, AtMostOne(nal)) == AddIfAny(visitor, count, state, nal)
  {
    VisitFirst(visitor, count, state, nal, []);
    assert AtMostOne(nal) + [] == AtMostOne(nal);
  }

  lemma VisitMore<S>(visitor: (S, Bytes) -> Visit<S>, au: Bytes, start: nat, i: nat, count: nat, state: S, end: Progress<S>)
    requires start <= |au| && NextStart(au, start) == Some(i)
    requires var here := AddIfAny(visitor, count, state, au[start..i]);
      end == if here.Failed? then here else VisitedFrom(visitor, au, i + CodeLen(au, i), here.count, here.state)
    ensures VisitedFrom(visitor, au, start, count, state) == end
  {
  }

  lemma VisitList<S>(visitor: (S, Bytes) -> Visit<S>, nal: Bytes, rest: seq<Bytes>, count: nat, state: S, end: Progress<S>)
    requires var here := AddIfAny(visitor, count, state, nal);
      end == if here.Failed? then here else VisitedAll(visitor, here.count, here.state, rest)
    ensures VisitedAll(visitor, count, state, AtMostOne(nal) + rest) == end
  {
    VisitFirst(visitor, count, state, nal, rest);
  }

  /** The loop visits exactly the NAL units of the access unit. */
  lemma {:induction false} VisitIsOfAll<S>(visitor: (S, Bytes) -> Visit<S>, au: Bytes, start: nat, count: nat, state: S)
    returns (end: Progress<S>)
    requires start <= |au|
    ensures VisitedFrom(visitor, au, start, count, state) == end
    ensures VisitedAll(visitor, count, state, NalsFrom(au, start)) == end
    decreases |au| - start
  {
    match NextStart(au, start) {
      case None =>
        VisitOne(visitor, count, state, au[start..|au|]);
        end := AddIfAny(visitor, count, state, au[start..|au|]);
      case Some(i) =>
        end := AddIfAny(visitor, count, state, au[start..i]);
        if end.Passed? {
          end := VisitIsOfAll(visitor, au, i + CodeLen(au, i), end.count, end.state);
        }
        VisitMore(visitor, au, start, i, count, state, end);
        VisitList(visitor, au[start..i], NalsFrom(au, i + CodeLen(au, i)), count, state, end);
    }
  }

  // ----- the visitor of the inspection -----

  datatype Seen = Seen(slice: bool, idr: bool)

  function InspectNal(seen: Seen, nal: Bytes): Visit<Seen> {
    if NalError(nal).Some? then Stop(NalError(nal).value)
    else Go(Seen(seen.slice || IsSlice(nal), seen.idr || NalType(nal) == 5))
  }

  lemma SlicedCons(nals: seq<Bytes>)
    requires nals != []
    ensures Sliced(nals) == (IsSlice(nals[0]) || Sliced(nals[1..]))
    ensures HasIdr(nals) == (NalType(nals[0]) == 5 || HasIdr(nals[1..]))
  {
    assert forall i | 0 < i < |nals| :: nals[i] == nals[1..][i - 1];
    if Sliced(nals[1..]) {
      var i :| 0 <= i < |nals[1..]| && IsSlice(nals[1..][i]);
      assert IsSlice(nals[i + 1]);
    }
    if HasIdr(nals[1..]) {
      var i :| 0 <= i < |nals[1..]| && NalType(nals[1..][i]) == 5;
      assert NalType(nals[i + 1]) == 5;
    }
  }

  lemma {:induction false} InspectionMeans(count: nat, seen: Seen, nals: seq<Bytes>)
    ensures VisitedAll(InspectNal, count, seen, nals) == match FirstError(nals, count)
      case Some(reason) => Failed(reason)
      case None => Passed(count + |nals|, Seen(seen.slice || Sliced(nals), seen.idr || HasIdr(nals)))
    decreases |nals|
  {
    if nals != [] {
      SlicedCons(nals);
      if Add(InspectNal, count, seen, nals[0]).Passed? {
        InspectionMeans(count + 1, InspectNal(seen, nals[0]).state, nals[1..]);
      }
    }
  }

  method InspectH264AccessUnit(au: Bytes, keyframe: bool, maxBytes: nat) returns (verdict: Verdict)
    ensures verdict == Inspect(au, keyframe, maxBytes)
  {
    if |au| < 5 {
      return Rejected(TooSmall);
    }
    if |au| > maxBytes {
      return Rejected(TooLarge);
    }
    var signature := ContainerSignature(au);
    if signature.Some? {
      return Rejected(signature.value);
    }
    var outcome, multiple := ForEachH264Nal(au, InspectNal, Seen(false, false));
    InspectionMeans(0, Seen(false, false), NalsOf(au));
    if outcome.Failed? {
      return Rejected(outcome.reason);
    }
    if !outcome.state.slice {
      return Rejected(NoSlice);
    }
    if keyframe && !outcome.state.idr {
      return Rejected(NoIdr);
    }
    return Accepted(outcome.count == 1 && !multiple);
  }

  lemma {:induction false} NoErrorMeans(nals: seq<Bytes>, count: nat)
    requires count <= H264_MAX_NAL_UNITS
    ensures FirstError(nals, count).None? <==>
      count + |nals| <= H264_MAX_NAL_UNITS && forall i | 0 <= i < |nals| :: NalError(nals[i]).None?
  {
    if nals != [] && count + 1 <= H264_MAX_NAL_UNITS {
      NoErrorMeans(nals[1..], count + 1);
      assert forall i | 0 < i < |nals| :: nals[i] == nals[1..][i - 1];
    }
  }

  // ----- the verdict in plain bytes -----

  /** The types the server takes: slices, SEI, parameter sets, delimiters, fillers and prefixes. */
  predicate GoodNal(nal: Bytes) {
    nal == [] || (nal[0] < 128 && nal[0] % 32 in {1, 5, 6, 7, 8, 9, 10, 11, 12, 14})
  }

  predicate SliceNal(nal: Bytes) {
    nal != [] && nal[0] % 32 in {1, 5}
  }

  predicate IdrNal(nal: Bytes) {
    nal != [] && nal[0] % 32 == 5
  }

  predicate Begins(frame: Bytes, at: nat, text: string) {
    at + |text| <= |frame| && forall i | 0 <= i < |text| :: frame[at + i] as int == text[i] as int
  }

  /** MP4, Ogg, RIFF, FLAC, ID3, or Matroska. */
  predicate IsContainer(frame: Bytes) {
    || Begins(frame, 0, "ftyp") || Begins(frame, 4, "ftyp") || Begins(frame, 0, "OggS") || Begins(frame, 0, "RIFF")
    || Begins(frame, 0, "fLaC") || Begins(frame, 0, "ID3")
    || (|frame| >= 4 && frame[0] == 0x1a && frame[1] == 0x45 && frame[2] == 0xdf && frame[3] == 0xa3)
  }

  predicate IsMpegTs(frame: Bytes) {
    |frame| > 188 && frame[0] == 'G' as int && frame[188] == 'G' as int
  }

  predicate IsMpegAudio(frame: Bytes) {
    |frame| >= 2 && frame[0] == 0xff && frame[1] / 32 == 7
  }

  lemma BeginsIs(frame: Bytes, signature: Bytes, text: string)
    requires |signature| == |text| && forall i | 0 <= i < |text| :: signature[i] as int == text[i] as int
    ensures signature <= frame <==> Begins(frame, 0, text)
    ensures 4 + |text| <= |frame| && frame[4..4 + |text|] == signature <==> Begins(frame, 4, text)
  {
    if Begins(frame, 0, text) {
      assert frame[..|text|] == signature;
    }
    if 4 + |text| <= |frame| && frame[4..4 + |text|] == signature {
      var part := frame[4..4 + |text|];
      assert forall i | 0 <= i < |text| :: part[i] == frame[4 + i];
    }
  }

  lemma {:induction false} AnyOf(frame: Bytes, signatures: seq<Bytes>)
    ensures StartsWithAny(frame, signatures) <==> exists i :: 0 <= i < |signatures| && signatures[i] <= frame
    decreases |signatures|
  {
    if signatures != [] {
      var rest := signatures[1..];
      AnyOf(frame, rest);
      if i :| 0 <= i < |rest| && rest[i] <= frame {
        assert signatures[i + 1] <= frame;
      }
      if i :| 0 < i < |signatures| && signatures[i] <= frame {
        assert rest[i - 1] <= frame;
      }
    }
  }

  lemma SignatureMeans(frame: Bytes)
    requires |frame| >= 2
    ensures ContainerSignature(frame) ==
      if IsContainer(frame) then Some(ContainerFormat) else if IsMpegTs(frame) then Some(MpegTs)
      else if IsMpegAudio(frame) then Some(MpegAudio) else None
  {
    AnyOf(frame, SIGNATURES);
    assert |SIGNATURES| == 6;
    assert SIGNATURES[5] <= frame
      <==> |frame| >= 4 && frame[0] == 0x1a && frame[1] == 0x45 && frame[2] == 0xdf && frame[3] == 0xa3;
    BeginsIs(frame, SIGNATURES[0], "ftyp");
    BeginsIs(frame, SIGNATURES[1], "OggS");
    BeginsIs(frame, SIGNATURES[2], "RIFF");
    BeginsIs(frame, SIGNATURES[3], "fLaC");
    BeginsIs(frame, SIGNATURES[4], "ID3");
  }

  lemma GoodMeans(nal: Bytes)
    requires nal != []
    ensures NalError(nal) == if GoodNal(nal) then None else if nal[0] >= 128 then Some(ForbiddenBit) else Some(UnsupportedNal)
    ensures IsSlice(nal) == SliceNal(nal) && (NalType(nal) == 5) == IdrNal(nal)
  {
  }

  /** NAL unit `k` is the first one refused: the sixty-fifth, or one that is not good. */
  predicate FirstBad(nals: seq<Bytes>, k: nat, reason: Reason) {
    && k < |nals| && k <= 64 && (forall j | 0 <= j < k :: GoodNal(nals[j]))
    && if k == 64 then reason == TooManyNals
       else !GoodNal(nals[k]) && reason == if nals[k][0] >= 128 then ForbiddenBit else UnsupportedNal
  }

  lemma {:induction false} FirstErrorMeans(nals: seq<Bytes>, count: nat) returns (k: nat)
    requires count <= 64 && [] !in nals
    ensures match FirstError(nals, count)
      case None => count + |nals| <= 64 && forall j | 0 <= j < |nals| :: GoodNal(nals[j])
      case Some(reason) =>
        && k < |nals| && count + k <= 64 && (forall j | 0 <= j < k :: GoodNal(nals[j]))
        && if count + k == 64 then reason == TooManyNals
           else !GoodNal(nals[k]) && reason == if nals[k][0] >= 128 then ForbiddenBit else UnsupportedNal
    decreases |nals|
  {
    k := 0;
    if nals != [] {
      GoodMeans(nals[0]);
      if count + 1 <= H264_MAX_NAL_UNITS && NalError(nals[0]).None? {
        k := FirstErrorMeans(nals[1..], count + 1);
        k := k + 1;
        assert forall j | 0 < j < |nals| :: nals[j] == nals[1..][j - 1];
      }
    }
  }

  ghost predicate AnySlice(nals: seq<Bytes>) {
    exists i :: 0 <= i < |nals| && SliceNal(nals[i])
  }

  ghost predicate AnyIdr(nals: seq<Bytes>) {
    exists i :: 0 <= i < |nals| && IdrNal(nals[i])
  }

  lemma SlicesMean(nals: seq<Bytes>)
    requires [] !in nals
    ensures Sliced(nals) == AnySlice(nals) && HasIdr(nals) == AnyIdr(nals)
  {
    forall i | 0 <= i < |nals| ensures IsSlice(nals[i]) == SliceNal(nals[i]) && (NalType(nals[i]) == 5) == IdrNal(nals[i]) {
      GoodMeans(nals[i]);
    }
  }

  ghost predicate RightSize(au: Bytes, maxBytes: nat) {
    5 <= |au| <= maxBytes
  }

  predicate Unsigned(au: Bytes) {
    !IsContainer(au) && !IsMpegTs(au) && !IsMpegAudio(au)
  }

  /** Each verdict is given exactly for its own reason, the earlier ones ruled out. */
  ghost predicate VerdictFits(au: Bytes, keyframe: bool, maxBytes: nat, verdict: Verdict) {
    match verdict
    case Rejected(TooSmall) => |au| < 5
    case Rejected(TooLarge) => 5 <= |au| && maxBytes < |au|
    case Rejected(ContainerFormat) => RightSize(au, maxBytes) && IsContainer(au)
    case Rejected(MpegTs) => RightSize(au, maxBytes) && !IsContainer(au) && IsMpegTs(au)
    case Rejected(MpegAudio) => RightSize(au, maxBytes) && !IsContainer(au) && !IsMpegTs(au) && IsMpegAudio(au)
    case Rejected(NoStartCode) => RightSize(au, maxBytes) && Unsigned(au) && NextStart(au, 0).None?
    case Rejected(NoNals) => RightSize(au, maxBytes) && Unsigned(au) && NextStart(au, 0).Some? && NalsOf(au) == []
    case Rejected(NoSlice) => RightSize(au, maxBytes) && Unsigned(au) && AllGood(NalsOf(au)) && !AnySlice(NalsOf(au))
    case Rejected(NoIdr) =>
      RightSize(au, maxBytes) && Unsigned(au) && AllGood(NalsOf(au)) && AnySlice(NalsOf(au)) && keyframe && !AnyIdr(NalsOf(au))
    case Rejected(reason) =>
      RightSize(au, maxBytes) && Unsigned(au) && exists k: nat :: FirstBad(NalsOf(au), k, reason)
    case Accepted(single) =>
      && RightSize(au, maxBytes) && Unsigned(au) && AllGood(NalsOf(au)) && AnySlice(NalsOf(au))
      && (keyframe ==> AnyIdr(NalsOf(au)))
      && (single <==> |NalsOf(au)| == 1 && NextStart(au, FirstNal(au)).None?)
  }

  predicate AllGood(nals: seq<Bytes>) {
    1 <= |nals| <= 64 && forall i | 0 <= i < |nals| :: GoodNal(nals[i])
  }

  lemma RefusedNal(au: Bytes, keyframe: bool, maxBytes: nat, reason: Reason)
    requires RightSize(au, maxBytes) && ContainerSignature(au).None? && Unsigned(au) && NextStart(au, 0).Some?
    requires FirstError(NalsOf(au), 0) == Some(reason)
    ensures VerdictFits(au, keyframe, maxBytes, Inspect(au, keyframe, maxBytes))
  {
    NalsAreNonEmpty(au, FirstNal(au));
    var k := FirstErrorMeans(NalsOf(au), 0);
    assert FirstBad(NalsOf(au), k, reason);
  }

  lemma InspectPast(au: Bytes, keyframe: bool, maxBytes: nat, slice: bool, idr: bool)
    requires RightSize(au, maxBytes) && ContainerSignature(au).None? && NextStart(au, 0).Some?
    requires FirstError(NalsOf(au), 0).None? && slice == Sliced(NalsOf(au)) && idr == HasIdr(NalsOf(au))
    ensures Inspect(au, keyframe, maxBytes) ==
      if NalsOf(au) == [] then Rejected(NoNals) else if !slice then Rejected(NoSlice)
      else if keyframe && !idr then Rejected(NoIdr) else Accepted(|NalsOf(au)| == 1 && NextStart(au, FirstNal(au)).None?)
  {
  }

  lemma GoodUnits(au: Bytes)
    requires NextStart(au, 0).Some? && FirstError(NalsOf(au), 0).None?
    ensures Sliced(NalsOf(au)) == AnySlice(NalsOf(au)) && HasIdr(NalsOf(au)) == AnyIdr(NalsOf(au))
    ensures NalsOf(au) != [] ==> AllGood(NalsOf(au))
  {
    NalsAreNonEmpty(au, FirstNal(au));
    SlicesMean(NalsOf(au));
    var _ := FirstErrorMeans(NalsOf(au), 0);
  }

  lemma NoNalRefused(au: Bytes, keyframe: bool, maxBytes: nat)
    requires RightSize(au, maxBytes) && ContainerSignature(au).None? && Unsigned(au) && NextStart(au, 0).Some?
    requires FirstError(NalsOf(au), 0).None?
    ensures VerdictFits(au, keyframe, maxBytes, Inspect(au, keyframe, maxBytes))
  {
    GoodUnits(au);
    InspectPast(au, keyframe, maxBytes, AnySlice(NalsOf(au)), AnyIdr(NalsOf(au)));
  }

  /** The verdict on every access unit, in terms of its bytes. */
  lemma VerdictMeans(au: Bytes, keyframe: bool, maxBytes: nat)
    ensures VerdictFits(au, keyframe, maxBytes, Inspect(au, keyframe, maxBytes))
  {
    if RightSize(au, maxBytes) {
      SignatureMeans(au);
      if ContainerSignature(au).None? && NextStart(au, 0).Some? {
        match FirstError(NalsOf(au), 0)
        case Some(reason) => RefusedNal(au, keyframe, maxBytes, reason);
        case None => NoNalRefused(au, keyframe, maxBytes);
      }
    }
  }

  /** Exactly which access units are accepted, and when the single-NAL mark is set: the unit is
      then one NAL unit that runs from the first start code to the end. */
  lemma AcceptedMeans(au: Bytes, keyframe: bool, maxBytes: nat)
    ensures Inspect(au, keyframe, maxBytes).Accepted? <==>
      && 5 <= |au| <= maxBytes && ContainerSignature(au).None?
      && 1 <= |NalsOf(au)| <= H264_MAX_NAL_UNITS
      && (forall i | 0 <= i < |NalsOf(au)| :: NalError(NalsOf(au)[i]).None?)
      && Sliced(NalsOf(au)) && (keyframe ==> HasIdr(NalsOf(au)))
    ensures Inspect(au, keyframe, maxBytes) == Accepted(true) ==>
      NextStart(au, 0).Some?
      && var start := NextStart(au, 0).value + CodeLen(au, NextStart(au, 0).value);
         NextStart(au, start).None? && NalsOf(au) == [au[start..]]
  {
    NoErrorMeans(NalsOf(au), 0);
    if Inspect(au, keyframe, maxBytes) == Accepted(true) {
      var start := NextStart(au, 0).value + CodeLen(au, NextStart(au, 0).value);
      assert au[start..|au|] == au[start..];
    }
  }
}
