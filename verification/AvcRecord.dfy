/** Parameter sets from the encoder's AVCDecoderConfigurationRecord (section 5.3.3.1 of
    ISO/IEC 14496-15) to Annex B (avcDescriptionToAnnexB, client/scripts/video-worker.js),
    and on to the server's scanner. */
module AvcRecord {
  import opened AnnexB
  import opened Common
  import opened Options

  // ----- the record format -----

  function Entry(nal: Bytes): Bytes
    requires |nal| < 0x1_0000
  {
    [|nal| / 0x100, |nal| % 0x100] + nal
  }

  predicate Short(nals: seq<Bytes>) {
    nals == [] || (|nals[0]| < 0x1_0000 && Short(nals[1..]))
  }

  function Entries(nals: seq<Bytes>): Bytes
    requires Short(nals)
  {
    if nals == [] then [] else Entry(nals[0]) + Entries(nals[1..])
  }

  /** A record with its profile bytes, the reserved bits before the SPS count, and whatever
      extension follows. */
  datatype Record = Record(profile: Bytes, reserved: nat, sps: seq<Bytes>, pps: seq<Bytes>, extension: Bytes)

  predicate WellFormed(r: Record) {
    |r.profile| == 4 && r.reserved < 8 && |r.sps| < 32 && |r.pps| < 0x100 && Short(r.sps) && Short(r.pps)
  }

  function RecordBytes(r: Record): Bytes
    requires WellFormed(r)
  {
    Head(r) + (Entries(r.sps) + ([|r.pps|] + (Entries(r.pps) + r.extension)))
  }

  function Head(r: Record): (h: Bytes)
    requires WellFormed(r)
    ensures |h| == 6
  {
    [1] + r.profile + [r.reserved * 32 + |r.sps|]
  }

  // ----- the conversion -----

  /** `count` entries from `offset` on, and where they end. */
  function ReadEntries(data: Bytes, offset: nat, count: nat): (r: Option<(seq<Bytes>, nat)>)
    ensures r.Some? && count > 0 ==> r.value.1 <= |data|
    ensures r.Some? ==> offset <= r.value.1
    decreases count
  {
    if count == 0 then Some(([], offset))
    else if offset + 2 > |data| then None
    else
      var end := offset + 2 + (data[offset] as int * 0x100 + data[offset + 1] as int);
      if end > |data| then None
      else
        match ReadEntries(data, end, count - 1)
        case None => None
        case Some((rest, last)) => Some(([data[offset + 2..end]] + rest, last))
  }

  /** The PPS behind the SPS that end at `middle`. */
  function WithPps(data: Bytes, sps: seq<Bytes>, middle: nat): Option<seq<Bytes>> {
    if middle >= |data| then None
    else
      match ReadEntries(data, middle + 1, data[middle] as int)
      case None => None
      case Some((pps, _)) => Some(sps + pps)
  }

  function ParameterSets(data: Bytes): Option<seq<Bytes>> {
    if |data| < 7 || data[0] != 1 then None
    else
      match ReadEntries(data, 6, data[5] as int % 32)
      case None => None
      case Some((sps, middle)) => WithPps(data, sps, middle)
  }

  function FourByteParts(nals: seq<Bytes>): seq<Part> {
    if nals == [] then [] else [Part(4, nals[0])] + FourByteParts(nals[1..])
  }

  /** Each NAL unit behind a four-byte start code. */
  function ToAnnexB(nals: seq<Bytes>): Bytes {
    Join(FourByteParts(nals))
  }

  method ReadParameterSets(data: Bytes, start: nat, count: nat) returns (r: Option<(seq<Bytes>, nat)>)
    requires start <= |data|
    ensures r == ReadEntries(data, start, count)
  {
    var offset: nat := start;
    var parts: seq<Bytes> := [];
    var i: nat := 0;
    PrefixNone(ReadEntries(data, start, count));
    while i < count
      invariant 0 <= i <= count && offset <= |data|
      invariant ReadEntries(data, start, count) == Prefixed(parts, ReadEntries(data, offset, count - i))
    {
      if offset + 2 > |data| {
        return None;
      }
      var length := data[offset] as int * 0x100 + data[offset + 1] as int;
      offset := offset + 2;
      if offset + length > |data| {
        return None;
      }
      PrefixMore(parts, data[offset..offset + length], ReadEntries(data, offset + length, count - i - 1));
      parts := parts + [data[offset..offset + length]];
      offset := offset + length;
      i := i + 1;
    }
    assert parts + [] == parts;
    return Some((parts, offset));
  }

  function Prefixed(parts: seq<Bytes>, r: Option<(seq<Bytes>, nat)>): Option<(seq<Bytes>, nat)> {
    match r
    case None => None
    case Some((rest, end)) => Some((parts + rest, end))
  }

  lemma PrefixNone(r: Option<(seq<Bytes>, nat)>)
    ensures Prefixed([], r) == r
  {
    if r.Some? {
      assert [] + r.value.0 == r.value.0;
    }
  }

  lemma PrefixMore(parts: seq<Bytes>, part: Bytes, r: Option<(seq<Bytes>, nat)>)
    ensures Prefixed(parts, Prefixed([part], r)) == Prefixed(parts + [part], r)
  {
    if r.Some? {
      assert parts + ([part] + r.value.0) == parts + [part] + r.value.0;
    }
  }

  lemma AnnexBSnoc(nals: seq<Bytes>, nal: Bytes)
    ensures ToAnnexB(nals + [nal]) == ToAnnexB(nals) + (StartCode(4) + nal)
  {
    if nals == [] {
      assert nals + [nal] == [nal];
      assert FourByteParts([nal]) == [Part(4, nal)] + [];
      assert Join([Part(4, nal)]) == StartCode(4) + (nal + []);
    } else {
      assert (nals + [nal])[1..] == nals[1..] + [nal];
      AnnexBSnoc(nals[1..], nal);
      AnnexBCons(nals[0], nals[1..]);
      AnnexBCons(nals[0], nals[1..] + [nal]);
      assert nals == [nals[0]] + nals[1..] && nals + [nal] == [nals[0]] + (nals[1..] + [nal]);
    }
  }

  lemma AnnexBCons(nal: Bytes, rest: seq<Bytes>)
    ensures ToAnnexB([nal] + rest) == StartCode(4) + nal + ToAnnexB(rest)
  {
    assert ([nal] + rest)[1..] == rest;
    assert ([Part(4, nal)] + FourByteParts(rest))[1..] == FourByteParts(rest);
  }

  lemma PrefixFits(parts: seq<Bytes>, n: nat)
    requires n <= |parts|
    ensures |ToAnnexB(parts[..n])| <= |ToAnnexB(parts)|
    decreases |parts| - n
  {
    if n < |parts| {
      assert parts[..n + 1] == parts[..n] + [parts[n]];
      AnnexBSnoc(parts[..n], parts[n]);
      PrefixFits(parts, n + 1);
    } else {
      assert parts[..n] == parts;
    }
  }

  lemma NextFits(parts: seq<Bytes>, i: nat)
    requires i < |parts|
    ensures ToAnnexB(parts[..i + 1]) == ToAnnexB(parts[..i]) + StartCode(4) + parts[i]
    ensures |ToAnnexB(parts[..i])| + 4 + |parts[i]| <= |ToAnnexB(parts)|
  {
    assert parts[..i + 1] == parts[..i] + [parts[i]];
    AnnexBSnoc(parts[..i], parts[i]);
    Regroup(ToAnnexB(parts[..i]), StartCode(4), parts[i]);
    PrefixFits(parts, i + 1);
  }

  lemma AllTaken(parts: seq<Bytes>)
    ensures ToAnnexB(parts[..0]) == [] && ToAnnexB(parts[..|parts|]) == ToAnnexB(parts)
  {
    assert parts[..|parts|] == parts;
  }

  /** Fills a buffer of the exact size. */
  method Assemble(parts: seq<Bytes>) returns (out: array<Byte>)
    ensures fresh(out) && out[..] == ToAnnexB(parts)
  {
    out := new Byte[|ToAnnexB(parts)|](_ => 0);
    var write, i := 0, 0;
    AllTaken(parts);
    while i < |parts|
      invariant 0 <= i <= |parts|
      invariant write == |ToAnnexB(parts[..i])| <= out.Length == |ToAnnexB(parts)|
      invariant out[..write] == ToAnnexB(parts[..i])
    {
      NextFits(parts, i);
      Put(out, write, StartCode(4));
      write := write + 4;
      Put(out, write, parts[i]);
      write := write + |parts[i]|;
      i := i + 1;
    }
    assert out[..write] == out[..];
  }

  method Put(out: array<Byte>, at: nat, bytes: Bytes)
    requires at + |bytes| <= out.Length
    modifies out
    ensures out[..at + |bytes|] == old(out[..at]) + bytes
  {
    forall k | 0 <= k < |bytes| {
      out[at + k] := bytes[k];
    }
  }

  method AvcDescriptionToAnnexB(description: Option<Bytes>) returns (r: Option<Bytes>)
    ensures r == match description
      case None => None
      case Some(data) => if ParameterSets(data).None? || ParameterSets(data).value == [] then None
                         else Some(ToAnnexB(ParameterSets(data).value))
  {
    if description.None? {
      return None;
    }
    var data := description.value;
    if |data| < 7 || data[0] != 1 {
      return None;
    }
    var spsCount := data[5] as int % 32;
    var sps := ReadParameterSets(data, 6, spsCount);
    if sps.None? {
      return None;
    }
    var offset := sps.value.1;
    if offset >= |data| {
      return None;
    }
    var ppsCount := data[offset] as int;
    var pps := ReadParameterSets(data, offset + 1, ppsCount);
    if pps.None? {
      return None;
    }
    var parts := sps.value.0 + pps.value.0;
    if |parts| == 0 {
      return None;
    }
    var out := Assemble(parts);
    return Some(out[..]);
  }

  // ----- reading back what was written -----

  lemma EntryAt(data: Bytes, offset: nat, nal: Bytes, rest: Bytes) returns (end: nat)
    requires |nal| < 0x1_0000 && offset <= |data| && data[offset..] == Entry(nal) + rest
    ensures offset + 2 <= |data| && end == offset + 2 + |nal| <= |data|
    ensures data[offset] as int * 0x100 + data[offset + 1] as int == |nal|
    ensures data[offset + 2..end] == nal && data[end..] == rest
  {
    end := offset + 2 + |nal|;
    assert data[offset..][0] == data[offset] && data[offset..][1] == data[offset + 1];
    DropHead(Entry(nal), rest);
    DropMore(data, offset, 2 + |nal|);
    assert data[offset..][2..2 + |nal|] == nal;
  }

  lemma ReadMore(data: Bytes, offset: nat, end: nat, count: nat, rest: seq<Bytes>, last: nat)
    requires offset + 2 <= |data| && end == offset + 2 + (data[offset] as int * 0x100 + data[offset + 1] as int) <= |data|
    requires ReadEntries(data, end, count) == Some((rest, last))
    ensures ReadEntries(data, offset, count + 1) == Some(([data[offset + 2..end]] + rest, last))
  {
  }

  lemma EntriesHead(nals: seq<Bytes>)
    requires nals != [] && Short(nals)
    ensures Entries(nals) == Entry(nals[0]) + Entries(nals[1..]) && |Entries(nals)| == 2 + |nals[0]| + |Entries(nals[1..])|
    ensures nals == [nals[0]] + nals[1..]
  {
  }

  lemma {:induction false} ReadBack(data: Bytes, offset: nat, nals: seq<Bytes>, rest: Bytes) returns (last: nat)
    requires Short(nals) && offset <= |data| && data[offset..] == Entries(nals) + rest
    ensures last == offset + |Entries(nals)| && ReadEntries(data, offset, |nals|) == Some((nals, last))
    ensures last <= |data| && data[last..] == rest
    decreases |nals|
  {
    if nals == [] {
      assert [] + rest == rest;
      last := offset;
    } else {
      EntriesHead(nals);
      Regroup(Entry(nals[0]), Entries(nals[1..]), rest);
      var end := EntryAt(data, offset, nals[0], Entries(nals[1..]) + rest);
      last := ReadBack(data, end, nals[1..], rest);
      ReadMore(data, offset, end, |nals[1..]|, nals[1..], last);
    }
  }

  lemma HeadRead(r: Record, rest: Bytes)
    requires WellFormed(r)
    ensures var data := Head(r) + rest;
      data[0] == 1 && data[5] as int % 32 == |r.sps| && data[6..] == rest
  {
    var data := Head(r) + rest;
    assert data[0] == Head(r)[0] && data[5] == Head(r)[5] == r.reserved * 32 + |r.sps|;
    DropHead(Head(r), rest);
  }

  lemma ByteThen(data: Bytes, at: nat, b: Byte, rest: Bytes)
    requires at <= |data| && data[at..] == [b] + rest
    ensures at < |data| && data[at] == b && data[at + 1..] == rest
  {
    assert data[at] == data[at..][0];
    DropHead([b], rest);
    DropMore(data, at, 1);
  }

  lemma PpsRead(data: Bytes, sps: seq<Bytes>, middle: nat, pps: seq<Bytes>, extension: Bytes, last: Bytes)
    requires Short(pps) && |pps| < 0x100 && middle <= |data|
    requires data[middle..] == [|pps|] + last && last == Entries(pps) + extension
    ensures WithPps(data, sps, middle) == Some(sps + pps)
  {
    ByteThen(data, middle, |pps|, last);
    var _ := ReadBack(data, middle + 1, pps, extension);
  }

  lemma SpsRead(data: Bytes, sps: seq<Bytes>, tail: Bytes)
    requires Short(sps) && tail != []
    requires |data| >= 6 && data[0] == 1 && data[5] as int % 32 == |sps| && data[6..] == Entries(sps) + tail
    ensures var middle := 6 + |Entries(sps)|;
      middle <= |data| && data[middle..] == tail && ParameterSets(data) == WithPps(data, sps, middle)
  {
    var _ := ReadBack(data, 6, sps, tail);
  }

  /** Every well-formed record gives back its SPS and PPS, in order. */
  lemma RecordRead(r: Record)
    requires WellFormed(r)
    ensures ParameterSets(RecordBytes(r)) == Some(r.sps + r.pps)
  {
    var last := Entries(r.pps) + r.extension;
    var tail := [|r.pps|] + last;
    HeadRead(r, Entries(r.sps) + tail);
    SpsRead(RecordBytes(r), r.sps, tail);
    PpsRead(RecordBytes(r), r.sps, 6 + |Entries(r.sps)|, r.pps, r.extension, last);
  }

  lemma EntryOf(data: Bytes, offset: nat, end: nat)
    requires offset + 2 <= |data| && end == offset + 2 + (data[offset] as int * 0x100 + data[offset + 1] as int) <= |data|
    ensures end - offset - 2 < 0x1_0000 && Entry(data[offset + 2..end]) == data[offset..end]
  {
  }

  lemma EntriesCons(nal: Bytes, rest: seq<Bytes>)
    requires |nal| < 0x1_0000 && Short(rest)
    ensures Short([nal] + rest) && Entries([nal] + rest) == Entry(nal) + Entries(rest)
  {
    assert ([nal] + rest)[1..] == rest;
  }

  lemma Adjoin(data: Bytes, from: nat, middle: nat, end: nat)
    requires from <= middle <= end <= |data|
    ensures data[from..end] == data[from..middle] + data[middle..end]
  {
  }

  lemma {:induction false} ReadIsEntries(data: Bytes, offset: nat, count: nat) returns (nals: seq<Bytes>, end: nat)
    requires offset <= |data| && ReadEntries(data, offset, count).Some?
    ensures ReadEntries(data, offset, count) == Some((nals, end))
    ensures offset <= end <= |data| && |nals| == count && Short(nals) && data[offset..end] == Entries(nals)
    decreases count
  {
    if count == 0 {
      nals, end := [], offset;
    } else {
      var next := offset + 2 + (data[offset] as int * 0x100 + data[offset + 1] as int);
      var rest, last := ReadIsEntries(data, next, count - 1);
      ReadMore(data, offset, next, count - 1, rest, last);
      EntryOf(data, offset, next);
      EntriesCons(data[offset + 2..next], rest);
      Adjoin(data, offset, next, last);
      nals, end := [data[offset + 2..next]] + rest, last;
    }
  }

  lemma HeadOf(data: Bytes, r: Record)
    requires |data| >= 7 && data[0] == 1 && WellFormed(r)
    requires r.profile == data[1..5] && r.reserved == data[5] as int / 32 && |r.sps| == data[5] as int % 32
    ensures data == Head(r) + data[6..]
  {
    assert Head(r)[5] == data[5];
    assert data[..6] == Head(r);
  }

  lemma CutTwice(data: Bytes, from: nat, middle: nat, end: nat)
    requires from <= middle < end <= |data|
    ensures data[from..] == data[from..middle] + ([data[middle]] + (data[middle + 1..end] + data[end..]))
  {
    CutAt(data, from, middle);
    CutAt(data, middle, middle + 1);
    CutAt(data, middle + 1, end);
  }

  lemma RecordCut(data: Bytes, r: Record, middle: nat, end: nat)
    requires WellFormed(r) && 6 <= middle < end <= |data| && data == Head(r) + data[6..]
    requires Entries(r.sps) == data[6..middle] && |r.pps| == data[middle] as int
    requires Entries(r.pps) == data[middle + 1..end] && r.extension == data[end..]
    ensures RecordBytes(r) == data
  {
    CutTwice(data, 6, middle, end);
  }

  lemma SetsFound(data: Bytes, sps: seq<Bytes>, middle: nat, pps: seq<Bytes>, end: nat)
    requires |data| >= 7 && data[0] == 1 && ReadEntries(data, 6, data[5] as int % 32) == Some((sps, middle))
    requires middle < |data| && ReadEntries(data, middle + 1, data[middle] as int) == Some((pps, end))
    ensures ParameterSets(data) == Some(sps + pps)
  {
  }

  /** Whatever is accepted is the bytes of a well-formed record. */
  lemma AcceptedIsRecord(data: Bytes) returns (r: Record)
    requires ParameterSets(data).Some?
    ensures WellFormed(r) && RecordBytes(r) == data && ParameterSets(data) == Some(r.sps + r.pps)
  {
    var sps, middle := ReadIsEntries(data, 6, data[5] as int % 32);
    var pps, end := ReadIsEntries(data, middle + 1, data[middle] as int);
    SetsFound(data, sps, middle, pps, end);
    r := Record(data[1..5], data[5] as int / 32, sps, pps, data[end..]);
    HeadOf(data, r);
    RecordCut(data, r, middle, end);
  }

  /** Parameter sets are found exactly in the bytes of well-formed records. */
  lemma ConvertsIffRecord(data: Bytes)
    ensures ParameterSets(data).Some? <==> exists r: Record :: WellFormed(r) && RecordBytes(r) == data
  {
    if ParameterSets(data).Some? {
      var r := AcceptedIsRecord(data);
    }
    if exists r: Record :: WellFormed(r) && RecordBytes(r) == data {
      var r :| WellFormed(r) && RecordBytes(r) == data;
      RecordRead(r);
    }
  }

  // ----- through the server's scanner -----

  predicate AllClean(nals: seq<Bytes>) {
    nals == [] || (Clean(nals[0]) && AllClean(nals[1..]))
  }

  function NonEmpty(nals: seq<Bytes>): seq<Bytes> {
    if nals == [] then [] else AtMostOne(nals[0]) + NonEmpty(nals[1..])
  }

  lemma {:induction false} CleanIsSeparable(nals: seq<Bytes>)
    ensures Nals(FourByteParts(nals)) == NonEmpty(nals)
    ensures AllClean(nals) ==> Separable(FourByteParts(nals))
    decreases |nals|
  {
    if nals != [] {
      CleanIsSeparable(nals[1..]);
      NalsCons(Part(4, nals[0]), FourByteParts(nals[1..]));
      if AllClean(nals) {
        SeparableCons(Part(4, nals[0]), FourByteParts(nals[1..]));
      }
    }
  }

  lemma {:induction false} SeparableIsClean(ps: seq<Part>)
    requires Separable(ps)
    ensures AllClean(Nals(ps))
    decreases |ps|
  {
    if ps != [] {
      SeparableIsClean(ps[1..]);
      assert ([ps[0].nal] + Nals(ps[1..]))[1..] == Nals(ps[1..]);
      assert [] + Nals(ps[1..]) == Nals(ps[1..]);
    }
  }

  /** The scanner never yields a NAL unit that contains 00 00 01. */
  lemma ScannedAreClean(d: Bytes)
    ensures AllClean(NalsOf(d))
  {
    if NextStart(d, 0).Some? {
      var i := NextStart(d, 0).value;
      var code := CodeLen(d, i);
      PartsAreSeparable(d, code, i + code);
      SeparableIsClean(PartsFrom(d, code, i + code));
      NalsFromIs(d, code, i + code);
    }
  }

  lemma CleanCons(nal: Bytes, rest: seq<Bytes>)
    ensures AllClean([nal] + rest) == (Clean(nal) && AllClean(rest))
  {
    assert ([nal] + rest)[1..] == rest;
  }

  lemma {:induction false} NonEmptyClean(nals: seq<Bytes>)
    ensures AllClean(NonEmpty(nals)) <==> AllClean(nals)
    decreases |nals|
  {
    if nals != [] {
      var rest := NonEmpty(nals[1..]);
      NonEmptyClean(nals[1..]);
      if nals[0] == [] {
        assert [] + rest == rest;
      } else {
        CleanCons(nals[0], rest);
      }
    }
  }

  /** The server splits the converted parameter sets into exactly the non-empty ones, in order,
      trailing zero bytes included, if and only if none contains 00 00 01. */
  lemma ScansBackIffClean(nals: seq<Bytes>)
    requires nals != []
    ensures NalsOf(ToAnnexB(nals)) == NonEmpty(nals) <==> AllClean(nals)
  {
    CleanIsSeparable(nals);
    if AllClean(nals) {
      ScanJoined(FourByteParts(nals));
    }
    if NalsOf(ToAnnexB(nals)) == NonEmpty(nals) {
      ScannedAreClean(ToAnnexB(nals));
      NonEmptyClean(nals);
    }
  }

  /** From the record to the server, in one statement. */
  lemma ParameterSetsArrive(r: Record)
    requires WellFormed(r) && r.sps + r.pps != [] && AllClean(r.sps + r.pps)
    ensures ParameterSets(RecordBytes(r)).Some?
    ensures NalsOf(ToAnnexB(ParameterSets(RecordBytes(r)).value)) == NonEmpty(r.sps + r.pps)
  {
    RecordRead(r);
    ScansBackIffClean(r.sps + r.pps);
  }
}
