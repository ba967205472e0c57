/** H.264 Annex B byte streams: the server's start-code scanner and access-unit check
    (server/src/media.rs), and their inverse, the joining of NAL units by start codes. */
module AnnexB {
  import opened Options

  type Byte = b: int | 0 <= b < 256
  type Bytes = seq<Byte>

  const H264_MAX_NAL_UNITS: nat := 64

  // ----- start codes -----

  predicate StartsAt(d: Bytes, i: nat) {
    && i + 3 <= |d| && d[i] == 0 && d[i + 1] == 0
    && (d[i + 2] == 1 || (i + 4 <= |d| && d[i + 2] == 0 && d[i + 3] == 1))
  }

  function CodeLen(d: Bytes, i: nat): nat
    requires StartsAt(d, i)
  {
    if d[i + 2] == 1 then 3 else 4
  }

  /** The least start code at or after `from`. */
  function NextStart(d: Bytes, from: nat): (r: Option<nat>)
    ensures r.Some? ==> from <= r.value && StartsAt(d, r.value)
    decreases |d| - from
  {
    if from + 3 > |d| then None
    else if StartsAt(d, from) then Some(from)
    else NextStart(d, from + 1)
  }

  lemma NextStartMeans(d: Bytes, from: nat)
    ensures match NextStart(d, from)
            case None => forall j | from <= j :: !StartsAt(d, j)
            case Some(i) => from <= i && StartsAt(d, i) && forall j | from <= j < i :: !StartsAt(d, j)
    decreases |d| - from
  {
    if from + 3 <= |d| && !StartsAt(d, from) {
      NextStartMeans(d, from + 1);
    }
  }

  method FindH264StartCode(data: Bytes, from: nat) returns (r: Option<(nat, nat)>)
    ensures r.None? <==> NextStart(data, from).None?
    ensures r.Some? ==> NextStart(data, from) == Some(r.value.0) && r.value.1 == CodeLen(data, r.value.0)
  {
    var i := from;
    while i + 3 <= |data|
      invariant from <= i
      invariant NextStart(data, from) == NextStart(data, i)
    {
      if data[i] == 0 && data[i + 1] == 0 {
        if data[i + 2] == 1 {
          return Some((i, 3));
        }
        if i + 4 <= |data| && data[i + 2] == 0 && data[i + 3] == 1 {
          return Some((i, 4));
        }
      }
      i := i + 1;
    }
    return None;
  }

  // ----- splitting and joining -----

  /** A start code of `code` bytes and what follows it up to the next one. */
  datatype Part = Part(code: nat, nal: Bytes)

  function PartsFrom(d: Bytes, code: nat, start: nat): (ps: seq<Part>)
    requires start <= |d|
    ensures |ps| > 0
    decreases |d| - start
  {
    match NextStart(d, start)
    case None => [Part(code, d[start..|d|])]
    case Some(i) => [Part(code, d[start..i])] + PartsFrom(d, CodeLen(d, i), i + CodeLen(d, i))
  }

  /** The non-empty NAL units, in order. */
  function Nals(ps: seq<Part>): seq<Bytes>
  {
    if ps == [] then [] else AtMostOne(ps[0].nal) + Nals(ps[1..])
  }

  function AtMostOne(nal: Bytes): seq<Bytes>
  {
    if nal == [] then [] else [nal]
  }

  /** The non-empty NAL units from `start` on. */
  function NalsFrom(d: Bytes, start: nat): seq<Bytes>
    requires start <= |d|
    decreases |d| - start
  {
    match NextStart(d, start)
    case None => AtMostOne(d[start..|d|])
    case Some(i) => AtMostOne(d[start..i]) + NalsFrom(d, i + CodeLen(d, i))
  }

  /** The NAL units of an access unit; none if it holds no start code. */
  function NalsOf(au: Bytes): seq<Bytes>
  {
    match NextStart(au, 0)
    case None => []
    case Some(i) => NalsFrom(au, i + CodeLen(au, i))
  }

  /** Where the bytes after the first start code begin. */
  function FirstNal(au: Bytes): (start: nat)
    requires NextStart(au, 0).Some?
    ensures start <= |au|
  {
    NextStart(au, 0).value + CodeLen(au, NextStart(au, 0).value)
  }

  lemma {:induction false} NalsAreNonEmpty(d: Bytes, start: nat)
    requires start <= |d|
    ensures [] !in NalsFrom(d, start)
    decreases |d| - start
  {
    if NextStart(d, start).Some? {
      var i := NextStart(d, start).value;
      NalsAreNonEmpty(d, i + CodeLen(d, i));
    }
  }

  lemma NalsCons(p: Part, ps: seq<Part>)
    ensures Nals([p] + ps) == AtMostOne(p.nal) + Nals(ps)
  {
    assert ([p] + ps)[1..] == ps;
  }

  function StartCode(code: nat): Bytes {
    if code == 3 then [0, 0, 1] else [0, 0, 0, 1]
  }

  function Join(ps: seq<Part>): Bytes {
    if ps == [] then [] else StartCode(ps[0].code) + (ps[0].nal + Join(ps[1..]))
  }

  /** No byte triple 00 00 01. */
  predicate Clean(nal: Bytes) {
    forall i | 0 <= i <= |nal| - 3 :: !(nal[i] == 0 && nal[i + 1] == 0 && nal[i + 2] == 1)
  }

  /** The part is clean, and a three-byte code after it would not follow a zero byte. */
  predicate Distinct(p: Part, threeNext: bool) {
    && (p.code == 3 || p.code == 4) && Clean(p.nal)
    && (threeNext && p.nal != [] ==> p.nal[|p.nal| - 1] != 0)
  }

  /** Parts that can be told apart once joined. */
  predicate Separable(ps: seq<Part>) {
    ps != [] ==> Distinct(ps[0], |ps| > 1 && ps[1].code == 3) && Separable(ps[1..])
  }

  lemma NoStartInside(d: Bytes, start: nat, nal: Bytes, rest: Bytes, j: nat)
    requires start <= |d| && d[start..] == nal + rest
    requires Clean(nal) && start <= j < start + |nal|
    requires rest == [] || StartCode(4) <= rest || (StartCode(3) <= rest && nal[|nal| - 1] != 0)
    ensures !StartsAt(d, j)
  {
    assert forall k | start <= k < |d| :: d[k] == (nal + rest)[k - start];
    assert Clean(nal);
  }

  lemma CodeAt(d: Bytes, i: nat, code: nat)
    requires i <= |d| && (code == 3 || code == 4) && StartCode(code) <= d[i..]
    ensures StartsAt(d, i) && CodeLen(d, i) == code == |StartCode(code)|
  {
    assert forall k | 0 <= k < |StartCode(code)| :: d[i + k] == d[i..][k] == StartCode(code)[k];
  }

  lemma LeastStart(d: Bytes, from: nat, i: nat)
    requires from <= i && StartsAt(d, i) && forall j | from <= j < i :: !StartsAt(d, j)
    ensures NextStart(d, from) == Some(i)
  {
    NextStartMeans(d, from);
  }

  lemma JoinHead(ps: seq<Part>)
    requires ps != []
    ensures StartCode(ps[0].code) <= Join(ps)
    ensures Join(ps)[|StartCode(ps[0].code)|..] == ps[0].nal + Join(ps[1..])
  {
    DropHead(StartCode(ps[0].code), ps[0].nal + Join(ps[1..]));
  }

  lemma DropHead(a: Bytes, b: Bytes)
    ensures a <= a + b && (a + b)[|a|..] == b
  {
  }

  lemma DropMore(d: Bytes, i: nat, n: nat)
    requires i + n <= |d|
    ensures d[i + n..] == d[i..][n..]
  {
  }

  lemma CutAt(d: Bytes, start: nat, i: nat)
    requires start <= i <= |d|
    ensures d[start..] == d[start..i] + d[i..]
  {
  }

  /** What follows the first NAL unit. */
  lemma AfterFirst(d: Bytes, start: nat, ps: seq<Part>)
    requires start <= |d| && ps != [] && d[start..] == ps[0].nal + Join(ps[1..])
    ensures start + |ps[0].nal| <= |d| && d[start..start + |ps[0].nal|] == ps[0].nal
    ensures d[start + |ps[0].nal|..] == Join(ps[1..])
  {
    DropHead(ps[0].nal, Join(ps[1..]));
    DropMore(d, start, |ps[0].nal|);
  }

  lemma NextFollows(d: Bytes, i: nat, ps: seq<Part>)
    requires i <= |d| && ps != [] && (ps[0].code == 3 || ps[0].code == 4) && d[i..] == Join(ps)
    ensures StartsAt(d, i) && CodeLen(d, i) == ps[0].code && d[i + ps[0].code..] == ps[0].nal + Join(ps[1..])
  {
    JoinHead(ps);
    CodeAt(d, i, ps[0].code);
    DropMore(d, i, ps[0].code);
  }

  lemma NoneInside(d: Bytes, start: nat, end: nat, nal: Bytes, rest: Bytes)
    requires start <= |d| && d[start..] == nal + rest && Clean(nal) && end == start + |nal|
    requires rest == [] || StartCode(4) <= rest || (StartCode(3) <= rest && (nal != [] ==> nal[|nal| - 1] != 0))
    ensures forall j | start <= j < end :: !StartsAt(d, j)
  {
    forall j: nat | start <= j < end ensures !StartsAt(d, j) {
      NoStartInside(d, start, nal, rest, j);
    }
  }

  lemma RestBegins(ps: seq<Part>)
    requires ps != [] && Separable(ps)
    ensures var nal, rest := ps[0].nal, Join(ps[1..]);
      rest == [] || StartCode(4) <= rest || (StartCode(3) <= rest && (nal != [] ==> nal[|nal| - 1] != 0))
  {
    if |ps| > 1 {
      JoinHead(ps[1..]);
      assert ps[1..][0] == ps[1];
    }
  }

  /** No start code inside the first NAL unit, nor across its end. */
  lemma FirstIsClean(d: Bytes, start: nat, end: nat, ps: seq<Part>)
    requires start <= |d| && ps != [] && Separable(ps) && d[start..] == ps[0].nal + Join(ps[1..]) && end == start + |ps[0].nal|
    ensures forall j | start <= j < end :: !StartsAt(d, j)
  {
    RestBegins(ps);
    NoneInside(d, start, end, ps[0].nal, Join(ps[1..]));
  }

  /** The scanner finds `ps` from `start` on, part by part. */
  predicate Finds(d: Bytes, code: nat, start: nat, ps: seq<Part>)
    requires start <= |d|
    decreases |ps|
  {
    match NextStart(d, start)
    case None => |ps| == 1 && ps[0] == Part(code, d[start..|d|])
    case Some(i) =>
      |ps| > 1 && ps[0] == Part(code, d[start..i]) && Finds(d, CodeLen(d, i), i + CodeLen(d, i), ps[1..])
  }

  lemma {:induction false} FindsIsSplit(d: Bytes, code: nat, start: nat, ps: seq<Part>)
    requires start <= |d| && Finds(d, code, start, ps)
    ensures PartsFrom(d, code, start) == ps
    decreases |ps|
  {
    if NextStart(d, start).Some? {
      var i := NextStart(d, start).value;
      FindsIsSplit(d, CodeLen(d, i), i + CodeLen(d, i), ps[1..]);
      assert ps == [ps[0]] + ps[1..];
    }
  }

  lemma FindsCons(d: Bytes, code: nat, start: nat, i: nat, rest: seq<Part>)
    requires start <= |d| && NextStart(d, start) == Some(i) && rest != []
    requires Finds(d, CodeLen(d, i), i + CodeLen(d, i), rest)
    ensures Finds(d, code, start, [Part(code, d[start..i])] + rest)
  {
    assert ([Part(code, d[start..i])] + rest)[1..] == rest;
  }

  lemma {:induction false} SplitIsFound(d: Bytes, code: nat, start: nat)
    requires start <= |d|
    ensures Finds(d, code, start, PartsFrom(d, code, start))
    decreases |d| - start
  {
    if NextStart(d, start).Some? {
      var i := NextStart(d, start).value;
      SplitIsFound(d, CodeLen(d, i), i + CodeLen(d, i));
      FindsCons(d, code, start, i, PartsFrom(d, CodeLen(d, i), i + CodeLen(d, i)));
    }
  }

  lemma NalsMore(d: Bytes, start: nat, i: nat, rest: seq<Bytes>)
    requires start <= |d| && NextStart(d, start) == Some(i) && NalsFrom(d, i + CodeLen(d, i)) == rest
    ensures NalsFrom(d, start) == AtMostOne(d[start..i]) + rest
  {
  }

  lemma NalsHead(ps: seq<Part>, nal: Bytes, rest: seq<Bytes>)
    requires ps != [] && ps[0].nal == nal && Nals(ps[1..]) == rest
    ensures Nals(ps) == AtMostOne(nal) + rest
  {
  }

  lemma NalsLast(d: Bytes, code: nat, start: nat, ps: seq<Part>)
    requires start <= |d| && NextStart(d, start).None? && Finds(d, code, start, ps)
    ensures NalsFrom(d, start) == Nals(ps)
  {
    assert ps[1..] == [];
    NalsHead(ps, d[start..|d|], []);
    assert AtMostOne(d[start..|d|]) + [] == AtMostOne(d[start..|d|]);
  }

  lemma {:induction false} FoundNals(d: Bytes, code: nat, start: nat, ps: seq<Part>) returns (nals: seq<Bytes>)
    requires start <= |d| && Finds(d, code, start, ps)
    ensures NalsFrom(d, start) == nals && Nals(ps) == nals
    decreases |ps|
  {
    if NextStart(d, start).None? {
      NalsLast(d, code, start, ps);
      nals := Nals(ps);
    } else {
      var i := NextStart(d, start).value;
      var rest := FoundNals(d, CodeLen(d, i), i + CodeLen(d, i), ps[1..]);
      NalsMore(d, start, i, rest);
      NalsHead(ps, d[start..i], rest);
      nals := AtMostOne(d[start..i]) + rest;
    }
  }

  lemma NalsFromIs(d: Bytes, code: nat, start: nat)
    requires start <= |d|
    ensures NalsFrom(d, start) == Nals(PartsFrom(d, code, start))
  {
    SplitIsFound(d, code, start);
    var _ := FoundNals(d, code, start, PartsFrom(d, code, start));
  }

  lemma NoneLeft(d: Bytes, start: nat)
    requires start <= |d| && forall j | start <= j < |d| :: !StartsAt(d, j)
    ensures NextStart(d, start).None?
  {
    NextStartMeans(d, start);
  }

  lemma LastPart(d: Bytes, start: nat, ps: seq<Part>)
    requires start <= |d| && |ps| == 1 && Separable(ps) && d[start..] == ps[0].nal + Join(ps[1..])
    ensures NextStart(d, start).None? && d[start..|d|] == ps[0].nal
  {
    FirstIsClean(d, start, start + |ps[0].nal|, ps);
    assert Join(ps[1..]) == [];
    assert d[start..|d|] == d[start..] == ps[0].nal;
    NoneLeft(d, start);
  }

  lemma KnownCode(ps: seq<Part>)
    requires ps != [] && Separable(ps)
    ensures ps[0].code == 3 || ps[0].code == 4
  {
  }

  lemma NextIsLeast(d: Bytes, start: nat, i: nat, ps: seq<Part>)
    requires start <= |d| && |ps| > 1 && Separable(ps) && d[start..] == ps[0].nal + Join(ps[1..]) && i == start + |ps[0].nal|
    requires StartsAt(d, i)
    ensures NextStart(d, start) == Some(i)
  {
    FirstIsClean(d, start, i, ps);
    LeastStart(d, start, i);
  }

  /** The first part ends where the next one begins. */
  lemma NextPart(d: Bytes, start: nat, ps: seq<Part>) returns (i: nat)
    requires start <= |d| && |ps| > 1 && Separable(ps) && d[start..] == ps[0].nal + Join(ps[1..])
    ensures i <= |d| && NextStart(d, start) == Some(i) && d[start..i] == ps[0].nal && CodeLen(d, i) == ps[1..][0].code
    ensures i + CodeLen(d, i) <= |d| && d[i + CodeLen(d, i)..] == ps[1..][0].nal + Join(ps[1..][1..])
  {
    i := start + |ps[0].nal|;
    AfterFirst(d, start, ps);
    KnownCode(ps[1..]);
    NextFollows(d, i, ps[1..]);
    NextIsLeast(d, start, i, ps);
  }

  /** Splitting undoes joining, wherever the joined parts end the bytes. */
  lemma {:induction false} SplitJoin(d: Bytes, code: nat, start: nat, ps: seq<Part>)
    requires start <= |d| && ps != [] && Separable(ps) && d[start..] == ps[0].nal + Join(ps[1..]) && code == ps[0].code
    ensures Finds(d, code, start, ps)
    decreases |ps|
  {
    if |ps| == 1 {
      LastPart(d, start, ps);
    } else {
      var i := NextPart(d, start, ps);
      SplitJoin(d, CodeLen(d, i), i + CodeLen(d, i), ps[1..]);
    }
  }

  lemma CodeBytes(d: Bytes, i: nat)
    requires StartsAt(d, i)
    ensures i + CodeLen(d, i) <= |d| && StartCode(CodeLen(d, i)) + d[i + CodeLen(d, i)..] == d[i..]
  {
    var len := CodeLen(d, i);
    assert d[i..i + len] == StartCode(len);
    CutAt(d, i, i + len);
  }

  lemma {:induction false} FoundJoins(d: Bytes, code: nat, start: nat, ps: seq<Part>)
    requires start <= |d| && Finds(d, code, start, ps)
    ensures Join(ps) == StartCode(code) + d[start..]
    decreases |ps|
  {
    match NextStart(d, start) {
      case None =>
        assert Join(ps[1..]) == [];
        assert ps[0].nal + [] == d[start..];
      case Some(i) =>
        FoundJoins(d, CodeLen(d, i), i + CodeLen(d, i), ps[1..]);
        CodeBytes(d, i);
        CutAt(d, start, i);
    }
  }

  /** Joining undoes splitting: every byte after the first start code is accounted for. */
  lemma JoinSplit(d: Bytes, code: nat, start: nat)
    requires start <= |d|
    ensures Join(PartsFrom(d, code, start)) == StartCode(code) + d[start..]
  {
    SplitIsFound(d, code, start);
    FoundJoins(d, code, start, PartsFrom(d, code, start));
  }

  lemma SegmentIsClean(d: Bytes, start: nat, end: nat)
    requires start <= end <= |d| && forall j | start <= j < end :: !StartsAt(d, j)
    ensures Clean(d[start..end])
  {
    var nal := d[start..end];
    forall i | 0 <= i <= |nal| - 3 ensures !(nal[i] == 0 && nal[i + 1] == 0 && nal[i + 2] == 1) {
      assert !StartsAt(d, start + i);
    }
  }

  lemma SeparableCons(p: Part, ps: seq<Part>)
    requires Separable(ps) && Distinct(p, ps != [] && ps[0].code == 3)
    ensures Separable([p] + ps)
  {
    assert ([p] + ps)[1..] == ps;
  }

  lemma {:induction false} FoundAreSeparable(d: Bytes, code: nat, start: nat, ps: seq<Part>)
    requires start <= |d| && (code == 3 || code == 4) && Finds(d, code, start, ps)
    ensures Separable(ps)
    decreases |ps|
  {
    SegmentIsDistinct(d, code, start);
    if NextStart(d, start).Some? {
      var i := NextStart(d, start).value;
      FoundAreSeparable(d, CodeLen(d, i), i + CodeLen(d, i), ps[1..]);
      assert ps[1] == ps[1..][0];
    } else {
      assert d[start..|d|] == d[start..];
    }
  }

  /** Whatever the scanner splits off is clean, and its parts can be told apart again. */
  lemma PartsAreSeparable(d: Bytes, code: nat, start: nat)
    requires start <= |d| && (code == 3 || code == 4)
    ensures Separable(PartsFrom(d, code, start))
  {
    SplitIsFound(d, code, start);
    FoundAreSeparable(d, code, start, PartsFrom(d, code, start));
  }

  lemma SegmentIsDistinct(d: Bytes, code: nat, start: nat)
    requires start <= |d| && (code == 3 || code == 4)
    ensures match NextStart(d, start)
            case None => Distinct(Part(code, d[start..]), false)
            case Some(i) => Distinct(Part(code, d[start..i]), CodeLen(d, i) == 3)
  {
    NextStartMeans(d, start);
    match NextStart(d, start) {
      case None =>
        SegmentIsClean(d, start, |d|);
        assert d[start..|d|] == d[start..];
      case Some(i) =>
        SegmentIsClean(d, start, i);
        assert i > start ==> !StartsAt(d, i - 1);
    }
  }

  lemma SplitWhole(ps: seq<Part>)
    requires ps != [] && Separable(ps)
    ensures var d := Join(ps); StartsAt(d, 0) && CodeLen(d, 0) == ps[0].code && PartsFrom(d, ps[0].code, ps[0].code) == ps
  {
    var d := Join(ps);
    JoinHead(ps);
    assert d[0..] == d;
    CodeAt(d, 0, ps[0].code);
    SplitJoin(d, ps[0].code, ps[0].code, ps);
    FindsIsSplit(d, ps[0].code, ps[0].code, ps);
  }

  /** The scanner finds exactly the non-empty NAL units of any separable joining. */
  lemma ScanJoined(ps: seq<Part>)
    requires ps != [] && Separable(ps)
    ensures NalsOf(Join(ps)) == Nals(ps)
  {
    var d := Join(ps);
    SplitWhole(ps);
    assert NextStart(d, 0) == Some(0);
    assert NalsOf(d) == NalsFrom(d, ps[0].code);
    NalsFromIs(d, ps[0].code, ps[0].code);
  }

  lemma JoinedBack(d: Bytes)
    requires StartsAt(d, 0)
    ensures Join(PartsFrom(d, CodeLen(d, 0), CodeLen(d, 0))) == d
  {
    var code := CodeLen(d, 0);
    JoinSplit(d, code, code);
    assert StartCode(code) == d[0..code];
    CutAt(d, 0, code);
    assert d[0..] == d;
  }

  /** Bytes that begin with a start code are a separable joining in exactly one way: the
      scanner's. */
  lemma ScanIsUnique(d: Bytes, ps: seq<Part>)
    requires StartsAt(d, 0) && ps != [] && Separable(ps)
    ensures Join(ps) == d <==> ps == PartsFrom(d, CodeLen(d, 0), CodeLen(d, 0))
  {
    JoinedBack(d);
    if Join(ps) == d {
      SplitWhole(ps);
    }
  }
}
