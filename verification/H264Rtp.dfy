/** H.264 access units as RTP payloads, and back (sections 5.6 and 5.8 of RFC 6184). */
module H264Rtp {
  import opened Options
  import opened AnnexB
  import opened Rtp

  // ----- sending -----

  datatype Unit = Unit(payload: Bytes, marker: bool)

  function FuIndicator(header: Byte): Byte {
    header / 32 * 32 + 28
  }

  function FuHeader(header: Byte, start: bool, last: bool): Byte {
    header % 32 + (if start then 0x80 else 0) + (if last then 0x40 else 0)
  }

  function FragmentEnd(nal: Bytes, offset: nat): nat {
    if offset + (RTP_MAX_PAYLOAD_BYTES - 2) < |nal| then offset + (RTP_MAX_PAYLOAD_BYTES - 2) else |nal|
  }

  function Fragment(nal: Bytes, offset: nat, marker: bool): Unit
    requires 1 <= offset < |nal|
  {
    var end := FragmentEnd(nal, offset);
    Unit([FuIndicator(nal[0]), FuHeader(nal[0], offset == 1, end == |nal|)] + nal[offset..end], marker && end == |nal|)
  }

  function Fragments(nal: Bytes, offset: nat, marker: bool): seq<Unit>
    requires 1 <= offset <= |nal|
    decreases |nal| - offset
  {
    if offset == |nal| then []
    else [Fragment(nal, offset, marker)] + Fragments(nal, FragmentEnd(nal, offset), marker)
  }

  function NalUnits(nal: Bytes, marker: bool): seq<Unit> {
    if |nal| <= RTP_MAX_PAYLOAD_BYTES then [Unit(nal, marker)] else Fragments(nal, 1, marker)
  }

  /** The marker goes on the last packet of the last NAL unit. */
  function AccessUnits(nals: seq<Bytes>): seq<Unit> {
    if nals == [] then [] else NalUnits(nals[0], |nals| == 1) + AccessUnits(nals[1..])
  }

  // ----- receiving -----

  /** NAL units completed so far and the one being reassembled. */
  datatype Receiver = Receiving(nals: seq<Bytes>, partial: Option<Bytes>) | Broken

  function Receive(rx: Receiver, payload: Bytes): Receiver {
    if rx.Broken? || payload == [] then Broken
    else if 1 <= payload[0] % 32 <= 23 then
      if rx.partial.Some? then Broken else Receiving(rx.nals + [payload], None)
    else if payload[0] % 32 == 28 && |payload| >= 2 then
      var first, last := payload[1] >= 0x80, payload[1] / 0x40 % 2 == 1;
      if first == rx.partial.Some? || (first && last) then Broken
      else
        var nal := (if first then [payload[0] / 32 * 32 + payload[1] % 32] else rx.partial.value) + payload[2..];
        if last then Receiving(rx.nals + [nal], None) else Receiving(rx.nals, Some(nal))
    else Broken
  }

  function ReceiveAll(rx: Receiver, units: seq<Unit>): Receiver
    decreases |units|
  {
    if units == [] then rx else ReceiveAll(Receive(rx, units[0].payload), units[1..])
  }

  lemma {:induction false} ReceiveAppend(rx: Receiver, a: seq<Unit>, b: seq<Unit>)
    ensures ReceiveAll(rx, a + b) == ReceiveAll(ReceiveAll(rx, a), b)
    decreases |a|
  {
    if a == [] {
      assert a + b == b;
    } else {
      assert (a + b)[1..] == a[1..] + b;
      ReceiveAppend(Receive(rx, a[0].payload), a[1..], b);
    }
  }

  lemma ReceiveCons(rx: Receiver, u: Unit, rest: seq<Unit>)
    ensures ReceiveAll(rx, [u] + rest) == ReceiveAll(Receive(rx, u.payload), rest)
  {
    assert ([u] + rest)[1..] == rest;
  }

  lemma FuBytes(header: Byte, start: bool, last: bool)
    ensures FuIndicator(header) % 32 == 28 && FuIndicator(header) / 32 * 32 + FuHeader(header, start, last) % 32 == header
    ensures (FuHeader(header, start, last) >= 0x80) == start && (FuHeader(header, start, last) / 0x40 % 2 == 1) == last
  {
    assert header == header / 32 * 32 + header % 32;
  }

  /** One fragment extends what has been reassembled up to `offset`. */
  lemma FragmentReceived(nals: seq<Bytes>, nal: Bytes, offset: nat, marker: bool)
    requires 1 <= offset < |nal| && |nal| > RTP_MAX_PAYLOAD_BYTES
    ensures var end := FragmentEnd(nal, offset);
      Receive(Receiving(nals, if offset == 1 then None else Some(nal[..offset])), Fragment(nal, offset, marker).payload)
      == if end == |nal| then Receiving(nals + [nal], None) else Receiving(nals, Some(nal[..end]))
  {
    var end := FragmentEnd(nal, offset);
    var payload := Fragment(nal, offset, marker).payload;
    FuBytes(nal[0], offset == 1, end == |nal|);
    assert payload[2..] == nal[offset..end];
    assert (if offset == 1 then [nal[0]] else nal[..offset]) + nal[offset..end] == nal[..end];
    assert end == |nal| ==> nal[..end] == nal;
  }

  lemma {:induction false} FragmentsReceived(nals: seq<Bytes>, nal: Bytes, offset: nat, marker: bool)
    requires 1 <= offset < |nal| && |nal| > RTP_MAX_PAYLOAD_BYTES
    ensures ReceiveAll(Receiving(nals, if offset == 1 then None else Some(nal[..offset])), Fragments(nal, offset, marker))
      == Receiving(nals + [nal], None)
    decreases |nal| - offset
  {
    var end := FragmentEnd(nal, offset);
    FragmentReceived(nals, nal, offset, marker);
    ReceiveCons(Receiving(nals, if offset == 1 then None else Some(nal[..offset])),
      Fragment(nal, offset, marker), Fragments(nal, end, marker));
    if end < |nal| {
      FragmentsReceived(nals, nal, end, marker);
    }
  }

  predicate Sendable(nal: Bytes) {
    nal != [] && 1 <= nal[0] % 32 <= 23
  }

  lemma NalReceived(nals: seq<Bytes>, nal: Bytes, marker: bool)
    requires Sendable(nal)
    ensures ReceiveAll(Receiving(nals, None), NalUnits(nal, marker)) == Receiving(nals + [nal], None)
  {
    if |nal| <= RTP_MAX_PAYLOAD_BYTES {
      ReceiveCons(Receiving(nals, None), Unit(nal, marker), []);
      assert [Unit(nal, marker)] + [] == [Unit(nal, marker)];
    } else {
      FragmentsReceived(nals, nal, 1, marker);
    }
  }

  lemma FirstReceived(before: seq<Bytes>, nals: seq<Bytes>)
    requires nals != [] && Sendable(nals[0])
    ensures ReceiveAll(Receiving(before, None), AccessUnits(nals))
      == ReceiveAll(Receiving(before + [nals[0]], None), AccessUnits(nals[1..]))
  {
    NalReceived(before, nals[0], |nals| == 1);
    ReceiveAppend(Receiving(before, None), NalUnits(nals[0], |nals| == 1), AccessUnits(nals[1..]));
  }

  lemma HeadMoved<T>(a: seq<T>, b: seq<T>)
    requires b != []
    ensures a + [b[0]] + b[1..] == a + b
  {
  }

  /** Depacketising gives back exactly the NAL units that were packetised. */
  lemma {:induction false} AccessUnitReceived(before: seq<Bytes>, nals: seq<Bytes>)
    requires forall i | 0 <= i < |nals| :: Sendable(nals[i])
    ensures ReceiveAll(Receiving(before, None), AccessUnits(nals)) == Receiving(before + nals, None)
    decreases |nals|
  {
    if nals == [] {
      assert before + nals == before;
    } else {
      FirstReceived(before, nals);
      AccessUnitReceived(before + [nals[0]], nals[1..]);
      HeadMoved(before, nals);
    }
  }

  // ----- what every payload looks like -----

  predicate MarkedAtEnd(units: seq<Unit>, marker: bool) {
    && units != []
    && (forall i | 0 <= i < |units| - 1 :: !units[i].marker)
    && units[|units| - 1].marker == marker
  }

  lemma {:induction false} FragmentsMarked(nal: Bytes, offset: nat, marker: bool)
    requires 1 <= offset < |nal|
    ensures MarkedAtEnd(Fragments(nal, offset, marker), marker)
    decreases |nal| - offset
  {
    var end := FragmentEnd(nal, offset);
    if end < |nal| {
      FragmentsMarked(nal, end, marker);
      MarkedCons(Fragment(nal, offset, marker), Fragments(nal, end, marker), marker);
    } else {
      assert Fragments(nal, offset, marker) == [Fragment(nal, offset, marker)];
    }
  }

  lemma MarkedCons(u: Unit, rest: seq<Unit>, marker: bool)
    requires !u.marker && MarkedAtEnd(rest, marker)
    ensures MarkedAtEnd([u] + rest, marker)
  {
  }

  lemma MarkedAppend(a: seq<Unit>, b: seq<Unit>)
    requires MarkedAtEnd(a, false) && MarkedAtEnd(b, true)
    ensures MarkedAtEnd(a + b, true)
  {
    forall i | 0 <= i < |a + b| - 1 ensures !(a + b)[i].marker {
      if i < |a| {
        assert (a + b)[i] == a[i];
      } else {
        assert (a + b)[i] == b[i - |a|];
      }
    }
  }

  lemma NalMarked(nal: Bytes, marker: bool)
    ensures MarkedAtEnd(NalUnits(nal, marker), marker)
  {
    if |nal| > RTP_MAX_PAYLOAD_BYTES {
      FragmentsMarked(nal, 1, marker);
    }
  }

  /** The marker is on the last packet of an access unit and on no other. */
  lemma {:induction false} MarkerOnLastOnly(nals: seq<Bytes>)
    requires nals != []
    ensures MarkedAtEnd(AccessUnits(nals), true)
    decreases |nals|
  {
    NalMarked(nals[0], |nals| == 1);
    if |nals| == 1 {
      assert AccessUnits(nals) == NalUnits(nals[0], true);
    } else {
      MarkerOnLastOnly(nals[1..]);
      MarkedAppend(NalUnits(nals[0], false), AccessUnits(nals[1..]));
    }
  }

  /** A payload fits its packet, and a fragment is never both first and last. */
  predicate Fits(u: Unit) {
    && 1 <= |u.payload| <= 1200
    && (u.payload[0] % 32 == 28 ==> |u.payload| > 2 && !(u.payload[1] >= 0x80 && u.payload[1] / 0x40 % 2 == 1))
  }

  predicate AllFit(units: seq<Unit>) {
    forall i | 0 <= i < |units| :: Fits(units[i])
  }

  lemma {:induction false} FragmentsFit(nal: Bytes, offset: nat, marker: bool)
    requires 1 <= offset <= |nal| && |nal| > RTP_MAX_PAYLOAD_BYTES
    ensures AllFit(Fragments(nal, offset, marker))
    decreases |nal| - offset
  {
    if offset < |nal| {
      FuBytes(nal[0], offset == 1, FragmentEnd(nal, offset) == |nal|);
      assert Fits(Fragment(nal, offset, marker));
      FragmentsFit(nal, FragmentEnd(nal, offset), marker);
    }
  }

  lemma {:induction false} AccessUnitFits(nals: seq<Bytes>)
    requires forall i | 0 <= i < |nals| :: Sendable(nals[i])
    ensures AllFit(AccessUnits(nals))
    decreases |nals|
  {
    if nals != [] {
      if |nals[0]| > RTP_MAX_PAYLOAD_BYTES {
        FragmentsFit(nals[0], 1, |nals| == 1);
      }
      AccessUnitFits(nals[1..]);
    }
  }

  /** Fragment `i` of the rest of a NAL unit behind `offset`, of `n`: 1198 bytes, or the last ones. */
  predicate FullFragment(nal: Bytes, offset: nat, n: nat, i: nat, u: Unit)
    requires i < n && offset + 1198 * (n - 1) <= |nal| <= offset + 1198 * n
  {
    && |u.payload| >= 2
    && u.payload[2..] == if i < n - 1 then nal[offset + 1198 * i..offset + 1198 * (i + 1)] else nal[offset + 1198 * i..]
  }

  predicate AllFull(nal: Bytes, offset: nat, units: seq<Unit>) {
    var n := |units|;
    && 1198 * (n - 1) < |nal| - offset <= 1198 * n
    && forall i | 0 <= i < n :: FullFragment(nal, offset, n, i, units[i])
  }

  lemma FullCons(nal: Bytes, offset: nat, u: Unit, rest: seq<Unit>)
    requires offset + 1198 < |nal| && AllFull(nal, offset + 1198, rest)
    requires |u.payload| >= 2 && u.payload[2..] == nal[offset..offset + 1198]
    ensures AllFull(nal, offset, [u] + rest)
  {
    var units := [u] + rest;
    forall i | 0 <= i < |units| ensures FullFragment(nal, offset, |units|, i, units[i]) {
      if i > 0 {
        assert FullFragment(nal, offset + 1198, |rest|, i - 1, rest[i - 1]);
      }
    }
  }

  lemma {:induction false} FragmentsFull(nal: Bytes, offset: nat, marker: bool)
    requires 1 <= offset < |nal|
    ensures AllFull(nal, offset, Fragments(nal, offset, marker))
    decreases |nal| - offset
  {
    var end := FragmentEnd(nal, offset);
    if end < |nal| {
      FragmentsFull(nal, end, marker);
      var u := Fragment(nal, offset, marker);
      assert u.payload[2..] == nal[offset..end];
      FullCons(nal, offset, u, Fragments(nal, end, marker));
    } else {
      LastFull(nal, offset, marker);
    }
  }

  lemma LastFull(nal: Bytes, offset: nat, marker: bool)
    requires 1 <= offset < |nal| == FragmentEnd(nal, offset)
    ensures AllFull(nal, offset, Fragments(nal, offset, marker))
  {
    var u := Fragment(nal, offset, marker);
    assert Fragments(nal, offset, marker) == [u];
    assert u.payload[2..] == nal[offset..];
    assert FullFragment(nal, offset, 1, 0, u);
  }

  /** No more packets than needed: a NAL unit of up to 1200 bytes is one packet, a longer one is
      split behind its header into pieces of 1198 bytes, and only the last one is shorter. */
  lemma FewestPackets(nal: Bytes, marker: bool)
    requires nal != []
    ensures if |nal| <= 1200 then NalUnits(nal, marker) == [Unit(nal, marker)] else AllFull(nal, 1, NalUnits(nal, marker))
  {
    if |nal| > 1200 {
      FragmentsFull(nal, 1, marker);
    }
  }
}
