/** The end of the request is handed from decoder filter to decoder filter, unless decoding is
    aborted, and completes the chain when it comes to the last one. */
module DecoderDelivery {
  import opened FilterTypes
  import opened DecoderChain
  import opened DecoderProtocol

  /** No decoder filter withdraws the end of the stream. */
  ghost predicate Willing(o: Oracle) {
    forall l, i, e :: o.headers(l, Decoding, i, e).status != HeadersContinueAndDontEndStream
  }

  /** A filter has seen the end only after the whole request arrived. */
  ghost predicate Flagged(m: Manager) {
    forall j :: 0 <= j < |m.decode.filters| ==> m.decode.filters[j].endStream ==> m.decode.observedEnd
  }

  /** The end has reached position i; behind the last filter there is nothing to reach. */
  predicate Got(m: Manager, i: nat) {
    i < |m.decode.filters| ==> m.decode.filters[i].endStream || m.decode.filters[i].StoppedAll()
  }

  ghost predicate HandedFrom(m: Manager, lo: nat) {
    forall j :: lo <= j < |m.decode.filters| ==>
      m.decode.filters[j].endStream ==> m.decode.filters[j].Stopped() || Got(m, j + 1)
  }

  lemma HandedKept(m: Manager, r: Manager, lo: nat)
    requires HandedFrom(m, lo) && |r.decode.filters| == |m.decode.filters|
    requires forall j :: lo <= j < |m.decode.filters| ==> r.decode.filters[j] == m.decode.filters[j]
    ensures HandedFrom(r, lo)
  {}

  lemma HandedBefore(r: Manager, i: nat)
    requires i < |r.decode.filters| && HandedFrom(r, i + 1)
    requires r.decode.filters[i].endStream ==> r.decode.filters[i].Stopped() || Got(r, i + 1)
    ensures HandedFrom(r, i)
  {}

  lemma {:induction false} HandedToAll(m: Manager, lo: nat)
    requires HandedFrom(m, lo) && Got(m, lo)
    requires forall j :: lo <= j < |m.decode.filters| ==> !m.decode.filters[j].Stopped()
    ensures forall j :: lo <= j < |m.decode.filters| ==> m.decode.filters[j].endStream
    decreases |m.decode.filters| - lo
  {
    if lo < |m.decode.filters| {
      assert !m.decode.filters[lo].Stopped();
      HandedToAll(m, lo + 1);
    }
  }

  /** What a part of the iteration that works from position lo on leaves behind. */
  ghost predicate Orderly(m: Manager, lo: nat) {
    Flagged(m) && Clear(m.decode, lo) &&
    (!m.decode.aborted ==> Settled(m.decode, |m.decode.filters|) && HandedFrom(m, lo))
  }

  ghost predicate Carrying(m: Manager, i: nat, end: bool, cont: Option<nat>) {
    ValidFrom(m.decode, i, cont) && Flagged(m) && Clear(m.decode, FirstTouched(i, cont)) &&
    Withheld(m.decode, i, cont) &&
    (end ==> m.decode.observedEnd && (cont.None? ==> m.decode.buffer.None?)) &&
    (cont.Some? ==> m.decode.observedEnd && m.decode.buffer.Some?) &&
    Settled(m.decode, |m.decode.filters|) && (Awaiting(m.decode) ==> end && cont.None?)
  }

  lemma FreshFrom(m: Manager, i: nat)
    requires Arriving(m, i)
    ensures forall j :: i <= j < |m.decode.filters| ==> m.decode.filters[j] == FRESH_FILTER
  {}

  lemma {:induction false} HeadersEntryHands(o: Oracle, m: Manager, i: nat, end: bool, cont: Option<nat>)
    requires Willing(o) && Arriving(m, i) && !m.decode.aborted && Carrying(m, i, end, cont) && i < |m.decode.filters|
    ensures var next := HeadersEntry(o, m, i, end, cont);
            next.m.decode.filters[i].endStream == (end && cont.None?) &&
            next.m.decode.observedEnd == m.decode.observedEnd &&
            Flagged(next.m) && Clear(next.m.decode, FirstTouched(i, cont)) && (cont.Some? ==> m.decode.observedEnd) &&
            (next.HeadersHalt? ==>
               HandedFrom(next.m, if cont.Some? then cont.value + 1 else i) &&
               Settled(next.m.decode, |m.decode.filters|) && (cont.Some? ==> next.m.decode.buffer.Some?)) &&
            (next.HeadersOnward? ==>
               (!next.m.decode.aborted ==> next.end == end && Carrying(next.m, i + 1, next.end, next.cont)))
  {
    FreshFrom(m, i);
    hide AfterCall, EP.Shape;
    var m1 := HeadersStep(o, m, i, end && cont.None?);
    assert forall j :: 0 <= j < |m.decode.filters| && j != i ==> m1.decode.filters[j] == m.decode.filters[j];
  }

  lemma {:induction false} HeadersLoopHands(o: Oracle, m: Manager, i: nat, end: bool, cont: Option<nat>, terminal: bool)
    requires Willing(o) && Sound(m) && ValidFrom(m.decode, i, cont) && (terminal ==> cont.None? && Completing(m))
    requires if i < |m.decode.filters| then !m.decode.aborted && Arriving(m, i) && Carrying(m, i, end, cont)
             else
               Resting(m, i) && Flagged(m) && Clear(m.decode, FirstTouched(i, cont)) &&
               (!m.decode.aborted ==> Carrying(m, i, end, cont))
    requires end && cont.None? ==> m.decode.buffer.None?
    ensures var r := HeadersLoop(o, m, i, end, cont, terminal);
            Orderly(r, FirstTouched(i, cont)) && (!r.decode.aborted && end && cont.None? ==> Got(r, i))
    decreases 3 * (|m.decode.filters| - FirstTouched(i, cont)) + 2, |m.decode.filters| - i
  {
    hide HeadersEntry, Sound, Kept, Arriving, Resting, MaybeEndDecode, Continued, Carrying, Orderly, Willing;
    if i == |m.decode.filters| {
      HeadersLastHands(o, m, end, cont, terminal);
    } else {
      HeadersEntryHands(o, m, i, end, cont);
      HeadersEntryLawful(o, m, i, end, cont);
      match HeadersEntry(o, m, i, end, cont)
      case HeadersHalt(m1) => HaltHands(o, m, m1, i, end, cont);
      case HeadersOnward(m1, end', cont', terminal') =>
        OnwardHands(o, m, m1, i, end, cont, end', cont', terminal');
    }
  }

  lemma {:induction false} HeadersLastHands(o: Oracle, m: Manager, end: bool, cont: Option<nat>, terminal: bool)
    requires Willing(o) && Sound(m) && ValidFrom(m.decode, |m.decode.filters|, cont) &&
             (terminal ==> cont.None? && Completing(m))
    requires Resting(m, |m.decode.filters|) && Flagged(m) && Clear(m.decode, FirstTouched(|m.decode.filters|, cont))
    requires !m.decode.aborted ==> Carrying(m, |m.decode.filters|, end, cont)
    ensures Orderly(HeadersLoop(o, m, |m.decode.filters|, end, cont, terminal), FirstTouched(|m.decode.filters|, cont))
    decreases 3 * (|m.decode.filters| - FirstTouched(|m.decode.filters|, cont)) + 1, 4
  {
    hide Sound, Kept, Resting, CommonContinue, Willing, CheckAndClose;
    if cont.Some? {
      ContinuedHands(o, m, |m.decode.filters|, cont.value);
    } else {
      MaybeEndDecodeSound(o, m, terminal);
      EndKeeps(o, m, terminal);
    }
  }

  /** The end of the chain changes no filter and no buffer. */
  lemma EndKeeps(o: Oracle, m: Manager, terminal: bool)
    ensures var r := MaybeEndDecode(o, m, terminal);
            r.decode == m.decode.(complete := m.decode.complete || terminal, aborted := r.decode.aborted) &&
            (m.decode.aborted ==> r.decode.aborted)
  {
    CheckAndCloseKept(o, m.(decode := m.decode.(complete := true)));
  }

  lemma {:induction false} HaltHands(o: Oracle, m: Manager, m1: Manager, i: nat, end: bool, cont: Option<nat>)
    requires Willing(o) && ValidFrom(m.decode, i, cont) && i < |m.decode.filters| &&
             HeadersEntry(o, m, i, end, cont) == HeadersHalt(m1)
    requires Sound(m1) && Resting(m1, i + 1) && |m1.decode.filters| == |m.decode.filters|
    requires Flagged(m1) && Clear(m1.decode, FirstTouched(i, cont)) && Settled(m1.decode, |m.decode.filters|)
    requires HandedFrom(m1, if cont.Some? then cont.value + 1 else i) && (cont.Some? ==> m1.decode.buffer.Some?)
    requires m1.decode.filters[i].endStream == (end && cont.None?) && (cont.Some? ==> m1.decode.observedEnd)
    ensures var r := Continued(o, m1, cont);
            Orderly(r, FirstTouched(i, cont)) && (!r.decode.aborted && end && cont.None? ==> Got(r, i))
    decreases 3 * (|m.decode.filters| - FirstTouched(i, cont)) + 1, 4
  {
    hide Sound, Resting, CommonContinue, Willing, HeadersEntry;
    if cont.Some? { ContinuedHands(o, m1, i + 1, cont.value); }
  }

  lemma {:induction false} OnwardHands(o: Oracle, m: Manager, m1: Manager, i: nat, end: bool, cont: Option<nat>,
                                       end': bool, cont': Option<nat>, terminal': bool)
    requires Willing(o) && ValidFrom(m.decode, i, cont) && i < |m.decode.filters| &&
             |m1.decode.filters| == |m.decode.filters|
    requires cont' == cont || (cont.None? && cont' == Some(i))
    requires Sound(m1) && (terminal' ==> cont'.None? && Completing(m1))
    requires if Last(m, i) then Resting(m1, i + 1) else !m1.decode.aborted && Arriving(m1, i + 1)
    requires m1.decode.filters[i].endStream == (end && cont.None?) && (end' && cont'.None? ==> m1.decode.buffer.None?)
    requires Flagged(m1) && Clear(m1.decode, FirstTouched(i, cont))
    requires !m1.decode.aborted ==> end' == end && Carrying(m1, i + 1, end', cont')
    ensures var r := HeadersLoop(o, m1, i + 1, end', cont', terminal');
            Orderly(r, FirstTouched(i, cont)) && (!r.decode.aborted && end && cont.None? ==> Got(r, i))
    decreases 3 * (|m.decode.filters| - FirstTouched(i, cont)) + 2, |m.decode.filters| - i, 0
  {
    hide Sound, Resting, Arriving, Willing, HeadersLoop, Completing;
    HeadersLoopHands(o, m1, i + 1, end', cont', terminal');
    ghost var p := HeadersLoopLawful(o, m1, i + 1, end', cont', terminal');
    var r := HeadersLoop(o, m1, i + 1, end', cont', terminal');
    if cont'.None? && !r.decode.aborted { HandedBefore(r, i); }
  }

  lemma {:induction false} ContinuedHands(o: Oracle, m: Manager, p: nat, c: nat)
    requires Willing(o) && Resting(m, p) && Sound(m) && c < p && Flagged(m) && Clear(m.decode, c)
    requires !m.decode.aborted ==> HandedFrom(m, c + 1) && m.decode.observedEnd && m.decode.buffer.Some?
    ensures Orderly(CommonContinue(o, Stopped(m, c), c), c)
    decreases 3 * (|m.decode.filters| - c) + 1, 2
  {
    StoppedLawful(m, p, c);
    if !m.decode.aborted { HandedKept(m, Stopped(m, c), c + 1); }
    hide Sound, Kept, Resting, CommonContinue, HandedFrom;
    CommonContinueHands(o, Stopped(m, c), p, c);
  }

  lemma {:induction false} CommonContinueHands(o: Oracle, m: Manager, p: nat, k: nat)
    requires Willing(o) && Resting(m, p) && Sound(m) && k < |m.decode.filters| && m.decode.filters[k].Stopped()
    requires Flagged(m) && Clear(m.decode, k)
    requires !m.decode.aborted ==> Settled(m.decode, |m.decode.filters|) && HandedFrom(m, k + 1) && !Wedged(m.decode, k)
    ensures var r := CommonContinue(o, m, k);
            Orderly(r, k) &&
            (!r.decode.aborted && m.decode.observedEnd && m.decode.filters[k].StoppedAll() ==> Got(r, k))
    decreases 3 * (|m.decode.filters| - k) + 1, 1
  {
    if !m.decode.aborted {
      var m0 := m.(decode := AllowIteration(m.decode, k));
      var m1 := ResumeHeaders(o, m0, k);
      assert m.decode.filters[k].processedHeaders;
      ghost var p1 := ResumeHeadersLawful(o, m, p, k);
      ResumeHeadersHands(o, m, p, k);
      hide Sound, ResumeHeaders, ResumeData, Resting, HandedFrom;
      RestingBound(m1, p1);
      ResumeDataHands(o, m1, p1, k);
      ghost var p2 := ResumeDataLawful(o, m1, p1, k);
      LeftHands(ResumeData(o, m1, k), k);
    }
  }

  lemma RestingBound(m: Manager, p: nat)
    requires Resting(m, p)
    ensures p <= |m.decode.filters|
  {}

  lemma LeftHands(m: Manager, k: nat)
    requires k < |m.decode.filters| && Flagged(m) && Clear(m.decode, k + 1)
    requires !m.decode.aborted ==> Settled(m.decode, |m.decode.filters|) && HandedFrom(m, k)
    ensures var r := m.(decode := LeaveCurrent(m.decode, k)); Orderly(r, k) && Got(r, k) == Got(m, k)
  {}

  lemma {:induction false} ResumeHeadersHands(o: Oracle, m: Manager, p: nat, k: nat)
    requires Willing(o) && Resting(m, p) && Sound(m) && k < |m.decode.filters| && m.decode.filters[k].Stopped()
    requires Flagged(m) && Clear(m.decode, k) && !m.decode.aborted
    requires Settled(m.decode, |m.decode.filters|) && HandedFrom(m, k + 1)
    ensures var r := ResumeHeaders(o, m.(decode := AllowIteration(m.decode, k)), k);
            Orderly(r, k + 1) && (!r.decode.aborted && Awaiting(m.decode) ==> Got(r, k + 1))
    decreases 3 * (|m.decode.filters| - k) + 1, 0
  {
    hide Sound, Kept, HeadersLoop;
    if m.decode.filters[k].headersContinued {
      assert m.decode.filters[k].processedHeaders;
      HandedKept(m, m.(decode := AllowIteration(m.decode, k)), k + 1);
    } else {
      ReleasedArrives(m, p, k);
      SoundKept(m, Released(m, k), k);
      HeadersLoopHands(o, Released(m, k), k + 1, m.decode.observedEnd && m.decode.buffer.None?, None, false);
    }
  }

  lemma NextReached(m: Manager, p: nat, k: nat)
    requires Resting(m, p) && k < p && !m.decode.filters[k].Stopped()
    ensures p <= |m.decode.filters| && (k + 1 < |m.decode.filters| ==> k + 1 < p)
  {
    assert m.decode.filters[k].headersContinued;
  }

  lemma {:induction false} ResumeDataHands(o: Oracle, m: Manager, p: nat, k: nat)
    requires Willing(o) && Resting(m, p) && Sound(m) && k < p <= |m.decode.filters|
    requires !m.decode.filters[k].Stopped() && Orderly(m, k + 1)
    requires !m.decode.aborted && m.decode.filters[k].endStream &&
             (m.decode.buffer.None? || m.decode.filters[k].fromCurrent) ==>
               Got(m, k + 1)
    ensures var r := ResumeData(o, m, k);
            Flagged(r) && Clear(r.decode, k + 1) &&
            (!r.decode.aborted ==>
               Settled(r.decode, |m.decode.filters|) && HandedFrom(r, k) &&
               (m.decode.observedEnd && m.decode.buffer.Some? && m.decode.filters[k].fromCurrent ==> Got(r, k)))
    decreases 3 * (|m.decode.filters| - k) + 1, 0
  {
    hide Sound, DataLoop, Resting;
    NextReached(m, p, k);
    if m.decode.buffer.None? || m.decode.aborted {
      if !m.decode.aborted { HandedBefore(m, k); }
    } else {
      var start := if m.decode.filters[k].fromCurrent then k else k + 1;
      if start == k { HandedBefore(m, k); }
      DataLoopHands(o, m, p, start, Shared, m.decode.observedEnd, false);
      var r := DataLoop(o, m, start, Shared, m.decode.observedEnd, false);
      ghost var p1 := DataLoopLawful(o, m, p, start, Shared, m.decode.observedEnd, false);
      if start == k + 1 && !r.decode.aborted { HandedBefore(r, k); }
    }
  }

  lemma OwnIsBuffered(o: Oracle, m: Manager, i: nat, data: Payload, end: bool)
    requires i < |m.decode.filters|
    ensures var next := DataEntry(o, m, i, data, end);
            (data.Own? && !m.decode.filters[i].endStream && !next.m.decode.aborted ==>
               next.DataResume? || (!next.DataOnward? && m.decode.observedEnd) ==> next.m.decode.buffer.Some?) &&
            (next.DataOnward? ==> next.data.Own? == data.Own?)
  {}

  /** What the data loop may start from at position i. */
  ghost predicate Starting(m: Manager, i: nat, data: Payload, end: bool) {
    i <= |m.decode.filters| && !m.decode.aborted && end == m.decode.observedEnd && Flagged(m) &&
    Clear(m.decode, i + 1) &&
    (i < |m.decode.filters| && m.decode.filters[i].Stopped() ==> !m.decode.filters[i].fromCurrent) &&
    Settled(m.decode, i) && HandedFrom(m, i) &&
    if data.Shared? then m.decode.buffer.Some?
    else forall j :: i <= j < |m.decode.filters| ==> !m.decode.filters[j].endStream
  }

  /** What it leaves behind, up to the completion of the chain. */
  ghost predicate Finishing(m: Manager, r: Manager, i: nat, end: bool) {
    |r.decode.filters| == |m.decode.filters| && Flagged(r) && Clear(r.decode, i + 1) &&
    (i < |m.decode.filters| && r.decode.filters[i].fromCurrent ==> m.decode.filters[i].fromCurrent) &&
    (!r.decode.aborted ==> Settled(r.decode, |r.decode.filters|) && HandedFrom(r, i) && (end ==> Got(r, i)))
  }

  lemma EndHands(o: Oracle, m: Manager, r: Manager, i: nat, end: bool, terminal: bool)
    requires Finishing(m, r, i, end)
    ensures Finishing(m, MaybeEndDecode(o, r, terminal), i, end)
  {
    EndKeeps(o, r, terminal);
    hide MaybeEndDecode;
  }

  lemma {:induction false} DataEntryHands(o: Oracle, m: Manager, p: nat, i: nat, data: Payload, end: bool)
    requires Starting(m, i, data, end) && Resting(m, p) && Sound(m) && i < p && i < |m.decode.filters|
    ensures var next := DataEntry(o, m, i, data, end);
            match next
            case DataHalt(m1) => Finishing(m, m1, i, end)
            case DataStop(m1) => Finishing(m, m1, i, end)
            case DataResume(m1) =>
              Flagged(m1) && Clear(m1.decode, i) && m1.decode.buffer.Some? && HandedFrom(m1, i + 1) &&
              m1.decode.filters[i].endStream == end
            case DataOnward(m1, left) =>
              Starting(m1, i + 1, left, end) && Clear(m1.decode, i + 1) && m1.decode.filters[i].endStream == end &&
              !m1.decode.filters[i].Stopped() &&
              m1.decode.filters[i].fromCurrent == m.decode.filters[i].fromCurrent
  {
    hide DataEntry, Sound, Resting;
    DataEntryLawful(o, m, p, i, data, end);
    BufferStays(o, m, i, data, end);
    OwnIsBuffered(o, m, i, data, end);
  }

  lemma {:induction false} DataLoopHands(
    o: Oracle, m: Manager, p: nat, i: nat, data: Payload, end: bool, terminal: bool)
    requires Willing(o) && Resting(m, p) && Sound(m) && Starting(m, i, data, end) && i <= |m.decode.filters|
    requires if i == |m.decode.filters| then terminal ==> Completing(m) else i < p
    ensures Finishing(m, DataLoop(o, m, i, data, end, terminal), i, end)
    decreases 3 * (|m.decode.filters| - i)
              + (if i < |m.decode.filters| && m.decode.filters[i].iteration == StopSingle then 2 else 0), 0
  {
    hide DataEntry, Sound, Resting, MaybeEndDecode, CommonContinue, Willing, Finishing, Starting, Flagged, HandedFrom,
         Completing;
    StartingBound(m, i, data, end);
    if i == |m.decode.filters| {
      EndHands(o, m, m, i, end, terminal);
    } else {
      DataEntryLawful(o, m, p, i, data, end);
      DataEntryHands(o, m, p, i, data, end);
      match DataEntry(o, m, i, data, end)
      case DataHalt(m1) =>
      case DataStop(m1) => EndHands(o, m, m1, i, end, end && Last(m, i));
      case DataResume(m1) => ResumedHands(o, m, m1, p, i, end);
      case DataOnward(m1, left) =>
        DataLoopHands(o, m1, p, i + 1, left, end, end && Last(m, i));
        FinishingBefore(m, m1, DataLoop(o, m1, i + 1, left, end, end && Last(m, i)), i, left, end);
    }
  }

  lemma StartingBound(m: Manager, i: nat, data: Payload, end: bool)
    requires Starting(m, i, data, end)
    ensures i <= |m.decode.filters| && !m.decode.aborted && end == m.decode.observedEnd &&
            (i == |m.decode.filters| ==> Finishing(m, m, i, end))
  {}

  lemma FinishingBefore(m: Manager, m1: Manager, r: Manager, i: nat, left: Payload, end: bool)
    requires i < |m.decode.filters| == |m1.decode.filters| && SameBefore(m1.decode, r.decode, i + 1)
    requires Starting(m1, i + 1, left, end) && Clear(m1.decode, i + 1) && Finishing(m1, r, i + 1, end)
    requires m1.decode.filters[i].endStream == end &&
             m1.decode.filters[i].fromCurrent == m.decode.filters[i].fromCurrent
    ensures Finishing(m, r, i, end)
  {
    if !r.decode.aborted { HandedBefore(r, i); }
  }

  lemma {:induction false} ResumedHands(o: Oracle, m: Manager, m1: Manager, p: nat, i: nat, end: bool)
    requires Willing(o) && Resting(m1, p) && Sound(m1) && i < |m1.decode.filters| == |m.decode.filters|
    requires m1.decode.filters[i].iteration == StopSingle && Flagged(m1) && Clear(m1.decode, i) &&
             m1.decode.buffer.Some?
    requires HandedFrom(m1, i + 1) && m1.decode.filters[i].endStream == end
    ensures Finishing(m, MaybeEndDecode(o, CommonContinue(o, m1, i), end && Last(m, i)), i, end)
    decreases 3 * (|m1.decode.filters| - i) + 1, 2
  {
    hide Sound, Resting, MaybeEndDecode, CommonContinue, Willing;
    CommonContinueHands(o, m1, p, i);
    ghost var p1 := CommonContinueLawful(o, m1, p, i);
    EndHands(o, m, CommonContinue(o, m1, i), i, end, end && Last(m, i));
  }
}
