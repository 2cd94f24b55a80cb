/** The end of the response is handed from filter to filter and on to the codec: a filter that
    has seen it is stopped, or the next one has seen it or will when it resumes. */
module EncoderDelivery {
  import opened FilterTypes
  import opened Protocol
  import opened EncoderChain
  import opened EncoderProtocol
  import opened EncoderEnd

  /** No filter withdraws the end of the stream and the codec does not reset. */
  ghost predicate Patient(o: Oracle) {
    (forall l, d, i, e :: o.headers(l, d, i, e).status != HeadersContinueAndDontEndStream) &&
    (forall l :: !o.codecResets(l))
  }

  ghost predicate StoppedFrom(fs: seq<FilterState>, lo: nat) {
    exists k :: lo <= k < |fs| && fs[k].Stopped()
  }

  lemma StoppedFromKept(fs: seq<FilterState>, gs: seq<FilterState>, lo: nat)
    requires |gs| == |fs| && StoppedFrom(fs, lo)
    requires forall j :: lo <= j < |fs| ==> fs[j].Stopped() ==> gs[j].Stopped()
    ensures StoppedFrom(gs, lo)
  {
    var k :| lo <= k < |fs| && fs[k].Stopped();
    assert gs[k].Stopped();
  }

  predicate Ended(m: Manager) { WatchCodec(m.log).ended }

  predicate Honest(m: Manager) {
    m.encode.complete == Ended(m) && (m.stream.sawReset ==> Ended(m))
  }

  /** The end has reached position i: the codec has it, or filter i has seen it or will be
      shown it when it resumes. */
  predicate Got(m: Manager, i: nat)
    requires i <= |m.encode.filters|
  {
    if i == |m.encode.filters| then Ended(m) else m.encode.filters[i].endStream || m.encode.filters[i].StoppedAll()
  }

  /** Every filter from lo on that has seen the end has handed it on, or is stopped. */
  ghost predicate HandedFrom(m: Manager, lo: nat) {
    forall j :: lo <= j < |m.encode.filters| ==>
      m.encode.filters[j].endStream ==> m.encode.filters[j].Stopped() || Got(m, j + 1)
  }

  /** A step that changes nothing from position lo on. */
  lemma HandedKept(m: Manager, r: Manager, lo: nat)
    requires HandedFrom(m, lo) && |r.encode.filters| == |m.encode.filters| && Ended(r) == Ended(m)
    requires forall j :: lo <= j < |m.encode.filters| ==> r.encode.filters[j] == m.encode.filters[j]
    ensures HandedFrom(r, lo)
  {}

  lemma HandedBefore(r: Manager, i: nat)
    requires i < |r.encode.filters| && HandedFrom(r, i + 1)
    requires r.encode.filters[i].endStream ==> r.encode.filters[i].Stopped() || Got(r, i + 1)
    ensures HandedFrom(r, i)
  {}

  /** When nothing is stopped, the end that reached a position has reached all after it. */
  lemma {:induction false} HandedToAll(m: Manager, lo: nat)
    requires lo <= |m.encode.filters| && HandedFrom(m, lo) && Got(m, lo) && !StoppedFrom(m.encode.filters, lo)
    ensures Ended(m) && forall j :: lo <= j < |m.encode.filters| ==> m.encode.filters[j].endStream
    decreases |m.encode.filters| - lo
  {
    if lo < |m.encode.filters| {
      assert !m.encode.filters[lo].Stopped();
      HandedToAll(m, lo + 1);
    }
  }

  lemma {:induction false} CodecStepHonest(o: Oracle, m: Manager, e: Event, end: bool, buffer: Option<Bytes>)
    requires Patient(o) && Tied(m) && Sealed(m) && (e.CodecHeaders? || e.CodecData?) && e.end == end && Honest(m) &&
             !Ended(m)
    requires e.CodecHeaders? ==> forall j :: 0 <= j < |m.encode.filters| ==> m.encode.filters[j].processedHeaders
    requires end ==> m.encode.observedEnd
    requires WatchCodec(m.log).single
    ensures var m1 := Manager(m.decode, m.encode.(buffer := buffer),
                              m.stream.(sawReset := m.stream.sawReset || o.codecResets(m.log)), After(m.log, e));
            var r := if m1.stream.sawReset then m1 else MaybeEndEncode(o, m1, end);
            Honest(r) && Ended(r) == end && r.encode.buffer == buffer && r.encode.filters == m.encode.filters
            && r.encode.observedEnd == m.encode.observedEnd && (r.stream.sawReset ==> end)
  {
    hide Tied;
    CodecStepEnds(o, m, e, end, buffer);
  }

  lemma {:induction false} HeadersEntryDelivers(o: Oracle, m: Manager, i: nat, end: bool, cont: Option<nat>)
    requires Patient(o) && Arriving(m, i) && Tied(m) && Carrying(m, i, end, cont) && i < |m.encode.filters|
    requires Honest(m) && Clear(m.encode, FirstTouched(i, cont)) && Settled(m.encode, |m.encode.filters|)
    requires Withheld(m.encode, i, cont) && (Awaiting(m.encode) ==> end && cont.None?)
    ensures var next := HeadersEntry(o, m, i, end, cont);
            Honest(next.m) && Settled(next.m.encode, |m.encode.filters|) &&
            Clear(next.m.encode, FirstTouched(i, cont)) &&
            (next.HeadersHalt? ==>
               HandedFrom(next.m, if cont.Some? then cont.value + 1 else i) && next.resume == cont &&
               (next.resume.Some? ==> next.m.encode.buffer.Some? && next.m.encode.observedEnd)) &&
            (next.HeadersOnward? ==>
               next.end == end && Withheld(next.m.encode, i + 1, next.cont) &&
               (Awaiting(next.m.encode) ==> next.end && next.cont.None?))
  {
    hide Tied, WatchCodec, HeadersStep, Resting, Arriving, Sealed;
    FreshFrom(m, i);
    HeadersEntryLawful(o, m, i, end, cont);
  }

  lemma {:induction false} HeadersLoopDelivers(o: Oracle, m: Manager, i: nat, end: bool, cont: Option<nat>)
    requires Patient(o) && Arriving(m, i) && Tied(m) && Carrying(m, i, end, cont)
    requires Honest(m) && Clear(m.encode, FirstTouched(i, cont)) && Settled(m.encode, |m.encode.filters|)
    requires Withheld(m.encode, i, cont) && (Awaiting(m.encode) ==> end && cont.None?)
    ensures var r := HeadersLoop(o, m, i, end, cont);
            Honest(r) && Settled(r.encode, |m.encode.filters|) && HandedFrom(r, FirstTouched(i, cont)) &&
            (end && cont.None? ==> Got(r, i))
    decreases 3 * (|m.encode.filters| - FirstTouched(i, cont)) + 2, |m.encode.filters| - i
  {
    hide HeadersEntry, HeadersExit, Tied, Resting, Arriving, WatchCodec, CommonContinue, Settled, Ends, Withheld,
         Awaiting, Honest, HandedFrom, Patient;
    NotEnded(m, i);
    if i == |m.encode.filters| {
      HeadersExitDelivers(o, m, end, cont);
    } else {
      HeadersEntryDelivers(o, m, i, end, cont);
      HeadersEntryLawful(o, m, i, end, cont);
      FreshAt(m, i);
      HeadersEntrySingle(o, m, i, end, cont);
      match HeadersEntry(o, m, i, end, cont)
      case HeadersHalt(m1, None) =>
      case HeadersHalt(m1, Some(c)) =>
        ResumedDelivers(o, m1, i + 1, c);
      case HeadersOnward(m1, end', cont') =>
        HeadersLoopDelivers(o, m1, i + 1, end', cont');
        HeadersLoopSingle(o, m1, i + 1, end', cont');
        if cont'.None? {
          HandedBefore(HeadersLoop(o, m1, i + 1, end', cont'), i);
        }
    }
  }

  lemma FreshFrom(m: Manager, i: nat)
    requires Arriving(m, i)
    ensures forall j :: i <= j < |m.encode.filters| ==> m.encode.filters[j] == FRESH_FILTER
  {}

  lemma {:induction false} HeadersExitDelivers(o: Oracle, m: Manager, end: bool, cont: Option<nat>)
    requires Patient(o) && Arriving(m, |m.encode.filters|) && Tied(m) && Carrying(m, |m.encode.filters|, end, cont)
    requires Honest(m) && Clear(m.encode, FirstTouched(|m.encode.filters|, cont)) &&
             Settled(m.encode, |m.encode.filters|)
    requires Withheld(m.encode, |m.encode.filters|, cont) && (Awaiting(m.encode) ==> end && cont.None?)
    ensures var r := HeadersLoop(o, m, |m.encode.filters|, end, cont);
            Honest(r) && Settled(r.encode, |m.encode.filters|) &&
            HandedFrom(r, FirstTouched(|m.encode.filters|, cont)) &&
            (end && cont.None? ==> Got(r, |m.encode.filters|))
    decreases 3 * (|m.encode.filters| - FirstTouched(|m.encode.filters|, cont)) + 1, 3
  {
    HeadersExitLawful(o, m, end, cont);
    HeadersExitSingle(o, m, end, cont);
    CodecStepHonest(o, m, CodecHeaders(end && cont.None?), end && cont.None?, m.encode.buffer);
    hide Tied, Resting, WatchCodec, CommonContinue;
    match HeadersExit(o, m, end, cont)
    case HeadersHalt(m1, None) =>
    case HeadersHalt(m1, Some(c)) => ResumedDelivers(o, m1, |m.encode.filters|, c);
  }

  lemma {:induction false} ResumedDelivers(o: Oracle, m: Manager, p: nat, c: nat)
    requires Patient(o) && Resting(m, p) && Tied(m) && c < p && Ends(m) && WatchCodec(m.log).single && !Ended(m)
    requires Honest(m) && Clear(m.encode, c) && m.encode.observedEnd && m.encode.buffer.Some?
    requires HandedFrom(m, c + 1)
    ensures var r := CommonContinue(o, Stopped(m, c), c);
            Honest(r) && Settled(r.encode, |m.encode.filters|) && HandedFrom(r, c)
    decreases 3 * (|m.encode.filters| - c) + 1, 2
  {
    StoppedLawful(m, p, c);
    StoppedKept(m, c);
    HandedKept(m, Stopped(m, c), c + 1);
    hide Tied, Resting, WatchCodec, CommonContinue, HandedFrom;
    CommonContinueDelivers(o, Stopped(m, c), p, c);
  }

  lemma {:induction false} CommonContinueDelivers(o: Oracle, m: Manager, p: nat, k: nat)
    requires Patient(o) && Resting(m, p) && Tied(m) && k < |m.encode.filters| && m.encode.filters[k].Stopped()
    requires Ends(m) && WatchCodec(m.log).single && Honest(m) && Clear(m.encode, k) &&
             Settled(m.encode, |m.encode.filters|)
    requires HandedFrom(m, k + 1) && !Wedged(m.encode, k)
    ensures var r := CommonContinue(o, m, k);
            Honest(r) && Settled(r.encode, |m.encode.filters|) && HandedFrom(r, k) &&
            (m.encode.observedEnd && m.encode.filters[k].StoppedAll() ==> Got(r, k)) &&
            (m.encode.observedEnd && m.encode.buffer.Some? && !m.encode.filters[k].StoppedAll() ==>
               Ended(m) || Got(r, k + 1))
    decreases 3 * (|m.encode.filters| - k) + 1, 1
  {
    hide Tied, ResumeHeaders, ResumeData, WatchCodec, HandedFrom, Beside, Sealed, Patient;
    if m.encode.complete {
      HandedBefore(m, k);
    } else {
      var m0 := m.(encode := AllowIteration(m.encode, k));
      var m1 := ResumeHeaders(o, m0, k);
      assert m.encode.filters[k].processedHeaders;
      ghost var p1 := ResumeHeadersLawful(o, m, p, k);
      ResumeHeadersSingle(o, m, p, k);
      ResumeHeadersDelivers(o, m, p, k);
      ResumeDataDelivers(o, m1, p1, k);
      ResumeDataSingle(o, m1, p1, k);
      LeftDelivers(ResumeData(o, m1, k), k);
    }
  }

  lemma LeftDelivers(m: Manager, k: nat)
    requires k < |m.encode.filters|
    ensures var r := m.(encode := LeaveCurrent(m.encode, k));
            (Settled(m.encode, |m.encode.filters|) ==> Settled(r.encode, |m.encode.filters|)) &&
            (HandedFrom(m, k) ==> HandedFrom(r, k)) &&
            Got(r, k) == Got(m, k)
  {
    hide WatchCodec;
  }

  lemma {:induction false} ResumeHeadersDelivers(o: Oracle, m: Manager, p: nat, k: nat)
    requires Patient(o) && Resting(m, p) && Tied(m) && k < |m.encode.filters| && m.encode.filters[k].Stopped()
    requires Ends(m) && WatchCodec(m.log).single && !Ended(m)
    requires Honest(m) && Clear(m.encode, k) && Settled(m.encode, |m.encode.filters|) && HandedFrom(m, k + 1)
    ensures var m0 := m.(encode := AllowIteration(m.encode, k));
            var r := ResumeHeaders(o, m0, k);
            Honest(r) && Settled(r.encode, |m.encode.filters|) && HandedFrom(r, k + 1) &&
            (Awaiting(m.encode) ==> Got(r, k + 1))
    decreases 3 * (|m.encode.filters| - k) + 1, 0
  {
    if m.encode.filters[k].headersContinued {
      assert m.encode.filters[k].processedHeaders;
      hide Tied, HeadersLoop, WatchCodec, Resting;
      HandedKept(m, m.(encode := AllowIteration(m.encode, k)), k + 1);
    } else {
      ReleasedArrives(m, p, k);
      hide Tied, HeadersLoop, WatchCodec, Resting, Arriving;
      HeadersLoopDelivers(o, Released(m, k), k + 1, m.encode.observedEnd && m.encode.buffer.None?, None);
    }
  }

  lemma {:induction false} ResumeDataDelivers(o: Oracle, m: Manager, p: nat, k: nat)
    requires Patient(o) && Resting(m, p) && Tied(m) && k < p
    requires m.encode.filters[k].headersContinued && !m.encode.filters[k].Stopped()
    requires Ends(m) && Single(m) && (Ended(m) ==> m.encode.buffer.None? || Barred(m, k + 1))
    requires Honest(m) && Clear(m.encode, k + 1) && Settled(m.encode, |m.encode.filters|) && HandedFrom(m, k + 1)
    requires m.encode.filters[k].endStream && (m.encode.buffer.None? || m.encode.filters[k].fromCurrent) ==>
               Got(m, k + 1)
    ensures var r := ResumeData(o, m, k);
            Honest(r) && Settled(r.encode, |m.encode.filters|) && HandedFrom(r, k) &&
            (m.encode.observedEnd && m.encode.buffer.Some? ==>
               if m.encode.filters[k].fromCurrent then Got(r, k) else Got(r, k + 1))
    decreases 3 * (|m.encode.filters| - k) + 1, 0
  {
    hide Tied, DataLoop, WatchCodec;
    if m.encode.buffer.None? {
      HandedBefore(m, k);
    } else {
      var start := if m.encode.filters[k].fromCurrent then k else k + 1;
      if Ended(m) {
        BarredData(o, m, p, k, start, m.encode.observedEnd);
        BarredHands(o, m, p, k, start, m.encode.observedEnd);
      } else {
        hide Resting;
        if start == k { HandedBefore(m, k); }
        DataLoopSingle(o, m, p, start, Shared, m.encode.observedEnd);
        DataLoopDelivers(o, m, p, start, Shared, m.encode.observedEnd);
        if start == k + 1 { HandedBefore(DataLoop(o, m, start, Shared, m.encode.observedEnd), k); }
      }
    }
  }

  lemma {:induction false} BarredHands(o: Oracle, m: Manager, p: nat, k: nat, start: nat, end: bool)
    requires Resting(m, p) && Tied(m) && k < p && !m.encode.filters[k].Stopped() && Barred(m, k + 1)
    requires k <= start <= k + 1 && HandedFrom(m, k + 1) && end == m.encode.observedEnd
    ensures var r := DataLoop(o, m, start, Shared, end); HandedFrom(r, k) && (end ==> Got(r, start))
    decreases k + 1 - start
  {
    hide Tied, WatchCodec, DataEntry;
    if start == k {
      DataEntryLawful(o, m, p, k, Shared, end);
      SharedStays(o, m, k, end);
      var next := DataEntry(o, m, k, Shared, end);
      HandedKept(m, next.m, k + 1);
      if next.DataOnward? { BarredHands(o, next.m, p, k, k + 1, end); } else { HandedBefore(next.m, k); }
    } else {
      HandedBefore(m, k);
    }
  }

  /** The manager never leaves a payload of the caller's behind: at a filter that stops it,
      it is in the shared buffer, which exists once the message is complete. */
  lemma OwnIsBuffered(o: Oracle, m: Manager, i: nat, data: Payload, end: bool)
    requires i < |m.encode.filters|
    ensures var next := DataEntry(o, m, i, data, end);
            (data.Own? && !m.encode.filters[i].endStream &&
             (next.DataResume? || (next.DataHalt? && m.encode.observedEnd)) ==>
               next.m.encode.buffer.Some?) &&
            (next.DataOnward? ==> next.data.Own? == data.Own?)
  {}

  /** What the data loop may start from at position i. */
  ghost predicate Starting(m: Manager, i: nat, data: Payload, end: bool) {
    i <= |m.encode.filters| && end == m.encode.observedEnd && Honest(m) && Clear(m.encode, i + 1) &&
    (i < |m.encode.filters| && m.encode.filters[i].Stopped() ==> !m.encode.filters[i].fromCurrent) &&
    Settled(m.encode, i) && HandedFrom(m, i) &&
    if data.Shared? then m.encode.buffer.Some?
    else forall j :: i <= j < |m.encode.filters| ==> !m.encode.filters[j].endStream
  }

  /** ... and what it leaves behind. */
  ghost predicate Delivered(m: Manager, i: nat, end: bool) {
    i <= |m.encode.filters| && Honest(m) && Settled(m.encode, |m.encode.filters|) && HandedFrom(m, i) &&
    (end ==> Got(m, i))
  }

  lemma {:induction false} DataEntryDelivers(o: Oracle, m: Manager, p: nat, i: nat, data: Payload, end: bool)
    requires Resting(m, p) && Tied(m) && i < p && i < |m.encode.filters| && !Ended(m) && Starting(m, i, data, end)
    ensures match DataEntry(o, m, i, data, end)
            case DataHalt(m1) => Delivered(m1, i, end)
            case DataResume(m1) =>
              Honest(m1) && !Ended(m1) && Clear(m1.encode, i) && m1.encode.buffer.Some? && HandedFrom(m1, i + 1) &&
              m1.encode.filters[i].iteration == StopSingle && m1.encode.filters[i].endStream == end &&
              m1.encode.observedEnd == end && |m1.encode.filters| == |m.encode.filters|
            case DataOnward(m1, left) =>
              Starting(m1, i + 1, left, end) && !Ended(m1) && !m1.encode.filters[i].Stopped() &&
              m1.encode.filters[i].endStream == end && |m1.encode.filters| == |m.encode.filters|
  {
    hide DataEntry, Tied, Resting, WatchCodec;
    DataEntryLawful(o, m, p, i, data, end);
    OwnIsBuffered(o, m, i, data, end);
  }

  lemma {:induction false} DataLoopDelivers(o: Oracle, m: Manager, p: nat, i: nat, data: Payload, end: bool)
    requires Patient(o) && Resting(m, p) && Tied(m) && Reached(m, p, i) && Ends(m) && WatchCodec(m.log).single &&
             !Ended(m)
    requires Starting(m, i, data, end)
    ensures Delivered(DataLoop(o, m, i, data, end), i, end)
    decreases 3 * (|m.encode.filters| - i)
              + (if i < |m.encode.filters| && m.encode.filters[i].iteration == StopSingle then 2 else 0), 0
  {
    hide DataEntry, Tied, Resting, WatchCodec, WatchClose, Sealed, CodecDataStep, CommonContinue, HandedFrom, Honest,
         Patient;
    if i == |m.encode.filters| {
      CodecDataDelivers(o, m, data, end);
    } else {
      DataEntryLawful(o, m, p, i, data, end);
      DataEntryEnds(o, m, i, data, end);
      DataEntryDelivers(o, m, p, i, data, end);
      match DataEntry(o, m, i, data, end)
      case DataHalt(m1) =>
      case DataResume(m1) =>
        CommonContinueDelivers(o, m1, p, i);
        CommonContinueSingle(o, m1, p, i);
      case DataOnward(m1, left) =>
        DataLoopDelivers(o, m1, p, i + 1, left, end);
        HandedBefore(DataLoop(o, m1, i + 1, left, end), i);
    }
  }

  lemma {:induction false} CodecDataDelivers(o: Oracle, m: Manager, data: Payload, end: bool)
    requires Patient(o) && Tied(m) && Ends(m) && WatchCodec(m.log).single && !Ended(m)
    requires Starting(m, |m.encode.filters|, data, end)
    ensures Delivered(CodecDataStep(o, m, data, end), |m.encode.filters|, end)
  {
    hide Tied, WatchCodec, Sealed, MaybeEndEncode, Patient;
    var buffer := if data.Shared? && m.encode.buffer.Some? then Some([]) else m.encode.buffer;
    CodecStepHonest(o, m, CodecData(PayloadBytes(m.encode, data), end), end, buffer);
  }
}
