/** Every filter and the codec see headers once and before data, and nothing after the end. */
module EncoderProtocol {
  import opened FilterTypes
  import opened Protocol
  import opened EncoderChain

  function ViewOf(f: FilterState, aborted: bool): View {
    View(f.processedHeaders, f.endStream, f.endStream, aborted, true)
  }

  /** The flags of a filter say what the log says it has seen, and all of it was in order. */
  ghost predicate Tied(m: Manager) {
    InChain(m.log, |m.encode.filters|) &&
    (forall j :: 0 <= j < |m.encode.filters| ==> Watch(m.log, Encoding, j) == ViewOf(m.encode.filters[j], false)) &&
    (forall j :: 0 <= j < |m.decode.filters| ==>
       Watch(m.log, Decoding, j) == ViewOf(m.decode.filters[j], m.decode.aborted))
  }

  /** Headers have been through the first p filters: those have processed them and, if they
      do not withhold them, passed them on; the rest are untouched. */
  ghost predicate Shape(fs: seq<FilterState>, p: nat) {
    p <= |fs| &&
    (forall j :: p <= j < |fs| ==> fs[j] == FRESH_FILTER) &&
    (forall j :: 0 <= j < p ==> fs[j].processedHeaders && (fs[j].iteration == Continue ==> fs[j].headersContinued)) &&
    (forall j :: 0 <= j < p - 1 ==> fs[j].headersContinued)
  }

  predicate Passed(fs: seq<FilterState>, p: nat)
    requires p <= |fs|
  {
    p == 0 || fs[p - 1].headersContinued
  }

  /** Headers are on their way to filter p. */
  ghost predicate Arriving(m: Manager, p: nat) {
    var v := WatchCodec(m.log);
    Shape(m.encode.filters, p) && Passed(m.encode.filters, p) && v == UNSEEN
  }

  /** Headers rest at filter p - 1, or have reached the codec. */
  ghost predicate Resting(m: Manager, p: nat) {
    var v := WatchCodec(m.log);
    Shape(m.encode.filters, p) && v.ordered &&
    if v.headers then p == |m.encode.filters| && Passed(m.encode.filters, p)
    else v == UNSEEN && !Passed(m.encode.filters, p)
  }

  /** Data may be handed to position i. */
  ghost predicate Reached(m: Manager, p: nat, i: nat) {
    i <= |m.encode.filters| && (i < p || (i == |m.encode.filters| && WatchCodec(m.log).headers))
  }

  /** A step that calls no filter and hands nothing to the codec. */
  ghost predicate Quiet(m: Manager, r: Manager) {
    r.encode.filters == m.encode.filters && r.decode.filters == m.decode.filters &&
    (Tied(m) ==> Tied(r)) && WatchCodec(r.log) == WatchCodec(m.log)
  }

  lemma {:induction false} AbortDecodingQuiet(condition: bool, m: Manager)
    ensures Quiet(m, AbortDecodingWhen(condition, m))
  {}

  lemma {:induction false} LoggedQuiet(m: Manager, e: Event, r: Manager)
    requires e.Arrived? || e.ResponseComplete? || e.RequestComplete? || e.StreamEnded?
    requires r.log == After(m.log, e) && r.encode.filters == m.encode.filters
    requires r.decode.filters == m.decode.filters && r.decode.aborted == m.decode.aborted
    ensures Quiet(m, r)
  {}

  lemma {:induction false} CheckAndCloseQuiet(o: Oracle, m: Manager)
    ensures Quiet(m, CheckAndClose(o, m))
  {}

  lemma {:induction false} MaybeEndEncodeQuiet(o: Oracle, m: Manager, end: bool)
    ensures Quiet(m, MaybeEndEncode(o, m, end))
  {
    hide Watch, WatchCodec, InChain, CheckAndClose, EndStream, Tied;
    if end {
      var m1 := CompleteResponse(m);
      LoggedQuiet(m, Completion(m), m1);
      if m1.stream.halfClose { CheckAndCloseQuiet(o, m1); } else { EndStreamQuiet(o, m1); }
    }
  }

  lemma {:induction false} EndStreamQuiet(o: Oracle, m: Manager)
    ensures Quiet(m, EndStream(o, m))
  {}

  /** A callback in order keeps the flags tied to the log. */
  lemma {:induction false} CalledTied(m: Manager, r: Manager, i: nat, call: Event, aborts: bool)
    requires Tied(m) && i < |m.encode.filters|
    requires call.Headers? || call.Data?
    requires call.dir == Encoding && call.index == i && r.log == AfterCall(m.log, call, aborts)
    requires SameExcept(m.encode, r.encode, i) && r.decode == m.decode.(aborted := m.decode.aborted || aborts)
    requires r.encode.filters[i].endStream == call.end && r.encode.filters[i].processedHeaders
    requires !m.encode.filters[i].endStream && m.encode.filters[i].processedHeaders == call.Data?
    requires call.Headers? ==> forall j :: 0 <= j < i ==> m.encode.filters[j].processedHeaders
    ensures Tied(r) && WatchCodec(r.log) == WatchCodec(m.log)
  {
    WatchCodecCalled(m.log, call, aborts);
    InChainCalled(m.log, call, aborts, |m.encode.filters|);
    forall j | 0 <= j < |m.decode.filters|
      ensures Watch(r.log, Decoding, j) == ViewOf(r.decode.filters[j], r.decode.aborted)
    {
      WatchCalled(m.log, call, aborts, Decoding, j);
    }
    forall j | 0 <= j < |m.encode.filters|
      ensures Watch(r.log, Encoding, j) == ViewOf(r.encode.filters[j], false)
    {
      WatchCalled(m.log, call, aborts, Encoding, j);
    }
  }

  lemma {:induction false} HeadersEntryLawful(o: Oracle, m: Manager, i: nat, end: bool, cont: Option<nat>)
    requires Arriving(m, i) && Tied(m) && ValidFrom(m.encode, i, cont) && i < |m.encode.filters|
    ensures var next := HeadersEntry(o, m, i, end, cont);
            Tied(next.m) && WatchCodec(next.m.log) == WatchCodec(m.log) &&
            if next.HeadersHalt? then Resting(next.m, i + 1) else Arriving(next.m, i + 1)
  {
    hide Tied, WatchCodec;
    var e := end && cont.None?;
    var reply := HeadersAnswer(o, m, i, e);
    var m1 := HeadersStep(o, m, i, e);
    assert m.encode.filters[i] == FRESH_FILTER;
    CalledTied(m, m1, i, Headers(Encoding, i, e, reply.add, HeadersOutcome(o, m, i, e)), reply.abortDecoding);
  }

  lemma {:induction false} HeadersExitLawful(o: Oracle, m: Manager, end: bool, cont: Option<nat>)
    requires Arriving(m, |m.encode.filters|) && Tied(m)
    ensures var next := HeadersExit(o, m, end, cont); Tied(next.m) && Resting(next.m, |m.encode.filters|)
  {
    CodecStepTied(o, m, CodecHeaders(end && cont.None?), end && cont.None?, m.encode.buffer);
  }

  /** Handing something to the codec calls no filter. */
  lemma {:induction false} CodecStepTied(o: Oracle, m: Manager, e: Event, end: bool, buffer: Option<Bytes>)
    requires Tied(m) && (e.CodecHeaders? || e.CodecData?)
    requires e.CodecHeaders? ==> forall j :: 0 <= j < |m.encode.filters| ==> m.encode.filters[j].processedHeaders
    ensures var m1 := Manager(m.decode, m.encode.(buffer := buffer),
                              m.stream.(sawReset := m.stream.sawReset || o.codecResets(m.log)), After(m.log, e));
            var r := if m1.stream.sawReset then m1 else MaybeEndEncode(o, m1, end);
            Tied(r) && WatchCodec(r.log) == NextCodec(WatchCodec(m.log), e)
  {
    var m1 := Manager(m.decode, m.encode.(buffer := buffer),
                      m.stream.(sawReset := m.stream.sawReset || o.codecResets(m.log)), After(m.log, e));
    forall j | 0 <= j < |m.decode.filters|
      ensures Watch(m1.log, Decoding, j) == ViewOf(m1.decode.filters[j], m1.decode.aborted)
    {
      assert Watch(m.log, Decoding, j) == ViewOf(m.decode.filters[j], m.decode.aborted);
    }
    forall j | 0 <= j < |m.encode.filters|
      ensures Watch(m1.log, Encoding, j) == ViewOf(m1.encode.filters[j], false)
    {
      assert Watch(m.log, Encoding, j) == ViewOf(m.encode.filters[j], false);
    }
    MaybeEndEncodeQuiet(o, m1, end);
  }

  predicate SameProgress(f: FilterState, g: FilterState) {
    g.processedHeaders == f.processedHeaders && g.headersContinued == f.headersContinued &&
    (g.iteration == Continue ==> f.iteration == Continue || g.headersContinued)
  }

  lemma {:induction false} RestingKept(m: Manager, r: Manager, p: nat, i: nat)
    requires Resting(m, p) && i < p && SameExcept(m.encode, r.encode, i)
    requires SameProgress(m.encode.filters[i], r.encode.filters[i])
    requires WatchCodec(r.log) == WatchCodec(m.log)
    ensures Resting(r, p)
  {}

  lemma {:induction false} TiedKept(m: Manager, r: Manager, i: nat)
    requires Tied(m) && i < |m.encode.filters| && SameExcept(m.encode, r.encode, i)
    requires r.log == m.log && r.decode == m.decode
    requires r.encode.filters[i].processedHeaders == m.encode.filters[i].processedHeaders
    requires r.encode.filters[i].endStream == m.encode.filters[i].endStream
    ensures Tied(r)
  {}

  lemma {:induction false} DataEntryTied(o: Oracle, m: Manager, i: nat, data: Payload, end: bool)
    requires Tied(m) && i < |m.encode.filters| && m.encode.filters[i].processedHeaders
    ensures var next := DataEntry(o, m, i, data, end);
            Tied(next.m) && WatchCodec(next.m.log) == WatchCodec(m.log)
            && SameProgress(m.encode.filters[i], next.m.encode.filters[i])
  {
    hide Tied, WatchCodec, DataEntry;
    var reply := DataAnswer(o, m, i, data, end);
    var m1 := DataStep(o, m, i, data, end);
    var next := DataEntry(o, m, i, data, end);
    if Skipped(m.encode.filters[i]) {
      TiedKept(m, next.m, i);
    } else {
      CalledTied(m, m1, i, Data(Encoding, i, end, reply.add, PayloadBytes(m.encode, data), data.Shared?),
                 reply.abortDecoding);
      TiedKept(m1, next.m, i);
    }
  }

  lemma {:induction false} DataEntryLawful(o: Oracle, m: Manager, p: nat, i: nat, data: Payload, end: bool)
    requires Resting(m, p) && Tied(m) && i < p
    ensures var next := DataEntry(o, m, i, data, end);
            Tied(next.m) && WatchCodec(next.m.log) == WatchCodec(m.log) &&
            Resting(next.m, p) &&
            (next.DataOnward? ==> Reached(next.m, p, i + 1) && next.m.encode.filters[i].headersContinued)
  {
    hide Tied, WatchCodec, DataEntry;
    DataEntryTied(o, m, i, data, end);
    RestingKept(m, DataEntry(o, m, i, data, end).m, p, i);
  }

  lemma {:induction false} StoppedLawful(m: Manager, p: nat, c: nat)
    requires Resting(m, p) && Tied(m) && c < p
    ensures Resting(Stopped(m, c), p) && Tied(Stopped(m, c))
  {}

  lemma {:induction false} HeadersLoopLawful(o: Oracle, m: Manager, i: nat, end: bool, cont: Option<nat>)
    returns (p: nat)
    requires Arriving(m, i) && Tied(m) && ValidFrom(m.encode, i, cont)
    ensures var r := HeadersLoop(o, m, i, end, cont); Resting(r, p) && Tied(r)
    decreases 3 * (|m.encode.filters| - FirstTouched(i, cont)) + 2, |m.encode.filters| - i
  {
    hide HeadersEntry, HeadersExit, Tied, Arriving, Resting;
    var next;
    if i == |m.encode.filters| {
      HeadersExitLawful(o, m, end, cont);
      next, p := HeadersExit(o, m, end, cont), i;
    } else {
      HeadersEntryLawful(o, m, i, end, cont);
      next, p := HeadersEntry(o, m, i, end, cont), i + 1;
    }
    match next
    case HeadersHalt(m1, None) =>
    case HeadersHalt(m1, Some(c)) =>
      StoppedLawful(m1, p, c);
      p := CommonContinueLawful(o, Stopped(m1, c), p, c);
    case HeadersOnward(m1, end', cont') => p := HeadersLoopLawful(o, m1, i + 1, end', cont');
  }

  lemma {:induction false} CommonContinueLawful(o: Oracle, m: Manager, p0: nat, k: nat) returns (p: nat)
    requires Resting(m, p0) && Tied(m) && k < |m.encode.filters| && m.encode.filters[k].Stopped()
    ensures var r := CommonContinue(o, m, k); Resting(r, p) && Tied(r)
    decreases 3 * (|m.encode.filters| - k) + 1, 1
  {
    hide Tied, ResumeHeaders, ResumeData;
    p := p0;
    if !m.encode.complete {
      p := ResumeHeadersLawful(o, m, p, k);
      var m1 := ResumeHeaders(o, m.(encode := AllowIteration(m.encode, k)), k);
      p := ResumeDataLawful(o, m1, p, k);
      var m2 := ResumeData(o, m1, k);
      var m3 := m2.(encode := LeaveCurrent(m2.encode, k));
      RestingKept(m2, m3, p, k);
      TiedKept(m2, m3, k);
    }
  }

  /** Filter k lets go of the headers it withheld. */
  function Released(m: Manager, k: nat): Manager
    requires k < |m.encode.filters| && m.encode.filters[k].Stopped()
  {
    m.(encode := ContinueHeaders(AllowIteration(m.encode, k), k))
  }

  lemma {:induction false} ReleasedArrives(m: Manager, p: nat, k: nat)
    requires Resting(m, p) && Tied(m) && k < |m.encode.filters|
    requires m.encode.filters[k].Stopped() && !m.encode.filters[k].headersContinued
    ensures Arriving(Released(m, k), k + 1) && Tied(Released(m, k))
  {
    TiedKept(m, Released(m, k), k);
    hide Tied, WatchCodec;
  }

  lemma {:induction false} ResumeHeadersLawful(o: Oracle, m: Manager, p0: nat, k: nat) returns (p: nat)
    requires Resting(m, p0) && Tied(m) && k < |m.encode.filters| && m.encode.filters[k].Stopped()
    ensures var r := ResumeHeaders(o, m.(encode := AllowIteration(m.encode, k)), k);
            Resting(r, p) && Tied(r) && k < p
    decreases 3 * (|m.encode.filters| - k) + 1, 0
  {
    hide Tied, HeadersLoop, WatchCodec;
    var m0 := m.(encode := AllowIteration(m.encode, k));
    if m.encode.filters[k].headersContinued {
      p := p0;
      RestingKept(m, m0, p, k);
      TiedKept(m, m0, k);
    } else {
      ReleasedArrives(m, p0, k);
      var m1, end := Released(m, k), m.encode.observedEnd && m.encode.buffer.None?;
      p := HeadersLoopLawful(o, m1, k + 1, end, None);
      assert HeadersLoop(o, m1, k + 1, end, None).encode.filters[k] == m1.encode.filters[k];
    }
  }

  lemma {:induction false} ResumeDataLawful(o: Oracle, m: Manager, p0: nat, k: nat) returns (p: nat)
    requires Resting(m, p0) && Tied(m) && k < p0 && m.encode.filters[k].headersContinued &&
             !m.encode.filters[k].Stopped()
    ensures var r := ResumeData(o, m, k); Resting(r, p) && Tied(r) && k < p
    decreases 3 * (|m.encode.filters| - k) + 1, 0
  {
    if m.encode.buffer.None? {
      p := p0;
    } else {
      p := DataLoopLawful(o, m, p0, if m.encode.filters[k].fromCurrent then k else k + 1, Shared, m.encode.observedEnd);
    }
  }

  lemma {:induction false} CodecDataLawful(o: Oracle, m: Manager, p: nat, data: Payload, end: bool)
    requires Resting(m, p) && Tied(m) && Reached(m, p, |m.encode.filters|)
    ensures var r := CodecDataStep(o, m, data, end); Resting(r, p) && Tied(r)
  {
    hide Tied, WatchCodec, MaybeEndEncode;
    var buffer := if data.Shared? && m.encode.buffer.Some? then Some([]) else m.encode.buffer;
    CodecStepTied(o, m, CodecData(PayloadBytes(m.encode, data), end), end, buffer);
  }

  lemma {:induction false} DataLoopLawful(o: Oracle, m: Manager, p0: nat, i: nat, data: Payload, end: bool)
    returns (p: nat)
    requires Resting(m, p0) && Tied(m) && Reached(m, p0, i)
    ensures var r := DataLoop(o, m, i, data, end); Resting(r, p) && Tied(r)
    decreases 3 * (|m.encode.filters| - i)
              + (if i < |m.encode.filters| && m.encode.filters[i].iteration == StopSingle then 2 else 0), 0
  {
    hide DataEntry, Tied, WatchCodec, MaybeEndEncode, Resting, CommonContinue;
    p := p0;
    if i == |m.encode.filters| {
      CodecDataLawful(o, m, p, data, end);
    } else {
      DataEntryLawful(o, m, p, i, data, end);
      match DataEntry(o, m, i, data, end)
      case DataHalt(m1) =>
      case DataResume(m1) => p := CommonContinueLawful(o, m1, p, i);
      case DataOnward(m1, left) => p := DataLoopLawful(o, m1, p, i + 1, left, end);
    }
  }
}
