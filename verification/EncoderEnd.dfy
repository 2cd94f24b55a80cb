/** The codec is told of the end of the stream at most once, whatever the filters do. */
module EncoderEnd {
  import opened FilterTypes
  import opened ByteStreams
  import opened Protocol
  import opened EncoderChain
  import opened EncoderProtocol

  /** The stream was ended at most once, after the response was complete and, with
      half-close, after the request was complete or aborted. */
  ghost predicate Guarded(m: Manager) {
    var v := WatchClose(m.log);
    v.count <= 1 && v.encoded && (m.stream.halfClose ==> v.decoded) &&
    (v.count == 1 ==> m.encode.complete && (m.stream.halfClose ==> m.decode.complete || m.decode.aborted)) &&
    (m.encode.complete ==> WatchCodec(m.log).ended) && (WatchCodec(m.log).ended ==> m.encode.observedEnd) &&
    var w := WatchDone(m.log);
    w.response == m.encode.complete && (w.request ==> m.decode.complete) &&
    (w.response && Erroneous(m.stream.responseStatus) ==> w.requestOver) &&
    (m.decode.complete && !m.decode.aborted ==> w.request)
  }

  /** It was ended exactly when that was due. */
  ghost predicate Prompt(m: Manager) { WatchClose(m.log).count == 1 <==> Due(m.log, m.stream.halfClose) }

  ghost predicate Sealed(m: Manager) { Guarded(m) && Prompt(m) }

  /** A filter has seen the end only after the whole message arrived. */
  ghost predicate Ends(m: Manager) {
    Sealed(m) && forall j :: 0 <= j < |m.encode.filters| ==> m.encode.filters[j].endStream ==> m.encode.observedEnd
  }

  lemma {:induction false} CalledSealed(m: Manager, r: Manager, call: Event, aborts: bool)
    requires Sealed(m) && (call.Headers? || call.Data?) && r.log == AfterCall(m.log, call, aborts)
    requires r.stream == m.stream && r.encode.complete == m.encode.complete &&
             r.encode.observedEnd == m.encode.observedEnd
    requires r.decode == m.decode.(aborted := m.decode.aborted || aborts)
    ensures Sealed(r) && WatchClose(r.log) == WatchClose(m.log)
  {
    WatchCodecCalled(m.log, call, aborts);
  }

  lemma {:induction false} EndStreamSealed(o: Oracle, m: Manager)
    requires Guarded(m) && WatchClose(m.log).count == 0 && m.encode.complete
    requires m.stream.halfClose ==> m.decode.complete || m.decode.aborted
    ensures var r := EndStream(o, m);
            Guarded(r) && WatchClose(r.log).count == 1 && (Due(m.log, m.stream.halfClose) ==> Sealed(r))
  {
    var reply := o.close(m.log);
    var event := StreamEnded(m.encode.complete, m.decode.complete || m.decode.aborted);
    assert WatchClose(After(m.log, event)) == CloseView(1, true, WatchClose(m.log).decoded && event.decoded);
    assert WatchCodec(After(m.log, event)) == WatchCodec(m.log) && WatchDone(After(m.log, event)) == WatchDone(m.log);
    AbortGuarded(reply.abortsDecoding,
                 m.(stream := m.stream.(sawReset := m.stream.sawReset || reply.resets), log := After(m.log, event)));
  }

  lemma {:induction false} AbortGuarded(condition: bool, m: Manager)
    requires Guarded(m)
    ensures var r := AbortDecodingWhen(condition, m);
            Guarded(r) && WatchClose(r.log) == WatchClose(m.log) && WatchDone(r.log) == WatchDone(m.log) &&
            (Sealed(m) ==> Sealed(r))
  {
    assert WatchClose(After(m.log, DecodingAborted)) == WatchClose(m.log);
    assert WatchDone(After(m.log, DecodingAborted)) == WatchDone(m.log);
    assert WatchCodec(After(m.log, DecodingAborted)) == WatchCodec(m.log);
  }

  /** A close check ends the stream if and only if the response is complete and the request
      is complete, aborted, all in, or pointless because the status is below 100 or 300 and up. */
  lemma {:induction false} CheckAndCloseSealed(o: Oracle, m: Manager)
    requires Guarded(m) && WatchClose(m.log).count == 0 && m.stream.halfClose
    ensures WatchClose(CheckAndClose(o, m).log).count == 1 <==>
              m.encode.complete && (RequestOver(m) || Erroneous(m.stream.responseStatus))
    ensures Guarded(CheckAndClose(o, m))
    ensures (Due(m.log, true) <==> m.encode.complete && (RequestOver(m) || Erroneous(m.stream.responseStatus))) ==>
              Sealed(CheckAndClose(o, m))
  {
    hide Guarded, EndStream, WatchDone;
    var error := m.stream.responseStatus.Some? && IsErrorStatus(m.stream.responseStatus.value) && !m.decode.complete;
    AbortGuarded(error, m);
    var m1 := AbortDecodingWhen(error, m);
    var paused := m1.encode.complete && m1.decode.observedEnd && !m1.decode.complete && !m1.decode.aborted;
    AbortGuarded(paused, m1);
    var m2 := AbortDecodingWhen(paused, m1);
    if m2.encode.complete && (m2.decode.complete || m2.decode.aborted) {
      EndStreamSealed(o, m2);
    }
  }

  lemma {:induction false} MaybeEndEncodeSealed(o: Oracle, m: Manager, end: bool)
    requires Sealed(m) && (end ==> !m.encode.complete && WatchCodec(m.log).ended)
    ensures Sealed(MaybeEndEncode(o, m, end))
  {
    hide EndStream, CheckAndClose;
    if end {
      var m1 := CompleteResponse(m);
      assert WatchClose(m1.log) == WatchClose(m.log) && WatchCodec(m1.log) == WatchCodec(m.log);
      if m1.stream.halfClose { CheckAndCloseSealed(o, m1); } else { EndStreamSealed(o, m1); }
    }
  }

  /** What a response step may change outside its own chain: it can abort the request and
      see a reset, and it never takes either back. */
  ghost predicate Beside(m: Manager, r: Manager) {
    r.decode == m.decode.(aborted := m.decode.aborted || r.decode.aborted) &&
    r.stream == m.stream.(sawReset := m.stream.sawReset || r.stream.sawReset) &&
    Injected(r.log, |m.decode.filters|) == Injected(m.log, |m.decode.filters|) &&
    SameStream(m.log, r.log, Decoding)
  }

  lemma MaybeEndEncodeBeside(o: Oracle, m: Manager, end: bool)
    ensures Beside(m, MaybeEndEncode(o, m, end))
  {
    if end {
      var m1 := CompleteResponse(m);
      assert Beside(m, m1);
      CheckBeside(o, m1);
      hide CheckAndClose, EndStream;
    }
  }

  lemma AbortBeside(condition: bool, m: Manager)
    ensures Beside(m, AbortDecodingWhen(condition, m))
  {}

  lemma EndStreamBeside(o: Oracle, m: Manager)
    ensures Beside(m, EndStream(o, m))
  {
    var event := StreamEnded(m.encode.complete, m.decode.complete || m.decode.aborted);
    assert Injected(After(m.log, event), |m.decode.filters|) == Injected(m.log, |m.decode.filters|);
    EndStreamStream(o, m, Decoding);
  }

  lemma BesideTrans(m: Manager, r: Manager, t: Manager)
    requires Beside(m, r) && Beside(r, t)
    ensures Beside(m, t)
  {
    hide Injected;
  }

  lemma CheckBeside(o: Oracle, m: Manager)
    ensures Beside(m, CheckAndClose(o, m)) && Beside(m, EndStream(o, m))
  {
    hide Beside, EndStream, AbortDecodingWhen;
    var error := m.stream.responseStatus.Some? && IsErrorStatus(m.stream.responseStatus.value) && !m.decode.complete;
    AbortBeside(error, m);
    var m1 := AbortDecodingWhen(error, m);
    var paused := m1.encode.complete && m1.decode.observedEnd && !m1.decode.complete && !m1.decode.aborted;
    AbortBeside(paused, m1);
    var m2 := AbortDecodingWhen(paused, m1);
    BesideTrans(m, m1, m2);
    EndStreamBeside(o, m2);
    BesideTrans(m, m2, EndStream(o, m2));
    EndStreamBeside(o, m);
  }

  /** A filter's end-stream flag and an abort never go back to false, the shared buffer is never
      dropped, no filter is left marked as the one to start from, and a complete response does
      not end the stream again. */
  ghost predicate EndsKept(m: Manager, r: Manager) {
    |r.encode.filters| == |m.encode.filters| && Beside(m, r) &&
    r.encode.observedEnd == m.encode.observedEnd && (m.encode.buffer.Some? ==> r.encode.buffer.Some?) &&
    (forall j :: 0 <= j < |m.encode.filters| ==> m.encode.filters[j].endStream ==> r.encode.filters[j].endStream) &&
    (forall j :: 0 <= j < |m.encode.filters| ==> r.encode.filters[j].fromCurrent ==> m.encode.filters[j].fromCurrent) &&
    (m.encode.aborted ==> r.encode.aborted) && (r.encode.aborted ==> m.encode.aborted || m.encode.filters != []) &&
    (m.encode.complete ==> r.encode.complete && WatchClose(r.log) == WatchClose(m.log))
  }

  lemma {:induction false} DataEntryEnds(o: Oracle, m: Manager, i: nat, data: Payload, end: bool)
    requires Ends(m) && i < |m.encode.filters| && end == m.encode.observedEnd
    ensures var next := DataEntry(o, m, i, data, end);
            Ends(next.m) && EndsKept(m, next.m) &&
            (m.encode.observedEnd && !Skipped(m.encode.filters[i]) ==> next.m.encode.filters[i].endStream)
  {
    hide DataEntry, Sealed;
    var reply := DataAnswer(o, m, i, data, end);
    if Skipped(m.encode.filters[i]) {
      SealedKept(m, DataEntry(o, m, i, data, end).m);
    } else {
      var call := Data(Encoding, i, end, reply.add, PayloadBytes(m.encode, data), data.Shared?);
      CalledSealed(m, DataEntry(o, m, i, data, end).m, call, reply.abortDecoding);
      InjectedCalled(m.log, call, reply.abortDecoding, |m.decode.filters|);
      CalledStream(m.log, call, reply.abortDecoding, Decoding);
    }
  }

  lemma SealedKept(m: Manager, r: Manager)
    requires Sealed(m) && r.log == m.log && r.stream == m.stream && r.decode == m.decode
    requires r.encode.complete == m.encode.complete && r.encode.observedEnd == m.encode.observedEnd
    ensures Sealed(r)
  {}

  lemma EndsKeptTrans(m: Manager, r: Manager, t: Manager)
    requires EndsKept(m, r) && EndsKept(r, t)
    ensures EndsKept(m, t)
    ensures forall i :: Barred(m, i) ==> Barred(t, i)
    ensures forall i :: Barred(r, i) ==> Barred(t, i)
  {}

  ghost predicate Single(m: Manager) {
    var v := WatchCodec(m.log);
    v.single && (v.ended ==> m.encode.complete || m.stream.sawReset)
  }

  /** Data that sets out from filter i finds a filter that has already seen the end. */
  ghost predicate Barred(m: Manager, i: nat) {
    i < |m.encode.filters| && m.encode.filters[i].endStream
  }

  lemma LoggedBeside(m: Manager, r: Manager, e: Event)
    requires r.log == After(m.log, e) && (e.CodecHeaders? || e.CodecData?) && r.decode == m.decode
    requires r.stream == m.stream.(sawReset := m.stream.sawReset || r.stream.sawReset)
    ensures Beside(m, r)
  {}

  lemma {:induction false} CodecStepEnds(o: Oracle, m: Manager, e: Event, end: bool, buffer: Option<Bytes>)
    requires Tied(m) && Sealed(m) && (e.CodecHeaders? || e.CodecData?) && e.end == end
    requires e.CodecHeaders? ==> forall j :: 0 <= j < |m.encode.filters| ==> m.encode.filters[j].processedHeaders
    requires end ==> m.encode.observedEnd
    requires WatchCodec(m.log).single && !WatchCodec(m.log).ended
    ensures var m1 := Manager(m.decode, m.encode.(buffer := buffer),
                              m.stream.(sawReset := m.stream.sawReset || o.codecResets(m.log)), After(m.log, e));
            var r := if m1.stream.sawReset then m1 else MaybeEndEncode(o, m1, end);
            Single(r) && Sealed(r) && Beside(m, r) && WatchCodec(r.log).ended == end && r.encode.buffer == buffer
            && r.encode.filters == m.encode.filters && r.encode.observedEnd == m.encode.observedEnd
  {
    hide Tied, CheckAndClose, EndStream, CompleteResponse, Injected, Beside, Came, Shown, Onward;
    CodecStepTied(o, m, e, end, buffer);
    var m1 := Manager(m.decode, m.encode.(buffer := buffer),
                      m.stream.(sawReset := m.stream.sawReset || o.codecResets(m.log)), After(m.log, e));
    assert WatchClose(m1.log) == WatchClose(m.log) && WatchDone(m1.log) == WatchDone(m.log);
    assert Beside(m, m1) by { LoggedBeside(m, m1, e); }
    MaybeEndEncodeSealed(o, m1, end);
    MaybeEndEncodeBeside(o, m1, end);
    BesideTrans(m, m1, MaybeEndEncode(o, m1, end));
  }

  /** The headers loop may go on from here with end and cont. */
  ghost predicate Carrying(m: Manager, i: nat, end: bool, cont: Option<nat>) {
    ValidFrom(m.encode, i, cont) && Ends(m) &&
    (end ==> m.encode.observedEnd && (cont.None? ==> m.encode.buffer.None?)) &&
    (cont.Some? ==> m.encode.filters[cont.value].endStream)
  }

  lemma {:induction false} HeadersEntrySingle(o: Oracle, m: Manager, i: nat, end: bool, cont: Option<nat>)
    requires Carrying(m, i, end, cont) && i < |m.encode.filters| && m.encode.filters[i] == FRESH_FILTER
    ensures var next := HeadersEntry(o, m, i, end, cont);
            Ends(next.m) && EndsKept(m, next.m) &&
            (next.HeadersOnward? ==>
               Carrying(next.m, i + 1, next.end, next.cont) &&
               (next.end || next.cont.Some? ==> end || cont.Some?) &&
               (next.end && cont.None? ==> Barred(next.m, i)))
  {
    hide HeadersStep, Sealed, Injected, WatchClose, HeadersOutcome;
    HeadersStepSealed(o, m, i, end && cont.None?);
  }

  lemma {:induction false} HeadersStepSealed(o: Oracle, m: Manager, i: nat, end: bool)
    requires Sealed(m) && i < |m.encode.filters|
    ensures var r := HeadersStep(o, m, i, end);
            Sealed(r) && Beside(m, r) && WatchClose(r.log) == WatchClose(m.log) &&
            r.encode.complete == m.encode.complete
  {
    var reply := HeadersAnswer(o, m, i, end);
    var call := Headers(Encoding, i, end, reply.add, HeadersOutcome(o, m, i, end));
    CalledSealed(m, HeadersStep(o, m, i, end), call, reply.abortDecoding);
    InjectedCalled(m.log, call, reply.abortDecoding, |m.decode.filters|);
    CalledStream(m.log, call, reply.abortDecoding, Decoding);
  }

  lemma {:induction false} HeadersExitSingle(o: Oracle, m: Manager, end: bool, cont: Option<nat>)
    requires Arriving(m, |m.encode.filters|) && Tied(m) && Carrying(m, |m.encode.filters|, end, cont)
    ensures var next := HeadersExit(o, m, end, cont);
            Single(next.m) && Ends(next.m) && EndsKept(m, next.m) && next.m.encode.buffer == m.encode.buffer &&
            WatchCodec(next.m.log).ended == (end && cont.None?)
    ensures var next := HeadersExit(o, m, end, cont); end && cont.None? ==> next.resume.None?
  {
    hide Tied;
    CodecStepEnds(o, m, CodecHeaders(end && cont.None?), end && cont.None?, m.encode.buffer);
  }

  lemma {:induction false} HeadersLoopSingle(o: Oracle, m: Manager, i: nat, end: bool, cont: Option<nat>)
    requires Arriving(m, i) && Tied(m) && Carrying(m, i, end, cont)
    ensures var r := HeadersLoop(o, m, i, end, cont);
            Single(r) && Ends(r) && EndsKept(m, r) &&
            (WatchCodec(r.log).ended ==>
               (end || cont.Some?) && (r.encode.buffer.None? || Barred(r, FirstTouched(i, cont))))
    decreases 3 * (|m.encode.filters| - FirstTouched(i, cont)) + 2, |m.encode.filters| - i
  {
    hide HeadersEntry, HeadersExit, Tied, Resting, Arriving, WatchCodec, CommonContinue, SameBefore, EndsKept, Ends,
         Sealed;
    NotEnded(m, i);
    if i == |m.encode.filters| {
      HeadersExitedSingle(o, m, end, cont);
    } else {
      FreshAt(m, i);
      HeadersEntryLawful(o, m, i, end, cont);
      HeadersEntrySingle(o, m, i, end, cont);
      match HeadersEntry(o, m, i, end, cont)
      case HeadersHalt(m1, None) =>
      case HeadersHalt(m1, Some(c)) =>
        ResumedSingle(o, m, m1, i + 1, c);
      case HeadersOnward(m1, end', cont') =>
        HeadersLoopSingle(o, m1, i + 1, end', cont');
        EndsKeptTrans(m, m1, HeadersLoop(o, m1, i + 1, end', cont'));
    }
  }

  lemma {:induction false} HeadersExitedSingle(o: Oracle, m: Manager, end: bool, cont: Option<nat>)
    requires Arriving(m, |m.encode.filters|) && Tied(m) && Carrying(m, |m.encode.filters|, end, cont)
    ensures var r := HeadersLoop(o, m, |m.encode.filters|, end, cont);
            Single(r) && Ends(r) && EndsKept(m, r) &&
            (WatchCodec(r.log).ended ==>
               (end || cont.Some?) && (r.encode.buffer.None? || Barred(r, FirstTouched(|m.encode.filters|, cont))))
    decreases 3 * (|m.encode.filters| - FirstTouched(|m.encode.filters|, cont)) + 1, 3
  {
    HeadersExitLawful(o, m, end, cont);
    HeadersExitSingle(o, m, end, cont);
    hide HeadersExit, Tied, Resting, Arriving, WatchCodec, CommonContinue, SameBefore, EndsKept, Ends, Sealed;
    match HeadersExit(o, m, end, cont)
    case HeadersHalt(m1, None) =>
    case HeadersHalt(m1, Some(c)) => ResumedSingle(o, m, m1, |m.encode.filters|, c);
  }

  /** The manager resumes entry c itself. */
  lemma {:induction false} ResumedSingle(o: Oracle, m: Manager, m1: Manager, p: nat, c: nat)
    requires Resting(m1, p) && Tied(m1) && c < p && Ends(m1) && EndsKept(m, m1)
    requires WatchCodec(m1.log).single && !WatchCodec(m1.log).ended
    ensures var r := CommonContinue(o, Stopped(m1, c), c);
            Single(r) && Ends(r) && EndsKept(m, r) && (Barred(m, c) ==> Barred(r, c))
    decreases 3 * (|m1.encode.filters| - c) + 1, 2
  {
    StoppedLawful(m1, p, c);
    StoppedKept(m1, c);
    CommonContinueSingle(o, Stopped(m1, c), p, c);
    hide *;
    EndsKeptTrans(m1, Stopped(m1, c), CommonContinue(o, Stopped(m1, c), c));
    EndsKeptTrans(m, m1, CommonContinue(o, Stopped(m1, c), c));
  }

  lemma StoppedKept(m: Manager, c: nat)
    requires Ends(m) && c < |m.encode.filters|
    ensures Ends(Stopped(m, c)) && EndsKept(m, Stopped(m, c))
  {}

  lemma NotEnded(m: Manager, i: nat)
    requires Arriving(m, i)
    ensures WatchCodec(m.log).single && !WatchCodec(m.log).ended
  {}

  lemma FreshAt(m: Manager, i: nat)
    requires Arriving(m, i) && i < |m.encode.filters|
    ensures m.encode.filters[i] == FRESH_FILTER
  {}

  lemma {:induction false} CommonContinueSingle(o: Oracle, m: Manager, p: nat, k: nat)
    requires Resting(m, p) && Tied(m) && k < |m.encode.filters| && m.encode.filters[k].Stopped()
    requires Ends(m) && WatchCodec(m.log).single && (WatchCodec(m.log).ended ==> m.encode.complete)
    ensures var r := CommonContinue(o, m, k); Single(r) && Ends(r) && EndsKept(m, r)
    decreases 3 * (|m.encode.filters| - k) + 1, 1
  {
    hide Tied, ResumeHeaders, ResumeData, WatchCodec, WatchClose, Sealed, EndsKept, Resting, Injected;
    if m.encode.complete {
      assert EndsKept(m, m) by { EndsSelf(m); }
    } else {
      var m0 := m.(encode := AllowIteration(m.encode, k));
      var m1 := ResumeHeaders(o, m0, k);
      ghost var p1 := ResumeHeadersLawful(o, m, p, k);
      ResumeHeadersSingle(o, m, p, k);
      ResumeDataSingle(o, m1, p1, k);
      LeftKept(m, m1, ResumeData(o, m1, k), k);
    }
  }

  lemma EndsSelf(m: Manager)
    ensures EndsKept(m, m)
  {}

  /** Filter k is the one to start from only while it resumes. */
  lemma LeftKept(m: Manager, m1: Manager, m2: Manager, k: nat)
    requires k < |m.encode.filters| && m.encode.filters[k].Stopped()
    requires EndsKept(m.(encode := AllowIteration(m.encode, k)), m1) && EndsKept(m1, m2) && Ends(m2)
    ensures |m2.encode.filters| == |m.encode.filters|
    ensures var r := m2.(encode := LeaveCurrent(m2.encode, k)); Ends(r) && EndsKept(m, r)
  {
    hide WatchClose, WatchCodec, Injected;
  }

  lemma {:induction false} ResumeHeadersSingle(o: Oracle, m: Manager, p: nat, k: nat)
    requires Resting(m, p) && Tied(m) && k < |m.encode.filters| && m.encode.filters[k].Stopped()
    requires Ends(m) && WatchCodec(m.log).single && !WatchCodec(m.log).ended
    ensures var m0 := m.(encode := AllowIteration(m.encode, k));
            var r := ResumeHeaders(o, m0, k);
            Single(r) && Ends(r) && EndsKept(m0, r) &&
            (WatchCodec(r.log).ended ==> r.encode.buffer.None? || Barred(r, k + 1))
    decreases 3 * (|m.encode.filters| - k) + 1, 0
  {
    hide Tied, HeadersLoop, WatchCodec, WatchClose, Resting;
    if !m.encode.filters[k].headersContinued {
      ReleasedArrives(m, p, k);
      HeadersLoopSingle(o, Released(m, k), k + 1, m.encode.observedEnd && m.encode.buffer.None?, None);
    }
  }

  lemma {:induction false} ResumeDataSingle(o: Oracle, m: Manager, p: nat, k: nat)
    requires Resting(m, p) && Tied(m) && k < p && m.encode.filters[k].headersContinued && !m.encode.filters[k].Stopped()
    requires Ends(m) && Single(m)
    requires WatchCodec(m.log).ended ==> m.encode.buffer.None? || Barred(m, k + 1)
    ensures var r := ResumeData(o, m, k); Single(r) && Ends(r) && EndsKept(m, r)
    decreases 3 * (|m.encode.filters| - k) + 1, 0
  {
    hide Tied, DataLoop, WatchCodec;
    if m.encode.buffer.Some? {
      var start := if m.encode.filters[k].fromCurrent then k else k + 1;
      if WatchCodec(m.log).ended {
        BarredData(o, m, p, k, start, m.encode.observedEnd);
      } else {
        DataLoopSingle(o, m, p, start, Shared, m.encode.observedEnd);
      }
    }
  }

  lemma SharedStays(o: Oracle, m: Manager, i: nat, end: bool)
    requires i < |m.encode.filters|
    ensures var next := DataEntry(o, m, i, Shared, end); next.DataOnward? ==> next.data == Shared
  {}

  /** Behind a filter that has seen the end nothing reaches the codec. */
  lemma {:induction false} BarredData(o: Oracle, m: Manager, p: nat, k: nat, start: nat, end: bool)
    requires Resting(m, p) && Tied(m) && k < p && !m.encode.filters[k].Stopped() && Barred(m, k + 1)
    requires k <= start <= k + 1 && Ends(m) && end == m.encode.observedEnd
    ensures var r := DataLoop(o, m, start, Shared, end);
            WatchCodec(r.log) == WatchCodec(m.log) && r.encode.complete == m.encode.complete && r.stream == m.stream
            && Ends(r) && EndsKept(m, r)
    decreases k + 1 - start
  {
    hide Tied, WatchCodec, DataEntry, Sealed, Injected, Came, Shown, Onward, SameStream;
    if start == k {
      DataEntryLawful(o, m, p, k, Shared, end);
      DataEntryEnds(o, m, k, Shared, end);
      SharedStays(o, m, k, end);
      var next := DataEntry(o, m, k, Shared, end);
      if next.DataOnward? {
        BarredData(o, next.m, p, k, k + 1, end);
      }
    } else {
      DataEntryEnds(o, m, k + 1, Shared, end);
    }
  }

  lemma {:induction false} CodecDataSingle(o: Oracle, m: Manager, data: Payload, end: bool)
    requires Tied(m) && Ends(m) && WatchCodec(m.log).single && !WatchCodec(m.log).ended
    requires end ==> m.encode.observedEnd
    ensures var r := CodecDataStep(o, m, data, end); Single(r) && Ends(r) && EndsKept(m, r)
  {
    hide Tied, WatchCodec, WatchDone, MaybeEndEncode, Injected, Came, Shown, Onward, Prompt;
    var buffer := if data.Shared? && m.encode.buffer.Some? then Some([]) else m.encode.buffer;
    CodecStepEnds(o, m, CodecData(PayloadBytes(m.encode, data), end), end, buffer);
  }

  lemma {:induction false} DataLoopSingle(o: Oracle, m: Manager, p: nat, i: nat, data: Payload, end: bool)
    requires Resting(m, p) && Tied(m) && Reached(m, p, i) && Ends(m) && end == m.encode.observedEnd
    requires WatchCodec(m.log).single && !WatchCodec(m.log).ended
    ensures var r := DataLoop(o, m, i, data, end); Single(r) && Ends(r) && EndsKept(m, r)
    decreases 3 * (|m.encode.filters| - i)
              + (if i < |m.encode.filters| && m.encode.filters[i].iteration == StopSingle then 2 else 0), 0
  {
    hide DataEntry, Tied, Resting, WatchCodec, MaybeEndEncode, CommonContinue, SameBefore, Sealed, EndsKept, Beside;
    if i == |m.encode.filters| {
      CodecDataSingle(o, m, data, end);
    } else {
      DataEntryLawful(o, m, p, i, data, end);
      DataEntryEnds(o, m, i, data, end);
      match DataEntry(o, m, i, data, end)
      case DataHalt(m1) =>
      case DataResume(m1) =>
        CommonContinueSingle(o, m1, p, i);
        EndsKeptTrans(m, m1, CommonContinue(o, m1, i));
      case DataOnward(m1, left) =>
        DataLoopSingle(o, m1, p, i + 1, left, end);
        EndsKeptTrans(m, m1, DataLoop(o, m1, i + 1, left, end));
    }
  }
}
