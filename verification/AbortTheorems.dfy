/** What becomes of a response that a filter has aborted. No filter behind the one it stands at
    hears of it without a resume, but a resume does not ask whether it was aborted. */
module AbortTheorems {
  import opened FilterTypes
  import opened Protocol
  import opened EncoderProtocol
  import opened EncoderEnd
  import opened FilterRuns
  import E = EncoderChain

  /** How often encoder filter i was called. */
  function Calls(log: Log, i: nat): nat {
    match log
    case Empty => 0
    case After(before, Headers(Encoding, j, _, _, _)) => Calls(before, i) + (if i == j then 1 else 0)
    case After(before, Data(Encoding, j, _, _, _, _)) => Calls(before, i) + (if i == j then 1 else 0)
    case After(before, _) => Calls(before, i)
  }

  lemma CallsCalled(log: Log, call: Event, aborts: bool, i: nat)
    requires (call.Headers? || call.Data?) && call.dir == Encoding
    ensures Calls(AfterCall(log, call, aborts), i) == Calls(log, i) + (if i == call.index then 1 else 0)
  {
    var l1 := After(log, call);
    assert Calls(AfterWhen(aborts, l1, DecodingAborted), i) == Calls(l1, i);
  }

  lemma MaybeEndEncodeCalls(o: Oracle, m: Manager, end: bool, i: nat)
    ensures Calls(MaybeEndEncode(o, m, end).log, i) == Calls(m.log, i)
  {
    assert Calls(CompleteResponse(m).log, i) == Calls(m.log, i);
  }

  /** Only filters lo to hi were called, each at most so often, and no other was touched. */
  ghost predicate Confined(m: Manager, r: Manager, lo: nat, hi: nat, most: nat) {
    |r.encode.filters| == |m.encode.filters| && r.encode.aborted &&
    (forall j :: 0 <= j < |m.encode.filters| && !(lo <= j <= hi) ==> r.encode.filters[j] == m.encode.filters[j]) &&
    forall j: nat :: Calls(r.log, j) <= Calls(m.log, j) + (if lo <= j <= hi then most else 0)
  }

  lemma ConfinedTrans(m: Manager, r: Manager, t: Manager, lo: nat, hi: nat, a: nat, b: nat)
    requires Confined(m, r, lo, hi, a) && Confined(r, t, lo, hi, b)
    ensures Confined(m, t, lo, hi, a + b)
  {
    hide Calls;
  }

  /** Once a response is aborted, headers go no further than the next filter. */
  lemma {:induction false} HeadersHalted(o: Oracle, m: Manager, i: nat, end: bool)
    requires m.encode.aborted && i < |m.encode.filters|
    ensures var r := E.HeadersLoop(o, m, i, end, None);
            WatchCodec(r.log) == WatchCodec(m.log) && Confined(m, r, i, i, 1) &&
            r.encode.complete == m.encode.complete && (m.encode.buffer.Some? ==> r.encode.buffer.Some?)
  {
    var reply := E.HeadersAnswer(o, m, i, end);
    var call := Headers(Encoding, i, end, reply.add, HeadersStopIteration);
    var r := E.HeadersLoop(o, m, i, end, None);
    assert r == E.HeadersStep(o, m, i, end);
    hide E.HeadersLoop;
    WatchCodecCalled(m.log, call, reply.abortDecoding);
    forall j ensures Calls(r.log, j) == Calls(m.log, j) + (if j == i then 1 else 0) {
      CallsCalled(m.log, call, reply.abortDecoding, j);
    }
  }

  /** ... and so does data. */
  lemma {:induction false} DataHalted(o: Oracle, m: Manager, i: nat, data: Payload, end: bool)
    requires m.encode.aborted && i < |m.encode.filters|
    ensures var r := E.DataLoop(o, m, i, data, end);
            WatchCodec(r.log) == WatchCodec(m.log) && Confined(m, r, i, i, 1)
  {
    var r := E.DataLoop(o, m, i, data, end);
    assert E.DataEntry(o, m, i, data, end) == E.DataHalt(r);
    hide E.DataLoop, E.DataEntry;
    if !Skipped(m.encode.filters[i]) {
      var reply := E.DataAnswer(o, m, i, data, end);
      var call := Data(Encoding, i, end, reply.add, PayloadBytes(m.encode, data), data.Shared?);
      WatchCodecCalled(m.log, call, reply.abortDecoding);
      forall j ensures Calls(r.log, j) == Calls(m.log, j) + (if j == i then 1 else 0) {
        CallsCalled(m.log, call, reply.abortDecoding, j);
      }
    }
  }

  /** Resuming filter k lets something through to the codec. */
  predicate Releases(m: Manager, k: nat)
    requires k < |m.encode.filters|
  {
    var f := m.encode.filters[k];
    k + 1 == |m.encode.filters| && !m.encode.complete &&
    (!f.headersContinued || (m.encode.buffer.Some? && !f.StoppedAll()))
  }

  lemma {:induction false} ResumedHeaders(o: Oracle, m: Manager, k: nat)
    requires m.encode.aborted && k < |m.encode.filters| && m.encode.filters[k].Stopped()
    ensures var m0 := m.(encode := AllowIteration(m.encode, k));
            var r := E.ResumeHeaders(o, m0, k);
            Confined(m, r, k, k + 1, 1) && (m.encode.buffer.Some? ==> r.encode.buffer.Some?) &&
            if m.encode.filters[k].headersContinued then r == m0
            else if k + 1 < |m.encode.filters| then WatchCodec(r.log) == WatchCodec(m.log)
            else WatchCodec(r.log).calls == WatchCodec(m.log).calls + 1
  {
    hide E.ResumeHeaders, E.HeadersLoop, WatchCodec, Calls;
    var m0 := m.(encode := AllowIteration(m.encode, k));
    var end := m.encode.observedEnd && m.encode.buffer.None?;
    HeadersResumed(o, m0, k);
    if !m.encode.filters[k].headersContinued {
      var m1 := m0.(encode := ContinueHeaders(m0.encode, k));
      if k + 1 < |m.encode.filters| { HeadersHalted(o, m1, k + 1, end); } else { HeadersReleased(o, m1, end); }
    }
  }

  lemma HeadersResumed(o: Oracle, m: Manager, k: nat)
    requires k < |m.encode.filters|
    ensures E.ResumeHeaders(o, m, k) ==
              if m.encode.filters[k].headersContinued then m
              else E.HeadersLoop(o, m.(encode := ContinueHeaders(m.encode, k)), k + 1,
                                 m.encode.observedEnd && m.encode.buffer.None?, None)
  {
    hide E.HeadersLoop;
  }

  lemma {:induction false} HeadersReleased(o: Oracle, m: Manager, end: bool)
    ensures var r := E.HeadersLoop(o, m, |m.encode.filters|, end, None);
            WatchCodec(r.log).calls == WatchCodec(m.log).calls + 1 &&
            r.encode == m.encode.(complete := r.encode.complete) && forall j :: Calls(r.log, j) == Calls(m.log, j)
  {
    var m1 := m.(stream := m.stream.(sawReset := m.stream.sawReset || o.codecResets(m.log)),
                 log := After(m.log, CodecHeaders(end)));
    assert forall j :: Calls(m1.log, j) == Calls(m.log, j);
    Exited(o, m1, end);
  }

  /** What follows when something was handed to the codec calls no filter and tells it nothing. */
  lemma {:induction false} Exited(o: Oracle, m: Manager, end: bool)
    ensures var r := if m.stream.sawReset then m else MaybeEndEncode(o, m, end);
            WatchCodec(r.log) == WatchCodec(m.log) && forall j :: Calls(r.log, j) == Calls(m.log, j)
  {
    MaybeEndEncodeQuiet(o, m, end);
    forall j ensures Calls(MaybeEndEncode(o, m, end).log, j) == Calls(m.log, j) { MaybeEndEncodeCalls(o, m, end, j); }
  }

  lemma {:induction false} ResumedData(o: Oracle, m: Manager, k: nat)
    requires m.encode.aborted && k < |m.encode.filters| && !m.encode.filters[k].Stopped()
    ensures var r := E.ResumeData(o, m, k);
            Confined(m, r, k, k + 1, 1) &&
            if k + 1 < |m.encode.filters| || m.encode.filters[k].fromCurrent || m.encode.buffer.None? then
              WatchCodec(r.log) == WatchCodec(m.log)
            else WatchCodec(r.log).calls == WatchCodec(m.log).calls + 1
  {
    hide E.DataLoop, WatchCodec, Calls;
    if m.encode.buffer.Some? {
      var start := if m.encode.filters[k].fromCurrent then k else k + 1;
      var end := m.encode.observedEnd;
      if start < |m.encode.filters| { DataHalted(o, m, start, Shared, end); } else { DataReleased(o, m, end); }
    }
  }

  lemma {:induction false} DataReleased(o: Oracle, m: Manager, end: bool)
    requires m.encode.buffer.Some?
    ensures var r := E.DataLoop(o, m, |m.encode.filters|, Shared, end);
            WatchCodec(r.log).calls == WatchCodec(m.log).calls + 1 && r.encode.filters == m.encode.filters &&
            r.encode.aborted == m.encode.aborted && forall j :: Calls(r.log, j) == Calls(m.log, j)
  {
    var m1 := Manager(m.decode, m.encode.(buffer := Some([])),
                      m.stream.(sawReset := m.stream.sawReset || o.codecResets(m.log)),
                      After(m.log, CodecData(PayloadBytes(m.encode, Shared), end)));
    assert forall j :: Calls(m1.log, j) == Calls(m.log, j);
    Exited(o, m1, end);
  }

  /** A resume of an aborted response calls at most the resumed filter and the next, twice at
      most, and reaches the codec if and only if it releases something. */
  lemma {:induction false} ResumeCrawls(o: Oracle, m: Manager, k: nat)
    requires m.encode.aborted && k < |m.encode.filters| && m.encode.filters[k].Stopped() &&
             !m.encode.filters[k].fromCurrent
    ensures var r := E.CommonContinue(o, m, k);
            Confined(m, r, k, k + 1, 2) && (WatchCodec(r.log).calls > WatchCodec(m.log).calls <==> Releases(m, k)) &&
            (!Releases(m, k) ==> WatchCodec(r.log) == WatchCodec(m.log))
  {
    hide E.ResumeHeaders, E.ResumeData, WatchCodec, Calls, Confined;
    ConfinedSelf(m, k);
    if !m.encode.complete {
      var m1 := E.ResumeHeaders(o, m.(encode := AllowIteration(m.encode, k)), k);
      var m2 := E.ResumeData(o, m1, k);
      ResumedHeaders(o, m, k);
      ConfinedAborts(m, m1, k);
      ResumedData(o, m1, k);
      ConfinedTrans(m, m1, m2, k, k + 1, 1, 1);
      ConfinedLeft(m, m2, k);
    }
  }

  lemma ConfinedSelf(m: Manager, k: nat)
    requires m.encode.aborted
    ensures Confined(m, m, k, k + 1, 2)
  {}

  lemma ConfinedAborts(m: Manager, r: Manager, k: nat)
    requires Confined(m, r, k, k + 1, 1)
    ensures r.encode.aborted && |r.encode.filters| == |m.encode.filters|
  {}

  lemma ConfinedLeft(m: Manager, r: Manager, k: nat)
    requires Confined(m, r, k, k + 1, 2) && k < |r.encode.filters|
    ensures Confined(m, r.(encode := LeaveCurrent(r.encode, k)), k, k + 1, 2)
  {}

  /** What a step may do to an aborted response. */
  ghost predicate Crawls(m: Manager, r: Manager, s: Step) {
    var released := s.ResumeResponse? && s.k < |m.encode.filters| && Releases(m, s.k);
    r.encode.aborted && (WatchCodec(r.log).calls > WatchCodec(m.log).calls <==> released) &&
    (!released ==> WatchCodec(r.log) == WatchCodec(m.log)) &&
    match s
    case ResponseHeaders(_, _, _) => Confined(m, r, 0, 0, 1)
    case ResponseData(_, _, _) => Confined(m, r, 0, 0, 1)
    case ResumeResponse(k) => Confined(m, r, k, k + 1, 2)
    case AddResponseData(_, _) => r.encode.filters == m.encode.filters
    case _ => r.encode == m.encode
  }

  lemma {:induction false} ResponseHeadersCrawls(o: Oracle, m: Manager, from: nat, status: nat, end: bool)
    requires Inv(m) && m.encode.aborted && Enabled(m, ResponseHeaders(from, status, end))
    ensures Crawls(m, Apply(o, m, ResponseHeaders(from, status, end)), ResponseHeaders(from, status, end))
  {
    hide Tied, Ends, Sealed, ResponseStart, WatchCodec, WatchClose, Calls, E.HeadersLoop, RequestPlace, ResponsePlace;
    var m0 := m.(stream := m.stream.(responseStatus := Some(status)));
    var m1 := ResponseStart(m0, from, end);
    ResponseHeadersStarts(m, from, status, end);
    forall j ensures Calls(m1.log, j) == Calls(m.log, j) { StartCalls(m0, from, end, j); }
    HeadersHalted(o, m1, 0, end);
    ResponseHeadersApplied(o, m, from, status, end);
  }

  lemma StartCalls(m: Manager, from: nat, end: bool, j: nat)
    ensures Calls(ResponseStart(m, from, end).log, j) == Calls(m.log, j)
  {}

  lemma {:induction false} ResponseDataCrawls(o: Oracle, m: Manager, from: nat, bytes: Bytes, end: bool)
    requires Inv(m) && m.encode.aborted && Enabled(m, ResponseData(from, bytes, end))
    ensures Crawls(m, Apply(o, m, ResponseData(from, bytes, end)), ResponseData(from, bytes, end))
  {
    hide Tied, Ends, Sealed, ResponseDataStart, WatchCodec, WatchClose, Calls, E.DataLoop, Resting, RequestPlace,
         ResponsePlace;
    var m1 := ResponseDataStart(m, from, bytes, end);
    ghost var p := ResponseDataStarts(m, from, bytes, end);
    forall j ensures Calls(m1.log, j) == Calls(m.log, j) { DataStartCalls(m, from, bytes, end, j); }
    DataHalted(o, m1, 0, Own(bytes), end);
    ResponseDataApplied(o, m, from, bytes, end);
  }

  lemma DataStartCalls(m: Manager, from: nat, bytes: Bytes, end: bool, j: nat)
    ensures Calls(ResponseDataStart(m, from, bytes, end).log, j) == Calls(m.log, j)
  {}

  lemma {:induction false} StepCrawls(o: Oracle, m: Manager, s: Step)
    requires Inv(m) && m.encode.aborted && Enabled(m, s)
    ensures Crawls(m, Apply(o, m, s), s)
  {
    hide WatchCodec, Calls;
    match s
    case RequestHeaders(end) => RequestHeadersInv(o, m, end);
    case RequestData(bytes, end) => RequestDataInv(o, m, bytes, end);
    case AddRequestData(k, bytes) => AddRequestDataInv(o, m, k, bytes);
    case ResumeRequest(k) => ResumeRequestInv(o, m, k);
    case ResponseHeaders(from, status, end) => ResponseHeadersCrawls(o, m, from, status, end);
    case ResponseData(from, bytes, end) => ResponseDataCrawls(o, m, from, bytes, end);
    case AddResponseData(k, bytes) => ArrivedSound(m, Encoding, bytes);
    case ResumeResponse(k) => ResumeCrawls(o, m, k);
  }

  /** After the abort, on every run: a push calls the first filter only, a resume only its own
      filter and the next, and the codec hears of the response again if and only if the last
      filter is resumed while it withholds the headers, or with a body to go on with. */
  lemma {:induction false} AbortedResponseCrawls(
    o: Oracle, decoders: nat, encoders: nat, halfClose: bool, steps: seq<Step>, s: Step)
    requires var m := Run(o, Init(decoders, encoders, halfClose), steps); m.encode.aborted && Enabled(m, s)
    ensures var m := Run(o, Init(decoders, encoders, halfClose), steps); Crawls(m, Apply(o, m, s), s)
  {
    hide Inv, Run, Apply, Enabled, Crawls, Stays;
    InitInv(decoders, encoders, halfClose);
    RunInv(o, Init(decoders, encoders, halfClose), steps);
    StepCrawls(o, Run(o, Init(decoders, encoders, halfClose), steps), s);
  }

  /** So the codec hears nothing more as long as nobody resumes the last filter. */
  lemma {:induction false} AbortedResponseIsSilent(
    o: Oracle, decoders: nat, encoders: nat, halfClose: bool, steps: seq<Step>, more: seq<Step>)
    requires Run(o, Init(decoders, encoders, halfClose), steps).encode.aborted
    requires forall s :: s in more && s.ResumeResponse? ==> s.k + 1 != encoders
    ensures var m := Run(o, Init(decoders, encoders, halfClose), steps);
            WatchCodec(Run(o, m, more).log) == WatchCodec(m.log)
  {
    InitInv(decoders, encoders, halfClose);
    RunInv(o, Init(decoders, encoders, halfClose), steps);
    SilentFrom(o, Run(o, Init(decoders, encoders, halfClose), steps), more);
  }

  lemma {:induction false} SilentFrom(o: Oracle, m: Manager, more: seq<Step>)
    requires Inv(m) && m.encode.aborted
    requires forall s :: s in more && s.ResumeResponse? ==> s.k + 1 != |m.encode.filters|
    ensures WatchCodec(Run(o, m, more).log) == WatchCodec(m.log)
    decreases |more|
  {
    hide Inv, Apply, Enabled, WatchCodec, Calls;
    if more != [] {
      if Enabled(m, more[0]) {
        StepInv(o, m, more[0]);
        StepCrawls(o, m, more[0]);
        assert more[0] in more;
        SilentFrom(o, Apply(o, m, more[0]), more[1..]);
      } else {
        SilentFrom(o, m, more[1..]);
      }
    }
  }

  /** A filter that aborts the response when it sees its headers. */
  function HeadersAborter(): Oracle {
    Oracle((l, d, i, e) => HeadersReply(HeadersContinue, None, true, false),
           (l, d, i, b, e) => DataReply(DataContinue, None, None, false, false),
           l => false,
           l => CloseReply(false, false))
  }

  /** With that one filter, a resume carries the aborted response to the codec. */
  lemma {:induction false} AbortedResponseEscapes()
    ensures var steps := [RequestHeaders(true), ResponseHeaders(0, 200, false), ResumeResponse(0)];
            var m := Run(HeadersAborter(), Init(0, 1, true), steps);
            m.encode.aborted && WatchCodec(m.log).headers
  {
    hide Apply, Run, HeadersAborter;
    var o, m0 := HeadersAborter(), Init(0, 1, true);
    var m1 := Manager(Chain([], None, true, false, false), FreshChain(1), Stream(true, None, false, true), Empty);
    assert Apply(o, m0, RequestHeaders(true)) == m1 by { TakesRequest(o, 1); }
    var m2 := HeadersAbort(m1);
    var m3 := AbortedResumes(m2);
    RunThree(o, m0, RequestHeaders(true), ResponseHeaders(0, 200, false), ResumeResponse(0));
  }

  lemma HeadersAbort(m: Manager) returns (r: Manager)
    requires m == Manager(Chain([], None, true, false, false), FreshChain(1), Stream(true, None, false, true), Empty)
    ensures Apply(HeadersAborter(), m, ResponseHeaders(0, 200, false)) == r && !r.stream.sawReset
    ensures r.encode == Chain([FilterState(StopSingle, false, false, false, true)], None, false, false, true)
  {
    var m1 := m.(stream := m.stream.(responseStatus := Some(200)));
    r := E.HeadersStep(HeadersAborter(), m1, 0, false);
    assert r.encode.filters == [FilterState(StopSingle, false, false, false, true)];
  }

  lemma AbortedResumes(m: Manager) returns (r: Manager)
    requires m.encode == Chain([FilterState(StopSingle, false, false, false, true)], None, false, false, true)
    requires !m.stream.sawReset
    ensures Apply(HeadersAborter(), m, ResumeResponse(0)) == r && r.encode.aborted && WatchCodec(r.log).headers
  {
    var o := HeadersAborter();
    var m1 := m.(encode := m.encode.(filters := [FilterState(Continue, false, true, false, true)]),
                 log := After(m.log, CodecHeaders(false)));
    assert E.ResumeHeaders(o, m.(encode := AllowIteration(m.encode, 0)), 0) == m1;
    assert E.ResumeData(o, m1, 0) == m1;
    r := m1.(encode := LeaveCurrent(m1.encode, 0));
  }
}
