/** Delivery of the end of the request, on every run of a stream. */
module RequestTheorems {
  import opened FilterTypes
  import opened Protocol
  import opened DecoderProtocol
  import opened DecoderDelivery
  import opened FilterRuns
  import EP = EncoderProtocol
  import D = DecoderChain

  ghost predicate Forwarding(m: Manager) {
    Flagged(m) && Clear(m.decode, 0) &&
    (!m.decode.aborted ==>
       Settled(m.decode, |m.decode.filters|) && HandedFrom(m, 0) && (m.decode.observedEnd ==> Got(m, 0)))
  }

  lemma ResponseForwarding(m: Manager, r: Manager)
    requires Forwarding(m) && RequestKept(m, r)
    ensures Forwarding(r)
  {}

  lemma {:induction false} RequestHeadersForwarding(o: Oracle, m: Manager, end: bool)
    requires Willing(o) && Inv(m) && Enabled(m, RequestHeaders(end))
    ensures Forwarding(Apply(o, m, RequestHeaders(end)))
  {
    hide EP.Tied, D.HeadersLoop, Sound, ResponsePlace;
    var m1 := m.(stream := m.stream.(hasRequest := true), decode := m.decode.(observedEnd := end));
    FreshFrom(m, 0);
    RequestStarts(m, end);
    HeadersLoopHands(o, m1, 0, end, None, false);
    ghost var p := HeadersLoopLawful(o, m1, 0, end, None, false);
  }

  lemma {:induction false} RequestDataForwarding(o: Oracle, m: Manager, bytes: Bytes, end: bool)
    requires Inv(m) && Willing(o) && Forwarding(m) && Enabled(m, RequestData(bytes, end))
    ensures Forwarding(Apply(o, m, RequestData(bytes, end)))
  {
    var m1 := m.(decode := m.decode.(observedEnd := end), log := After(m.log, Arrived(Decoding, bytes)));
    ghost var p0 := RequestDataStarts(m, bytes, end);
    hide Inv, D.DataLoop, Sound, Resting, Kept;
    if !m1.decode.aborted {
      DataLoopHands(o, m1, p0, 0, Own(bytes), end, false);
      ghost var p := DataLoopLawful(o, m1, p0, 0, Own(bytes), end, false);
      KeptRequest(m1, D.DataLoop(o, m1, 0, Own(bytes), end, false));
    }
  }

  lemma KeptRequest(m: Manager, r: Manager)
    requires Kept(m, r)
    ensures r.decode.observedEnd == m.decode.observedEnd && |r.decode.filters| == |m.decode.filters|
  {}

  lemma AddRequestDataForwarding(o: Oracle, m: Manager, k: nat, bytes: Bytes)
    requires Forwarding(m) && Enabled(m, AddRequestData(k, bytes))
    ensures Forwarding(Apply(o, m, AddRequestData(k, bytes)))
  {}

  lemma {:induction false} ResumeRequestForwarding(o: Oracle, m: Manager, k: nat)
    requires Inv(m) && Willing(o) && Forwarding(m) && Enabled(m, ResumeRequest(k)) && !Wedged(m.decode, k)
    ensures Forwarding(Apply(o, m, ResumeRequest(k)))
    ensures Apply(o, m, ResumeRequest(k)).decode.observedEnd == m.decode.observedEnd
  {
    assert m.stream.hasRequest;
    ghost var p0 :| Resting(m, p0);
    hide Sound, Resting, D.CommonContinue, ResponsePlace, EP.Tied;
    CommonContinueHands(o, m, p0, k);
    ghost var p := CommonContinueLawful(o, m, p0, k);
    HandedAcross(m, D.CommonContinue(o, m, k), k);
  }

  lemma HandedAcross(m: Manager, r: Manager, k: nat)
    requires k < |m.decode.filters| && Forwarding(m) && SameBefore(m.decode, r.decode, k) && Kept(m, r) && Orderly(r, k)
    requires !r.decode.aborted && m.decode.observedEnd && m.decode.filters[k].StoppedAll() ==> Got(r, k)
    ensures Forwarding(r)
  {
    if !r.decode.aborted {
      forall j | 0 <= j < k && r.decode.filters[j].endStream
        ensures r.decode.filters[j].Stopped() || Got(r, j + 1)
      {
        assert m.decode.filters[j].Stopped() || Got(m, j + 1);
      }
    }
  }

  lemma {:induction false} StepForwarding(o: Oracle, m: Manager, s: Step)
    requires Willing(o) && Inv(m) && Forwarding(m) && Enabled(m, s) && Unwedged(m, s, Decoding)
    ensures Forwarding(Apply(o, m, s))
  {
    hide Inv, Apply, Willing, Forwarding, Stays, RequestKept, Kept;
    match s
    case RequestHeaders(end) => RequestHeadersForwarding(o, m, end);
    case RequestData(bytes, end) => RequestDataForwarding(o, m, bytes, end);
    case AddRequestData(k, bytes) => AddRequestDataForwarding(o, m, k, bytes);
    case ResumeRequest(k) => ResumeRequestForwarding(o, m, k);
    case ResponseHeaders(from, status, end) =>
      ResponseHeadersInv(o, m, from, status, end);
      ResponseForwarding(m, Apply(o, m, s));
    case ResponseData(from, bytes, end) =>
      ResponseDataInv(o, m, from, bytes, end);
      ResponseForwarding(m, Apply(o, m, s));
    case AddResponseData(k, bytes) =>
      AddResponseDataInv(o, m, k, bytes);
      ResponseForwarding(m, Apply(o, m, s));
    case ResumeResponse(k) =>
      ResumeResponseInv(o, m, k);
      ResponseForwarding(m, Apply(o, m, s));
  }

  lemma {:induction false} RunForwarding(o: Oracle, m: Manager, steps: seq<Step>)
    requires Willing(o) && Inv(m) && Forwarding(m) && NeverWedged(o, m, steps, Decoding)
    ensures Forwarding(Run(o, m, steps))
    decreases |steps|
  {
    hide Inv, Forwarding, Apply, Enabled, Willing, Stays;
    if steps != [] {
      if Enabled(m, steps[0]) {
        StepInv(o, m, steps[0]);
        StepForwarding(o, m, steps[0]);
        RunForwarding(o, Apply(o, m, steps[0]), steps[1..]);
      } else {
        RunForwarding(o, m, steps[1..]);
      }
    }
  }

  predicate AnyStopped(m: Manager) {
    exists k :: 0 <= k < |m.decode.filters| && m.decode.filters[k].Stopped()
  }

  /** Completion of the request, for all filters: once the last decoder filter has seen the end
      and while decoding is not aborted, the chain is complete if and only if that filter did
      not inject a body into headers that ended the request. */
  lemma {:induction false} RequestCompletesIff(
    o: Oracle, decoders: nat, encoders: nat, halfClose: bool, steps: seq<Step>)
    ensures var m := Run(o, Init(decoders, encoders, halfClose), steps);
            decoders > 0 && Watch(m.log, Decoding, decoders - 1).ended && !m.decode.aborted ==>
              (m.decode.complete <==> !Injected(m.log, decoders))
  {
    InitInv(decoders, encoders, halfClose);
    RunInv(o, Init(decoders, encoders, halfClose), steps);
    hide Run, Watch, Injected;
  }

  /** When the whole request has come in, decoding was not aborted and every decoder filter
      that stopped has resumed, every filter has seen the end exactly once and had its complete
      callback, and the chain is complete if and only if the last one injected no body. */
  lemma {:induction false} RequestEndIsDeliveredOnce(
    o: Oracle, decoders: nat, encoders: nat, halfClose: bool, steps: seq<Step>)
    requires Willing(o) && NeverWedged(o, Init(decoders, encoders, halfClose), steps, Decoding)
    ensures var m := Run(o, Init(decoders, encoders, halfClose), steps);
            m.decode.observedEnd && !m.decode.aborted && !AnyStopped(m) ==>
              (forall j :: 0 <= j < decoders ==> Watch(m.log, Decoding, j) == View(true, true, true, false, true)) &&
              (decoders > 0 ==> (m.decode.complete <==> !Injected(m.log, decoders)))
  {
    var m0 := Init(decoders, encoders, halfClose);
    InitInv(decoders, encoders, halfClose);
    assert Forwarding(m0);
    RunForwarding(o, m0, steps);
    RunInv(o, m0, steps);
    hide Run, Watch, Injected;
    var m := Run(o, m0, steps);
    if m.decode.observedEnd && !m.decode.aborted && !AnyStopped(m) {
      HandedToAll(m, 0);
    }
  }

  /** A filter that adds a body to a bodyless request and passes it on. */
  function BodyInjector(): Oracle {
    Oracle((l, d, i, e) => HeadersReply(HeadersContinue, Some([1]), false, false),
           (l, d, i, b, e) => DataReply(DataContinue, None, None, false, false),
           l => false,
           l => CloseReply(false, false))
  }

  /** With that one filter the request is never complete, although it is all in, nothing is
      stopped and nothing aborted. */
  lemma {:induction false} CompletionIsLost()
    ensures var m := Run(BodyInjector(), Init(1, 0, true), [RequestHeaders(true)]);
            Willing(BodyInjector()) && m.decode.observedEnd && !m.decode.aborted && !AnyStopped(m) &&
            Watch(m.log, Decoding, 0) == View(true, true, true, false, true) &&
            Injected(m.log, 1) && !m.decode.complete
  {
    var o, m, s := BodyInjector(), Init(1, 0, true), RequestHeaders(true);
    var m1 := m.(stream := m.stream.(hasRequest := true), decode := m.decode.(observedEnd := true));
    var f := FilterState(Continue, false, true, true, true);
    var l := After(After(Empty, Headers(Decoding, 0, true, Some([1]), HeadersContinue)), Complete(Decoding, 0));
    var m2 := m1.(decode := Chain([f], Some([1]), true, false, false), log := l);
    assert m1.decode.filters[0 := f] == [f];
    var empty: Bytes := [];
    assert empty + [1] == [1];
    assert D.HeadersStep(o, m1, 0, true) == m2;
    assert D.HeadersEntry(o, m1, 0, true, None) == D.HeadersOnward(m2, true, Some(0), false);
    InjectedResumes(o, m2);
    assert [s][1..] == [];
    assert Run(o, m, [s]) == Run(o, Apply(o, m, s), []);
  }

  lemma InjectedResumes(o: Oracle, m: Manager)
    requires m.decode == Chain([FilterState(Continue, false, true, true, true)], Some([1]), true, false, false)
    ensures D.HeadersLoop(o, m, 1, true, Some(0), false) == m
  {
    var m1 := D.Stopped(m, 0);
    var m2 := m1.(decode := AllowIteration(m1.decode, 0));
    assert m2.decode.filters == m.decode.filters;
    assert D.ResumeHeaders(o, m2, 0) == m2;
    assert D.DataLoop(o, m2, 1, Shared, true, false) == m2;
    assert LeaveCurrent(m2.decode, 0).filters == m.decode.filters;
    assert D.CommonContinue(o, m1, 0) == m;
  }

  /** The exact condition, where the filter behind the resumed one has yet to see the end. */
  lemma {:induction false} RequestResumeDeliversIff(o: Oracle, m: Manager, k: nat)
    requires Willing(o) && Inv(m) && Forwarding(m) && Enabled(m, ResumeRequest(k)) && m.decode.observedEnd
    requires k + 1 < |m.decode.filters| && !m.decode.filters[k + 1].endStream && !m.decode.aborted
    requires var r := Apply(o, m, ResumeRequest(k)); !r.decode.aborted && !AnyStopped(r)
    ensures var r := Apply(o, m, ResumeRequest(k));
            (forall j :: 0 <= j < |r.decode.filters| ==> r.decode.filters[j].endStream) <==> !Wedged(m.decode, k)
  {
    if Wedged(m.decode, k) {
      WedgeLosesRequestEnd(o, m, k);
    } else {
      ResumeRequestForwarding(o, m, k);
      HandedToAll(Apply(o, m, ResumeRequest(k)), 0);
    }
  }

  /** ... and so on every run that met no wedge before. */
  lemma {:induction false} RequestEndIsLostIffWedged(
    o: Oracle, decoders: nat, encoders: nat, halfClose: bool, steps: seq<Step>, k: nat)
    requires Willing(o) && NeverWedged(o, Init(decoders, encoders, halfClose), steps, Decoding)
    requires var m := Run(o, Init(decoders, encoders, halfClose), steps);
             Enabled(m, ResumeRequest(k)) && m.decode.observedEnd && !m.decode.aborted &&
             k + 1 < decoders && !Watch(m.log, Decoding, k + 1).ended &&
             var r := Apply(o, m, ResumeRequest(k)); !r.decode.aborted && !AnyStopped(r)
    ensures var m := Run(o, Init(decoders, encoders, halfClose), steps);
            var r := Apply(o, m, ResumeRequest(k));
            (forall j :: 0 <= j < decoders ==> Watch(r.log, Decoding, j).ended) <==> !Wedged(m.decode, k)
  {
    hide Run, Watch, NeverWedged, Willing, Apply, Enabled, Inv, Forwarding, Stays;
    var m0 := Init(decoders, encoders, halfClose);
    InitInv(decoders, encoders, halfClose);
    InitForwarding(decoders, encoders, halfClose);
    RunForwarding(o, m0, steps);
    RunInv(o, m0, steps);
    var m := Run(o, m0, steps);
    var r := Apply(o, m, ResumeRequest(k));
    StepInv(o, m, ResumeRequest(k));
    FiltersCount(m0, m, r);
    EndsWatched(m);
    EndsWatched(r);
    RequestResumeDeliversIff(o, m, k);
  }

  lemma InitForwarding(decoders: nat, encoders: nat, halfClose: bool)
    ensures Forwarding(Init(decoders, encoders, halfClose))
  {}

  lemma FiltersCount(m0: Manager, m: Manager, r: Manager)
    requires Stays(m0, m) && Stays(m, r)
    ensures |m0.decode.filters| == |m.decode.filters| == |r.decode.filters|
  {}

  /** The log says who has seen the end. */
  lemma EndsWatched(m: Manager)
    requires Inv(m)
    ensures forall j :: 0 <= j < |m.decode.filters| ==> Watch(m.log, Decoding, j).ended == m.decode.filters[j].endStream
    ensures (forall j :: 0 <= j < |m.decode.filters| ==> Watch(m.log, Decoding, j).ended) <==>
            (forall j :: 0 <= j < |m.decode.filters| ==> m.decode.filters[j].endStream)
  {
    hide Watch;
    assert forall j :: 0 <= j < |m.decode.filters| ==>
      Watch(m.log, Decoding, j) == EP.ViewOf(m.decode.filters[j], m.decode.aborted);
    forall j | 0 <= j < |m.decode.filters|
      ensures Watch(m.log, Decoding, j).ended == m.decode.filters[j].endStream
    {}
  }

  /** The first of two filters stops everything on the headers of a bodyless request and adds
      a body. */
  function RequestAdder(): Oracle {
    Oracle((l, d, i, e) => if i == 0 then HeadersReply(HeadersStopAllAndBuffer, Some([1]), false, false)
                           else HeadersReply(HeadersContinue, None, false, false),
           (l, d, i, b, e) => DataReply(DataContinue, None, None, false, false),
           l => false,
           l => CloseReply(false, false))
  }

  /** Once it has resumed nothing is stopped, the body is still in the buffer, and the second
      filter has not seen the end. */
  lemma {:induction false} RequestWedgeIsReachable()
    ensures var o, steps := RequestAdder(), [RequestHeaders(true), ResumeRequest(0)];
            var m := Run(o, Init(2, 0, true), steps);
            Willing(o) && m.decode.observedEnd && !m.decode.aborted && m.decode.buffer == Some([1]) && !AnyStopped(m) &&
            !Watch(m.log, Decoding, 1).ended
  {
    hide Apply, Watch, Run;
    var m1 := RequestStopped(Init(2, 0, true));
    var m2 := RequestResumed(m1);
    RunTwo(RequestAdder(), Init(2, 0, true), RequestHeaders(true), ResumeRequest(0));
  }

  lemma RequestStopped(m: Manager) returns (r: Manager)
    requires m == Init(2, 0, true)
    ensures Apply(RequestAdder(), m, RequestHeaders(true)) == r && r.stream == m.stream.(hasRequest := true)
    ensures r.decode == Chain([FilterState(StopAllBuffer, false, false, true, true), FRESH_FILTER], Some([1]), true,
                              false, false)
    ensures Watch(r.log, Decoding, 1) == View(false, false, false, false, true)
  {
    var m1 := m.(stream := m.stream.(hasRequest := true), decode := m.decode.(observedEnd := true));
    var f := FilterState(StopAllBuffer, false, false, true, true);
    var empty: Bytes := [];
    assert empty + [1] == [1];
    r := D.HeadersStep(RequestAdder(), m1, 0, true);
    assert r.decode.filters == [f, FRESH_FILTER];
    assert D.HeadersEntry(RequestAdder(), m1, 0, true, None) == D.HeadersHalt(r);
  }

  lemma RequestResumed(m: Manager) returns (r: Manager)
    requires m.decode == Chain([FilterState(StopAllBuffer, false, false, true, true), FRESH_FILTER], Some([1]), true,
                               false, false)
    requires !m.stream.sawReset && Watch(m.log, Decoding, 1) == View(false, false, false, false, true)
    ensures Apply(RequestAdder(), m, ResumeRequest(0)) == r && !Watch(r.log, Decoding, 1).ended
    ensures r.decode.observedEnd && !r.decode.aborted && r.decode.buffer == Some([1]) && !AnyStopped(r)
  {
    var o := RequestAdder();
    var m0 := m.(decode := ContinueHeaders(AllowIteration(m.decode, 0), 0));
    var m1 := D.HeadersStep(o, m0, 1, false);
    assert D.HeadersEntry(o, m0, 1, false, None) == D.HeadersOnward(m1, false, None, false);
    assert D.HeadersLoop(o, m1, 2, false, None, false) == m1;
    assert D.HeadersLoop(o, m0, 1, false, None, false) == m1;
    assert D.ResumeHeaders(o, m.(decode := AllowIteration(m.decode, 0)), 0) == m1;
    assert m1.decode.filters[0] == FilterState(Continue, true, true, true, true);
    BarredAt(o, m1, 0);
    assert D.ResumeData(o, m1, 0) == m1;
    r := m1.(decode := LeaveCurrent(m1.decode, 0));
  }

  /** Whatever the filters do, a wedged resume does not show the end to the next filter. */
  lemma {:induction false} WedgeLosesRequestEnd(o: Oracle, m: Manager, k: nat)
    requires k + 1 < |m.decode.filters| && m.decode.filters[k].Stopped() && Wedged(m.decode, k) &&
             !m.decode.filters[k + 1].endStream
    ensures !D.CommonContinue(o, m, k).decode.filters[k + 1].endStream
  {
    if !m.decode.aborted {
      var m0 := m.(decode := AllowIteration(m.decode, k));
      var m1 := D.ResumeHeaders(o, m0, k);
      assert !m1.decode.filters[k + 1].endStream by {
        if !m.decode.filters[k].headersContinued { HeadersWithoutEnd(o, Released(m, k), k + 1); }
      }
      hide D.ResumeHeaders;
      BarredAt(o, m1, k);
      assert D.ResumeData(o, m1, k) == m1;
    }
  }

  lemma {:induction false} HeadersWithoutEnd(o: Oracle, m: Manager, i: nat)
    requires i < |m.decode.filters|
    ensures !D.HeadersLoop(o, m, i, false, None, false).decode.filters[i].endStream
  {
    hide D.HeadersLoop;
    match D.HeadersEntry(o, m, i, false, None)
    case HeadersHalt(m1) =>
      assert D.HeadersLoop(o, m, i, false, None, false) == m1 by { HeadersTurn(o, m, i); }
    case HeadersOnward(m1, end', cont', terminal) =>
      assert D.HeadersLoop(o, m, i, false, None, false) == D.HeadersLoop(o, m1, i + 1, false, None, terminal) by {
        HeadersTurn(o, m, i);
      }
  }

  lemma HeadersTurn(o: Oracle, m: Manager, i: nat)
    requires i < |m.decode.filters|
    ensures D.HeadersLoop(o, m, i, false, None, false) ==
              match D.HeadersEntry(o, m, i, false, None)
              case HeadersHalt(m1) => m1
              case HeadersOnward(m1, _, _, terminal) => D.HeadersLoop(o, m1, i + 1, false, None, terminal)
  {}

  lemma BarredAt(o: Oracle, m: Manager, k: nat)
    requires k < |m.decode.filters| && m.decode.filters[k].endStream && !m.decode.filters[k].StoppedAll()
    ensures D.DataLoop(o, m, k, Shared, m.decode.observedEnd, false) == m
  {}
}
