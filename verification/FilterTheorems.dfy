/** What holds of every run of a stream from its creation. */
module FilterTheorems {
  import opened FilterTypes
  import opened ByteStreams
  import opened Protocol
  import opened EncoderProtocol
  import opened EncoderEnd
  import opened EncoderDelivery
  import opened EncoderConservation
  import opened FilterRuns
  import E = EncoderChain
  import D = DecoderChain
  import DP = DecoderProtocol

  ghost predicate ContinuedAll(fs: seq<FilterState>) {
    forall j :: 0 <= j < |fs| ==> fs[j].processedHeaders && fs[j].iteration == Continue ==> fs[j].headersContinued
  }

  /** Order. Every filter, in both directions, gets headers once and before any data, nothing
      after the end of the stream, one complete callback and only after the end, and a decoder
      filter nothing once decoding was aborted. The codec gets headers once and before data,
      and nothing after the end. Headers reach a filter after all those before it, and the codec
      after all filters. A filter that let the iteration continue has passed its headers on. */
  lemma {:induction false} EveryRunIsOrderly(o: Oracle, decoders: nat, encoders: nat, halfClose: bool, steps: seq<Step>)
    ensures var m := Run(o, Init(decoders, encoders, halfClose), steps);
            |m.decode.filters| == decoders && |m.encode.filters| == encoders &&
            (forall j :: 0 <= j < decoders ==> Watch(m.log, Decoding, j).ok) &&
            (forall j :: 0 <= j < encoders ==> Watch(m.log, Encoding, j).ok) &&
            WatchCodec(m.log).ordered && WatchCodec(m.log).single
    ensures InChain(Run(o, Init(decoders, encoders, halfClose), steps).log, encoders)
    ensures var m := Run(o, Init(decoders, encoders, halfClose), steps);
            forall f :: f in m.decode.filters + m.encode.filters ==>
              f.processedHeaders && f.iteration == Continue ==> f.headersContinued
  {
    var m0 := Init(decoders, encoders, halfClose);
    InitInv(decoders, encoders, halfClose);
    RunInv(o, m0, steps);
    var m := Run(o, m0, steps);
    hide Run, WatchCodec, WatchClose, Watch, InChain;
    if m.stream.responseStatus.Some? {
      var p :| Resting(m, p);
      assert ContinuedAll(m.encode.filters);
    }
    if m.stream.hasRequest {
      var q :| DP.Resting(m, q);
      assert ContinuedAll(m.decode.filters);
    }
  }

  /** Closure. The stream is ended at most once, with the response complete and, under
      half-close, the request complete or aborted. It is ended if and only if that is due: without
      half-close when the response has been completed; with it, when the response has been completed
      and the request either was complete, aborted or all in at that time, or the response an
      error, or was completed since without being aborted. As long as the request is not
      aborted that means that both are complete. */
  lemma {:induction false} EveryRunClosesOnce(
    o: Oracle, decoders: nat, encoders: nat, halfClose: bool, steps: seq<Step>)
    ensures var v := WatchClose(Run(o, Init(decoders, encoders, halfClose), steps).log);
            v.count <= 1 && v.encoded && (halfClose ==> v.decoded)
    ensures var m := Run(o, Init(decoders, encoders, halfClose), steps);
            (WatchClose(m.log).count == 1 <==> Due(m.log, halfClose)) &&
            (WatchDone(m.log).response <==> m.encode.complete) &&
            (halfClose && !m.decode.aborted ==>
             (WatchClose(m.log).count == 1 <==> m.encode.complete && m.decode.complete)) &&
            (m.encode.complete && m.stream.responseStatus.Some? && !(100 <= m.stream.responseStatus.value < 300) ==>
             WatchClose(m.log).count == 1)
  {
    var m0 := Init(decoders, encoders, halfClose);
    InitInv(decoders, encoders, halfClose);
    RunInv(o, m0, steps);
    hide Run, WatchCodec, WatchClose;
  }

  /** From any reachable state on, in any further run, a filter that has seen the end stays
      ended and an aborted direction stays aborted. Once the response is complete and the
      request aborted, a stream that has not been ended never will be. */
  lemma {:induction false} EndAndAbortAreFinal(
    o: Oracle, decoders: nat, encoders: nat, halfClose: bool, steps: seq<Step>, more: seq<Step>)
    ensures var m := Run(o, Init(decoders, encoders, halfClose), steps); Stays(m, Run(o, m, more))
  {
    InitInv(decoders, encoders, halfClose);
    RunInv(o, Init(decoders, encoders, halfClose), steps);
    RunInv(o, Run(o, Init(decoders, encoders, halfClose), steps), more);
  }

  /** Without half-close the request is cut off once the response has come to its end; with
      it, a filter other than the last that ends the response cuts it off. */
  lemma {:induction false} EarlyEndAborts(
    o: Oracle, decoders: nat, encoders: nat, halfClose: bool, steps: seq<Step>, s: Step)
    requires var m := Run(o, Init(decoders, encoders, halfClose), steps);
             Enabled(m, s) && (s.ResponseHeaders? || s.ResponseData?) && s.end && !m.decode.complete
    requires halfClose ==> s.from + 1 != decoders
    ensures Apply(o, Run(o, Init(decoders, encoders, halfClose), steps), s).decode.aborted
  {
    var m0 := Init(decoders, encoders, halfClose);
    InitInv(decoders, encoders, halfClose);
    RunInv(o, m0, steps);
    var m := Run(o, m0, steps);
    StepInv(o, m, s);
    hide Run, E.HeadersLoop, E.DataLoop, WatchCodec, WatchClose;
    if s.ResponseHeaders? {
      ResponseHeadersAborts(o, m, s.from, s.status);
    } else {
      ResponseDataAborts(o, m, s.from, s.bytes);
    }
  }

  lemma {:induction false} ResponseHeadersAborts(o: Oracle, m: Manager, from: nat, status: nat)
    requires Inv(m) && Enabled(m, ResponseHeaders(from, status, true)) && !m.decode.complete
    requires m.stream.halfClose ==> from + 1 != |m.decode.filters|
    ensures Apply(o, m, ResponseHeaders(from, status, true)).decode.aborted
  {
    var m0 := m.(stream := m.stream.(responseStatus := Some(status)));
    assert Tied(m0);
    ResponseStarts(m0, from, true);
    var m1 := ResponseStart(m0, from, true);
    assert m1.decode.aborted;
    hide Tied, Sealed, WatchCodec, WatchClose, Sunk, Input, Came, Shown, Onward, E.HeadersLoop, E.Prefix, StopDecoding;
    HeadersLoopSingle(o, m1, 0, true, None);
  }

  lemma {:induction false} ResponseDataAborts(o: Oracle, m: Manager, from: nat, bytes: Bytes)
    requires Inv(m) && Enabled(m, ResponseData(from, bytes, true)) && !m.decode.complete
    requires m.stream.halfClose ==> from + 1 != |m.decode.filters|
    ensures Apply(o, m, ResponseData(from, bytes, true)).decode.aborted
  {
    hide Tied, Sealed, WatchCodec, WatchClose, Sunk, Input, Came, Shown, Onward, Injected, E.DataLoop,
         ResponseDataStart,
         Resting, RequestPlace, ResponsePlace, Apply;
    var m1 := ResponseDataStart(m, from, bytes, true);
    ghost var p := ResponseDataStarts(m, from, bytes, true);
    DataStartAborts(m, from, bytes);
    ResponseDataApplied(o, m, from, bytes, true);
    DataLoopSingle(o, m1, p, 0, Own(bytes), true);
  }

  lemma DataStartAborts(m: Manager, from: nat, bytes: Bytes)
    requires !m.decode.complete && (m.stream.halfClose ==> from + 1 != |m.decode.filters|)
    ensures ResponseDataStart(m, from, bytes, true).decode.aborted
  {}

  // Conservation over runs.

  ghost predicate Ledger(m: Manager) { Accounted(m, []) && Parked(m, 0) }

  lemma ParkedFirst(m: Manager, k: nat)
    requires Parked(m, k)
    ensures Parked(m, 0)
  {}

  lemma {:induction false} RequestLedger(m: Manager, r: Manager)
    requires Ledger(m) && DP.Kept(m, r)
    ensures Ledger(r)
  {
    hide WatchCodec, Sunk, Input, Came, Shown, Onward;
  }

  lemma NothingBuffered(m: Manager)
    requires ResponsePlace(m) && m.stream.responseStatus.None?
    ensures m.encode.buffer.None? && !m.encode.observedEnd
  {}

  lemma {:induction false} ResponseHeadersLedger(o: Oracle, m: Manager, from: nat, status: nat, end: bool)
    requires Faithful(o) && Inv(m) && Ledger(m) && Enabled(m, ResponseHeaders(from, status, end))
    ensures Ledger(Apply(o, m, ResponseHeaders(from, status, end)))
  {
    hide Tied, Sealed, WatchCodec, WatchClose, Sunk, Input, Came, Shown, Onward, Injected, E.HeadersLoop, ResponseStart,
         Faithful, Arriving, RequestPlace, ResponsePlace, Apply;
    var m0 := m.(stream := m.stream.(responseStatus := Some(status)));
    var m1 := ResponseStart(m0, from, end);
    ResponseHeadersStarts(m, from, status, end);
    ResponseHeadersApplied(o, m, from, status, end);
    NothingBuffered(m);
    HeadersLoopAccounted(o, m1, 0, end, None);
  }

  lemma {:induction false} ResponseDataLedger(o: Oracle, m: Manager, from: nat, bytes: Bytes, end: bool)
    requires Faithful(o) && Inv(m) && Ledger(m) && Enabled(m, ResponseData(from, bytes, end))
    ensures Ledger(Apply(o, m, ResponseData(from, bytes, end)))
  {
    hide Tied, Sealed, WatchCodec, WatchClose, Sunk, Input, Came, Shown, Onward, Injected, E.DataLoop,
         ResponseDataStart,
         Resting, Faithful, RequestPlace, ResponsePlace, Apply;
    var m1 := ResponseDataStart(m, from, bytes, end);
    ghost var p := ResponseDataStarts(m, from, bytes, end);
    ResponseDataApplied(o, m, from, bytes, end);
    assert Sunk(m.log) + Held(m.encode.buffer) + bytes == Sunk(m.log) + Held(m.encode.buffer) + [] + bytes;
    DataLoopAccounted(o, m1, p, 0, Own(bytes), end);
  }

  lemma {:induction false} AddResponseDataLedger(o: Oracle, m: Manager, k: nat, bytes: Bytes)
    requires Inv(m) && Ledger(m) && Enabled(m, AddResponseData(k, bytes))
    ensures Ledger(Apply(o, m, AddResponseData(k, bytes)))
  {
    ArrivedSound(m, Encoding, bytes);
    assert !Ended(m);
    hide Tied, Sealed, WatchCodec, WatchClose, Sunk, Input, Came, Shown, Onward, Resting;
    HeldGrow(m.encode.buffer, Some(bytes));
    assert Sunk(m.log) + (Held(m.encode.buffer) + bytes) + [] == Sunk(m.log) + Held(m.encode.buffer) + [] + bytes;
  }

  lemma {:induction false} ResumeResponseLedger(o: Oracle, m: Manager, k: nat)
    requires Faithful(o) && Inv(m) && Ledger(m) && Enabled(m, ResumeResponse(k))
    ensures Ledger(Apply(o, m, ResumeResponse(k)))
  {
    assert m.stream.responseStatus.Some?;
    ghost var p :| Resting(m, p);
    hide Tied, Sealed, WatchCodec, WatchClose, Sunk, Input, Came, Shown, Onward, E.CommonContinue, Resting, Faithful,
         RequestPlace;
    CommonContinueAccounted(o, m, p, k);
    ParkedFirst(E.CommonContinue(o, m, k), k);
  }

  lemma {:induction false} StepLedger(o: Oracle, m: Manager, s: Step)
    requires Faithful(o) && Inv(m) && Ledger(m) && Enabled(m, s)
    ensures Ledger(Apply(o, m, s))
  {
    hide Inv, Apply, Faithful, DP.Kept, Stays, WatchCodec, Sunk, Input, Came, Shown, Onward;
    match s
    case RequestHeaders(end) =>
      RequestHeadersInv(o, m, end);
      RequestLedger(m.(stream := m.stream.(hasRequest := true), decode := m.decode.(observedEnd := end)),
                    Apply(o, m, s));
    case RequestData(bytes, end) =>
      RequestDataInv(o, m, bytes, end);
      RequestLedger(m.(decode := m.decode.(observedEnd := end)), Apply(o, m, s));
    case AddRequestData(k, bytes) =>
      AddRequestDataInv(o, m, k, bytes);
      RequestLedger(m, Apply(o, m, s));
    case ResumeRequest(k) =>
      ResumeRequestInv(o, m, k);
      RequestLedger(m, Apply(o, m, s));
    case ResponseHeaders(from, status, end) => ResponseHeadersLedger(o, m, from, status, end);
    case ResponseData(from, bytes, end) => ResponseDataLedger(o, m, from, bytes, end);
    case AddResponseData(k, bytes) => AddResponseDataLedger(o, m, k, bytes);
    case ResumeResponse(k) => ResumeResponseLedger(o, m, k);
  }

  lemma {:induction false} RunLedger(o: Oracle, m: Manager, steps: seq<Step>)
    requires Faithful(o) && Inv(m) && Ledger(m)
    ensures Ledger(Run(o, m, steps))
    decreases |steps|
  {
    hide Inv, Ledger, Apply, Enabled, Faithful, Stays;
    if steps != [] {
      if Enabled(m, steps[0]) {
        StepInv(o, m, steps[0]);
        StepLedger(o, m, steps[0]);
        RunLedger(o, Apply(o, m, steps[0]), steps[1..]);
      } else {
        RunLedger(o, m, steps[1..]);
      }
    }
  }

  /** Conservation: after any run of faithful filters, what the codec was handed followed by
      what is buffered is what came in, and while the response is open nothing is buffered
      unless some filter holds it. */
  lemma {:induction false} BytesAreConserved(o: Oracle, decoders: nat, encoders: nat, halfClose: bool, steps: seq<Step>)
    requires Faithful(o)
    ensures var m := Run(o, Init(decoders, encoders, halfClose), steps);
            Sunk(m.log) + Held(m.encode.buffer) == Input(m.log) &&
            (!StoppedFrom(m.encode.filters, 0) && !m.encode.observedEnd && !m.stream.sawReset ==>
             Sunk(m.log) == Input(m.log))
  {
    var m0 := Init(decoders, encoders, halfClose);
    InitInv(decoders, encoders, halfClose);
    assert Ledger(m0);
    RunLedger(o, m0, steps);
    var m := Run(o, m0, steps);
    hide Run, Sunk, Input, Came, Shown, Onward;
    assert Sunk(m.log) + Held(m.encode.buffer) + [] == Sunk(m.log) + Held(m.encode.buffer);
    assert Sunk(m.log) + [] == Sunk(m.log);
  }

  // Delivery of the end of the stream over runs.

  ghost predicate Delivering(m: Manager) {
    Honest(m) && Clear(m.encode, 0) && Settled(m.encode, |m.encode.filters|) && HandedFrom(m, 0) &&
    (m.encode.observedEnd ==> Got(m, 0))
  }

  lemma {:induction false} RequestDelivering(m: Manager, r: Manager)
    requires Delivering(m) && DP.Kept(m, r)
    ensures Delivering(r)
  {
    hide WatchCodec, Sunk, Input, Came, Shown, Onward;
  }

  lemma {:induction false} ResponseHeadersDelivering(o: Oracle, m: Manager, from: nat, status: nat, end: bool)
    requires Patient(o) && Inv(m) && Delivering(m) && Enabled(m, ResponseHeaders(from, status, end))
    ensures Delivering(Apply(o, m, ResponseHeaders(from, status, end)))
  {
    hide Tied, Sealed, WatchCodec, WatchClose, Sunk, Input, Came, Shown, Onward, Injected, E.HeadersLoop,
         ResponseStart, Patient,
         Arriving, RequestPlace, ResponsePlace, Apply;
    var m0 := m.(stream := m.stream.(responseStatus := Some(status)));
    var m1 := ResponseStart(m0, from, end);
    ResponseHeadersStarts(m, from, status, end);
    ResponseHeadersApplied(o, m, from, status, end);
    NothingBuffered(m);
    FreshFrom(m1, 0);
    HeadersLoopDelivers(o, m1, 0, end, None);
    HeadersLoopSingle(o, m1, 0, end, None);
  }

  lemma {:induction false} ResponseDataDelivering(o: Oracle, m: Manager, from: nat, bytes: Bytes, end: bool)
    requires Patient(o) && Inv(m) && Delivering(m) && Enabled(m, ResponseData(from, bytes, end))
    ensures Delivering(Apply(o, m, ResponseData(from, bytes, end)))
  {
    hide Tied, Sealed, WatchCodec, WatchClose, Sunk, Input, Came, Shown, Onward, Injected, E.DataLoop,
         ResponseDataStart,
         Resting, Patient, RequestPlace, ResponsePlace, Apply;
    var m1 := ResponseDataStart(m, from, bytes, end);
    ghost var p := ResponseDataStarts(m, from, bytes, end);
    ResponseDataApplied(o, m, from, bytes, end);
    DataLoopDelivers(o, m1, p, 0, Own(bytes), end);
    DataLoopSingle(o, m1, p, 0, Own(bytes), end);
  }

  lemma {:induction false} AddResponseDataDelivering(o: Oracle, m: Manager, k: nat, bytes: Bytes)
    requires Inv(m) && Delivering(m) && Enabled(m, AddResponseData(k, bytes))
    ensures Delivering(Apply(o, m, AddResponseData(k, bytes)))
  {
    ArrivedSound(m, Encoding, bytes);
    hide Tied, Sealed, WatchCodec, WatchClose, Sunk, Input, Came, Shown, Onward, Resting;
  }

  lemma {:induction false} ResumeResponseDelivering(o: Oracle, m: Manager, k: nat)
    requires Patient(o) && Inv(m) && Delivering(m) && Enabled(m, ResumeResponse(k)) && !Wedged(m.encode, k)
    ensures Delivering(Apply(o, m, ResumeResponse(k)))
    ensures Apply(o, m, ResumeResponse(k)).encode.observedEnd == m.encode.observedEnd
  {
    assert m.stream.responseStatus.Some?;
    ghost var p :| Resting(m, p);
    hide Tied, Sealed, WatchCodec, WatchClose, Sunk, Input, Came, Shown, Onward, E.CommonContinue, Resting, Patient,
         RequestPlace;
    CommonContinueDelivers(o, m, p, k);
    CommonContinueSingle(o, m, p, k);
    HandedAcross(m, E.CommonContinue(o, m, k), k);
  }

  /** What a resume of filter k does not touch is still handed on, up to filter k. */
  lemma HandedAcross(m: Manager, r: Manager, k: nat)
    requires k < |m.encode.filters| && Ends(m) && HandedFrom(m, 0) && (m.encode.observedEnd ==> Got(m, 0))
    requires SameBefore(m.encode, r.encode, k) && EndsKept(m, r) && HandedFrom(r, k)
    requires m.encode.observedEnd && m.encode.filters[k].StoppedAll() ==> Got(r, k)
    ensures HandedFrom(r, 0) && (r.encode.observedEnd ==> Got(r, 0))
  {
    hide WatchCodec, Sealed, Beside;
    forall j | 0 <= j < k && r.encode.filters[j].endStream
      ensures r.encode.filters[j].Stopped() || Got(r, j + 1)
    {
      assert m.encode.filters[j].Stopped() || Got(m, j + 1);
    }
  }

  lemma {:induction false} StepDelivering(o: Oracle, m: Manager, s: Step)
    requires Patient(o) && Inv(m) && Delivering(m) && Enabled(m, s) && Unwedged(m, s, Encoding)
    ensures Delivering(Apply(o, m, s))
  {
    hide Inv, Apply, Patient, DP.Kept, Stays, WatchCodec, Sunk, Input, Came, Shown, Onward;
    match s
    case RequestHeaders(end) =>
      RequestHeadersInv(o, m, end);
      RequestDelivering(m.(stream := m.stream.(hasRequest := true), decode := m.decode.(observedEnd := end)),
                        Apply(o, m, s));
    case RequestData(bytes, end) =>
      RequestDataInv(o, m, bytes, end);
      RequestDelivering(m.(decode := m.decode.(observedEnd := end)), Apply(o, m, s));
    case AddRequestData(k, bytes) =>
      AddRequestDataInv(o, m, k, bytes);
      RequestDelivering(m, Apply(o, m, s));
    case ResumeRequest(k) =>
      ResumeRequestInv(o, m, k);
      RequestDelivering(m, Apply(o, m, s));
    case ResponseHeaders(from, status, end) => ResponseHeadersDelivering(o, m, from, status, end);
    case ResponseData(from, bytes, end) => ResponseDataDelivering(o, m, from, bytes, end);
    case AddResponseData(k, bytes) => AddResponseDataDelivering(o, m, k, bytes);
    case ResumeResponse(k) => ResumeResponseDelivering(o, m, k);
  }

  lemma {:induction false} RunDelivering(o: Oracle, m: Manager, steps: seq<Step>)
    requires Patient(o) && Inv(m) && Delivering(m) && NeverWedged(o, m, steps, Encoding)
    ensures Delivering(Run(o, m, steps))
    decreases |steps|
  {
    hide Inv, Delivering, Apply, Enabled, Patient, Stays;
    if steps != [] {
      if Enabled(m, steps[0]) {
        StepInv(o, m, steps[0]);
        StepDelivering(o, m, steps[0]);
        RunDelivering(o, Apply(o, m, steps[0]), steps[1..]);
      } else {
        RunDelivering(o, m, steps[1..]);
      }
    }
  }

  /** End of stream exactly once: when the whole response has come in and every filter that
      stopped has resumed, every filter and the codec have seen the end, every filter has had
      its complete callback, and nothing came after it. */
  lemma {:induction false} EndIsDeliveredOnce(
    o: Oracle, decoders: nat, encoders: nat, halfClose: bool, steps: seq<Step>)
    requires Patient(o) && NeverWedged(o, Init(decoders, encoders, halfClose), steps, Encoding)
    ensures var m := Run(o, Init(decoders, encoders, halfClose), steps);
            m.encode.observedEnd && !StoppedFrom(m.encode.filters, 0) ==>
              WatchCodec(m.log).ended && WatchCodec(m.log).single &&
              forall j :: 0 <= j < encoders ==> Watch(m.log, Encoding, j) == View(true, true, true, false, true)
  {
    var m0 := Init(decoders, encoders, halfClose);
    InitInv(decoders, encoders, halfClose);
    assert Delivering(m0);
    RunDelivering(o, m0, steps);
    RunInv(o, m0, steps);
    hide Run, WatchCodec, WatchClose, Watch;
    var m := Run(o, m0, steps);
    if m.encode.observedEnd && !StoppedFrom(m.encode.filters, 0) {
      HandedToAll(m, 0);
      assert m.stream.responseStatus.Some?;
      var p :| Resting(m, p);
    }
  }

  /** ... and then every byte that came in has reached it. */
  lemma {:induction false} EveryByteIsDelivered(
    o: Oracle, decoders: nat, encoders: nat, halfClose: bool, steps: seq<Step>)
    requires Faithful(o) && Patient(o) && NeverWedged(o, Init(decoders, encoders, halfClose), steps, Encoding)
    ensures var m := Run(o, Init(decoders, encoders, halfClose), steps);
            !StoppedFrom(m.encode.filters, 0) ==> Sunk(m.log) == Input(m.log)
  {
    var m0 := Init(decoders, encoders, halfClose);
    InitInv(decoders, encoders, halfClose);
    assert Delivering(m0) && Ledger(m0);
    RunDelivering(o, m0, steps);
    RunLedger(o, m0, steps);
    BytesAreConserved(o, decoders, encoders, halfClose, steps);
    var m := Run(o, m0, steps);
    hide Run, Sunk, Input, Came, Shown, Onward, WatchCodec, Faithful, Patient;
    if !StoppedFrom(m.encode.filters, 0) && m.encode.observedEnd { HandedToAll(m, 0); }
    assert Sunk(m.log) + [] == Sunk(m.log);
  }

  /** The exact condition: in any state the invariants allow, resuming the last stopped filter
      delivers the end if and only if that filter is not wedged. */
  lemma {:induction false} ResumeDeliversIff(o: Oracle, m: Manager, k: nat)
    requires Patient(o) && Inv(m) && Delivering(m) && Enabled(m, ResumeResponse(k)) && m.encode.observedEnd && !Ended(m)
    requires !StoppedFrom(Apply(o, m, ResumeResponse(k)).encode.filters, 0)
    ensures Ended(Apply(o, m, ResumeResponse(k))) <==> !Wedged(m.encode, k)
  {
    if Wedged(m.encode, k) {
      WedgeLosesEnd(o, m, k);
    } else {
      ResumeResponseDelivering(o, m, k);
      HandedToAll(Apply(o, m, ResumeResponse(k)), 0);
    }
  }

  /** ... and so on every run: when a run that met no wedge comes to its last resume, that
      resume delivers the end if and only if the filter it resumes is not wedged. */
  lemma {:induction false} EndIsLostIffWedged(
    o: Oracle, decoders: nat, encoders: nat, halfClose: bool, steps: seq<Step>, k: nat)
    requires Patient(o) && NeverWedged(o, Init(decoders, encoders, halfClose), steps, Encoding)
    requires var m := Run(o, Init(decoders, encoders, halfClose), steps);
             Enabled(m, ResumeResponse(k)) && m.encode.observedEnd && !WatchCodec(m.log).ended &&
             !StoppedFrom(Apply(o, m, ResumeResponse(k)).encode.filters, 0)
    ensures var m := Run(o, Init(decoders, encoders, halfClose), steps);
            WatchCodec(Apply(o, m, ResumeResponse(k)).log).ended <==> !Wedged(m.encode, k)
  {
    var m0 := Init(decoders, encoders, halfClose);
    InitInv(decoders, encoders, halfClose);
    assert Delivering(m0);
    RunDelivering(o, m0, steps);
    RunInv(o, m0, steps);
    ResumeDeliversIff(o, Run(o, m0, steps), k);
  }

  /** Whatever the other filters do, a wedged resume does not bring the end to the codec. */
  lemma {:induction false} WedgeLosesEnd(o: Oracle, m: Manager, k: nat)
    requires Inv(m) && Enabled(m, ResumeResponse(k)) && !Ended(m) && Wedged(m.encode, k)
    ensures !Ended(Apply(o, m, ResumeResponse(k)))
  {
    hide Tied, Resting, Arriving, WatchCodec, WatchClose, E.ResumeHeaders, E.HeadersLoop, Injected;
    assert !m.encode.complete && m.stream.responseStatus.Some?;
    ghost var p :| Resting(m, p);
    var m1 := E.ResumeHeaders(o, m.(encode := AllowIteration(m.encode, k)), k);
    WedgedHeaders(o, m, p, k);
    ResumeHeadersSingle(o, m, p, k);
    assert m1.encode.filters[k].fromCurrent && m1.encode.filters[k].endStream && m1.encode.buffer.Some?;
    WedgedResume(o, m, k);
  }

  lemma {:induction false} WedgedHeaders(o: Oracle, m: Manager, p: nat, k: nat)
    requires Resting(m, p) && Tied(m) && Ends(m) && !Ended(m) && k < |m.encode.filters| && Wedged(m.encode, k)
    ensures !Ended(E.ResumeHeaders(o, m.(encode := AllowIteration(m.encode, k)), k))
  {
    hide Tied, Resting, Arriving, WatchCodec, E.HeadersLoop;
    if !m.encode.filters[k].headersContinued {
      ReleasedArrives(m, p, k);
      SealedKept(m, Released(m, k));
      hide Sealed;
      HeadersLoopSingle(o, Released(m, k), k + 1, false, None);
    }
  }

  lemma WedgedResume(o: Oracle, m: Manager, k: nat)
    requires k < |m.encode.filters| && m.encode.filters[k].Stopped() && !m.encode.complete
    requires var m1 := E.ResumeHeaders(o, m.(encode := AllowIteration(m.encode, k)), k);
             m1.encode.filters[k].fromCurrent && m1.encode.filters[k].endStream && m1.encode.buffer.Some?
    ensures E.CommonContinue(o, m, k).log == E.ResumeHeaders(o, m.(encode := AllowIteration(m.encode, k)), k).log
  {
    var m1 := E.ResumeHeaders(o, m.(encode := AllowIteration(m.encode, k)), k);
    hide E.ResumeHeaders;
    BarredAt(o, m1, k);
    assert E.ResumeData(o, m1, k) == m1;
  }

  lemma BarredAt(o: Oracle, m: Manager, k: nat)
    requires k < |m.encode.filters| && m.encode.filters[k].endStream && !m.encode.filters[k].StoppedAll()
    ensures E.DataLoop(o, m, k, Shared, m.encode.observedEnd) == m
  {}

  /** A filter that stops everything on the headers of a bodyless response and adds a body. */
  function BodyAdder(): Oracle {
    Oracle((l, d, i, e) => HeadersReply(HeadersStopAllAndBuffer, Some([1]), false, false),
           (l, d, i, b, e) => DataReply(DataContinue, None, None, false, false),
           l => false,
           l => CloseReply(false, false))
  }

  /** What it leaves in the log. */
  const BODY_ADDED :=
    After(After(After(Empty, DecodingAborted), Headers(Encoding, 0, true, Some([1]), HeadersStopAllAndBuffer)),
          Complete(Encoding, 0))

  /** With that one filter, once it has resumed nothing is stopped, the body is still in the
      buffer, and the codec has not seen the end. */
  lemma {:induction false} WedgeIsReachable()
    ensures var o, steps := BodyAdder(), [RequestHeaders(true), ResponseHeaders(0, 200, true), ResumeResponse(0)];
            var m := Run(o, Init(0, 1, true), steps);
            Patient(o) && Faithful(o) && m.encode.observedEnd && m.encode.buffer == Some([1]) &&
            !StoppedFrom(m.encode.filters, 0) && !WatchCodec(m.log).ended && Sunk(m.log) == [] && Input(m.log) == [1]
  {
    hide Apply, Run, Patient, Faithful, BodyAdder;
    AdderBehaves();
    var o := BodyAdder();
    var s0, s1, s2 := RequestHeaders(true), ResponseHeaders(0, 200, true), ResumeResponse(0);
    var m0 := Init(0, 1, true);
    var m1 := Manager(Chain([], None, true, false, false), FreshChain(1), Stream(true, None, false, true), Empty);
    TakesRequest(o, 1);
    var m2 := Manager(m1.decode.(aborted := true),
                      Chain([FilterState(StopAllBuffer, false, false, true, true)], Some([1]), true, false, false),
                      m1.stream.(responseStatus := Some(200)), BODY_ADDED);
    AddsBody(m1, m2);
    var m3 := m2.(encode := m2.encode.(filters := [FilterState(Continue, false, true, true, true)]),
                  log := After(m2.log, CodecHeaders(false)));
    LosesBody(m2, m3);
    RunThree(o, m0, s0, s1, s2);
    assert Input(BODY_ADDED) == Input(BODY_ADDED.before) == [1];
  }

  lemma AdderBehaves()
    ensures Patient(BodyAdder()) && Faithful(BodyAdder())
  {}

  lemma AddsBody(m: Manager, r: Manager)
    requires m == Manager(Chain([], None, true, false, false), FreshChain(1), Stream(true, None, false, true), Empty)
    requires r == Manager(m.decode.(aborted := true),
                          Chain([FilterState(StopAllBuffer, false, false, true, true)], Some([1]), true, false, false),
                          m.stream.(responseStatus := Some(200)), BODY_ADDED)
    ensures Apply(BodyAdder(), m, ResponseHeaders(0, 200, true)) == r
  {
    var m1 := m.(stream := m.stream.(responseStatus := Some(200)), decode := m.decode.(aborted := true),
                 encode := m.encode.(observedEnd := true), log := After(Empty, DecodingAborted));
    assert m1.encode.filters[0 := r.encode.filters[0]] == r.encode.filters;
    var empty: Bytes := [];
    assert empty + [1] == [1];
    assert E.HeadersStep(BodyAdder(), m1, 0, true) == r;
  }

  lemma LosesBody(m: Manager, r: Manager)
    requires m.encode == Chain([FilterState(StopAllBuffer, false, false, true, true)], Some([1]), true, false, false)
    requires !m.stream.sawReset
    requires r == m.(encode := m.encode.(filters := [FilterState(Continue, false, true, true, true)]),
                     log := After(m.log, CodecHeaders(false)))
    ensures Apply(BodyAdder(), m, ResumeResponse(0)) == r
  {
    var o := BodyAdder();
    var m0 := m.(encode := AllowIteration(m.encode, 0));
    var m1 := m.(encode := m.encode.(filters := [FilterState(Continue, true, true, true, true)]),
                 log := After(m.log, CodecHeaders(false)));
    assert E.ResumeHeaders(o, m0, 0) == m1;
    assert E.ResumeData(o, m1, 0) == m1;
  }

  /** A filter that aborts the request when its body arrives. */
  function DataAborter(): Oracle {
    Oracle((l, d, i, e) => HeadersReply(HeadersContinue, None, false, false),
           (l, d, i, b, e) => DataReply(DataContinue, None, None, true, false),
           l => false,
           l => CloseReply(false, false))
  }

  /** With half-close, an abort that comes after the response was complete leaves the stream
      open: it has not been ended, and by EndAndAbortAreFinal it never will be. */
  lemma {:induction false} LateAbortLeavesOpen()
    ensures var steps := [RequestHeaders(false), ResponseHeaders(0, 200, true), RequestData([], true)];
            var m := Run(DataAborter(), Init(1, 0, true), steps);
            m.encode.complete && m.decode.aborted && m.decode.observedEnd && WatchClose(m.log).count == 0
  {
    hide Apply, Run, DataAborter;
    var o, m0 := DataAborter(), Init(1, 0, true);
    var m1 := RequestOpens(m0);
    var m2 := ResponseCompletes(m1);
    var m3 := BodyAborts(m2);
    RunThree(o, m0, RequestHeaders(false), ResponseHeaders(0, 200, true), RequestData([], true));
  }

  lemma RequestOpens(m: Manager) returns (r: Manager)
    requires m == Init(1, 0, true)
    ensures Apply(DataAborter(), m, RequestHeaders(false)) == r && r.stream == m.stream.(hasRequest := true)
    ensures r.decode == Chain([FilterState(Continue, false, true, false, true)], None, false, false, false)
    ensures r.encode == FreshChain(0) && WatchClose(r.log).count == 0
  {
    var o := DataAborter();
    var m1 := m.(stream := m.stream.(hasRequest := true));
    r := D.HeadersStep(o, m1, 0, false);
    assert r.decode.filters == [FilterState(Continue, false, true, false, true)];
    assert D.HeadersEntry(o, m1, 0, false, None) == D.HeadersOnward(r, false, None, false);
    assert D.HeadersLoop(o, r, 1, false, None, false) == r;
  }

  lemma ResponseCompletes(m: Manager) returns (r: Manager)
    requires m.decode == Chain([FilterState(Continue, false, true, false, true)], None, false, false, false)
    requires m.encode == FreshChain(0) && m.stream == Stream(true, None, false, true) && WatchClose(m.log).count == 0
    ensures Apply(DataAborter(), m, ResponseHeaders(0, 200, true)) == r && r.decode == m.decode
    ensures r.encode.complete && !r.stream.sawReset && r.stream.hasRequest && WatchClose(r.log).count == 0
  {
    r := Apply(DataAborter(), m, ResponseHeaders(0, 200, true));
    assert m.encode.filters == [];
  }

  lemma BodyAborts(m: Manager) returns (r: Manager)
    requires m.decode == Chain([FilterState(Continue, false, true, false, true)], None, false, false, false)
    requires m.encode.complete && !m.stream.sawReset && m.stream.hasRequest && WatchClose(m.log).count == 0
    ensures Apply(DataAborter(), m, RequestData([], true)) == r
    ensures r.encode.complete && r.decode.aborted && r.decode.observedEnd && WatchClose(r.log).count == 0
  {
    var o := DataAborter();
    var m1 := m.(decode := m.decode.(observedEnd := true), log := After(m.log, Arrived(Decoding, [])));
    r := D.DataStep(o, m1, 0, Own([]), true);
    assert D.DataEntry(o, m1, 0, Own([]), true) == D.DataHalt(r);
    WatchCodecCalled(m1.log, Data(Decoding, 0, true, None, [], false), true);
  }
}
