/** Whole runs of a stream: any interleaving of request and response pushes and resumes,
    against any behaviour of the filters and of the codec. */
module FilterRuns {
  import opened FilterTypes
  import opened ByteStreams
  import opened Protocol
  import opened EncoderProtocol
  import opened EncoderEnd
  import opened EncoderDelivery
  import opened EncoderConservation
  import E = EncoderChain
  import D = DecoderChain
  import DP = DecoderProtocol

  /** The calls into the filter manager. A response comes from decoder filter number from;
      a stopped filter may add to the body it holds back. */
  datatype Step =
    | RequestHeaders(end: bool)
    | RequestData(bytes: Bytes, end: bool)
    | AddRequestData(k: nat, bytes: Bytes)
    | ResumeRequest(k: nat)
    | ResponseHeaders(from: nat, status: nat, end: bool)
    | ResponseData(from: nat, bytes: Bytes, end: bool)
    | AddResponseData(k: nat, bytes: Bytes)
    | ResumeResponse(k: nat)

  /** Headers once and before data, nothing after the end, resumes of stopped filters only,
      and nothing once the stream was reset. */
  predicate Enabled(m: Manager, s: Step) {
    !m.stream.sawReset &&
    match s
    case RequestHeaders(_) => !m.stream.hasRequest
    case RequestData(_, _) => m.stream.hasRequest && !m.decode.observedEnd
    case AddRequestData(k, _) => k < |m.decode.filters| && m.decode.filters[k].Stopped()
    case ResumeRequest(k) => k < |m.decode.filters| && m.decode.filters[k].Stopped()
    case ResponseHeaders(_, _, _) => m.stream.hasRequest && m.stream.responseStatus.None?
    case ResponseData(_, _, _) => m.stream.responseStatus.Some? && !m.encode.observedEnd
    case AddResponseData(k, _) => k < |m.encode.filters| && m.encode.filters[k].Stopped() && !m.encode.complete
    case ResumeResponse(k) => k < |m.encode.filters| && m.encode.filters[k].Stopped()
  }

  /** A filter other than the last one ends the response before the request is through. */
  function StopDecoding(m: Manager, from: nat, end: bool): Manager {
    AbortDecodingWhen(end && from + 1 != |m.decode.filters| && !m.decode.complete, m)
  }

  function Apply(o: Oracle, m: Manager, s: Step): Manager
    requires Enabled(m, s)
  {
    match s
    case RequestHeaders(end) => D.PushHeaders(o, m.(stream := m.stream.(hasRequest := true)), end)
    case RequestData(bytes, end) => D.PushData(o, m, bytes, end)
    case AddRequestData(k, bytes) => AddedToRequest(m, bytes)
    case ResumeRequest(k) => D.CommonContinue(o, m, k)
    case ResponseHeaders(from, status, end) =>
      E.PushHeaders(o, StopDecoding(m.(stream := m.stream.(responseStatus := Some(status))), from, end), end)
    case ResponseData(from, bytes, end) => E.PushData(o, StopDecoding(m, from, end), bytes, end)
    case AddResponseData(k, bytes) => AddedToResponse(m, bytes)
    case ResumeResponse(k) => E.CommonContinue(o, m, k)
  }

  function AddedToRequest(m: Manager, bytes: Bytes): Manager {
    m.(decode := m.decode.(buffer := Grow(m.decode.buffer, Some(bytes))), log := After(m.log, Arrived(Decoding, bytes)))
  }

  function AddedToResponse(m: Manager, bytes: Bytes): Manager {
    m.(encode := m.encode.(buffer := Grow(m.encode.buffer, Some(bytes))), log := After(m.log, Arrived(Encoding, bytes)))
  }

  /** The state after a run; steps that are not enabled change nothing. */
  function Run(o: Oracle, m: Manager, steps: seq<Step>): Manager
    decreases |steps|
  {
    if steps == [] then m
    else Run(o, if Enabled(m, steps[0]) then Apply(o, m, steps[0]) else m, steps[1..])
  }

  /** The step does not resume a wedged filter of the direction. */
  predicate Unwedged(m: Manager, s: Step, dir: Direction)
    requires Enabled(m, s)
  {
    match dir
    case Decoding => s.ResumeRequest? ==> !Wedged(m.decode, s.k)
    case Encoding => s.ResumeResponse? ==> !Wedged(m.encode, s.k)
  }

  /** No resume of the run meets the state in which resuming loses the end. */
  predicate NeverWedged(o: Oracle, m: Manager, steps: seq<Step>, dir: Direction)
    decreases |steps|
  {
    steps == [] ||
    if Enabled(m, steps[0]) then Unwedged(m, steps[0], dir) && NeverWedged(o, Apply(o, m, steps[0]), steps[1..], dir)
    else NeverWedged(o, m, steps[1..], dir)
  }

  ghost predicate RequestPlace(m: Manager) {
    if m.stream.hasRequest then exists p :: DP.Resting(m, p)
    else
      DP.Arriving(m, 0) && !m.decode.aborted && m.stream.responseStatus.None? &&
      !m.decode.observedEnd && m.decode.buffer.None?
  }

  ghost predicate ResponsePlace(m: Manager) {
    if m.stream.responseStatus.Some? then exists p :: Resting(m, p)
    else Arriving(m, 0) && !m.encode.observedEnd && m.encode.buffer.None?
  }

  /** Without half-close the end of the response cuts the request off. */
  predicate Cut(m: Manager) {
    !m.stream.halfClose && m.encode.observedEnd ==> m.decode.aborted
  }

  ghost predicate Inv(m: Manager) {
    DP.Sound(m) && Ends(m) && Single(m) && RequestPlace(m) && ResponsePlace(m) && Cut(m) && !DP.Owing(m) &&
    (m.encode.aborted ==> m.encode.filters != []) && Clear(m.encode, 0)
  }

  /** What no step ever takes back: a filter that has seen the end, a complete response, an
      aborted direction; and once the response is complete and the request aborted, whether
      the stream was ended. */
  ghost predicate Stays(m: Manager, r: Manager) {
    |r.decode.filters| == |m.decode.filters| && |r.encode.filters| == |m.encode.filters| &&
    (forall j :: 0 <= j < |m.decode.filters| ==> m.decode.filters[j].endStream ==> r.decode.filters[j].endStream) &&
    (forall j :: 0 <= j < |m.encode.filters| ==> m.encode.filters[j].endStream ==> r.encode.filters[j].endStream) &&
    (m.decode.aborted ==> r.decode.aborted) && (m.encode.aborted ==> r.encode.aborted) &&
    (m.encode.complete ==> r.encode.complete) && r.stream.halfClose == m.stream.halfClose &&
    (m.encode.complete && m.decode.aborted ==> WatchClose(r.log) == WatchClose(m.log))
  }

  /** A response step leaves the request as it is, or aborts it. */
  ghost predicate RequestKept(m: Manager, r: Manager) {
    r.decode == m.decode.(aborted := m.decode.aborted || r.decode.aborted) &&
    r.stream.hasRequest == m.stream.hasRequest && SameStream(m.log, r.log, Decoding)
  }

  lemma StaysTrans(m: Manager, r: Manager, t: Manager)
    requires Stays(m, r) && Stays(r, t)
    ensures Stays(m, t)
  {}

  lemma InitInv(decoders: nat, encoders: nat, halfClose: bool)
    ensures Inv(Init(decoders, encoders, halfClose))
  {}

  lemma {:induction false} ResponseUntouched(m: Manager, r: Manager)
    requires ResponsePlace(m) && Ends(m) && Single(m) && DP.Kept(m, r) && EncoderEnd.Sealed(r)
    requires r.stream.responseStatus == m.stream.responseStatus
    ensures ResponsePlace(r) && Ends(r) && Single(r)
  {
    hide EncoderEnd.Sealed, WatchCodec, Sunk, Input, Came, Shown, Onward;
    if m.stream.responseStatus.Some? {
      var p :| Resting(m, p);
      assert Resting(r, p);
    }
  }

  lemma {:induction false} AbortSound(condition: bool, m: Manager)
    requires DP.Sound(m) && Ends(m)
    ensures var r := AbortDecodingWhen(condition, m);
            r.stream == m.stream && DP.Sound(r) && Ends(r) && Beside(m, r) && r.encode == m.encode &&
            WatchCodec(r.log) == WatchCodec(m.log) &&
            SameBytes(m.log, r.log) && WatchClose(r.log) == WatchClose(m.log)
  {
    AbortDecodingQuiet(condition, m);
    AbortGuarded(condition, m);
    AbortBytes(condition, m);
    hide Tied, Sealed, WatchCodec, Sunk, Input, Came, Shown, Onward;
  }

  /** Bytes reach the chain, of which only the log takes note. */
  lemma {:induction false} ArrivedSound(m: Manager, dir: Direction, bytes: Bytes)
    requires DP.Sound(m)
    ensures var r := m.(log := After(m.log, Arrived(dir, bytes)));
            DP.Sound(r) && WatchCodec(r.log) == WatchCodec(m.log) && WatchClose(r.log) == WatchClose(m.log) &&
            DP.BodyInjected(r) == DP.BodyInjected(m) && Sunk(r.log) == Sunk(m.log) &&
            Arrives(m.log, r.log, dir, bytes) && (dir == Encoding ==> SameStream(m.log, r.log, Decoding)) &&
            (dir == Decoding ==> SameStream(m.log, r.log, Encoding)) &&
            Input(r.log) == (if dir == Encoding then Input(m.log) + bytes else Input(m.log))
  {
    var r := m.(log := After(m.log, Arrived(dir, bytes)));
    LoggedQuiet(m, Arrived(dir, bytes), r);
    ArrivedStream(m.log, dir, bytes);
    UnmovingStream(m.log, Arrived(dir, bytes), if dir == Encoding then Decoding else Encoding);
    assert WatchClose(r.log) == WatchClose(m.log);
    hide Tied;
  }

  lemma {:induction false} PrefixSound(m: Manager, end: bool)
    requires DP.Sound(m) && Ends(m)
    ensures var r := E.Prefix(m, end);
            r.stream == m.stream && DP.Sound(r) && Ends(r) && Beside(m, r) &&
            r.encode == m.encode.(observedEnd := m.encode.observedEnd || end) &&
            (Cut(m) ==> Cut(r)) && WatchCodec(r.log) == WatchCodec(m.log) && WatchClose(r.log) == WatchClose(m.log) &&
            SameBytes(m.log, r.log)
  {
    if end {
      var m1 := m.(encode := m.encode.(observedEnd := true));
      assert Tied(m1);
      AbortSound(!m.stream.halfClose, m1);
      hide Tied, Sealed, WatchCodec, Sunk, Input, Came, Shown, Onward;
    }
  }

  /** The state in which the response loops start. */
  function ResponseStart(m: Manager, from: nat, end: bool): Manager {
    E.Prefix(StopDecoding(m, from, end), end)
  }

  lemma {:induction false} ResponseStarts(m: Manager, from: nat, end: bool)
    requires DP.Sound(m) && Ends(m)
    ensures var r := ResponseStart(m, from, end);
            r.stream == m.stream && DP.Sound(r) && Ends(r) && Beside(m, r) &&
            r.encode == m.encode.(observedEnd := m.encode.observedEnd || end) &&
            (Cut(m) ==> Cut(r)) && WatchCodec(r.log) == WatchCodec(m.log) && WatchClose(r.log) == WatchClose(m.log) &&
            SameBytes(m.log, r.log)
  {
    AbortSound(end && from + 1 != |m.decode.filters| && !m.decode.complete, m);
    PrefixSound(StopDecoding(m, from, end), end);
    hide Tied, Sealed, WatchCodec, Sunk, Input, Came, Shown, Onward;
  }

  // Each step keeps the invariant.

  lemma {:induction false} RequestHeadersInv(o: Oracle, m: Manager, end: bool)
    requires Inv(m) && Enabled(m, RequestHeaders(end))
    ensures Inv(Apply(o, m, RequestHeaders(end))) && Stays(m, Apply(o, m, RequestHeaders(end)))
    ensures DP.Kept(m.(stream := m.stream.(hasRequest := true), decode := m.decode.(observedEnd := end)),
                    Apply(o, m, RequestHeaders(end)))
  {
    hide Tied, Sealed, WatchCodec, WatchClose, Sunk, Input, Came, Shown, Onward, Injected, D.HeadersLoop, ResponsePlace;
    var m1 := m.(stream := m.stream.(hasRequest := true), decode := m.decode.(observedEnd := end));
    RequestStarts(m, end);
    ghost var p := DP.HeadersLoopLawful(o, m1, 0, end, None, false);
    ResponseKeptPlace(m, m1);
    ResponseUntouched(m1, D.HeadersLoop(o, m1, 0, end, None, false));
  }

  lemma {:induction false} RequestStarts(m: Manager, end: bool)
    requires DP.Sound(m)
    ensures DP.Sound(m.(stream := m.stream.(hasRequest := true), decode := m.decode.(observedEnd := end)))
  {
    assert Tied(m.(stream := m.stream.(hasRequest := true), decode := m.decode.(observedEnd := end)));
  }

  lemma ResponseKeptPlace(m: Manager, r: Manager)
    requires ResponsePlace(m) && r.encode == m.encode && WatchCodec(r.log) == WatchCodec(m.log)
    requires r.stream.responseStatus == m.stream.responseStatus
    ensures ResponsePlace(r)
  {
    hide WatchCodec;
    if m.stream.responseStatus.Some? {
      var p :| Resting(m, p);
      assert Resting(r, p);
    }
  }

  lemma {:induction false} RequestDataInv(o: Oracle, m: Manager, bytes: Bytes, end: bool)
    requires Inv(m) && Enabled(m, RequestData(bytes, end))
    ensures Inv(Apply(o, m, RequestData(bytes, end))) && Stays(m, Apply(o, m, RequestData(bytes, end)))
    ensures DP.Kept(m.(decode := m.decode.(observedEnd := end)), Apply(o, m, RequestData(bytes, end)))
  {
    var m0 := m.(decode := m.decode.(observedEnd := end));
    var m1 := m0.(log := After(m.log, Arrived(Decoding, bytes)));
    ghost var p0 := RequestDataStarts(m, bytes, end);
    assert Apply(o, m, RequestData(bytes, end)) ==
             if m1.decode.aborted then m1 else D.DataLoop(o, m1, 0, Own(bytes), end, false);
    hide *;
    if !m1.decode.aborted {
      ghost var p := DP.DataLoopLawful(o, m1, p0, 0, Own(bytes), end, false);
      RequestDone(m1, D.DataLoop(o, m1, 0, Own(bytes), end, false), p);
      DP.KeptTrans(m0, m1, D.DataLoop(o, m1, 0, Own(bytes), end, false));
      StaysTrans(m, m1, D.DataLoop(o, m1, 0, Own(bytes), end, false));
    }
  }

  lemma {:induction false} RequestDataStarts(m: Manager, bytes: Bytes, end: bool) returns (p: nat)
    requires Inv(m) && m.stream.hasRequest
    ensures var m0 := m.(decode := m.decode.(observedEnd := end));
            var r := m0.(log := After(m.log, Arrived(Decoding, bytes)));
            Inv(r) && DP.Sound(r) && Stays(m, r) && DP.Kept(m0, r) && DP.Resting(r, p) &&
            (|m.decode.filters| > 0 ==> 0 < p)
  {
    var m0 := m.(decode := m.decode.(observedEnd := end));
    assert Tied(m0);
    ArrivedSound(m0, Decoding, bytes);
    p :| DP.Resting(m, p);
    var r := m0.(log := After(m.log, Arrived(Decoding, bytes)));
    hide Tied, Sealed, WatchCodec, WatchClose, Sunk, Input, Came, Shown, Onward;
    assert DP.Resting(r, p);
    ResponseKeptPlace(m, m0);
    ResponseUntouched(m0, r);
  }

  /** A request step that ends at rest keeps the whole invariant. */
  lemma {:induction false} RequestDone(m: Manager, r: Manager, p: nat)
    requires Inv(m) && m.stream.hasRequest && DP.Kept(m, r) && DP.Sound(r) && DP.Resting(r, p) && !DP.Owing(r)
    ensures Inv(r) && Stays(m, r)
  {
    hide Tied, Sealed, WatchCodec, Sunk, Input, Came, Shown, Onward, ResponsePlace;
    ResponseUntouched(m, r);
  }

  lemma {:induction false} AddRequestDataInv(o: Oracle, m: Manager, k: nat, bytes: Bytes)
    requires Inv(m) && Enabled(m, AddRequestData(k, bytes))
    ensures Inv(Apply(o, m, AddRequestData(k, bytes))) && Stays(m, Apply(o, m, AddRequestData(k, bytes)))
    ensures DP.Kept(m, Apply(o, m, AddRequestData(k, bytes)))
  {
    assert m.stream.hasRequest;
    ghost var p :| DP.Resting(m, p);
    ArrivedSound(m, Decoding, bytes);
    var r := AddedToRequest(m, bytes);
    assert Tied(m.(log := r.log)) && Tied(r);
    hide Tied, WatchCodec, WatchClose, Sunk, Input, Came, Shown, Onward, Injected;
    assert DP.Resting(r, p);
    RequestDone(m, r, p);
  }

  lemma {:induction false} ResumeRequestInv(o: Oracle, m: Manager, k: nat)
    requires Inv(m) && Enabled(m, ResumeRequest(k))
    ensures Inv(Apply(o, m, ResumeRequest(k))) && Stays(m, Apply(o, m, ResumeRequest(k)))
    ensures DP.Kept(m, Apply(o, m, ResumeRequest(k)))
  {
    assert m.stream.hasRequest;
    ghost var p0 :| DP.Resting(m, p0);
    ghost var p := DP.CommonContinueLawful(o, m, p0, k);
    hide Tied, Sealed, WatchCodec, Sunk, Input, Came, Shown, Onward, D.CommonContinue;
    RequestDone(m, D.CommonContinue(o, m, k), p);
  }

  lemma {:induction false} ResponseHeadersInv(o: Oracle, m: Manager, from: nat, status: nat, end: bool)
    requires Inv(m) && Enabled(m, ResponseHeaders(from, status, end))
    ensures Inv(Apply(o, m, ResponseHeaders(from, status, end))) &&
            Stays(m, Apply(o, m, ResponseHeaders(from, status, end)))
    ensures RequestKept(m, Apply(o, m, ResponseHeaders(from, status, end)))
  {
    hide Tied, Sealed, WatchCodec, WatchClose, Sunk, Input, Came, Shown, Onward, Injected, E.HeadersLoop, ResponseStart,
         EndsKept, Stays, Arriving;
    ghost var q :| DP.Resting(m, q);
    ResponseHeadersStarts(m, from, status, end);
    var m0 := m.(stream := m.stream.(responseStatus := Some(status)));
    var m1 := ResponseStart(m0, from, end);
    var r := E.HeadersLoop(o, m1, 0, end, None);
    ghost var p := HeadersLoopLawful(o, m1, 0, end, None);
    HeadersLoopSingle(o, m1, 0, end, None);
    ResponseDone(m0, m1, r, p, q);
    assert Apply(o, m, ResponseHeaders(from, status, end)) == r by { ResponseHeadersApplied(o, m, from, status, end); }
    StaysWithStatus(m, m0, r);
  }

  lemma ResponseHeadersApplied(o: Oracle, m: Manager, from: nat, status: nat, end: bool)
    requires Enabled(m, ResponseHeaders(from, status, end))
    ensures var m0 := m.(stream := m.stream.(responseStatus := Some(status)));
            Apply(o, m, ResponseHeaders(from, status, end)) ==
              E.HeadersLoop(o, ResponseStart(m0, from, end), 0, end, None)
  {
    hide E.HeadersLoop;
  }

  lemma StaysWithStatus(m: Manager, m0: Manager, r: Manager)
    requires m0 == m.(stream := m0.stream) && m0.stream.halfClose == m.stream.halfClose && Stays(m0, r)
    ensures Stays(m, r)
  {}

  /** The headers of the response set out. */
  lemma {:induction false} ResponseHeadersStarts(m: Manager, from: nat, status: nat, end: bool)
    requires Inv(m) && Enabled(m, ResponseHeaders(from, status, end))
    ensures var m0 := m.(stream := m.stream.(responseStatus := Some(status)));
            var r := ResponseStart(m0, from, end);
            Arriving(r, 0) && Tied(r) && Carrying(r, 0, end, None) && DP.Sound(r) && Ends(r) && Beside(m0, r) &&
            Cut(r) &&
            r.encode == m.encode.(observedEnd := end) && r.stream == m0.stream &&
            WatchCodec(r.log) == WatchCodec(m.log) &&
            WatchClose(r.log) == WatchClose(m.log) && SameBytes(m.log, r.log)
  {
    var m0 := m.(stream := m.stream.(responseStatus := Some(status)));
    assert Tied(m0);
    ResponseStarts(m0, from, end);
    hide Tied, Sealed, WatchCodec, WatchClose, Sunk, Input, Came, Shown, Onward, Injected, ResponseStart;
  }

  /** A response step that ends at rest keeps the whole invariant. */
  lemma {:induction false} ResponseDone(m: Manager, m1: Manager, r: Manager, p: nat, q: nat)
    requires DP.Sound(m1) && DP.Resting(m, q) && m.stream.hasRequest
    requires m.stream.responseStatus.Some? && Beside(m, m1) && EndsKept(m1, r)
    requires m1.encode == m.encode.(observedEnd := m1.encode.observedEnd) && WatchClose(m1.log) == WatchClose(m.log)
    requires Resting(r, p) && Tied(r) && Ends(r) && Single(r) && Cut(m1) && !DP.Owing(m)
    requires (m.encode.aborted ==> m.encode.filters != []) && Clear(m.encode, 0)
    ensures Inv(r) && Stays(m, r) && Beside(m, r)
  {
    hide Tied, Sealed, WatchCodec, WatchClose, Resting, Injected;
    assert DP.Resting(r, q);
  }

  lemma {:induction false} ResponseDataInv(o: Oracle, m: Manager, from: nat, bytes: Bytes, end: bool)
    requires Inv(m) && Enabled(m, ResponseData(from, bytes, end))
    ensures Inv(Apply(o, m, ResponseData(from, bytes, end))) && Stays(m, Apply(o, m, ResponseData(from, bytes, end)))
    ensures RequestKept(m, Apply(o, m, ResponseData(from, bytes, end)))
  {
    hide Tied, Sealed, WatchCodec, WatchClose, Sunk, Input, Came, Shown, Onward, Injected, E.DataLoop,
         ResponseDataStart,
         Resting, EndsKept, Stays, RequestPlace, ResponsePlace;
    var m1 := ResponseDataStart(m, from, bytes, end);
    ghost var q := RequestAt(m);
    ghost var p0 := ResponseDataStarts(m, from, bytes, end);
    assert Apply(o, m, ResponseData(from, bytes, end)) == E.DataLoop(o, m1, 0, Own(bytes), end) by {
      ResponseDataApplied(o, m, from, bytes, end);
    }
    ghost var p := DataLoopLawful(o, m1, p0, 0, Own(bytes), end);
    DataLoopSingle(o, m1, p0, 0, Own(bytes), end);
    ResponseDone(m, m1, E.DataLoop(o, m1, 0, Own(bytes), end), p, q);
  }

  lemma ResponseDataApplied(o: Oracle, m: Manager, from: nat, bytes: Bytes, end: bool)
    requires Enabled(m, ResponseData(from, bytes, end))
    ensures Apply(o, m, ResponseData(from, bytes, end)) ==
              E.DataLoop(o, ResponseDataStart(m, from, bytes, end), 0, Own(bytes), end)
  {
    hide E.DataLoop;
  }

  /** Where the request rests once there is a response. */
  lemma RequestAt(m: Manager) returns (q: nat)
    requires Inv(m) && m.stream.responseStatus.Some?
    ensures DP.Resting(m, q) && m.stream.hasRequest
  {
    q :| DP.Resting(m, q);
  }

  function ResponseDataStart(m: Manager, from: nat, bytes: Bytes, end: bool): Manager {
    var m1 := StopDecoding(m, from, end);
    E.Prefix(m1.(log := After(m1.log, Arrived(Encoding, bytes))), end)
  }

  lemma {:induction false} ResponseDataStarts(m: Manager, from: nat, bytes: Bytes, end: bool) returns (p: nat)
    requires Inv(m) && Enabled(m, ResponseData(from, bytes, end))
    ensures var r := ResponseDataStart(m, from, bytes, end);
            Resting(m, p) && Resting(r, p) && Reached(r, p, 0) &&
            DP.Sound(r) && Ends(r) && Beside(m, r) && Cut(r) && r.encode == m.encode.(observedEnd := end) &&
            r.stream == m.stream &&
            WatchCodec(r.log) == WatchCodec(m.log) && WatchClose(r.log) == WatchClose(m.log) && !Ended(m) &&
            Sunk(r.log) == Sunk(m.log) && Input(r.log) == Input(m.log) + bytes && Arrives(m.log, r.log, Encoding, bytes)
  {
    hide Tied, Sealed, WatchCodec, WatchClose, Sunk, Input, Came, Shown, Onward, StopDecoding, RequestPlace, Injected,
         E.Prefix;
    p :| Resting(m, p);
    ResponseOpen(m);
    ResponseArrives(m, from, bytes, end);
    var m1 := StopDecoding(m, from, end);
    PrefixSound(m1.(log := After(m1.log, Arrived(Encoding, bytes))), end);
  }

  lemma ResponseOpen(m: Manager)
    requires Ends(m) && !m.encode.observedEnd
    ensures !Ended(m)
  {}

  lemma {:induction false} ResponseArrives(m: Manager, from: nat, bytes: Bytes, end: bool)
    requires DP.Sound(m) && Ends(m) && Cut(m)
    ensures var m1 := StopDecoding(m, from, end);
            var r := m1.(log := After(m1.log, Arrived(Encoding, bytes)));
            DP.Sound(r) && Ends(r) && Beside(m, r) && Cut(r) && r.encode == m.encode && r.stream == m.stream &&
            WatchCodec(r.log) == WatchCodec(m.log) && WatchClose(r.log) == WatchClose(m.log) &&
            Sunk(r.log) == Sunk(m.log) && Input(r.log) == Input(m.log) + bytes && Arrives(m.log, r.log, Encoding, bytes)
  {
    hide Tied, Sealed, WatchCodec, WatchClose, Sunk, Input, Came, Shown, Onward, StopDecoding;
    var m1 := StopDecoding(m, from, end);
    StopSound(m, from, end);
    ArrivedSound(m1, Encoding, bytes);
  }

  lemma {:induction false} StopSound(m: Manager, from: nat, end: bool)
    requires DP.Sound(m) && Ends(m)
    ensures var r := StopDecoding(m, from, end);
            r.stream == m.stream && DP.Sound(r) && Ends(r) && Beside(m, r) && r.encode == m.encode &&
            WatchCodec(r.log) == WatchCodec(m.log) && SameBytes(m.log, r.log) && WatchClose(r.log) == WatchClose(m.log)
  {
    hide Tied, Sealed, WatchCodec, WatchClose, Sunk, Input, Came, Shown, Onward;
    AbortSound(end && from + 1 != |m.decode.filters| && !m.decode.complete, m);
  }

  lemma {:induction false} ResponseAdded(m: Manager, p: nat, bytes: Bytes)
    requires DP.Sound(m) && Ends(m) && Single(m) && Resting(m, p)
    ensures var r := AddedToResponse(m, bytes); Tied(r) && Ends(r) && Single(r) && EndsKept(m, r) && Resting(r, p)
  {
    ArrivedSound(m, Encoding, bytes);
    var r := AddedToResponse(m, bytes);
    assert Tied(m.(log := r.log)) && Tied(r);
    hide Tied, WatchCodec, WatchClose, Sunk, Input, Came, Shown, Onward, Injected;
  }

  lemma {:induction false} AddResponseDataInv(o: Oracle, m: Manager, k: nat, bytes: Bytes)
    requires Inv(m) && Enabled(m, AddResponseData(k, bytes))
    ensures Inv(Apply(o, m, AddResponseData(k, bytes))) && Stays(m, Apply(o, m, AddResponseData(k, bytes)))
    ensures RequestKept(m, Apply(o, m, AddResponseData(k, bytes)))
  {
    hide Tied, Sealed, WatchCodec, WatchClose, Injected, EndsKept, Stays, DP.Sound;
    assert m.stream.responseStatus.Some? && m.stream.hasRequest;
    ghost var p :| Resting(m, p);
    ghost var q :| DP.Resting(m, q);
    ResponseAdded(m, p, bytes);
    ResponseDone(m, m, AddedToResponse(m, bytes), p, q);
  }

  lemma {:induction false} ResumeResponseInv(o: Oracle, m: Manager, k: nat)
    requires Inv(m) && Enabled(m, ResumeResponse(k))
    ensures Inv(Apply(o, m, ResumeResponse(k))) && Stays(m, Apply(o, m, ResumeResponse(k)))
    ensures RequestKept(m, Apply(o, m, ResumeResponse(k)))
  {
    hide Tied, Sealed, WatchCodec, WatchClose, Sunk, Input, Came, Shown, Onward, E.CommonContinue, EndsKept, Stays,
         RequestPlace, Injected;
    assert m.stream.responseStatus.Some?;
    ghost var p0 :| Resting(m, p0);
    ghost var q := RequestAt(m);
    ghost var p := CommonContinueLawful(o, m, p0, k);
    CommonContinueSingle(o, m, p0, k);
    ResponseDone(m, m, E.CommonContinue(o, m, k), p, q);
  }

  lemma {:induction false} StepInv(o: Oracle, m: Manager, s: Step)
    requires Inv(m) && Enabled(m, s)
    ensures Inv(Apply(o, m, s)) && Stays(m, Apply(o, m, s))
  {
    hide Inv, Apply, Enabled, Stays;
    match s
    case RequestHeaders(end) => RequestHeadersInv(o, m, end);
    case RequestData(bytes, end) => RequestDataInv(o, m, bytes, end);
    case AddRequestData(k, bytes) => AddRequestDataInv(o, m, k, bytes);
    case ResumeRequest(k) => ResumeRequestInv(o, m, k);
    case ResponseHeaders(from, status, end) => ResponseHeadersInv(o, m, from, status, end);
    case ResponseData(from, bytes, end) => ResponseDataInv(o, m, from, bytes, end);
    case AddResponseData(k, bytes) => AddResponseDataInv(o, m, k, bytes);
    case ResumeResponse(k) => ResumeResponseInv(o, m, k);
  }

  lemma {:induction false} RunInv(o: Oracle, m: Manager, steps: seq<Step>)
    requires Inv(m)
    ensures Inv(Run(o, m, steps)) && Stays(m, Run(o, m, steps))
    decreases |steps|
  {
    hide Inv, Apply, Enabled;
    if steps != [] {
      if Enabled(m, steps[0]) {
        var m1 := Apply(o, m, steps[0]);
        StepInv(o, m, steps[0]);
        RunInv(o, m1, steps[1..]);
        StaysTrans(m, m1, Run(o, m1, steps[1..]));
      } else {
        RunInv(o, m, steps[1..]);
      }
    }
  }

  // Short runs, step by step.

  /** A request without decoder filters. */
  lemma TakesRequest(o: Oracle, encoders: nat)
    ensures Apply(o, Init(0, encoders, true), RequestHeaders(true)) ==
              Manager(Chain([], None, true, false, false), FreshChain(encoders), Stream(true, None, false, true), Empty)
  {
    assert Init(0, encoders, true).decode.filters == [];
  }

  lemma {:induction false} RunTwo(o: Oracle, m: Manager, s0: Step, s1: Step)
    requires Enabled(m, s0) && Enabled(Apply(o, m, s0), s1)
    ensures Run(o, m, [s0, s1]) == Apply(o, Apply(o, m, s0), s1)
  {
    hide Apply, Enabled;
    var m1 := Apply(o, m, s0);
    assert [s0, s1][1..] == [s1] && [s1][1..] == [];
    assert Run(o, m1, [s1]) == Run(o, Apply(o, m1, s1), []);
  }

  lemma {:induction false} RunThree(o: Oracle, m: Manager, s0: Step, s1: Step, s2: Step)
    requires Enabled(m, s0) && Enabled(Apply(o, m, s0), s1) && Enabled(Apply(o, Apply(o, m, s0), s1), s2)
    ensures Run(o, m, [s0, s1, s2]) == Apply(o, Apply(o, Apply(o, m, s0), s1), s2)
  {
    hide Apply, Enabled;
    var m1 := Apply(o, m, s0);
    var m2 := Apply(o, m1, s1);
    assert [s0, s1, s2][1..] == [s1, s2] && [s1, s2][1..] == [s2] && [s2][1..] == [];
    assert Run(o, m2, [s2]) == Run(o, Apply(o, m2, s2), []);
    assert Run(o, m1, [s1, s2]) == Run(o, m2, [s2]);
  }

  lemma {:induction false} RunOn(o: Oracle, m: Manager, first: seq<Step>, later: seq<Step>)
    ensures Run(o, m, first + later) == Run(o, Run(o, m, first), later)
    decreases |first|
  {
    hide Apply, Enabled;
    if first == [] {
      assert first + later == later;
    } else {
      assert (first + later)[1..] == first[1..] + later;
      RunOn(o, if Enabled(m, first[0]) then Apply(o, m, first[0]) else m, first[1..], later);
    }
  }
}
