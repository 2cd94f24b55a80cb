/** What each decoder filter has been shown of the request, and what became of what it passed on, on
    every run of a stream. */
module RequestViewTheorems {
  import opened FilterTypes
  import opened ByteStreams
  import opened Courses
  import opened Protocol
  import opened DecoderProtocol
  import opened DecoderDelivery
  import opened DecoderCourse
  import opened FilterRuns
  import EE = EncoderEnd
  import D = DecoderChain
  import RT = RequestTheorems

  function PushStart(m: Manager, bytes: Bytes, end: bool): Manager {
    m.(decode := m.decode.(observedEnd := end), log := After(m.log, Arrived(Decoding, bytes)))
  }

  /** The step resumes no decoder filter out of place. */
  ghost predicate StepInPlace(o: Oracle, m: Manager, s: Step, lively: bool)
    requires Enabled(m, s)
  {
    match s
    case RequestData(bytes, end) =>
      m.decode.aborted || PushInPlace(o, PushStart(m, bytes, end), 0, bytes, end, lively)
    case ResumeRequest(k) => InPlace(o, m, k, lively)
    case _ => true
  }

  /** No step of the run does. */
  ghost predicate AlwaysInPlace(o: Oracle, m: Manager, steps: seq<Step>, lively: bool)
    decreases |steps|
  {
    steps == [] ||
    if Enabled(m, steps[0]) then
      StepInPlace(o, m, steps[0], lively) && AlwaysInPlace(o, Apply(o, m, steps[0]), steps[1..], lively)
    else AlwaysInPlace(o, m, steps[1..], lively)
  }

  /** After every step of the run, what came in and what each filter passed on to the next are in
      order. */
  ghost predicate AlwaysInOrder(o: Oracle, m: Manager, steps: seq<Step>)
    decreases |steps|
  {
    InOrder(CourseOf(o, m)) &&
    (steps == [] ||
     AlwaysInOrder(o, if Enabled(m, steps[0]) then Apply(o, m, steps[0]) else m, steps[1..]))
  }

  /** No filter is left marked as the one to start from, and none has seen an end that has not
      come. */
  ghost predicate Unmarked(m: Manager) { Flagged(m) && Clear(m.decode, 0) }

  ghost predicate Ordered(o: Oracle, m: Manager) { Kempt(m.decode, CourseOf(o, m)) && Unmarked(m) }

  lemma PlainUnmarked(m: Manager, r: Manager)
    requires Unmarked(m) && Plain(m, r)
    ensures Unmarked(r)
  {}

  /** A step that moves no request bytes. */
  lemma {:induction false} OrderedKept(o: Oracle, m: Manager, r: Manager)
    requires Ordered(o, m) && RequestKept(m, r)
    ensures Ordered(o, r) && InOrder(CourseOf(o, r))
  {
    hide SameStream, RequestCourse, Tidy;
    CourseSame(o, m.log, r.log, |m.decode.filters|);
    KemptFinished(m.decode, r.decode, CourseOf(o, m));
  }

  lemma {:induction false} RequestHeadersOrdered(o: Oracle, m: Manager, end: bool)
    requires Shaping(o) && Inv(m) && Ordered(o, m) && Enabled(m, RequestHeaders(end))
    ensures var r := Apply(o, m, RequestHeaders(end)); Ordered(o, r) && InOrder(CourseOf(o, r))
  {
    hide Sound, ResponsePlace, EE.Ends, EE.Single, D.HeadersLoop, Shaping, RequestCourse, Arriving, Tidy, Split;
    var m1 := m.(stream := m.stream.(hasRequest := true), decode := m.decode.(observedEnd := end));
    var r := D.HeadersLoop(o, m1, 0, end, None, false);
    FreshFrom(m, 0);
    HeadersLoopPlain(o, m1, 0, end, None, false);
    PlainUnmarked(m1, r);
    HeadersLoopStill(o, m1, 0, end, false);
    if !r.decode.aborted {
      EmptySplit(m.decode, CourseOf(o, m), 0);
      EmptyLined(m.decode, r.decode, CourseOf(o, r));
      LinedKempt(r.decode, CourseOf(o, r));
    }
  }

  lemma {:induction false} RequestDataOrdered(o: Oracle, m: Manager, bytes: Bytes, end: bool, lively: bool)
    requires Shaping(o) && (lively || Still(o)) && Inv(m) && Ordered(o, m) && Enabled(m, RequestData(bytes, end))
    ensures var s := RequestData(bytes, end);
            var r := Apply(o, m, s);
            Unmarked(r) && (StepInPlace(o, m, s, lively) ==> Kempt(r.decode, CourseOf(o, r))) &&
            (!lively ==> (InOrder(CourseOf(o, r)) <==> StepInPlace(o, m, s, lively)))
  {
    hide Inv, D.DataLoop, Sound, Resting, Kept, Stays, Shaping, Still, RequestCourse, Tidy, OnTheWay, PushInPlace;
    var m1 := PushStart(m, bytes, end);
    ghost var p := RequestDataStarts(m, bytes, end);
    if m.decode.aborted {
      AbortedArrival(o, m, bytes, end);
    } else {
      PushSetsOut(o, m, m1, bytes);
      PushIff(o, m1, p, 0, bytes, end, false, lively);
      DataLoopPlain(o, m1, 0, Own(bytes), end, false);
      PlainUnmarked(m1, D.DataLoop(o, m1, 0, Own(bytes), end, false));
    }
  }

  /** Bytes that come in set out behind everything that came before. */
  lemma {:induction false} PushSetsOut(o: Oracle, m: Manager, r: Manager, bytes: Bytes)
    requires Tidy(m.decode, CourseOf(o, m)) && r.decode == m.decode.(observedEnd := r.decode.observedEnd)
    requires r.log == After(m.log, Arrived(Decoding, bytes)) && Flagged(m) && !m.decode.observedEnd
    ensures OnTheWay(r.decode, CourseOf(o, r), 0, bytes)
  {
    hide Came, Shown, Onward, Tidy, OnTheWay;
    ArrivedStream(m.log, Decoding, bytes);
    var k, d := CourseOf(o, m), CourseOf(o, r);
    assert d.below == k.below;
    if |k.below| > 0 { assert d.above == k.above[0 := k.above[0] + bytes]; }
    SetOut(m.decode, k, d, bytes);
    OnTheWayKept(m.decode, r.decode, d, bytes);
  }

  /** After an abort bytes come in and go nowhere. */
  lemma {:induction false} AbortedArrival(o: Oracle, m: Manager, bytes: Bytes, end: bool)
    requires Ordered(o, m) && m.decode.aborted && Enabled(m, RequestData(bytes, end))
    ensures var r := Apply(o, m, RequestData(bytes, end)); Ordered(o, r) && InOrder(CourseOf(o, r))
  {
    hide Came, Shown, Onward, Tidy;
    ArrivedStream(m.log, Decoding, bytes);
    var r := PushStart(m, bytes, end);
    var k, d := CourseOf(o, m), CourseOf(o, r);
    forall p | 0 <= p < |d.below| ensures d.below[p] <= d.above[p] {
      assert k.below[p] <= k.above[p] && d.below[p] == k.below[p];
      assert d.above[p] == if p == 0 then k.above[p] + bytes else k.above[p];
    }
  }

  lemma {:induction false} ResumeRequestOrdered(o: Oracle, m: Manager, k: nat, lively: bool)
    requires Shaping(o) && (lively || Still(o)) && Inv(m) && Ordered(o, m) && Enabled(m, ResumeRequest(k))
    ensures var r := Apply(o, m, ResumeRequest(k));
            Unmarked(r) && (InPlace(o, m, k, lively) ==> Kempt(r.decode, CourseOf(o, r))) &&
            (!lively ==> (InOrder(CourseOf(o, r)) <==> InPlace(o, m, k, lively)))
  {
    hide Sound, ResponsePlace, EE.Ends, EE.Single, Resting, D.CommonContinue, Shaping, Still, Kempt, InPlace,
         RequestCourse;
    assert m.stream.hasRequest;
    ghost var p :| Resting(m, p);
    CommonContinueIff(o, m, p, k, lively);
    CommonContinuePlain(o, m, k);
    PlainUnmarked(m, D.CommonContinue(o, m, k));
  }

  lemma {:induction false} StepOrdered(o: Oracle, m: Manager, s: Step, lively: bool)
    requires Shaping(o) && (lively || Still(o)) && Inv(m) && Ordered(o, m) && Enabled(m, s) && !s.AddRequestData?
    ensures var r := Apply(o, m, s);
            (StepInPlace(o, m, s, lively) ==> Ordered(o, r)) &&
            (!lively ==> (InOrder(CourseOf(o, r)) <==> StepInPlace(o, m, s, lively)))
  {
    hide Inv, Apply, Shaping, Still, Kempt, Unmarked, Stays, RequestKept, PushInPlace, InPlace, RequestCourse;
    var r := Apply(o, m, s);
    match s
    case RequestHeaders(end) => RequestHeadersOrdered(o, m, end);
    case RequestData(bytes, end) => RequestDataOrdered(o, m, bytes, end, lively);
    case ResumeRequest(k) => ResumeRequestOrdered(o, m, k, lively);
    case ResponseHeaders(from, status, end) =>
      ResponseHeadersInv(o, m, from, status, end);
      OrderedKept(o, m, r);
    case ResponseData(from, bytes, end) =>
      ResponseDataInv(o, m, from, bytes, end);
      OrderedKept(o, m, r);
    case AddResponseData(k, bytes) =>
      AddResponseDataInv(o, m, k, bytes);
      OrderedKept(o, m, r);
    case ResumeResponse(k) =>
      ResumeResponseInv(o, m, k);
      OrderedKept(o, m, r);
  }

  lemma {:induction false} RunOrdered(o: Oracle, m: Manager, steps: seq<Step>, lively: bool)
    requires Shaping(o) && (lively || Still(o)) && Inv(m) && Ordered(o, m)
    requires forall s :: s in steps ==> !s.AddRequestData?
    ensures var r := Run(o, m, steps);
            (AlwaysInPlace(o, m, steps, lively) ==> AlwaysInOrder(o, m, steps) && Ordered(o, r)) &&
            (!lively ==> (AlwaysInOrder(o, m, steps) <==> AlwaysInPlace(o, m, steps, lively)))
    decreases |steps|
  {
    hide Inv, InOrder, Tidy, Unmarked, Apply, Enabled, Shaping, Still, Stays, StepInPlace, RequestCourse;
    if steps != [] {
      if Enabled(m, steps[0]) {
        var m1 := Apply(o, m, steps[0]);
        StepInv(o, m, steps[0]);
        StepOrdered(o, m, steps[0], lively);
        if StepInPlace(o, m, steps[0], lively) {
          RunOrdered(o, m1, steps[1..], lively);
        } else {
          assert !lively ==> !AlwaysInOrder(o, m1, steps[1..]);
        }
      } else {
        RunOrdered(o, m, steps[1..], lively);
      }
    }
  }

  lemma {:induction false} InitOrdered(o: Oracle, decoders: nat, encoders: nat, halfClose: bool)
    ensures Ordered(o, Init(decoders, encoders, halfClose))
  {
    var m := Init(decoders, encoders, halfClose);
    var k := CourseOf(o, m);
    forall p | 0 <= p < |k.below| ensures k.above[p] == [] && k.below[p] == [] {
      assert k.above[p] == SentTo(o, Empty, p) && k.below[p] == Shown(Empty, Decoding, p);
    }
    PileNothing(k, 0);
    assert Aligned(m.decode, k, []);
  }

  /** With nothing stopped, nothing waits. */
  lemma {:induction false} AllThrough(o: Oracle, m: Manager)
    requires Tidy(m.decode, CourseOf(o, m)) && !RT.AnyStopped(m)
    ensures forall p :: 0 <= p < |m.decode.filters| ==> Shown(m.log, Decoding, p) == SentTo(o, m.log, p)
  {
    var k := CourseOf(o, m);
    var rest :| Aligned(m.decode, k, rest);
    forall p | 0 <= p < |m.decode.filters| ensures Shown(m.log, Decoding, p) == SentTo(o, m.log, p) {
      assert !Holding(m.decode, p);
      WaitIs(k, p);
      assert k.below[p] == Shown(m.log, Decoding, p) && k.above[p] == SentTo(o, m.log, p);
    }
  }

  /** What a decoder filter passes on is what the next one is shown. On a run of filters that stop,
      discard and rewrite as they like but neither abort nor add, and of which none is resumed
      while bytes are buffered elsewhere than in front of it: after every step the first filter has
      been shown the beginning of what came in, and every other filter the beginning of what the
      one before passed on by its own replies. When nothing is stopped and decoding was not
      aborted, they have been shown all of it. */
  lemma {:induction false} RequestFiltersCompose(
    o: Oracle, decoders: nat, encoders: nat, halfClose: bool, steps: seq<Step>)
    requires Shaping(o) && forall s :: s in steps ==> !s.AddRequestData?
    requires AlwaysInPlace(o, Init(decoders, encoders, halfClose), steps, true)
    ensures AlwaysInOrder(o, Init(decoders, encoders, halfClose), steps)
    ensures var m := Run(o, Init(decoders, encoders, halfClose), steps);
            !RT.AnyStopped(m) && !m.decode.aborted ==>
              forall p :: 0 <= p < decoders ==> Shown(m.log, Decoding, p) == SentTo(o, m.log, p)
  {
    hide AlwaysInPlace, AlwaysInOrder, Shaping, Run, Apply, Enabled, Inv, Tidy, Unmarked, RequestCourse, RT.AnyStopped;
    var m0 := Init(decoders, encoders, halfClose);
    InitInv(decoders, encoders, halfClose);
    InitOrdered(o, decoders, encoders, halfClose);
    RunOrdered(o, m0, steps, true);
    RunInv(o, m0, steps);
    var m := Run(o, m0, steps);
    if !RT.AnyStopped(m) && !m.decode.aborted { AllThrough(o, m); }
  }

  /** Exactly then: of filters that make nothing out of nothing, request bytes are in order after
      every step of a run if and only if no step resumes a filter out of place. */
  lemma {:induction false} RequestFiltersComposeIff(
    o: Oracle, decoders: nat, encoders: nat, halfClose: bool, steps: seq<Step>)
    requires Shaping(o) && Still(o) && forall s :: s in steps ==> !s.AddRequestData?
    ensures var m := Init(decoders, encoders, halfClose);
            AlwaysInOrder(o, m, steps) <==> AlwaysInPlace(o, m, steps, false)
  {
    hide AlwaysInPlace, AlwaysInOrder, Shaping, Still, Run, Apply, Enabled, Inv, Ordered;
    InitInv(decoders, encoders, halfClose);
    InitOrdered(o, decoders, encoders, halfClose);
    RunOrdered(o, Init(decoders, encoders, halfClose), steps, false);
  }

  // Filters that change nothing.

  /** What came in, then what each of n filters has been shown. */
  function Through(log: Log, q: nat): Bytes {
    if q == 0 then Came(log, Decoding) else Shown(log, Decoding, q - 1)
  }

  /** Each of these is the beginning of the one before: no filter is shown a byte twice, out of
      order or before the filter in front. */
  ghost predicate InTurn(log: Log, n: nat) {
    forall p: nat :: p < n ==> Shown(log, Decoding, p) <= Through(log, p)
  }

  ghost predicate AlwaysInTurn(o: Oracle, m: Manager, steps: seq<Step>)
    decreases |steps|
  {
    InTurn(m.log, |m.decode.filters|) &&
    (steps == [] || AlwaysInTurn(o, if Enabled(m, steps[0]) then Apply(o, m, steps[0]) else m, steps[1..]))
  }

  lemma {:induction false} PassiveSent(o: Oracle, log: Log, p: nat)
    requires Passive(o)
    ensures SentTo(o, log, p) == Through(log, p)
  {
    hide Came, Shown, Onward, Passive;
    if p > 0 { PassiveOnward(o, log, p - 1); }
  }

  lemma {:induction false} InTurnHere(o: Oracle, log: Log, n: nat)
    requires Passive(o)
    ensures InTurn(log, n) <==> InOrder(RequestCourse(o, log, n))
  {
    hide Passive, SentTo, Through, Shown;
    var k := RequestCourse(o, log, n);
    forall p: nat | p < n ensures k.above[p] == Through(log, p) && k.below[p] == Shown(log, Decoding, p) {
      PassiveSent(o, log, p);
    }
    if InTurn(log, n) {
      forall p | 0 <= p < |k.below| ensures k.below[p] <= k.above[p] {
        assert Shown(log, Decoding, p) <= Through(log, p);
      }
    }
    if InOrder(k) {
      forall p: nat | p < n ensures Shown(log, Decoding, p) <= Through(log, p) { assert k.below[p] <= k.above[p]; }
    }
  }

  lemma {:induction false} InTurnIff(o: Oracle, m: Manager, steps: seq<Step>)
    requires Passive(o)
    ensures AlwaysInTurn(o, m, steps) <==> AlwaysInOrder(o, m, steps)
    decreases |steps|
  {
    hide Passive, Apply, Enabled, RequestCourse, InTurn, InOrder;
    InTurnHere(o, m.log, |m.decode.filters|);
    if steps != [] { InTurnIff(o, if Enabled(m, steps[0]) then Apply(o, m, steps[0]) else m, steps[1..]); }
  }

  /** Every request byte once and in order, for every filter, the last one included. On a run of
      filters that neither drop, rewrite, add nor abort, however many of them are stopped at a
      time: what came in and what the filters have been shown, one after the other, are each the
      beginning of the one before after every step, if and only if no step resumes a filter while
      bytes are buffered elsewhere than in front of it. Then, when nothing is stopped and decoding
      was not aborted, all have seen all. */
  lemma {:induction false} EveryFilterSeesTheRequestOnce(
    o: Oracle, decoders: nat, encoders: nat, halfClose: bool, steps: seq<Step>)
    requires Passive(o) && forall s :: s in steps ==> !s.AddRequestData?
    ensures var m0 := Init(decoders, encoders, halfClose);
            AlwaysInTurn(o, m0, steps) <==> AlwaysInPlace(o, m0, steps, false)
    ensures var m0 := Init(decoders, encoders, halfClose);
            var m := Run(o, m0, steps);
            AlwaysInPlace(o, m0, steps, false) && !RT.AnyStopped(m) && !m.decode.aborted ==>
              forall j :: 0 <= j < decoders ==> Shown(m.log, Decoding, j) == Came(m.log, Decoding)
  {
    hide AlwaysInPlace, AlwaysInOrder, AlwaysInTurn, Passive, Shaping, Still, Run, Apply, Enabled, Inv, Tidy, Unmarked,
         Came,
         Shown, RequestCourse, SentTo, RT.AnyStopped;
    var m0 := Init(decoders, encoders, halfClose);
    InTurnIff(o, m0, steps);
    InitInv(decoders, encoders, halfClose);
    InitOrdered(o, decoders, encoders, halfClose);
    PassiveShapes(o);
    RunOrdered(o, m0, steps, false);
    var m := Run(o, m0, steps);
    if AlwaysInPlace(o, m0, steps, false) && !RT.AnyStopped(m) && !m.decode.aborted {
      RunInv(o, m0, steps);
      AllThrough(o, m);
      forall j: nat | j < decoders ensures Shown(m.log, Decoding, j) == Came(m.log, Decoding) {
        SeenFlat(o, m.log, decoders, j);
      }
    }
  }

  lemma {:induction false} SeenFlat(o: Oracle, log: Log, n: nat, j: nat)
    requires Passive(o) && j < n && forall p :: 0 <= p < n ==> Shown(log, Decoding, p) == SentTo(o, log, p)
    ensures Shown(log, Decoding, j) == Came(log, Decoding)
  {
    hide Came, Shown, Passive, SentTo;
    PassiveSent(o, log, j);
    assert Shown(log, Decoding, j) == SentTo(o, log, j);
    if j > 0 { SeenFlat(o, log, n, j - 1); }
  }

  // What happens otherwise: nobody takes bytes out of the request buffer behind the last filter.

  /** The first of two filters stops on all data, and the second lets everything pass. */
  function FirstHolds(): Oracle {
    Oracle((l, d, i, e) => HeadersReply(HeadersContinue, None, false, false),
           (l, d, i, b, e) => DataReply(if i == 0 then DataStopAndBuffer else DataContinue, None, None, false, false),
           l => false,
           l => CloseReply(false, false))
  }

  const PASSED := FilterState(Continue, false, true, false, true)
  const HOLDING := FilterState(StopSingle, false, true, false, true)

  const FIRST_BYTE: seq<Step> := [RequestHeaders(false), RequestData([1], false), ResumeRequest(0)]
  const SECOND_BYTE: seq<Step> := [RequestData([2], false), ResumeRequest(0)]

  /** Only the first filter ever stops, and it is resumed before more comes. Yet when it stops and
      resumes again, the second is shown the first byte a second time. */
  lemma {:induction false} PassedByteIsShownAgain()
    ensures var m := Run(FirstHolds(), Init(2, 0, true), FIRST_BYTE + SECOND_BYTE);
            Passive(FirstHolds()) && !RT.AnyStopped(m) && !m.decode.aborted && Came(m.log, Decoding) == [1, 2] &&
            Shown(m.log, Decoding, 0) == [1, 2] && Shown(m.log, Decoding, 1) == [1, 1, 2]
  {
    hide Apply, Run, Came, Shown, FirstHolds, Passive;
    var o, m0 := FirstHolds(), Init(2, 0, true);
    HolderPasses();
    var m1 := HeadersPass();
    var empty: Bytes := [];
    assert empty + [1] == [1] && [1] + [2] == [1, 2] && [1] + [1, 2] == [1, 1, 2];
    var m2 := ByteHeld(m1, empty, 1);
    var m3 := BufferPasses(m2, [1]);
    RunThree(o, m0, FIRST_BYTE[0], FIRST_BYTE[1], FIRST_BYTE[2]);
    var m4 := ByteHeld(m3, [1], 2);
    var m5 := BufferPasses(m4, [1, 2]);
    RunTwo(o, m3, SECOND_BYTE[0], SECOND_BYTE[1]);
    RunOn(o, m0, FIRST_BYTE, SECOND_BYTE);
  }

  lemma HolderPasses()
    ensures Passive(FirstHolds())
  {}

  lemma HeadersPass() returns (r: Manager)
    ensures Enabled(Init(2, 0, true), RequestHeaders(false))
    ensures Apply(FirstHolds(), Init(2, 0, true), RequestHeaders(false)) == r
    ensures r.decode == Chain([PASSED, PASSED], None, false, false, false) && r.stream.hasRequest && !r.stream.sawReset
    ensures Came(r.log, Decoding) == Shown(r.log, Decoding, 0) == Shown(r.log, Decoding, 1) == []
  {
    var o := FirstHolds();
    var m := Init(2, 0, true);
    var m1 := m.(stream := m.stream.(hasRequest := true));
    var m2 := D.HeadersStep(o, m1, 0, false);
    r := D.HeadersStep(o, m2, 1, false);
    assert r.decode.filters == [PASSED, PASSED];
    assert D.HeadersLoop(o, r, 2, false, None, false) == r;
    assert D.HeadersLoop(o, m2, 1, false, None, false) == r;
  }

  lemma ByteHeld(m: Manager, held: Bytes, b: byte) returns (r: Manager)
    requires m.decode.filters == [PASSED, PASSED] && Held(m.decode.buffer) == held
    requires !m.decode.observedEnd && !m.decode.complete && !m.decode.aborted && m.stream.hasRequest &&
             !m.stream.sawReset
    ensures Enabled(m, RequestData([b], false)) && Apply(FirstHolds(), m, RequestData([b], false)) == r
    ensures r.decode == Chain([HOLDING, PASSED], Some(held + [b]), false, false, false) && r.stream == m.stream
    ensures Came(r.log, Decoding) == Came(m.log, Decoding) + [b] &&
            Shown(r.log, Decoding, 1) == Shown(m.log, Decoding, 1)
    ensures Shown(r.log, Decoding, 0) == Shown(m.log, Decoding, 0) + [b]
  {
    var o := FirstHolds();
    var m1 := m.(log := After(m.log, Arrived(Decoding, [b])));
    var m2 := D.DataStep(o, m1, 0, Own([b]), false);
    r := m2.(decode := StopOnData(m2.decode, 0, Own([b]), DataStopAndBuffer));
    assert D.DataEntry(o, m1, 0, Own([b]), false) == D.DataStop(r);
    assert r.decode.filters == [HOLDING, PASSED];
  }

  lemma BufferPasses(m: Manager, held: Bytes) returns (r: Manager)
    requires m.decode == Chain([HOLDING, PASSED], Some(held), false, false, false) && !m.stream.sawReset
    ensures Enabled(m, ResumeRequest(0)) && Apply(FirstHolds(), m, ResumeRequest(0)) == r
    ensures r.decode == Chain([PASSED, PASSED], Some(held), false, false, false) && r.stream == m.stream
    ensures Came(r.log, Decoding) == Came(m.log, Decoding) && Shown(r.log, Decoding, 0) == Shown(m.log, Decoding, 0)
    ensures Shown(r.log, Decoding, 1) == Shown(m.log, Decoding, 1) + held
  {
    var o := FirstHolds();
    var m1 := m.(decode := AllowIteration(m.decode, 0));
    assert m1.decode.filters == [PASSED, PASSED];
    var m2 := D.DataStep(o, m1, 1, Shared, false);
    assert m2.decode.filters == [PASSED, PASSED];
    assert D.DataEntry(o, m1, 1, Shared, false) == D.DataOnward(m2, Shared);
    assert D.DataLoop(o, m2, 2, Shared, false, false) == m2;
    assert D.DataLoop(o, m1, 1, Shared, false, false) == m2;
    assert D.ResumeHeaders(o, m1, 0) == m1 && D.ResumeData(o, m1, 0) == m2;
    r := m2.(decode := LeaveCurrent(m2.decode, 0));
    assert r.decode.filters == [PASSED, PASSED];
  }
}
