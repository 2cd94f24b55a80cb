/** What each encoder filter has been shown of the body, and what became of what it passed on, on
    every run of a stream. */
module ViewTheorems {
  import opened FilterTypes
  import opened ByteStreams
  import opened Courses
  import opened Protocol
  import opened EncoderProtocol
  import opened EncoderEnd
  import opened EncoderDelivery
  import opened EncoderConservation
  import opened EncoderCourse
  import opened FilterRuns
  import opened FilterTheorems
  import E = EncoderChain

  /** The step resumes no filter out of place. */
  ghost predicate StepInPlace(o: Oracle, m: Manager, s: Step, lively: bool)
    requires Enabled(m, s)
  {
    match s
    case ResponseData(from, bytes, end) => PushInPlace(o, ResponseDataStart(m, from, bytes, end), 0, bytes, end, lively)
    case ResumeResponse(k) => InPlace(o, m, k, lively)
    case _ => true
  }

  /** No step of the run does. */
  ghost predicate AlwaysInPlace(o: Oracle, m: Manager, steps: seq<Step>, lively: bool)
    decreases |steps|
  {
    steps == [] ||
    if Enabled(m, steps[0]) then
      StepInPlace(o, m, steps[0], lively) && AlwaysInPlace(o, Apply(o, m, steps[0]), steps[1..], lively)
    else AlwaysInPlace(o, m, steps[1..], lively)
  }

  /** After every step of the run, what came in, what each filter passed on to the next and what
      the codec got are in order. */
  ghost predicate AlwaysInOrder(o: Oracle, m: Manager, steps: seq<Step>)
    decreases |steps|
  {
    InOrder(CourseOf(o, m)) &&
    (steps == [] ||
     AlwaysInOrder(o, if Enabled(m, steps[0]) then Apply(o, m, steps[0]) else m, steps[1..]))
  }

  /** A step that moves no response bytes. */
  lemma {:induction false} TidyKept(o: Oracle, m: Manager, r: Manager)
    requires Tidy(m.encode, CourseOf(o, m)) && SameBytes(m.log, r.log)
    requires r.encode == m.encode.(observedEnd := r.encode.observedEnd)
    ensures Tidy(r.encode, CourseOf(o, r)) && InOrder(CourseOf(o, r))
  {
    hide Sunk, Input, Came, Shown, Onward, ResponseCourse, Wait, Pile;
    CourseSame(o, m.log, r.log, |m.encode.filters|);
    var rest :| Aligned(m.encode, CourseOf(o, m), rest);
    assert Aligned(r.encode, CourseOf(o, r), rest);
  }

  lemma {:induction false} ResponseHeadersTidy(o: Oracle, m: Manager, from: nat, status: nat, end: bool)
    requires Shaping(o) && Inv(m) && Tidy(m.encode, CourseOf(o, m)) && Enabled(m, ResponseHeaders(from, status, end))
    ensures var r := Apply(o, m, ResponseHeaders(from, status, end));
            Tidy(r.encode, CourseOf(o, r)) && InOrder(CourseOf(o, r))
  {
    hide Tied, Sealed, WatchCodec, WatchClose, Sunk, Input, Came, Shown, Onward, Injected, E.HeadersLoop, ResponseStart,
         Shaping, RequestPlace, ResponsePlace, Apply, SameBytes, Arriving, ResponseCourse, Tidy, Split;
    var m0 := m.(stream := m.stream.(responseStatus := Some(status)));
    var m1 := ResponseStart(m0, from, end);
    ResponseHeadersStarts(m, from, status, end);
    ResponseHeadersApplied(o, m, from, status, end);
    NothingBuffered(m);
    TidyKept(o, m, m1);
    EmptySplit(m1.encode, CourseOf(o, m1), 0);
    FreshFrom(m1, 0);
    HeadersLoopStill(o, m1, 0, end);
    var r := E.HeadersLoop(o, m1, 0, end, None);
    EmptyLined(m1.encode, r.encode, CourseOf(o, r));
    LinedTidy(r.encode, CourseOf(o, r));
    TidyWaits(r.encode, CourseOf(o, r), 0);
  }

  lemma {:induction false} ResponseDataTidy(o: Oracle, m: Manager, from: nat, bytes: Bytes, end: bool, lively: bool)
    requires Shaping(o) && (lively || Still(o)) && Inv(m) && Tidy(m.encode, CourseOf(o, m))
    requires Enabled(m, ResponseData(from, bytes, end))
    ensures var s := ResponseData(from, bytes, end);
            var r := Apply(o, m, s);
            (StepInPlace(o, m, s, lively) ==> Tidy(r.encode, CourseOf(o, r))) &&
            (!lively ==> (InOrder(CourseOf(o, r)) <==> StepInPlace(o, m, s, lively)))
  {
    hide Tied, Sealed, WatchCodec, WatchClose, Sunk, Input, Came, Shown, Onward, Injected, E.DataLoop,
         ResponseDataStart, Shaping, Still, RequestPlace, ResponsePlace, Apply, Tidy, OnTheWay, Resting, PushInPlace,
         ResponseCourse;
    var m1 := ResponseDataStart(m, from, bytes, end);
    ghost var p := ResponseDataStarts(m, from, bytes, end);
    ResponseDataApplied(o, m, from, bytes, end);
    PushSetsOut(o, m, m1, bytes);
    PushIff(o, m1, p, 0, bytes, end, lively);
  }

  /** Bytes that come in set out behind everything that came before. */
  lemma {:induction false} PushSetsOut(o: Oracle, m: Manager, r: Manager, bytes: Bytes)
    requires Tidy(m.encode, CourseOf(o, m)) && r.encode == m.encode.(observedEnd := r.encode.observedEnd)
    requires Sunk(r.log) == Sunk(m.log) && Arrives(m.log, r.log, Encoding, bytes)
    requires forall j :: 0 <= j < |m.encode.filters| ==> !m.encode.filters[j].endStream
    ensures OnTheWay(r.encode, CourseOf(o, r), 0, bytes)
  {
    hide Sunk, Came, Shown, Onward, Tidy, OnTheWay;
    var k, d := CourseOf(o, m), CourseOf(o, r);
    assert d.below == k.below && d.above == k.above[0 := k.above[0] + bytes];
    SetOut(m.encode, k, d, bytes);
    OnTheWayKept(m.encode, r.encode, d, bytes);
  }

  lemma {:induction false} ResumeResponseTidy(o: Oracle, m: Manager, k: nat, lively: bool)
    requires Shaping(o) && (lively || Still(o)) && Inv(m) && Tidy(m.encode, CourseOf(o, m))
    requires Enabled(m, ResumeResponse(k))
    ensures var r := Apply(o, m, ResumeResponse(k));
            (InPlace(o, m, k, lively) ==> Tidy(r.encode, CourseOf(o, r))) &&
            (!lively ==> (InOrder(CourseOf(o, r)) <==> InPlace(o, m, k, lively)))
  {
    hide Tied, Sealed, WatchCodec, WatchClose, Sunk, Input, Came, Shown, Onward, Injected, E.CommonContinue, Shaping,
         Still, Tidy, InPlace, RequestPlace, ResponseCourse;
    ghost var p := ResponseAt(m, k);
    CommonContinueIff(o, m, p, k, lively);
  }

  /** Where the response rests once a filter is stopped. */
  lemma ResponseAt(m: Manager, k: nat) returns (p: nat)
    requires Inv(m) && k < |m.encode.filters| && m.encode.filters[k].Stopped()
    ensures Resting(m, p) && Tied(m) && Clear(m.encode, k)
  {
    hide Tied, Sealed, WatchCodec, WatchClose, RequestPlace;
    p :| Resting(m, p);
  }

  lemma {:induction false} StepTidy(o: Oracle, m: Manager, s: Step, lively: bool)
    requires Shaping(o) && (lively || Still(o)) && Inv(m) && Tidy(m.encode, CourseOf(o, m))
    requires Enabled(m, s) && !s.AddResponseData?
    ensures var r := Apply(o, m, s);
            (StepInPlace(o, m, s, lively) ==> Tidy(r.encode, CourseOf(o, r)) && InOrder(CourseOf(o, r))) &&
            (!lively ==> (InOrder(CourseOf(o, r)) <==> StepInPlace(o, m, s, lively)))
  {
    hide Inv, Apply, Shaping, Still, Tidy, Stays, SameBytes, WatchCodec, PushInPlace, InPlace, ResponseDataStart,
         ResponseCourse, SameStream;
    var r := Apply(o, m, s);
    match s
    case RequestHeaders(end) =>
      RequestHeadersInv(o, m, end);
      TidyKept(o, m, r);
    case RequestData(bytes, end) =>
      RequestDataInv(o, m, bytes, end);
      TidyKept(o, m, r);
    case AddRequestData(k, bytes) =>
      AddRequestDataInv(o, m, k, bytes);
      TidyKept(o, m, r);
    case ResumeRequest(k) =>
      ResumeRequestInv(o, m, k);
      TidyKept(o, m, r);
    case ResponseHeaders(from, status, end) => ResponseHeadersTidy(o, m, from, status, end);
    case ResponseData(from, bytes, end) =>
      ResponseDataTidy(o, m, from, bytes, end, lively);
      if StepInPlace(o, m, s, lively) { TidyWaits(r.encode, CourseOf(o, r), 0); }
    case ResumeResponse(k) =>
      ResumeResponseTidy(o, m, k, lively);
      if StepInPlace(o, m, s, lively) { TidyWaits(r.encode, CourseOf(o, r), 0); }
  }

  lemma {:induction false} RunTidy(o: Oracle, m: Manager, steps: seq<Step>, lively: bool)
    requires Shaping(o) && (lively || Still(o)) && Inv(m) && Tidy(m.encode, CourseOf(o, m))
    requires forall s :: s in steps ==> !s.AddResponseData?
    ensures var r := Run(o, m, steps);
            (AlwaysInPlace(o, m, steps, lively) ==> AlwaysInOrder(o, m, steps) && Tidy(r.encode, CourseOf(o, r))) &&
            (!lively ==> (AlwaysInOrder(o, m, steps) <==> AlwaysInPlace(o, m, steps, lively)))
    decreases |steps|
  {
    hide Inv, Tidy, InOrder, Apply, Enabled, Shaping, Still, Stays, StepInPlace, ResponseCourse;
    TidyWaits(m.encode, CourseOf(o, m), 0);
    if steps != [] {
      if Enabled(m, steps[0]) {
        var m1 := Apply(o, m, steps[0]);
        StepInv(o, m, steps[0]);
        StepTidy(o, m, steps[0], lively);
        if StepInPlace(o, m, steps[0], lively) {
          RunTidy(o, m1, steps[1..], lively);
        } else {
          assert !lively ==> !AlwaysInOrder(o, m1, steps[1..]);
        }
      } else {
        RunTidy(o, m, steps[1..], lively);
      }
    }
  }

  /** What a filter passes on is what the next one is shown. On a run of filters that stop, discard
      and rewrite as they like but neither abort nor add, and of which none is resumed while bytes
      wait elsewhere than in front of it: after every step the first filter has been shown the
      beginning of what came in, every other filter, and the codec, the beginning of what the one
      before passed on by its own replies. When nothing is stopped, they have been shown all of
      it. */
  lemma {:induction false} FiltersCompose(o: Oracle, decoders: nat, encoders: nat, halfClose: bool, steps: seq<Step>)
    requires Shaping(o) && forall s :: s in steps ==> !s.AddResponseData?
    requires AlwaysInPlace(o, Init(decoders, encoders, halfClose), steps, true)
    ensures AlwaysInOrder(o, Init(decoders, encoders, halfClose), steps)
    ensures var m := Run(o, Init(decoders, encoders, halfClose), steps);
            !StoppedFrom(m.encode.filters, 0) ==>
              forall p :: 0 <= p <= encoders ==> GotAt(m.log, encoders, p) == SentTo(o, m.log, p)
  {
    hide AlwaysInPlace, AlwaysInOrder, Shaping, Run, Apply, Enabled, Inv, Tidy;
    var m0 := Init(decoders, encoders, halfClose);
    InitInv(decoders, encoders, halfClose);
    InitTidy(o, decoders, encoders, halfClose);
    RunTidy(o, m0, steps, true);
    RunInv(o, m0, steps);
    var m := Run(o, m0, steps);
    if !StoppedFrom(m.encode.filters, 0) {
      AllThrough(o, m);
      forall p | 0 <= p <= encoders ensures GotAt(m.log, encoders, p) == SentTo(o, m.log, p) {
        assert CourseOf(o, m).below[p] == CourseOf(o, m).above[p];
      }
    }
  }

  lemma InitTidy(o: Oracle, decoders: nat, encoders: nat, halfClose: bool)
    ensures var m := Init(decoders, encoders, halfClose); Tidy(m.encode, CourseOf(o, m))
  {
    var m := Init(decoders, encoders, halfClose);
    var k := CourseOf(o, m);
    forall p | 0 <= p < |k.below| ensures k.above[p] == [] && k.below[p] == [] {
      assert k.above[p] == SentTo(o, Empty, p) && k.below[p] == GotAt(Empty, |m.encode.filters|, p);
    }
    PileNothing(k, 0);
    assert Aligned(m.encode, k, []);
  }

  /** With nothing stopped, nothing waits. */
  lemma {:induction false} AllThrough(o: Oracle, m: Manager)
    requires Tidy(m.encode, CourseOf(o, m)) && !StoppedFrom(m.encode.filters, 0)
    ensures var k := CourseOf(o, m); forall p :: 0 <= p <= |m.encode.filters| ==> k.below[p] == k.above[p]
  {
    hide ResponseCourse;
    var k := CourseOf(o, m);
    var rest :| Aligned(m.encode, k, rest);
    forall p | 0 <= p <= |m.encode.filters| ensures k.below[p] == k.above[p] {
      assert !Holding(m.encode, p);
      WaitIs(k, p);
    }
  }

  /** Exactly then: of filters that make nothing out of nothing, bytes are in order after every step
      of a run if and only if no step resumes a filter out of place. */
  lemma {:induction false} FiltersComposeIff(
    o: Oracle, decoders: nat, encoders: nat, halfClose: bool, steps: seq<Step>)
    requires Shaping(o) && Still(o) && forall s :: s in steps ==> !s.AddResponseData?
    ensures var m := Init(decoders, encoders, halfClose);
            AlwaysInOrder(o, m, steps) <==> AlwaysInPlace(o, m, steps, false)
  {
    hide AlwaysInPlace, AlwaysInOrder, Shaping, Still, Run, Apply, Enabled, Inv, Tidy;
    InitInv(decoders, encoders, halfClose);
    InitTidy(o, decoders, encoders, halfClose);
    RunTidy(o, Init(decoders, encoders, halfClose), steps, false);
  }

  // Filters that change nothing.

  /** What has come as far as position q of n filters: what came in, what each filter has been
      shown in turn, what the codec got. */
  function Through(log: Log, n: nat, q: nat): Bytes
    requires q <= n + 1
  {
    if q == 0 then Came(log, Encoding) else if q <= n then Shown(log, Encoding, q - 1) else Sunk(log)
  }

  /** Each of these is the beginning of the one before: nobody is shown a byte twice, out of order
      or before the filter in front, and no byte goes past a filter that has not been shown it. */
  ghost predicate InTurn(log: Log, n: nat) {
    forall p :: 0 <= p <= n ==> Through(log, n, p + 1) <= Through(log, n, p)
  }

  lemma {:induction false} PassiveThrough(o: Oracle, log: Log, n: nat)
    requires Passive(o)
    ensures var k := ResponseCourse(o, log, n);
            forall p :: 0 <= p <= n ==> k.below[p] == Through(log, n, p + 1) && k.above[p] == Through(log, n, p)
  {
    hide Came, Shown, Onward, Sunk, Passive;
    forall i: nat ensures Onward(o, log, Encoding, i) == Shown(log, Encoding, i) { PassiveOnward(o, log, i); }
  }

  ghost predicate AlwaysInTurn(o: Oracle, m: Manager, steps: seq<Step>)
    decreases |steps|
  {
    InTurn(m.log, |m.encode.filters|) &&
    (steps == [] || AlwaysInTurn(o, if Enabled(m, steps[0]) then Apply(o, m, steps[0]) else m, steps[1..]))
  }

  lemma {:induction false} InTurnHere(o: Oracle, log: Log, n: nat)
    requires Passive(o)
    ensures InTurn(log, n) <==> InOrder(ResponseCourse(o, log, n))
  {
    hide Passive, ResponseCourse, Through;
    PassiveThrough(o, log, n);
    var k := ResponseCourse(o, log, n);
    if InTurn(log, n) {
      forall p | 0 <= p < |k.below| ensures k.below[p] <= k.above[p] {
        assert Through(log, n, p + 1) <= Through(log, n, p);
      }
    }
    if InOrder(k) {
      forall p | 0 <= p <= n ensures Through(log, n, p + 1) <= Through(log, n, p) { assert k.below[p] <= k.above[p]; }
    }
  }

  lemma {:induction false} InTurnIff(o: Oracle, m: Manager, steps: seq<Step>)
    requires Passive(o)
    ensures AlwaysInTurn(o, m, steps) <==> AlwaysInOrder(o, m, steps)
    decreases |steps|
  {
    hide Passive, Apply, Enabled, ResponseCourse, InTurn, InOrder;
    InTurnHere(o, m.log, |m.encode.filters|);
    if steps != [] { InTurnIff(o, if Enabled(m, steps[0]) then Apply(o, m, steps[0]) else m, steps[1..]); }
  }

  /** Every byte once and in order, for every filter. On a run of filters that neither drop,
      rewrite nor add bytes, however many of them are stopped at a time: what came in, what the
      filters have been shown, one after the other, and what the codec got are each the beginning
      of the one before after every step, if and only if no step resumes a filter while bytes
      wait elsewhere than in front of it. Then, when nothing is stopped, all have seen all. */
  lemma {:induction false} EveryFilterSeesEveryByteOnce(
    o: Oracle, decoders: nat, encoders: nat, halfClose: bool, steps: seq<Step>)
    requires Passive(o) && forall s :: s in steps ==> !s.AddResponseData?
    ensures var m0 := Init(decoders, encoders, halfClose);
            AlwaysInTurn(o, m0, steps) <==> AlwaysInPlace(o, m0, steps, false)
    ensures var m0 := Init(decoders, encoders, halfClose);
            var m := Run(o, m0, steps);
            AlwaysInPlace(o, m0, steps, false) && !StoppedFrom(m.encode.filters, 0) ==>
              Sunk(m.log) == Came(m.log, Encoding) &&
              forall j :: 0 <= j < encoders ==> Shown(m.log, Encoding, j) == Came(m.log, Encoding)
  {
    hide AlwaysInPlace, AlwaysInOrder, AlwaysInTurn, Passive, Shaping, Still, Run, Apply, Enabled, Inv, Tidy, Came,
         Shown, Onward, Sunk;
    var m0 := Init(decoders, encoders, halfClose);
    PassiveShapes(o);
    InTurnIff(o, m0, steps);
    InitInv(decoders, encoders, halfClose);
    InitTidy(o, decoders, encoders, halfClose);
    RunTidy(o, m0, steps, false);
    var m := Run(o, m0, steps);
    if AlwaysInPlace(o, m0, steps, false) && !StoppedFrom(m.encode.filters, 0) {
      RunInv(o, m0, steps);
      AllThrough(o, m);
      PassiveThrough(o, m.log, encoders);
      var k := ResponseCourse(o, m.log, encoders);
      forall p | 0 <= p <= encoders ensures Through(m.log, encoders, p + 1) == Through(m.log, encoders, p) {
        assert k.below[p] == k.above[p];
      }
      ThroughFlat(m.log, encoders, encoders + 1);
      forall j | 0 <= j < encoders ensures Shown(m.log, Encoding, j) == Came(m.log, Encoding) {
        ThroughFlat(m.log, encoders, j + 1);
      }
    }
  }

  lemma {:induction false} ThroughFlat(log: Log, n: nat, q: nat)
    requires q <= n + 1 && forall p :: 0 <= p <= n ==> Through(log, n, p + 1) == Through(log, n, p)
    ensures Through(log, n, q) == Came(log, Encoding)
  {
    hide Came, Shown, Sunk;
    if q > 0 {
      var p := q - 1;
      assert Through(log, n, p + 1) == Through(log, n, p);
      ThroughFlat(log, n, p);
    }
  }

  // What happens otherwise.

  /** All bytes wait in front of filter h and a filter is resumed that passes them on from
      elsewhere. From before h they are shown to the next filter a second time; from behind h they
      go past filter h, which is not shown them. */
  lemma {:induction false} MisplacedResume(o: Oracle, m: Manager, h: nat, k: nat)
    requires Passive(o) && Inv(m) && Tidy(m.encode, CourseOf(o, m)) && Enabled(m, ResumeResponse(k))
    requires !InPlace(o, m, k, false) && h <= |m.encode.filters| && Together(m.encode, CourseOf(o, m), h)
    ensures var n, f, r := |m.encode.filters|, Front(m.encode, k), Apply(o, m, ResumeResponse(k));
            f != h &&
            if f < h then Shown(r.log, Encoding, f) == Came(m.log, Encoding) + Held(m.encode.buffer)
            else
              Shown(r.log, Encoding, h) == Sunk(m.log) && Through(r.log, n, f + 1) == Came(m.log, Encoding)
  {
    hide Tied, Sealed, WatchCodec, WatchClose, Sunk, Input, Came, Onward, Injected, E.CommonContinue, Passive, Shaping,
         Shown, Blocked, RequestPlace, ResponsePlace, Tidy, ResponseCourse;
    var n, f, r := |m.encode.filters|, Front(m.encode, k), Apply(o, m, ResumeResponse(k));
    ghost var p := ResponseAt(m, k);
    PassiveShapes(o);
    TogetherSplit(m.encode, CourseOf(o, m), h, false);
    SplitThrough(o, m, h);
    ApartLonger(m.encode, CourseOf(o, m), f);
    PassedOn(o, m, p, k);
    PassiveThrough(o, m.log, n);
    PassiveThrough(o, r.log, n);
    CommonContinueHides(o, m, k);
    assert CourseOf(o, m).below[f] == Through(m.log, n, f + 1) && CourseOf(o, r).below[f] == Through(r.log, n, f + 1);
    assert Through(m.log, n, f + 1) == if f + 1 <= h then Came(m.log, Encoding) else Sunk(m.log);
    if f > h {
      assert Through(m.log, n, h + 1) == Sunk(m.log) && Shown(r.log, Encoding, h) == Shown(m.log, Encoding, h);
    }
  }

  lemma {:induction false} SplitThrough(o: Oracle, m: Manager, h: nat)
    requires Passive(o) && Split(m.encode, CourseOf(o, m), h, false)
    ensures var n := |m.encode.filters|;
            Came(m.log, Encoding) == Sunk(m.log) + Held(m.encode.buffer) &&
            forall q :: 0 <= q <= n + 1 ==>
              Through(m.log, n, q) == if q <= h then Came(m.log, Encoding) else Sunk(m.log)
  {
    hide Came, Shown, Onward, Sunk, ResponseCourse, Passive;
    var n, k := |m.encode.filters|, CourseOf(o, m);
    PassiveThrough(o, m.log, n);
    forall p | 0 <= p <= n
      ensures Through(m.log, n, p) == Through(m.log, n, p + 1) + if p == h then Held(m.encode.buffer) else []
    {
      WaitIs(k, p);
    }
    Steps(m.log, n, h, Held(m.encode.buffer), 0);
    forall q | 0 <= q <= n + 1
      ensures Through(m.log, n, q) == if q <= h then Came(m.log, Encoding) else Sunk(m.log)
    {
      Steps(m.log, n, h, Held(m.encode.buffer), q);
    }
  }

  lemma {:induction false} Steps(log: Log, n: nat, h: nat, held: Bytes, q: nat)
    requires h <= n && q <= n + 1
    requires forall p :: 0 <= p <= n ==> Through(log, n, p) == Through(log, n, p + 1) + if p == h then held else []
    ensures Through(log, n, q) == if q <= h then Sunk(log) + held else Sunk(log)
    decreases n + 1 - q
  {
    hide Came, Shown, Sunk;
    if q <= n {
      Steps(log, n, h, held, q + 1);
      assert Through(log, n, q) == Through(log, n, q + 1) + if q == h then held else [];
    }
  }

  /** The second of two filters holds back the first byte, and the first one the second byte; it
      also stops on an empty chunk. */
  function TwoHolders(): Oracle {
    Oracle((l, d, i, e) => HeadersReply(HeadersContinue, None, false, false),
           (l, d, i, b, e) => DataReply(if (i == 1 && b == [1]) || (i == 0 && b == [2]) then DataStopAndBuffer
                                        else if i == 0 && b == [] then DataStopNoBuffer
                                        else DataContinue, None, None, false, false),
           l => false,
           l => CloseReply(false, false))
  }

  const PASSED := FilterState(Continue, false, true, false, true)
  const HOLDING := FilterState(StopSingle, false, true, false, true)

  /** When the first one resumes, the second is shown the byte it held back again. */
  lemma {:induction false} HeldByteIsShownTwice()
    ensures var steps := FIRST_BYTE + [ResponseData(0, [2], false), ResumeResponse(0)];
            var m := Run(TwoHolders(), Init(0, 2, true), steps);
            Passive(TwoHolders()) && !StoppedFrom(m.encode.filters, 0) && Input(m.log) == [1, 2] &&
            Sunk(m.log) == [1, 2] && Shown(m.log, Encoding, 0) == [1, 2] && Shown(m.log, Encoding, 1) == [1, 1, 2]
  {
    hide Apply, Run, Sunk, Input, Shown, TwoHolders;
    var o := TwoHolders();
    var m3 := OneByteIn();
    var m4 := SecondHeld(m3);
    var m5 := BothLetGo(m4);
    var later := [ResponseData(0, [2], false), ResumeResponse(0)];
    RunTwo(o, m3, later[0], later[1]);
    RunOn(o, Init(0, 2, true), FIRST_BYTE, later);
  }

  /** When the second one resumes first, the byte the first one holds back goes past it. */
  lemma {:induction false} ByteGoesPastFilter()
    ensures var steps := FIRST_BYTE + [ResponseData(0, [2], false), ResumeResponse(1), ResumeResponse(0)];
            var m := Run(TwoHolders(), Init(0, 2, true), steps);
            Passive(TwoHolders()) && !StoppedFrom(m.encode.filters, 0) && Input(m.log) == [1, 2] &&
            Sunk(m.log) == [1, 2] && Shown(m.log, Encoding, 0) == [1, 2] && Shown(m.log, Encoding, 1) == [1]
  {
    hide Apply, Run, Sunk, Input, Shown, TwoHolders;
    var o := TwoHolders();
    var m3 := OneByteIn();
    var m4 := SecondHeld(m3);
    var m5 := SecondFirst(m4);
    var m6 := FirstLetsGo(m5);
    var later := [ResponseData(0, [2], false), ResumeResponse(1), ResumeResponse(0)];
    RunThree(o, m3, later[0], later[1], later[2]);
    RunOn(o, Init(0, 2, true), FIRST_BYTE, later);
  }

  /** A stop that holds no bytes does as much: when the first one, which stopped on an empty chunk,
      resumes, the second is shown again what it holds back itself. */
  lemma {:induction false} EmptyStopRepeats()
    ensures var steps := FIRST_BYTE + [ResponseData(0, [], false), ResumeResponse(0)];
            var m := Run(TwoHolders(), Init(0, 2, true), steps);
            Passive(TwoHolders()) && Input(m.log) == [1] && Shown(m.log, Encoding, 0) == [1] &&
            Shown(m.log, Encoding, 1) == [1, 1]
  {
    hide Apply, Run, Sunk, Input, Shown, TwoHolders;
    var o := TwoHolders();
    var m3 := OneByteIn();
    var m4 := EmptyHeld(m3);
    var m5 := EmptyLetsGo(m4);
    var later := [ResponseData(0, [], false), ResumeResponse(0)];
    RunTwo(o, m3, later[0], later[1]);
    RunOn(o, Init(0, 2, true), FIRST_BYTE, later);
  }

  const FIRST_BYTE: seq<Step> := [RequestHeaders(true), ResponseHeaders(0, 200, false), ResponseData(0, [1], false)]

  lemma {:induction false} OneByteIn() returns (r: Manager)
    ensures Run(TwoHolders(), Init(0, 2, true), FIRST_BYTE) == r && Passive(TwoHolders())
    ensures r.encode == Chain([PASSED, HOLDING], Some([1]), false, false, false) && Says(r.log, [1], [1], [], [1])
    ensures !r.stream.sawReset && r.stream.responseStatus.Some?
  {
    hide Apply, Run, Sunk, Input, Shown;
    var o, m0 := TwoHolders(), Init(0, 2, true);
    assert Passive(o);
    hide TwoHolders;
    var m1 := Apply(o, m0, RequestHeaders(true));
    TakesRequest(o, 2);
    var m2 := HeadersPass(m1);
    r := FirstHeld(m2);
    RunThree(o, m0, RequestHeaders(true), ResponseHeaders(0, 200, false), ResponseData(0, [1], false));
  }

  /** What the log says of the two filters and of the bytes. */
  ghost predicate Says(log: Log, first: Bytes, second: Bytes, sunk: Bytes, input: Bytes) {
    Shown(log, Encoding, 0) == first && Shown(log, Encoding, 1) == second && Sunk(log) == sunk && Input(log) == input
  }

  lemma HeadersSaid()
    ensures Says(After(After(After(Empty, Headers(Encoding, 0, false, None, HeadersContinue)),
                             Headers(Encoding, 1, false, None, HeadersContinue)), CodecHeaders(false)), [], [], [], [])
  {}

  lemma HeadersPass(m: Manager) returns (r: Manager)
    requires m == Manager(Chain([], None, true, false, false), FreshChain(2), Stream(true, None, false, true), Empty)
    ensures Apply(TwoHolders(), m, ResponseHeaders(0, 200, false)) == r
    ensures r.encode == Chain([PASSED, PASSED], None, false, false, false) && Says(r.log, [], [], [], [])
    ensures !r.stream.sawReset && r.stream.responseStatus.Some?
  {
    hide Says, Shown, Sunk, Input;
    var o := TwoHolders();
    var m1 := m.(stream := m.stream.(responseStatus := Some(200)));
    var m2 := E.HeadersStep(o, m1, 0, false);
    var m3 := E.HeadersStep(o, m2, 1, false);
    assert m3.encode.filters == [PASSED, PASSED];
    r := m3.(log := After(m3.log, CodecHeaders(false)));
    assert E.HeadersLoop(o, m3, 2, false, None) == r;
    assert E.HeadersLoop(o, m2, 1, false, None) == r;
    HeadersSaid();
  }

  lemma FirstSaid(log: Log)
    requires Says(log, [], [], [], [])
    ensures Says(After(After(After(log, Arrived(Encoding, [1])), Data(Encoding, 0, false, None, [1], false)),
                       Data(Encoding, 1, false, None, [1], false)), [1], [1], [], [1])
  {
    var empty: Bytes := [];
    assert empty + [1] == [1] && empty + empty == empty && [1] + empty == [1];
    var l1 := After(log, Arrived(Encoding, [1]));
    assert Says(l1, [], [], [], [1]);
    var l2 := After(l1, Data(Encoding, 0, false, None, [1], false));
    assert Says(l2, [1], [], [], [1]);
  }

  lemma FirstHeld(m: Manager) returns (r: Manager)
    requires m.encode == Chain([PASSED, PASSED], None, false, false, false) && Says(m.log, [], [], [], [])
    requires !m.stream.sawReset && m.stream.responseStatus.Some?
    ensures Apply(TwoHolders(), m, ResponseData(0, [1], false)) == r
    ensures r.encode == Chain([PASSED, HOLDING], Some([1]), false, false, false) && Says(r.log, [1], [1], [], [1])
    ensures r.stream == m.stream
  {
    hide Says, Shown, Sunk, Input;
    var o := TwoHolders();
    var m1 := m.(log := After(m.log, Arrived(Encoding, [1])));
    var m2 := E.DataStep(o, m1, 0, Own([1]), false);
    assert m2.encode.filters == [PASSED, PASSED];
    assert E.DataEntry(o, m1, 0, Own([1]), false) == E.DataOnward(m2, Own([1]));
    var m3 := E.DataStep(o, m2, 1, Own([1]), false);
    r := m3.(encode := StopOnData(m3.encode, 1, Own([1]), DataStopAndBuffer));
    var empty: Bytes := [];
    assert empty + [1] == [1];
    assert E.DataEntry(o, m2, 1, Own([1]), false) == E.DataHalt(r);
    assert E.DataLoop(o, m2, 1, Own([1]), false) == r;
    assert r.encode.filters == [PASSED, HOLDING];
    FirstSaid(m.log);
  }

  lemma SecondHeld(m: Manager) returns (r: Manager)
    requires m.encode == Chain([PASSED, HOLDING], Some([1]), false, false, false) && Says(m.log, [1], [1], [], [1])
    requires !m.stream.sawReset && m.stream.responseStatus.Some?
    ensures Apply(TwoHolders(), m, ResponseData(0, [2], false)) == r
    ensures r.encode == Chain([HOLDING, HOLDING], Some([1, 2]), false, false, false)
    ensures Says(r.log, [1, 2], [1], [], [1, 2]) && r.stream == m.stream
  {
    var o := TwoHolders();
    var m1 := m.(log := After(m.log, Arrived(Encoding, [2])));
    var m2 := E.DataStep(o, m1, 0, Own([2]), false);
    r := m2.(encode := StopOnData(m2.encode, 0, Own([2]), DataStopAndBuffer));
    assert [1] + [2] == [1, 2];
    assert E.DataEntry(o, m1, 0, Own([2]), false) == E.DataHalt(r);
    assert r.encode.filters == [HOLDING, HOLDING];
    assert Says(m1.log, [1], [1], [], [1, 2]);
  }

  lemma BothLetGo(m: Manager) returns (r: Manager)
    requires m.encode == Chain([HOLDING, HOLDING], Some([1, 2]), false, false, false)
    requires Says(m.log, [1, 2], [1], [], [1, 2]) && !m.stream.sawReset
    ensures Apply(TwoHolders(), m, ResumeResponse(0)) == r && r.encode.filters == [PASSED, PASSED]
    ensures Says(r.log, [1, 2], [1, 1, 2], [1, 2], [1, 2])
  {
    var o := TwoHolders();
    var m1 := m.(encode := AllowIteration(m.encode, 0));
    var m2 := E.DataStep(o, m1, 1, Shared, false);
    assert m1.encode.filters == [PASSED, HOLDING] && m2.encode.filters == [PASSED, HOLDING];
    assert E.DataEntry(o, m1, 1, Shared, false) == E.DataResume(m2);
    assert [1] + [1, 2] == [1, 1, 2];
    assert Says(m2.log, [1, 2], [1, 1, 2], [], [1, 2]);
    var m3 := SecondLetsGo(m2);
    assert E.DataLoop(o, m1, 1, Shared, false) == m3;
    assert E.ResumeHeaders(o, m1, 0) == m1 && E.ResumeData(o, m1, 0) == m3;
    r := m3.(encode := LeaveCurrent(m3.encode, 0));
  }

  lemma SecondLetsGo(m: Manager) returns (r: Manager)
    requires m.encode == Chain([PASSED, HOLDING], Some([1, 2]), false, false, false)
    requires Says(m.log, [1, 2], [1, 1, 2], [], [1, 2]) && !m.stream.sawReset
    ensures E.CommonContinue(TwoHolders(), m, 1) == r && r.encode.filters == [PASSED, PASSED]
    ensures Says(r.log, [1, 2], [1, 1, 2], [1, 2], [1, 2])
  {
    var o := TwoHolders();
    var m1 := m.(encode := AllowIteration(m.encode, 1));
    assert m1.encode.filters == [PASSED, PASSED];
    var m2 := m1.(encode := m1.encode.(buffer := Some([])), log := After(m.log, CodecData([1, 2], false)));
    assert E.DataLoop(o, m1, 2, Shared, false) == m2;
    assert E.ResumeData(o, m1, 1) == m2;
    r := m2.(encode := LeaveCurrent(m2.encode, 1));
    var empty: Bytes := [];
    assert empty + [1, 2] == [1, 2];
  }

  lemma SecondFirst(m: Manager) returns (r: Manager)
    requires m.encode == Chain([HOLDING, HOLDING], Some([1, 2]), false, false, false)
    requires Says(m.log, [1, 2], [1], [], [1, 2]) && !m.stream.sawReset
    ensures Apply(TwoHolders(), m, ResumeResponse(1)) == r && r.stream == m.stream
    ensures r.encode == Chain([HOLDING, PASSED], Some([]), false, false, false)
    ensures Says(r.log, [1, 2], [1], [1, 2], [1, 2])
  {
    var o := TwoHolders();
    var m1 := m.(encode := AllowIteration(m.encode, 1));
    assert m1.encode.filters == [HOLDING, PASSED];
    var m2 := m1.(encode := m1.encode.(buffer := Some([])), log := After(m.log, CodecData([1, 2], false)));
    assert E.DataLoop(o, m1, 2, Shared, false) == m2;
    assert E.ResumeHeaders(o, m1, 1) == m1 && E.ResumeData(o, m1, 1) == m2;
    r := m2.(encode := LeaveCurrent(m2.encode, 1));
    assert r.encode.filters == [HOLDING, PASSED];
    var empty: Bytes := [];
    assert empty + [1, 2] == [1, 2];
  }

  lemma FirstLetsGo(m: Manager) returns (r: Manager)
    requires m.encode == Chain([HOLDING, PASSED], Some([]), false, false, false)
    requires Says(m.log, [1, 2], [1], [1, 2], [1, 2]) && !m.stream.sawReset
    ensures Apply(TwoHolders(), m, ResumeResponse(0)) == r && r.encode.filters == [PASSED, PASSED]
    ensures Says(r.log, [1, 2], [1], [1, 2], [1, 2])
  {
    hide Says, Shown, Sunk, Input;
    var o := TwoHolders();
    var m1 := m.(encode := AllowIteration(m.encode, 0));
    var m2 := E.DataStep(o, m1, 1, Shared, false);
    assert m1.encode.filters == [PASSED, PASSED] && m2.encode.filters == [PASSED, PASSED];
    assert E.DataEntry(o, m1, 1, Shared, false) == E.DataOnward(m2, Shared);
    var m3 := m2.(log := After(m2.log, CodecData([], false)));
    assert E.DataLoop(o, m2, 2, Shared, false) == m3;
    assert E.DataLoop(o, m1, 1, Shared, false) == m3;
    assert E.ResumeHeaders(o, m1, 0) == m1 && E.ResumeData(o, m1, 0) == m3;
    r := m3.(encode := LeaveCurrent(m3.encode, 0));
    NothingSaid(m.log);
  }

  lemma NothingSaid(log: Log)
    requires Says(log, [1, 2], [1], [1, 2], [1, 2])
    ensures Says(After(After(log, Data(Encoding, 1, false, None, [], true)), CodecData([], false)), [1, 2], [1], [1, 2],
                 [1, 2])
  {}

  lemma EmptyHeld(m: Manager) returns (r: Manager)
    requires m.encode == Chain([PASSED, HOLDING], Some([1]), false, false, false) && Says(m.log, [1], [1], [], [1])
    requires !m.stream.sawReset && m.stream.responseStatus.Some?
    ensures Apply(TwoHolders(), m, ResponseData(0, [], false)) == r && r.stream == m.stream
    ensures r.encode == Chain([HOLDING, HOLDING], Some([1]), false, false, false) && Says(r.log, [1], [1], [], [1])
  {
    var o := TwoHolders();
    var m1 := m.(log := After(m.log, Arrived(Encoding, [])));
    var m2 := E.DataStep(o, m1, 0, Own([]), false);
    r := m2.(encode := StopOnData(m2.encode, 0, Own([]), DataStopNoBuffer));
    assert E.DataEntry(o, m1, 0, Own([]), false) == E.DataHalt(r);
    assert r.encode.filters == [HOLDING, HOLDING];
    assert Says(m1.log, [1], [1], [], [1]);
  }

  lemma EmptyLetsGo(m: Manager) returns (r: Manager)
    requires m.encode == Chain([HOLDING, HOLDING], Some([1]), false, false, false) && Says(m.log, [1], [1], [], [1])
    requires !m.stream.sawReset
    ensures Apply(TwoHolders(), m, ResumeResponse(0)) == r
    ensures Says(r.log, [1], [1, 1], [], [1])
  {
    var o := TwoHolders();
    var m1 := m.(encode := AllowIteration(m.encode, 0));
    var m2 := E.DataStep(o, m1, 1, Shared, false);
    var m3 := m2.(encode := StopOnData(m2.encode, 1, Shared, DataStopAndBuffer));
    assert m1.encode.filters == [PASSED, HOLDING];
    assert E.DataEntry(o, m1, 1, Shared, false) == E.DataHalt(m3);
    assert E.DataLoop(o, m1, 1, Shared, false) == m3;
    assert E.ResumeHeaders(o, m1, 0) == m1 && E.ResumeData(o, m1, 0) == m3;
    r := m3.(encode := LeaveCurrent(m3.encode, 0));
    assert [1] + [1] == [1, 1];
  }

  // A filter that collects and then passes on something else.

  /** The filter discards the first chunk and makes another byte of the second. */
  function Collector(): Oracle {
    Oracle((l, d, i, e) => HeadersReply(HeadersContinue, None, false, false),
           (l, d, i, b, e) => if b == [1] then DataReply(DataStopNoBuffer, None, None, false, false)
                              else DataReply(DataContinue, Some([9]), None, false, false),
           l => false,
           l => CloseReply(false, false))
  }

  /** The codec gets what the filter made when it let data pass again, and nothing else. */
  lemma {:induction false} CollectedByteIsSent()
    ensures var steps := [RequestHeaders(true), ResponseHeaders(0, 200, false)] +
                         [ResponseData(0, [1], false), ResponseData(0, [2], false)];
            var m := Run(Collector(), Init(0, 1, true), steps);
            Shaping(Collector()) && Shown(m.log, Encoding, 0) == [1, 2] &&
            Onward(Collector(), m.log, Encoding, 0) == [9] &&
            Sunk(m.log) == [9]
  {
    hide Apply, Run, Sunk, Shown, Onward, Collector, Shaping;
    var o, m0 := Collector(), Init(0, 1, true);
    CollectorShapes();
    TakesRequest(o, 1);
    var m1 := Apply(o, m0, RequestHeaders(true));
    var m2 := CollectorHeaders(m1);
    RunTwo(o, m0, RequestHeaders(true), ResponseHeaders(0, 200, false));
    var m3 := ChunkDiscarded(m2);
    var m4 := ByteMade(m3);
    RunTwo(o, m2, ResponseData(0, [1], false), ResponseData(0, [2], false));
    RunOn(o, m0, [RequestHeaders(true), ResponseHeaders(0, 200, false)],
          [ResponseData(0, [1], false), ResponseData(0, [2], false)]);
  }

  lemma CollectorShapes()
    ensures Shaping(Collector())
  {}

  lemma CollectorHeaders(m: Manager) returns (r: Manager)
    requires m == Manager(Chain([], None, true, false, false), FreshChain(1), Stream(true, None, false, true), Empty)
    ensures Apply(Collector(), m, ResponseHeaders(0, 200, false)) == r
    ensures r.encode == Chain([PASSED], None, false, false, false) && !r.stream.sawReset &&
            r.stream.responseStatus.Some?
    ensures Shown(r.log, Encoding, 0) == Onward(Collector(), r.log, Encoding, 0) == Sunk(r.log) == []
  {
    var o := Collector();
    var m1 := m.(stream := m.stream.(responseStatus := Some(200)));
    var m2 := E.HeadersStep(o, m1, 0, false);
    assert m2.encode.filters == [PASSED];
    r := m2.(log := After(m2.log, CodecHeaders(false)));
    assert E.HeadersLoop(o, m2, 1, false, None) == r;
  }

  lemma ChunkDiscarded(m: Manager) returns (r: Manager)
    requires m.encode == Chain([PASSED], None, false, false, false) && !m.stream.sawReset &&
             m.stream.responseStatus.Some?
    requires Shown(m.log, Encoding, 0) == Onward(Collector(), m.log, Encoding, 0) == Sunk(m.log) == []
    ensures Apply(Collector(), m, ResponseData(0, [1], false)) == r && r.stream == m.stream
    ensures r.encode == Chain([HOLDING], None, false, false, false)
    ensures Shown(r.log, Encoding, 0) == [1] && Onward(Collector(), r.log, Encoding, 0) == Sunk(r.log) == []
  {
    var o := Collector();
    var m1 := m.(log := After(m.log, Arrived(Encoding, [1])));
    var m2 := E.DataStep(o, m1, 0, Own([1]), false);
    r := m2.(encode := StopOnData(m2.encode, 0, Own([1]), DataStopNoBuffer));
    assert E.DataEntry(o, m1, 0, Own([1]), false) == E.DataHalt(r);
    assert r.encode.filters == [HOLDING];
    var empty: Bytes := [];
    assert empty + [1] == [1] && empty + empty == empty;
  }

  lemma ByteMade(m: Manager) returns (r: Manager)
    requires m.encode == Chain([HOLDING], None, false, false, false) && !m.stream.sawReset &&
             m.stream.responseStatus.Some?
    requires Shown(m.log, Encoding, 0) == [1] && Onward(Collector(), m.log, Encoding, 0) == Sunk(m.log) == []
    ensures Apply(Collector(), m, ResponseData(0, [2], false)) == r
    ensures Shown(r.log, Encoding, 0) == [1, 2] && Onward(Collector(), r.log, Encoding, 0) == Sunk(r.log) == [9]
  {
    hide E.CommonContinue;
    var o := Collector();
    var m1 := m.(log := After(m.log, Arrived(Encoding, [2])));
    var m2 := E.DataStep(o, m1, 0, Own([2]), false);
    var m3 := m2.(encode := BufferData(m2.encode, Own([9])));
    assert E.DataEntry(o, m1, 0, Own([2]), false) == E.DataResume(m3);
    var empty: Bytes := [];
    assert empty + [9] == [9] && [1] + [2] == [1, 2];
    assert m3.encode.filters == [HOLDING];
    r := LastSends(m3);
  }

  lemma LastSends(m: Manager) returns (r: Manager)
    requires m.encode == Chain([HOLDING], Some([9]), false, false, false) && !m.stream.sawReset
    requires Sunk(m.log) == []
    ensures E.CommonContinue(Collector(), m, 0) == r && Sunk(r.log) == [9]
    ensures Shown(r.log, Encoding, 0) == Shown(m.log, Encoding, 0)
    ensures Onward(Collector(), r.log, Encoding, 0) == Onward(Collector(), m.log, Encoding, 0)
  {
    var o := Collector();
    var m1 := m.(encode := AllowIteration(m.encode, 0));
    assert m1.encode.filters == [PASSED];
    var m2 := E.CodecDataStep(o, m1, Shared, false);
    assert E.DataLoop(o, m1, 1, Shared, false) == m2;
    assert E.ResumeHeaders(o, m1, 0) == m1 && E.ResumeData(o, m1, 0) == m2;
    r := m2.(encode := LeaveCurrent(m2.encode, 0));
    var empty: Bytes := [];
    assert empty + [9] == [9];
  }
}
