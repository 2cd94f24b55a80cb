/** What came in with the request, what each decoder filter passed on and what the next one was
    shown. Behind the last filter there is nobody to take bytes: what it leaves of the shared buffer
    stays there. */
module DecoderCourse {
  import opened FilterTypes
  import opened ByteStreams
  import opened Courses
  import opened Protocol
  import opened DecoderChain
  import opened DecoderProtocol
  import opened DecoderDelivery

  /** Decoder filters that neither abort nor add to the body. */
  ghost predicate Shaping(o: Oracle) {
    (forall l, i, e ::
       var reply := o.headers(l, Decoding, i, e); !reply.abort && !reply.abortDecoding && reply.add.None?) &&
    (forall l, i, b, e ::
       var reply := o.data(l, Decoding, i, b, e); !reply.abort && !reply.abortDecoding && reply.add.None?)
  }

  /** ... and make nothing out of an empty buffer. */
  ghost predicate Still(o: Oracle) {
    forall l, i, e :: Rewritten([], o.data(l, Decoding, i, [], e).rewrite) == []
  }

  /** Decoder filters that neither drop, rewrite, add nor abort. */
  ghost predicate Passive(o: Oracle) {
    Shaping(o) &&
    forall l, i, b, e ::
      var reply := o.data(l, Decoding, i, b, e); reply.rewrite.None? && (reply.status == DataStopNoBuffer ==> b == [])
  }

  lemma PassiveShapes(o: Oracle)
    requires Passive(o)
    ensures Shaping(o) && Still(o)
  {}

  lemma {:induction false} PassiveOnward(o: Oracle, log: Log, i: nat)
    requires Passive(o)
    ensures Onward(o, log, Decoding, i) == Shown(log, Decoding, i)
  {
    match log
    case Empty =>
    case After(before, e) => PassiveOnward(o, before, i);
  }

  /** What was sent towards filter p: what came in, or what the filter before passed on. */
  function SentTo(o: Oracle, log: Log, p: nat): Bytes {
    if p == 0 then Came(log, Decoding) else Onward(o, log, Decoding, p - 1)
  }

  /** The course of the request. */
  function RequestCourse(o: Oracle, log: Log, n: nat): (k: Course)
    ensures Even(k) && |k.below| == n
  {
    Course(seq(n, p requires 0 <= p => SentTo(o, log, p)), seq(n, p requires 0 <= p => Shown(log, Decoding, p)))
  }

  function CourseOf(o: Oracle, m: Manager): Course { RequestCourse(o, m.log, |m.decode.filters|) }

  lemma {:induction false} CourseSame(o: Oracle, a: Log, b: Log, n: nat)
    requires SameStream(a, b, Decoding)
    ensures RequestCourse(o, b, n) == RequestCourse(o, a, n)
  {
    hide Came, Shown, Onward;
    var k, d := RequestCourse(o, a, n), RequestCourse(o, b, n);
    assert forall p :: 0 <= p < n ==> d.above[p] == k.above[p] && d.below[p] == k.below[p];
  }

  lemma {:induction false} CourseCalled(o: Oracle, log: Log, call: Event, aborts: bool, n: nat)
    requires call.Data? && call.dir == Decoding && call.index < n
    ensures RequestCourse(o, AfterCall(log, call, aborts), n) ==
              Called(RequestCourse(o, log, n), call.index, call.bytes,
                     Made(call.bytes, call.shared, o.data(log, Decoding, call.index, call.bytes, call.end)))
  {
    hide Came, Shown, Onward, AfterCall, Made;
    var r := AfterCall(log, call, aborts);
    var made := Made(call.bytes, call.shared, o.data(log, Decoding, call.index, call.bytes, call.end));
    var d, e := RequestCourse(o, r, n), Called(RequestCourse(o, log, n), call.index, call.bytes, made);
    forall p | 0 <= p < n ensures d.above[p] == e.above[p] && d.below[p] == e.below[p] {
      DataStream(o, log, call, aborts, p);
      if p > 0 { DataStream(o, log, call, aborts, p - 1); }
    }
  }

  /** The end of the chain moves nothing. */
  lemma {:induction false} EndKempt(o: Oracle, m: Manager, terminal: bool)
    requires Kempt(m.decode, CourseOf(o, m))
    ensures var r := MaybeEndDecode(o, m, terminal); Kempt(r.decode, CourseOf(o, r))
  {
    hide RequestCourse, Kempt, MaybeEndDecode, SameStream;
    var r := MaybeEndDecode(o, m, terminal);
    MaybeEndDecodeStream(o, m, terminal, Decoding);
    CourseSame(o, m.log, r.log, |m.decode.filters|);
    EndKeeps(o, m, terminal);
    KemptFinished(m.decode, r.decode, CourseOf(o, m));
  }

  // Headers move no bytes.

  /** Nothing was shown, passed on or buffered. */
  ghost predicate Unmoved(o: Oracle, m: Manager, r: Manager) {
    |r.decode.filters| == |m.decode.filters| && r.decode.buffer == m.decode.buffer &&
    CourseOf(o, r) == CourseOf(o, m) &&
    r.decode.observedEnd == m.decode.observedEnd
  }

  lemma {:induction false} HeadersLoopStill(o: Oracle, m: Manager, i: nat, end: bool, terminal: bool)
    requires Shaping(o) && i <= |m.decode.filters| && (end ==> m.decode.buffer.None?) && Fresh(m.decode, i)
    requires !m.decode.aborted && (terminal ==> m.decode.buffer.None?)
    ensures var r := HeadersLoop(o, m, i, end, None, terminal);
            Unmoved(o, m, r) && Clear(r.decode, i) && (m.decode.buffer.Some? ==> !r.decode.aborted) &&
            forall j :: i <= j < |m.decode.filters| ==> r.decode.filters[j].endStream ==> end
    decreases |m.decode.filters| - i
  {
    hide RequestCourse, CommonContinue, HeadersEntry, Shaping, MaybeEndDecode;
    if i == |m.decode.filters| {
      EndStill(o, m, terminal);
    } else {
      HeadersEntryStill(o, m, i, end);
      match HeadersEntry(o, m, i, end, None)
      case HeadersHalt(_) =>
      case HeadersOnward(m1, end', _, terminal') => HeadersLoopStill(o, m1, i + 1, end', terminal');
    }
  }

  lemma {:induction false} EndStill(o: Oracle, m: Manager, terminal: bool)
    ensures var r := MaybeEndDecode(o, m, terminal);
            Unmoved(o, m, r) && r.decode.filters == m.decode.filters && (!terminal ==> r == m)
  {
    hide RequestCourse, SameStream, CheckAndClose;
    MaybeEndDecodeStream(o, m, terminal, Decoding);
    CourseSame(o, m.log, MaybeEndDecode(o, m, terminal).log, |m.decode.filters|);
    EndKeeps(o, m, terminal);
  }

  lemma {:induction false} HeadersEntryStill(o: Oracle, m: Manager, i: nat, end: bool)
    requires Shaping(o) && i < |m.decode.filters| && (end ==> m.decode.buffer.None?) && !m.decode.aborted
    requires m.decode.filters[i] == FRESH_FILTER
    ensures var next := HeadersEntry(o, m, i, end, None);
            Unmoved(o, m, next.m) && !next.m.decode.aborted &&
            (next.HeadersOnward? ==> next.cont.None? && (next.end ==> end) && (next.terminal ==> end))
  {
    hide RequestCourse, AfterCall, HeadersStep;
    HeadersStepStill(o, m, i, end);
  }

  lemma {:induction false} HeadersStepStill(o: Oracle, m: Manager, i: nat, end: bool)
    requires Shaping(o) && i < |m.decode.filters|
    ensures Unmoved(o, m, HeadersStep(o, m, i, end))
  {
    hide RequestCourse, AfterCall, SameStream;
    var reply := HeadersAnswer(o, m, i, end);
    var call := Headers(Decoding, i, end, reply.add, HeadersOutcome(o, m, i, end));
    CalledStream(m.log, call, reply.abort, Decoding);
    CourseSame(o, m.log, AfterCall(m.log, call, reply.abort), |m.decode.filters|);
  }

  // Data moves past the filters one at a time.

  lemma {:induction false} DataEntryCourse(o: Oracle, m: Manager, i: nat, data: Payload, end: bool)
    requires Shaping(o) && i < |m.decode.filters| && !Skipped(m.decode.filters[i]) && !m.decode.aborted
    requires data.Shared? ==> m.decode.buffer.Some?
    ensures var next, bytes := DataEntry(o, m, i, data, end), PayloadBytes(m.decode, data);
            var made := Made(bytes, data.Shared?, o.data(m.log, Decoding, i, bytes, end));
            CourseOf(o, next.m) == Called(CourseOf(o, m), i, bytes, made) && !next.m.decode.aborted &&
            !next.DataHalt? &&
            (if data.Shared? then Held(next.m.decode.buffer) == made && next.m.decode.buffer.Some?
             else Held(next.m.decode.buffer) == Held(m.decode.buffer) + if next.DataOnward? then [] else made) &&
            (next.DataOnward? ==> next.data == if data.Shared? then Shared else Own(made))
  {
    hide RequestCourse, AfterCall, DataEntry, Called;
    var reply := DataAnswer(o, m, i, data, end);
    var call := Data(Decoding, i, end, reply.add, PayloadBytes(m.decode, data), data.Shared?);
    CourseCalled(o, m.log, call, reply.abort, |m.decode.filters|);
    EntryHolds(o, m, i, data, end);
  }

  lemma EntryHolds(o: Oracle, m: Manager, i: nat, data: Payload, end: bool)
    requires Shaping(o) && i < |m.decode.filters| && !Skipped(m.decode.filters[i]) && !m.decode.aborted
    requires data.Shared? ==> m.decode.buffer.Some?
    ensures var next, bytes := DataEntry(o, m, i, data, end), PayloadBytes(m.decode, data);
            var made := Made(bytes, data.Shared?, o.data(m.log, Decoding, i, bytes, end));
            !next.m.decode.aborted && !next.DataHalt? &&
            (if data.Shared? then Held(next.m.decode.buffer) == made && next.m.decode.buffer.Some?
             else Held(next.m.decode.buffer) == Held(m.decode.buffer) + if next.DataOnward? then [] else made) &&
            (next.DataOnward? ==> next.data == if data.Shared? then Shared else Own(made))
  {
    hide AfterCall;
    assert Held(m.decode.buffer) + [] == Held(m.decode.buffer);
  }

  // A call that works from position i on neither shows the filters before i anything nor brings
  // bytes in.

  lemma {:induction false} EndHides(o: Oracle, m: Manager, terminal: bool, i: nat)
    ensures Hidden(o, Decoding, m.log, MaybeEndDecode(o, m, terminal).log, i)
  {
    hide MaybeEndDecode, SameStream, Hidden;
    MaybeEndDecodeStream(o, m, terminal, Decoding);
    SameHidden(o, Decoding, m.log, MaybeEndDecode(o, m, terminal).log, i);
  }

  lemma {:induction false} HeadersLoopHides(
    o: Oracle, m: Manager, i: nat, end: bool, cont: Option<nat>, terminal: bool)
    requires ValidFrom(m.decode, i, cont)
    ensures Hidden(o, Decoding, m.log, HeadersLoop(o, m, i, end, cont, terminal).log, FirstTouched(i, cont))
    decreases 3 * (|m.decode.filters| - FirstTouched(i, cont)) + 2, |m.decode.filters| - i
  {
    hide Came, Shown, Onward, Continued, HeadersEntry, MaybeEndDecode;
    if i == |m.decode.filters| {
      ContinuedHides(o, m, cont, i);
      EndHides(o, Continued(o, m, cont), terminal, FirstTouched(i, cont));
    } else {
      EntryHides(o, m, i, end, cont);
      match HeadersEntry(o, m, i, end, cont)
      case HeadersHalt(m1) => ContinuedHides(o, m1, cont, i);
      case HeadersOnward(m1, end', cont', terminal') => HeadersLoopHides(o, m1, i + 1, end', cont', terminal');
    }
  }

  lemma {:induction false} ContinuedHides(o: Oracle, m: Manager, cont: Option<nat>, i: nat)
    requires cont.Some? ==> cont.value < |m.decode.filters|
    ensures Hidden(o, Decoding, m.log, Continued(o, m, cont).log, FirstTouched(i, cont))
    decreases 3 * (|m.decode.filters| - FirstTouched(|m.decode.filters|, cont)) + 1, 2
  {
    hide Came, Shown, Onward, CommonContinue;
    if cont.Some? { CommonContinueHides(o, Stopped(m, cont.value), cont.value); }
  }

  lemma {:induction false} EntryHides(o: Oracle, m: Manager, i: nat, end: bool, cont: Option<nat>)
    requires i < |m.decode.filters|
    ensures Hidden(o, Decoding, m.log, HeadersEntry(o, m, i, end, cont).m.log, i)
  {
    hide AfterCall, SameStream, Hidden;
    var e := end && cont.None?;
    var reply := HeadersAnswer(o, m, i, e);
    var call := Headers(Decoding, i, e, reply.add, HeadersOutcome(o, m, i, e));
    CalledStream(m.log, call, reply.abort, Decoding);
    SameHidden(o, Decoding, m.log, AfterCall(m.log, call, reply.abort), i);
  }

  /** A resumed filter is shown something itself only if it had stopped everything. */
  lemma {:induction false} CommonContinueHides(o: Oracle, m: Manager, k: nat)
    requires k < |m.decode.filters| && m.decode.filters[k].Stopped()
    ensures Hidden(o, Decoding, m.log, CommonContinue(o, m, k).log, k)
    ensures !m.decode.filters[k].StoppedAll() && !m.decode.filters[k].fromCurrent ==>
              Hidden(o, Decoding, m.log, CommonContinue(o, m, k).log, k + 1)
    decreases 3 * (|m.decode.filters| - k) + 1, 1
  {
    hide Came, Shown, Onward, HeadersLoop, DataLoop;
    if !m.decode.aborted {
      var m0 := m.(decode := AllowIteration(m.decode, k));
      if !m0.decode.filters[k].headersContinued {
        HeadersLoopHides(o, m0.(decode := ContinueHeaders(m0.decode, k)), k + 1,
                         m0.decode.observedEnd && m0.decode.buffer.None?, None, false);
      }
      var m1 := ResumeHeaders(o, m0, k);
      if m1.decode.buffer.Some? && !m1.decode.aborted {
        DataLoopHides(o, m1, if m1.decode.filters[k].fromCurrent then k else k + 1, Shared, m1.decode.observedEnd,
                      false);
      }
    }
  }

  lemma {:induction false} DataLoopHides(o: Oracle, m: Manager, i: nat, data: Payload, end: bool, terminal: bool)
    requires i <= |m.decode.filters|
    ensures Hidden(o, Decoding, m.log, DataLoop(o, m, i, data, end, terminal).log, i)
    decreases 3 * (|m.decode.filters| - i)
              + (if i < |m.decode.filters| && m.decode.filters[i].iteration == StopSingle then 2 else 0), 0
  {
    hide Came, Shown, Onward, CommonContinue, DataEntry, MaybeEndDecode;
    if i == |m.decode.filters| {
      EndHides(o, m, terminal, i);
    } else {
      DataEntryHides(o, m, i, data, end);
      match DataEntry(o, m, i, data, end)
      case DataHalt(m1) =>
      case DataStop(m1) => EndHides(o, m1, end && Last(m, i), i);
      case DataResume(m1) =>
        CommonContinueHides(o, m1, i);
        EndHides(o, CommonContinue(o, m1, i), end && Last(m, i), i);
      case DataOnward(m1, left) => DataLoopHides(o, m1, i + 1, left, end, end && Last(m, i));
    }
  }

  lemma {:induction false} DataEntryHides(o: Oracle, m: Manager, i: nat, data: Payload, end: bool)
    requires i < |m.decode.filters|
    ensures Hidden(o, Decoding, m.log, DataEntry(o, m, i, data, end).m.log, i)
    ensures Shown(DataEntry(o, m, i, data, end).m.log, Decoding, i) ==
              Shown(m.log, Decoding, i) +
              if Skipped(m.decode.filters[i]) then [] else PayloadBytes(m.decode, data)
  {
    hide Came, Shown, Onward, AfterCall, DataEntry, Made;
    if !Skipped(m.decode.filters[i]) {
      var reply := DataAnswer(o, m, i, data, end);
      var call := Data(Decoding, i, end, reply.add, PayloadBytes(m.decode, data), data.Shared?);
      DataStream(o, m.log, call, reply.abort, i);
      forall j: nat | j < i
        ensures Shown(AfterCall(m.log, call, reply.abort), Decoding, j) == Shown(m.log, Decoding, j)
        ensures Onward(o, AfterCall(m.log, call, reply.abort), Decoding, j) == Onward(o, m.log, Decoding, j)
      {
        DataStream(o, m.log, call, reply.abort, j);
      }
    } else {
      assert Shown(m.log, Decoding, i) + [] == Shown(m.log, Decoding, i);
    }
  }

  /** Data that sets out at a filter that takes it is shown to that filter once. */
  lemma {:induction false} DataLoopShowsOnce(
    o: Oracle, m: Manager, i: nat, data: Payload, end: bool, terminal: bool)
    requires i < |m.decode.filters| && !Skipped(m.decode.filters[i])
    requires m.decode.filters[i].iteration == StopSingle ==> !m.decode.filters[i].fromCurrent
    ensures Shown(DataLoop(o, m, i, data, end, terminal).log, Decoding, i) ==
              Shown(m.log, Decoding, i) + PayloadBytes(m.decode, data)
  {
    hide Came, Shown, Onward, CommonContinue, DataEntry, MaybeEndDecode;
    DataEntryHides(o, m, i, data, end);
    match DataEntry(o, m, i, data, end)
    case DataHalt(m1) =>
    case DataStop(m1) => EndHides(o, m1, end && Last(m, i), i + 1);
    case DataResume(m1) =>
      CommonContinueHides(o, m1, i);
      EndHides(o, CommonContinue(o, m1, i), end && Last(m, i), i + 1);
    case DataOnward(m1, left) => DataLoopHides(o, m1, i + 1, left, end, end && Last(m, i));
  }

  // The buffer moves from where all of it waits.

  lemma {:induction false} SharedShows(
    o: Oracle, m: Manager, p: nat, i: nat, end: bool, terminal: bool, lively: bool)
    requires Shaping(o) && (lively || Still(o)) && Resting(m, p) && Sound(m) && i <= |m.decode.filters|
    requires end == m.decode.observedEnd && (i == |m.decode.filters| || i < p)
    requires Split(m.decode, CourseOf(o, m), i, lively) && Clear(m.decode, i + 1) && m.decode.buffer.Some?
    requires i < |m.decode.filters| && m.decode.filters[i].Stopped() ==> !m.decode.filters[i].fromCurrent
    ensures var r := DataLoop(o, m, i, Shared, end, terminal); Kempt(r.decode, CourseOf(o, r))
    decreases 3 * (|m.decode.filters| - i)
              + (if i < |m.decode.filters| && m.decode.filters[i].iteration == StopSingle then 2 else 0), 0
  {
    hide RequestCourse, DataEntry, CommonContinue, MaybeEndDecode, Shaping, Still, Sound, Resting, Kept, Kempt, Split,
         Owing, Completing;
    SplitOpen(m.decode, CourseOf(o, m), i, lively);
    if i == |m.decode.filters| {
      SharedRests(o, m, i, terminal, lively);
    } else if Skipped(m.decode.filters[i]) {
      SkippedShared(o, m, i, end, terminal, lively);
    } else {
      DataEntryLawful(o, m, p, i, Shared, end);
      SharedEntry(o, m, i, end, lively);
      match DataEntry(o, m, i, Shared, end)
      case DataStop(m1) => SharedRests(o, m1, i + 1, end && Last(m, i), lively);
      case DataResume(m1) =>
        CommonContinueShows(o, m1, p, i, lively);
        EndKempt(o, CommonContinue(o, m1, i), end && Last(m, i));
      case DataOnward(m1, _) => SharedShows(o, m1, p, i + 1, end, end && Last(m, i), lively);
      case DataHalt(_) =>
    }
  }

  lemma SplitOpen(c: Chain, k: Course, h: nat, lively: bool)
    requires Split(c, k, h, lively)
    ensures !c.aborted && InOrder(k)
  {}

  /** The buffer stays where it is held, or behind the last filter. */
  lemma {:induction false} SharedRests(o: Oracle, m: Manager, h: nat, terminal: bool, lively: bool)
    requires Split(m.decode, CourseOf(o, m), h, lively) && (h < |m.decode.filters| ==> Holding(m.decode, h))
    ensures var r := MaybeEndDecode(o, m, terminal); Kempt(r.decode, CourseOf(o, r))
  {
    hide RequestCourse, MaybeEndDecode;
    LinedAt(m.decode, CourseOf(o, m), h, lively);
    LinedKempt(m.decode, CourseOf(o, m));
    EndKempt(o, m, terminal);
  }

  lemma {:induction false} SharedEntry(o: Oracle, m: Manager, i: nat, end: bool, lively: bool)
    requires Shaping(o) && (lively || Still(o)) && i < |m.decode.filters| && !Skipped(m.decode.filters[i])
    requires Split(m.decode, CourseOf(o, m), i, lively) && m.decode.buffer.Some?
    ensures var next := DataEntry(o, m, i, Shared, end);
            Split(next.m.decode, CourseOf(o, next.m), i + 1, lively) && next.m.decode.buffer.Some? &&
            !next.DataHalt? && (next.DataOnward? ==> next.data == Shared) &&
            (!next.DataOnward? ==> next.m.decode.filters[i].iteration == StopSingle)
  {
    hide RequestCourse, DataEntry, Called;
    DataEntryCourse(o, m, i, Shared, end);
    var next, held := DataEntry(o, m, i, Shared, end), Held(m.decode.buffer);
    var made := Made(held, true, o.data(m.log, Decoding, i, held, end));
    SharedSplit(m.decode, next.m.decode, CourseOf(o, m), i, made, lively);
  }

  lemma SkippedShared(o: Oracle, m: Manager, i: nat, end: bool, terminal: bool, lively: bool)
    requires i < |m.decode.filters| && Skipped(m.decode.filters[i]) && Split(m.decode, CourseOf(o, m), i, lively)
    ensures DataLoop(o, m, i, Shared, end, terminal) == m && Kempt(m.decode, CourseOf(o, m))
  {
    hide RequestCourse;
    LinedAt(m.decode, CourseOf(o, m), i, lively);
    LinedKempt(m.decode, CourseOf(o, m));
  }

  /** A stopped filter resumes, in front of which everything waits. */
  lemma {:induction false} CommonContinueShows(o: Oracle, m: Manager, p: nat, k: nat, lively: bool)
    requires Shaping(o) && (lively || Still(o)) && Resting(m, p) && Sound(m)
    requires k < |m.decode.filters| && m.decode.filters[k].Stopped() && Clear(m.decode, k)
    requires Split(m.decode, CourseOf(o, m), Front(m.decode, k), lively)
    ensures var r := CommonContinue(o, m, k); Kempt(r.decode, CourseOf(o, r))
    decreases 3 * (|m.decode.filters| - k) + 1, 1
  {
    hide RequestCourse, ResumeHeaders, ResumeData, Shaping, Still, Sound, Resting, Kept, Kempt, Split, Owing;
    SplitOpen(m.decode, CourseOf(o, m), Front(m.decode, k), lively);
    var m1 := ResumeHeaders(o, m.(decode := AllowIteration(m.decode, k)), k);
    ghost var p1 := ResumeHeadersLawful(o, m, p, k);
    ResumeHeadersShow(o, m, p, k, lively);
    var m2 := ResumeData(o, m1, k);
    if m1.decode.aborted {
      AbortedKempt(o, m1, k);
    } else {
      ResumeDataShows(o, m1, p1, k, lively);
    }
    KemptLeft(m2.decode, CourseOf(o, m2), k);
  }

  lemma AbortedKempt(o: Oracle, m: Manager, k: nat)
    requires k < |m.decode.filters| && m.decode.aborted && InOrder(CourseOf(o, m)) && !m.decode.filters[k].Stopped()
    ensures ResumeData(o, m, k) == m && Kempt(m.decode, CourseOf(o, m))
  {}

  lemma {:induction false} ResumeHeadersShow(o: Oracle, m: Manager, p: nat, k: nat, lively: bool)
    requires Shaping(o) && Resting(m, p) && k < |m.decode.filters| && m.decode.filters[k].Stopped()
    requires Split(m.decode, CourseOf(o, m), Front(m.decode, k), lively) && Clear(m.decode, k)
    ensures var r := ResumeHeaders(o, m.(decode := AllowIteration(m.decode, k)), k);
            Unmoved(o, m, r) && InOrder(CourseOf(o, r)) &&
            (!r.decode.aborted ==>
               Split(r.decode, CourseOf(o, r), Front(m.decode, k), lively && r.decode.buffer.Some?)) &&
            Clear(r.decode, k + 1) && r.decode.filters[k].fromCurrent == m.decode.filters[k].StoppedAll()
  {
    hide RequestCourse, HeadersLoop, Shaping, Resting, Arriving;
    if !m.decode.filters[k].headersContinued {
      ReleasedArrives(m, p, k);
      FreshFrom(Released(m, k), k + 1);
      HeadersLoopStill(o, Released(m, k), k + 1, m.decode.observedEnd && m.decode.buffer.None?, false);
    }
  }

  lemma {:induction false} ResumeDataShows(o: Oracle, m: Manager, p: nat, k: nat, lively: bool)
    requires Shaping(o) && (lively || Still(o)) && Resting(m, p) && Sound(m) && k < p && !m.decode.filters[k].Stopped()
    requires m.decode.filters[k].headersContinued && Clear(m.decode, k + 1)
    requires Split(m.decode, CourseOf(o, m), if m.decode.filters[k].fromCurrent then k else k + 1,
                   lively && m.decode.buffer.Some?)
    ensures var r := ResumeData(o, m, k); Kempt(r.decode, CourseOf(o, r))
    decreases 3 * (|m.decode.filters| - k) + 1, 0
  {
    hide RequestCourse, DataLoop, Shaping, Still, Sound, Kempt, Split;
    var start := if m.decode.filters[k].fromCurrent then k else k + 1;
    SplitOpen(m.decode, CourseOf(o, m), start, lively && m.decode.buffer.Some?);
    if m.decode.buffer.None? {
      LinedAt(m.decode, CourseOf(o, m), start, false);
      LinedKempt(m.decode, CourseOf(o, m));
    } else {
      SharedShows(o, m, p, start, m.decode.observedEnd, false, lively);
    }
  }

  // Any resume.

  /** The state of a resume when the headers are through. */
  function HeadersThrough(o: Oracle, m: Manager, k: nat): (r: Manager)
    requires k < |m.decode.filters| && m.decode.filters[k].Stopped()
    ensures |r.decode.filters| == |m.decode.filters| && !r.decode.filters[k].Stopped()
  {
    ResumeHeaders(o, m.(decode := AllowIteration(m.decode, k)), k)
  }

  /** The filter that the bytes would go to takes none: it has stopped everything, or seen the end,
      or there is none. */
  predicate Blocked(o: Oracle, m: Manager, k: nat)
    requires k < |m.decode.filters| && m.decode.filters[k].Stopped()
  {
    var start := Front(m.decode, k);
    start < |m.decode.filters| ==> Skipped(HeadersThrough(o, m, k).decode.filters[start])
  }

  /** Resuming filter k passes bytes on from where all of them wait, or none at all. If filters
      make something out of nothing, none that is to get it has seen the end. */
  ghost predicate InPlace(o: Oracle, m: Manager, k: nat, lively: bool)
    requires k < |m.decode.filters| && m.decode.filters[k].Stopped()
  {
    var start := Front(m.decode, k);
    m.decode.aborted || Blocked(o, m, k) ||
    (Together(m.decode, CourseOf(o, m), start) &&
     (lively ==> forall j :: start <= j < |m.decode.filters| ==> !m.decode.filters[j].endStream))
  }

  /** What the headers of a resume leave as it was. */
  lemma {:induction false} ThroughView(o: Oracle, m: Manager, p: nat, k: nat)
    requires Shaping(o) && Resting(m, p) && k < |m.decode.filters| && m.decode.filters[k].Stopped()
    requires Clear(m.decode, k) && m.decode.buffer.Some? && !m.decode.aborted
    ensures var r := HeadersThrough(o, m, k);
            Unmoved(o, m, r) && Resumed(m.decode, r.decode, k) && Clear(r.decode, k + 1) &&
            r.decode.filters[k].fromCurrent == m.decode.filters[k].StoppedAll()
  {
    hide RequestCourse, HeadersLoop, Shaping;
    if !m.decode.filters[k].headersContinued {
      ReleasedArrives(m, p, k);
      FreshFrom(Released(m, k), k + 1);
      HeadersLoopStill(o, Released(m, k), k + 1, false, false);
    }
  }

  /** A resume that passes no bytes on. */
  lemma {:induction false} BlockedKeeps(o: Oracle, m: Manager, p: nat, k: nat)
    requires Shaping(o) && Resting(m, p) && k < |m.decode.filters| && m.decode.filters[k].Stopped()
    requires Clear(m.decode, k) && Tidy(m.decode, CourseOf(o, m)) && m.decode.buffer.Some? && !m.decode.aborted
    requires Blocked(o, m, k)
    ensures var r := CommonContinue(o, m, k); Tidy(r.decode, CourseOf(o, r))
  {
    hide RequestCourse, ResumeHeaders, DataLoop, Shaping, Tidy, Resting;
    var m1 := HeadersThrough(o, m, k);
    ThroughView(o, m, p, k);
    assert ResumeData(o, m1, k) == m1 by { BlockedData(o, m1, Front(m.decode, k)); }
    BlockedTidy(m.decode, m1.decode, CourseOf(o, m), k);
    TidyLeft(m1.decode, CourseOf(o, m), k);
  }

  lemma BlockedData(o: Oracle, m: Manager, i: nat)
    requires i <= |m.decode.filters| && (i < |m.decode.filters| ==> Skipped(m.decode.filters[i]))
    ensures DataLoop(o, m, i, Shared, m.decode.observedEnd, false) == m
  {}

  /** A resume that passes bytes on gives all of them to the next filter, and sends nothing more
      towards it. */
  lemma {:induction false} PassedOn(o: Oracle, m: Manager, p: nat, k: nat)
    requires Shaping(o) && Resting(m, p) && k < |m.decode.filters| && m.decode.filters[k].Stopped()
    requires Clear(m.decode, k) && m.decode.buffer.Some? && !m.decode.aborted && !Blocked(o, m, k)
    ensures var start, r := Front(m.decode, k), CommonContinue(o, m, k);
            |r.decode.filters| == |m.decode.filters| &&
            CourseOf(o, r).below[start] == CourseOf(o, m).below[start] + Held(m.decode.buffer) &&
            CourseOf(o, r).above[start] == CourseOf(o, m).above[start]
  {
    hide Came, Shown, Onward, ResumeHeaders, DataLoop, Shaping;
    var start := Front(m.decode, k);
    var m1 := HeadersThrough(o, m, k);
    ThroughView(o, m, p, k);
    var m2 := DataLoop(o, m1, start, Shared, m1.decode.observedEnd, false);
    assert CommonContinue(o, m, k) == m2.(decode := LeaveCurrent(m2.decode, k));
    DataLoopHides(o, m1, start, Shared, m1.decode.observedEnd, false);
    assert CourseOf(o, m2).above[start] == CourseOf(o, m1).above[start];
    DataLoopShowsOnce(o, m1, start, Shared, m1.decode.observedEnd, false);
  }

  /** Out of place, the next filter is given more than was sent towards it. */
  lemma {:induction false} Misplaced(o: Oracle, m: Manager, p: nat, k: nat)
    requires Shaping(o) && Resting(m, p) && k < |m.decode.filters| && m.decode.filters[k].Stopped()
    requires Clear(m.decode, k) && Tidy(m.decode, CourseOf(o, m)) && !InPlace(o, m, k, false)
    ensures var r := CommonContinue(o, m, k); !InOrder(CourseOf(o, r))
  {
    hide RequestCourse, CommonContinue, Shaping, Resting, Blocked, Tidy;
    var start := Front(m.decode, k);
    assert start < |m.decode.filters| by { MustTake(o, m, k); }
    ApartLonger(m.decode, CourseOf(o, m), start);
    PassedOn(o, m, p, k);
    TidyWaits(m.decode, CourseOf(o, m), start);
  }

  lemma MustTake(o: Oracle, m: Manager, k: nat)
    requires k < |m.decode.filters| && m.decode.filters[k].Stopped() && !Blocked(o, m, k)
    ensures Front(m.decode, k) < |m.decode.filters|
  {}

  /** A resume in place keeps bytes in order; if filters make nothing out of nothing, it does so if
      and only if it is in place. */
  lemma {:induction false} CommonContinueIff(o: Oracle, m: Manager, p: nat, k: nat, lively: bool)
    requires Shaping(o) && (lively || Still(o)) && Resting(m, p) && Sound(m)
    requires k < |m.decode.filters| && m.decode.filters[k].Stopped()
    requires Clear(m.decode, k) && Kempt(m.decode, CourseOf(o, m))
    ensures var r := CommonContinue(o, m, k);
            (InPlace(o, m, k, lively) ==> Kempt(r.decode, CourseOf(o, r))) &&
            (!lively ==> (InOrder(CourseOf(o, r)) <==> InPlace(o, m, k, lively)))
  {
    hide RequestCourse, CommonContinue, Shaping, Still, Resting, Sound, Blocked, Split, Clear, Tidy, Together, InOrder;
    var r, start := CommonContinue(o, m, k), Front(m.decode, k);
    if m.decode.aborted {
      AbortedResumes(o, m, k);
    } else if !InPlace(o, m, k, lively) {
      if !lively { Misplaced(o, m, p, k); }
    } else if Together(m.decode, CourseOf(o, m), start) &&
              (lively ==> forall j :: start <= j < |m.decode.filters| ==> !m.decode.filters[j].endStream) {
      TogetherSplit(m.decode, CourseOf(o, m), start, lively);
      CommonContinueShows(o, m, p, k, lively);
    } else {
      BlockedResume(o, m, p, k);
    }
  }

  lemma AbortedResumes(o: Oracle, m: Manager, k: nat)
    requires k < |m.decode.filters| && m.decode.filters[k].Stopped() && m.decode.aborted
    ensures CommonContinue(o, m, k) == m
  {}

  lemma {:induction false} BlockedResume(o: Oracle, m: Manager, p: nat, k: nat)
    requires Shaping(o) && Resting(m, p) && k < |m.decode.filters| && m.decode.filters[k].Stopped()
    requires Clear(m.decode, k) && Tidy(m.decode, CourseOf(o, m)) && !m.decode.aborted && Blocked(o, m, k)
    ensures var r := CommonContinue(o, m, k); Kempt(r.decode, CourseOf(o, r))
  {
    hide RequestCourse, CommonContinue, Shaping, Resting, Blocked, Tidy, Split, Kempt;
    var r := CommonContinue(o, m, k);
    if m.decode.buffer.Some? {
      BlockedKeeps(o, m, p, k);
      TidyKempt(r.decode, CourseOf(o, r));
    } else {
      EmptySplit(m.decode, CourseOf(o, m), Front(m.decode, k));
      EmptyResume(o, m, p, k);
    }
  }

  /** A resume with nothing buffered moves no bytes. */
  lemma {:induction false} EmptyResume(o: Oracle, m: Manager, p: nat, k: nat)
    requires Shaping(o) && Resting(m, p) && k < |m.decode.filters| && m.decode.filters[k].Stopped()
    requires Clear(m.decode, k) && Split(m.decode, CourseOf(o, m), Front(m.decode, k), false)
    requires m.decode.buffer.None? && !m.decode.aborted
    ensures var r := CommonContinue(o, m, k); Kempt(r.decode, CourseOf(o, r))
  {
    hide RequestCourse, ResumeHeaders, Shaping, Resting, Split, Kempt;
    var m1 := HeadersThrough(o, m, k);
    ResumeHeadersShow(o, m, p, k, false);
    if m1.decode.aborted {
      AbortedKempt(o, m1, k);
    } else {
      LinedAt(m1.decode, CourseOf(o, m1), Front(m.decode, k), false);
      LinedKempt(m1.decode, CourseOf(o, m1));
    }
    KemptLeft(m1.decode, CourseOf(o, m1), k);
  }

  // A push.

  /** The push does not resume a filter out of place. */
  ghost predicate PushInPlace(o: Oracle, m: Manager, i: nat, b: Bytes, end: bool, lively: bool)
    requires i <= |m.decode.filters|
    decreases |m.decode.filters| - i
  {
    i == |m.decode.filters| ||
    match DataEntry(o, m, i, Own(b), end)
    case DataHalt(_) => true
    case DataStop(_) => true
    case DataResume(m1) => InPlace(o, m1, i, lively)
    case DataOnward(m1, left) => left.Own? && PushInPlace(o, m1, i + 1, left.bytes, end, lively)
  }

  lemma {:induction false} OwnEntry(o: Oracle, m: Manager, i: nat, b: Bytes, end: bool)
    requires Shaping(o) && OnTheWay(m.decode, CourseOf(o, m), i, b) && i < |m.decode.filters|
    ensures match DataEntry(o, m, i, Own(b), end)
            case DataOnward(m1, left) => left.Own? && OnTheWay(m1.decode, CourseOf(o, m1), i + 1, left.bytes)
            case DataHalt(m1) => Tidy(m1.decode, CourseOf(o, m1))
            case DataStop(m1) => Tidy(m1.decode, CourseOf(o, m1))
            case DataResume(m1) => Tidy(m1.decode, CourseOf(o, m1))
  {
    hide RequestCourse, DataEntry, Called, OnTheWay, Tidy;
    var next := DataEntry(o, m, i, Own(b), end);
    OnTheWayOpen(m.decode, CourseOf(o, m), i, b);
    if m.decode.filters[i].StoppedAll() {
      ParkedEntry(o, m, i, b, end);
      ParkedTidy(m.decode, CourseOf(o, m), i, b);
    } else {
      DataEntryCourse(o, m, i, Own(b), end);
      var made := Made(b, false, o.data(m.log, Decoding, i, b, end));
      if next.DataOnward? {
        OnwardOnTheWay(m.decode, next.m.decode, CourseOf(o, m), i, b, made);
      } else {
        HaltedTidy(m.decode, next.m.decode, CourseOf(o, m), i, b, made);
      }
    }
  }

  lemma ParkedEntry(o: Oracle, m: Manager, i: nat, b: Bytes, end: bool)
    requires i < |m.decode.filters| && m.decode.filters[i].StoppedAll()
    ensures DataEntry(o, m, i, Own(b), end) == DataHalt(m.(decode := BufferData(m.decode, Own(b))))
  {}

  /** Behind the last filter nobody takes the bytes. */
  lemma {:induction false} PassedAll(c: Chain, k: Course, b: Bytes)
    requires OnTheWay(c, k, |c.filters|, b) && |k.below| == |c.filters|
    ensures Tidy(c, k)
  {
    hide Wait;
    var w, rest :| Passing(c, k, |c.filters|, b, w, rest);
    PileNothing(k, 0);
    assert Held(c.buffer) == Held(c.buffer) + Pile(k, 0);
    assert Aligned(c, k, Held(c.buffer));
  }

  /** A push that resumes no stopped filter out of place keeps bytes in order, wherever it leaves
      them waiting; if filters make nothing out of nothing, if and only if. */
  lemma {:induction false} PushIff(
    o: Oracle, m: Manager, p: nat, i: nat, b: Bytes, end: bool, terminal: bool, lively: bool)
    requires Shaping(o) && (lively || Still(o)) && Resting(m, p) && Sound(m) && i <= |m.decode.filters|
    requires end == m.decode.observedEnd && (i == |m.decode.filters| || i < p)
    requires OnTheWay(m.decode, CourseOf(o, m), i, b) && Clear(m.decode, i)
    ensures var r := DataLoop(o, m, i, Own(b), end, terminal);
            (PushInPlace(o, m, i, b, end, lively) ==> Kempt(r.decode, CourseOf(o, r))) &&
            (!lively ==> (InOrder(CourseOf(o, r)) <==> PushInPlace(o, m, i, b, end, lively)))
    decreases |m.decode.filters| - i
  {
    hide RequestCourse, DataEntry, MaybeEndDecode, CommonContinue, Shaping, Still, Sound, Resting, OnTheWay, Tidy,
         InPlace, InOrder, Kept, Owing, Completing;
    if i == |m.decode.filters| {
      PassedAll(m.decode, CourseOf(o, m), b);
      RestsAt(o, m, terminal);
    } else {
      OnTheWayOpen(m.decode, CourseOf(o, m), i, b);
      OwnEntry(o, m, i, b, end);
      DataEntryLawful(o, m, p, i, Own(b), end);
      match DataEntry(o, m, i, Own(b), end)
      case DataHalt(m1) => RestsAt(o, m1, false);
      case DataStop(m1) => RestsAt(o, m1, end && Last(m, i));
      case DataResume(m1) => ResumedPush(o, m1, p, i, end && Last(m, i), lively);
      case DataOnward(m1, left) => PushIff(o, m1, p, i + 1, left.bytes, end, end && Last(m, i), lively);
    }
  }

  lemma {:induction false} RestsAt(o: Oracle, m: Manager, terminal: bool)
    requires Tidy(m.decode, CourseOf(o, m))
    ensures var r := MaybeEndDecode(o, m, terminal); Kempt(r.decode, CourseOf(o, r))
    ensures !terminal ==> MaybeEndDecode(o, m, terminal) == m
  {
    hide RequestCourse, Tidy, Kempt;
    TidyKempt(m.decode, CourseOf(o, m));
    EndKempt(o, m, terminal);
  }

  lemma {:induction false} ResumedPush(o: Oracle, m: Manager, p: nat, i: nat, terminal: bool, lively: bool)
    requires Shaping(o) && (lively || Still(o)) && Resting(m, p) && Sound(m)
    requires i < |m.decode.filters| && m.decode.filters[i].Stopped()
    requires Clear(m.decode, i) && Tidy(m.decode, CourseOf(o, m))
    ensures var r := MaybeEndDecode(o, CommonContinue(o, m, i), terminal);
            (InPlace(o, m, i, lively) ==> Kempt(r.decode, CourseOf(o, r))) &&
            (!lively ==> (InOrder(CourseOf(o, r)) <==> InPlace(o, m, i, lively)))
  {
    hide RequestCourse, MaybeEndDecode, CommonContinue, Shaping, Still, Sound, Resting, Tidy, InPlace, Kempt, InOrder;
    TidyKempt(m.decode, CourseOf(o, m));
    CommonContinueIff(o, m, p, i, lively);
    var m1 := CommonContinue(o, m, i);
    EndStill(o, m1, terminal);
    if InPlace(o, m, i, lively) { EndKempt(o, m1, terminal); }
  }

  // Marks of the filters.

  /** No filter is newly marked as the one to start from, and none sees an end that has not come. */
  ghost predicate Plain(m: Manager, r: Manager) {
    |r.decode.filters| == |m.decode.filters| && r.decode.observedEnd == m.decode.observedEnd &&
    forall j :: 0 <= j < |m.decode.filters| ==>
      (r.decode.filters[j].fromCurrent ==> m.decode.filters[j].fromCurrent) &&
      (r.decode.filters[j].endStream ==> m.decode.filters[j].endStream || m.decode.observedEnd)
  }

  lemma EndPlain(o: Oracle, m: Manager, r: Manager, terminal: bool)
    requires Plain(m, r)
    ensures Plain(m, MaybeEndDecode(o, r, terminal))
  {
    hide CheckAndClose;
    EndKeeps(o, r, terminal);
  }

  lemma {:induction false} HeadersLoopPlain(
    o: Oracle, m: Manager, i: nat, end: bool, cont: Option<nat>, terminal: bool)
    requires ValidFrom(m.decode, i, cont) && (end ==> m.decode.observedEnd)
    ensures Plain(m, HeadersLoop(o, m, i, end, cont, terminal))
    decreases 3 * (|m.decode.filters| - FirstTouched(i, cont)) + 2, |m.decode.filters| - i
  {
    hide Continued, HeadersEntry, MaybeEndDecode;
    if i == |m.decode.filters| {
      ContinuedPlain(o, m, cont);
      EndPlain(o, m, Continued(o, m, cont), terminal);
    } else {
      EntryPlain(o, m, i, end, cont);
      match HeadersEntry(o, m, i, end, cont)
      case HeadersHalt(m1) => ContinuedPlain(o, m1, cont);
      case HeadersOnward(m1, end', cont', terminal') => HeadersLoopPlain(o, m1, i + 1, end', cont', terminal');
    }
  }

  lemma EntryPlain(o: Oracle, m: Manager, i: nat, end: bool, cont: Option<nat>)
    requires i < |m.decode.filters| && (end ==> m.decode.observedEnd)
    ensures var next := HeadersEntry(o, m, i, end, cont); Plain(m, next.m) && (next.HeadersOnward? && next.end ==> end)
  {
    hide AfterCall;
  }

  lemma {:induction false} ContinuedPlain(o: Oracle, m: Manager, cont: Option<nat>)
    requires cont.Some? ==> cont.value < |m.decode.filters|
    ensures Plain(m, Continued(o, m, cont))
    decreases 3 * (|m.decode.filters| - FirstTouched(|m.decode.filters|, cont)) + 1, 2
  {
    hide CommonContinue;
    if cont.Some? { CommonContinuePlain(o, Stopped(m, cont.value), cont.value); }
  }

  lemma {:induction false} CommonContinuePlain(o: Oracle, m: Manager, k: nat)
    requires k < |m.decode.filters| && m.decode.filters[k].Stopped()
    ensures Plain(m, CommonContinue(o, m, k))
    decreases 3 * (|m.decode.filters| - k) + 1, 1
  {
    hide HeadersLoop, DataLoop;
    if !m.decode.aborted {
      var m0 := m.(decode := AllowIteration(m.decode, k));
      if !m0.decode.filters[k].headersContinued {
        HeadersLoopPlain(o, m0.(decode := ContinueHeaders(m0.decode, k)), k + 1,
                         m0.decode.observedEnd && m0.decode.buffer.None?, None, false);
      }
      var m1 := ResumeHeaders(o, m0, k);
      if m1.decode.buffer.Some? && !m1.decode.aborted {
        DataLoopPlain(o, m1, if m1.decode.filters[k].fromCurrent then k else k + 1, Shared, m1.decode.observedEnd,
                      false);
      }
    }
  }

  lemma {:induction false} DataLoopPlain(o: Oracle, m: Manager, i: nat, data: Payload, end: bool, terminal: bool)
    requires i <= |m.decode.filters| && end == m.decode.observedEnd
    ensures Plain(m, DataLoop(o, m, i, data, end, terminal))
    decreases 3 * (|m.decode.filters| - i)
              + (if i < |m.decode.filters| && m.decode.filters[i].iteration == StopSingle then 2 else 0), 0
  {
    hide CommonContinue, DataEntry, MaybeEndDecode;
    if i == |m.decode.filters| {
      EndPlain(o, m, m, terminal);
    } else {
      match DataEntry(o, m, i, data, end)
      case DataHalt(m1) =>
      case DataStop(m1) => EndPlain(o, m, m1, end && Last(m, i));
      case DataResume(m1) =>
        CommonContinuePlain(o, m1, i);
        EndPlain(o, m, CommonContinue(o, m1, i), end && Last(m, i));
      case DataOnward(m1, left) => DataLoopPlain(o, m1, i + 1, left, end, end && Last(m, i));
    }
  }
}
