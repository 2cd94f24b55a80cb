/** What came in, what each encoder filter passed on and what the codec got: the next filter has
    been shown the beginning of what the one before passed on, as long as every resume passes bytes
    on from where all of them wait. Filters may stop, discard and rewrite as they like, and any
    number of them may be stopped at a time. */
module EncoderCourse {
  import opened FilterTypes
  import opened ByteStreams
  import opened Courses
  import opened Protocol
  import opened EncoderChain
  import opened EncoderProtocol
  import opened EncoderDelivery
  import opened EncoderConservation

  /** Response filters that neither abort nor add to the body. */
  ghost predicate Shaping(o: Oracle) {
    (forall l, i, e :: var reply := o.headers(l, Encoding, i, e); !reply.abort && reply.add.None?) &&
    (forall l, i, b, e :: var reply := o.data(l, Encoding, i, b, e); !reply.abort && reply.add.None?)
  }

  /** ... and make nothing out of an empty buffer. */
  ghost predicate Still(o: Oracle) {
    forall l, i, e :: Rewritten([], o.data(l, Encoding, i, [], e).rewrite) == []
  }

  /** Filters that neither drop, rewrite nor add bytes. */
  ghost predicate Passive(o: Oracle) {
    Faithful(o) && forall l, i, e :: o.headers(l, Encoding, i, e).add.None?
  }

  lemma PassiveShapes(o: Oracle)
    requires Passive(o)
    ensures Shaping(o) && Still(o)
  {}

  /** Passive filters pass on what they are shown. */
  lemma {:induction false} PassiveOnward(o: Oracle, log: Log, i: nat)
    requires Passive(o)
    ensures Onward(o, log, Encoding, i) == Shown(log, Encoding, i)
  {
    match log
    case Empty =>
    case After(before, e) => PassiveOnward(o, before, i);
  }

  /** What was sent towards filter p: what came in, or what the filter before passed on. */
  function SentTo(o: Oracle, log: Log, p: nat): Bytes {
    if p == 0 then Came(log, Encoding) else Onward(o, log, Encoding, p - 1)
  }

  /** What got through to it, or to the codec behind the last of n filters. */
  function GotAt(log: Log, n: nat, p: nat): Bytes {
    if p < n then Shown(log, Encoding, p) else Sunk(log)
  }

  /** The course of the response. */
  function ResponseCourse(o: Oracle, log: Log, n: nat): (k: Course)
    ensures Even(k) && |k.below| == n + 1
  {
    Course(seq(n + 1, p requires 0 <= p => SentTo(o, log, p)), seq(n + 1, p requires 0 <= p => GotAt(log, n, p)))
  }

  function CourseOf(o: Oracle, m: Manager): Course { ResponseCourse(o, m.log, |m.encode.filters|) }

  lemma {:induction false} CourseSame(o: Oracle, a: Log, b: Log, n: nat)
    requires SameStream(a, b, Encoding) && Sunk(b) == Sunk(a)
    ensures ResponseCourse(o, b, n) == ResponseCourse(o, a, n)
  {
    hide Came, Shown, Onward, Sunk;
    var k, d := ResponseCourse(o, a, n), ResponseCourse(o, b, n);
    assert forall p :: 0 <= p < n + 1 ==> d.above[p] == k.above[p] && d.below[p] == k.below[p];
  }

  lemma {:induction false} CourseCalled(o: Oracle, log: Log, call: Event, aborts: bool, n: nat)
    requires call.Data? && call.dir == Encoding && call.index < n
    ensures ResponseCourse(o, AfterCall(log, call, aborts), n) ==
              Called(ResponseCourse(o, log, n), call.index, call.bytes,
                     Made(call.bytes, call.shared, o.data(log, Encoding, call.index, call.bytes, call.end)))
  {
    hide Came, Shown, Onward, Sunk, Input, AfterCall, Made, SameStream;
    var r := AfterCall(log, call, aborts);
    SunkCalled(log, call, aborts);
    var made := Made(call.bytes, call.shared, o.data(log, Encoding, call.index, call.bytes, call.end));
    var d, e := ResponseCourse(o, r, n), Called(ResponseCourse(o, log, n), call.index, call.bytes, made);
    forall p | 0 <= p < n + 1 ensures d.above[p] == e.above[p] && d.below[p] == e.below[p] {
      DataStream(o, log, call, aborts, p);
      if p > 0 { DataStream(o, log, call, aborts, p - 1); }
    }
  }

  lemma SunkCalled(log: Log, call: Event, aborts: bool)
    requires call.Data? && call.dir == Encoding
    ensures Sunk(AfterCall(log, call, aborts)) == Sunk(log)
  {
    CalledBytes(log, call, aborts);
  }

  /** The codec takes bytes. */
  lemma {:induction false} CourseSunk(o: Oracle, log: Log, bytes: Bytes, end: bool, n: nat)
    ensures var k, d := ResponseCourse(o, log, n), ResponseCourse(o, After(log, CodecData(bytes, end)), n);
            d == Course(k.above, Extended(k.below, n, bytes))
  {
    var r := After(log, CodecData(bytes, end));
    UnmovingStream(log, CodecData(bytes, end), Encoding);
    assert Sunk(r) == Sunk(log) + bytes;
    hide Came, Shown, Onward, Sunk;
    var k, d := ResponseCourse(o, log, n), ResponseCourse(o, r, n);
    assert forall p :: 0 <= p < n + 1 ==> d.above[p] == k.above[p];
    assert forall p :: 0 <= p < n + 1 ==> d.below[p] == Extended(k.below, n, bytes)[p];
  }

  // Headers move no bytes.

  /** Nothing was shown, passed on, sunk or buffered. */
  ghost predicate Unmoved(o: Oracle, m: Manager, r: Manager) {
    |r.encode.filters| == |m.encode.filters| && r.encode.buffer == m.encode.buffer &&
    CourseOf(o, r) == CourseOf(o, m) &&
    r.encode.observedEnd == m.encode.observedEnd && r.encode.aborted == m.encode.aborted
  }

  lemma {:induction false} HeadersLoopStill(o: Oracle, m: Manager, i: nat, end: bool)
    requires Shaping(o) && i <= |m.encode.filters| && (end ==> m.encode.buffer.None?) && Fresh(m.encode, i)
    ensures var r := HeadersLoop(o, m, i, end, None);
            Unmoved(o, m, r) && Clear(r.encode, i) &&
            forall j :: i <= j < |m.encode.filters| ==> r.encode.filters[j].endStream ==> end
    decreases |m.encode.filters| - i
  {
    hide ResponseCourse, CommonContinue, CodecHeadersStep, HeadersEntry, Shaping;
    if i == |m.encode.filters| {
      CodecHeadersStill(o, m, end);
    } else {
      HeadersEntryStill(o, m, i, end);
      match HeadersEntry(o, m, i, end, None)
      case HeadersHalt(_, _) =>
      case HeadersOnward(m1, end', _) => HeadersLoopStill(o, m1, i + 1, end');
    }
  }

  lemma {:induction false} HeadersEntryStill(o: Oracle, m: Manager, i: nat, end: bool)
    requires Shaping(o) && i < |m.encode.filters| && (end ==> m.encode.buffer.None?) &&
             m.encode.filters[i] == FRESH_FILTER
    ensures var next := HeadersEntry(o, m, i, end, None);
            Unmoved(o, m, next.m) &&
            match next
            case HeadersHalt(_, resume) => resume.None?
            case HeadersOnward(_, end', cont') => cont'.None? && (end' ==> end)
  {
    hide ResponseCourse, AfterCall, HeadersStep;
    HeadersStepStill(o, m, i, end);
  }

  lemma {:induction false} HeadersStepStill(o: Oracle, m: Manager, i: nat, end: bool)
    requires Shaping(o) && i < |m.encode.filters|
    ensures Unmoved(o, m, HeadersStep(o, m, i, end))
  {
    hide ResponseCourse, Sunk, Input, AfterCall, SameStream, Came, Shown, Onward;
    var reply := HeadersAnswer(o, m, i, end);
    var call := Headers(Encoding, i, end, reply.add, HeadersOutcome(o, m, i, end));
    CalledBytes(m.log, call, reply.abortDecoding);
    CalledStream(m.log, call, reply.abortDecoding, Encoding);
    CourseSame(o, m.log, AfterCall(m.log, call, reply.abortDecoding), |m.encode.filters|);
  }

  lemma {:induction false} CodecHeadersStill(o: Oracle, m: Manager, end: bool)
    ensures var r := CodecHeadersStep(o, m, end); Unmoved(o, m, r) && r.encode.filters == m.encode.filters
  {
    hide ResponseCourse, Sunk, Input, MaybeEndEncode, Came, Shown, Onward;
    var m1 := m.(stream := m.stream.(sawReset := m.stream.sawReset || o.codecResets(m.log)),
                 log := After(m.log, CodecHeaders(end)));
    SilentBytes(m.log, CodecHeaders(end));
    MaybeEndEncodeBytes(o, m1, end);
    CourseSame(o, m.log, CodecHeadersStep(o, m, end).log, |m.encode.filters|);
  }

  // Data moves past the filters one at a time.

  lemma {:induction false} DataEntryCourse(o: Oracle, m: Manager, i: nat, data: Payload, end: bool)
    requires Shaping(o) && i < |m.encode.filters| && !Skipped(m.encode.filters[i]) && !m.encode.aborted
    requires data.Shared? ==> m.encode.buffer.Some?
    ensures var next, bytes := DataEntry(o, m, i, data, end), PayloadBytes(m.encode, data);
            var made := Made(bytes, data.Shared?, o.data(m.log, Encoding, i, bytes, end));
            CourseOf(o, next.m) == Called(CourseOf(o, m), i, bytes, made) && !next.m.encode.aborted &&
            (if data.Shared? then Held(next.m.encode.buffer) == made && next.m.encode.buffer.Some?
             else Held(next.m.encode.buffer) == Held(m.encode.buffer) + if next.DataOnward? then [] else made) &&
            (next.DataOnward? ==> next.data == if data.Shared? then Shared else Own(made))
  {
    hide ResponseCourse, AfterCall, DataEntry, Called;
    var reply := DataAnswer(o, m, i, data, end);
    var call := Data(Encoding, i, end, reply.add, PayloadBytes(m.encode, data), data.Shared?);
    CourseCalled(o, m.log, call, reply.abortDecoding, |m.encode.filters|);
    EntryHolds(o, m, i, data, end);
  }

  lemma EntryHolds(o: Oracle, m: Manager, i: nat, data: Payload, end: bool)
    requires Shaping(o) && i < |m.encode.filters| && !Skipped(m.encode.filters[i]) && !m.encode.aborted
    requires data.Shared? ==> m.encode.buffer.Some?
    ensures var next, bytes := DataEntry(o, m, i, data, end), PayloadBytes(m.encode, data);
            var made := Made(bytes, data.Shared?, o.data(m.log, Encoding, i, bytes, end));
            !next.m.encode.aborted &&
            (if data.Shared? then Held(next.m.encode.buffer) == made && next.m.encode.buffer.Some?
             else Held(next.m.encode.buffer) == Held(m.encode.buffer) + if next.DataOnward? then [] else made) &&
            (next.DataOnward? ==> next.data == if data.Shared? then Shared else Own(made))
  {
    hide AfterCall;
    assert Held(m.encode.buffer) + [] == Held(m.encode.buffer);
  }

  lemma {:induction false} CodecDataCourse(o: Oracle, m: Manager, data: Payload, end: bool)
    ensures var r, k := CodecDataStep(o, m, data, end), CourseOf(o, m);
            CourseOf(o, r) == Course(k.above, Extended(k.below, |m.encode.filters|, PayloadBytes(m.encode, data))) &&
            r.encode.filters == m.encode.filters && r.encode.aborted == m.encode.aborted &&
            Held(r.encode.buffer) == (if data.Shared? then [] else Held(m.encode.buffer)) &&
            (m.encode.buffer.Some? ==> r.encode.buffer.Some?)
  {
    hide ResponseCourse, Sunk, Input, MaybeEndEncode, Came, Shown, Onward, Extended;
    var buffer := if data.Shared? && m.encode.buffer.Some? then Some([]) else m.encode.buffer;
    var m1 := Manager(m.decode, m.encode.(buffer := buffer),
                      m.stream.(sawReset := m.stream.sawReset || o.codecResets(m.log)),
                      After(m.log, CodecData(PayloadBytes(m.encode, data), end)));
    CourseSunk(o, m.log, PayloadBytes(m.encode, data), end, |m.encode.filters|);
    MaybeEndEncodeBytes(o, m1, end);
    CourseSame(o, m1.log, CodecDataStep(o, m, data, end).log, |m.encode.filters|);
  }

  // A call that works from position i on neither shows the filters before i anything nor brings
  // bytes in.

  lemma {:induction false} HeadersLoopHides(o: Oracle, m: Manager, i: nat, end: bool, cont: Option<nat>)
    requires ValidFrom(m.encode, i, cont)
    ensures Hidden(o, Encoding, m.log, HeadersLoop(o, m, i, end, cont).log, FirstTouched(i, cont))
    decreases 3 * (|m.encode.filters| - FirstTouched(i, cont)) + 2, |m.encode.filters| - i
  {
    hide Came, Shown, Onward, CommonContinue, CodecHeadersStep, HeadersEntry;
    var next := if i == |m.encode.filters| then HeadersExit(o, m, end, cont) else HeadersEntry(o, m, i, end, cont);
    assert Hidden(o, Encoding, m.log, next.m.log, i) by {
      if i == |m.encode.filters| { CodecHeadersHide(o, m, end && cont.None?, i); } else {
        EntryHides(o, m, i, end, cont);
      }
    }
    match next
    case HeadersHalt(m1, None) =>
    case HeadersHalt(m1, Some(c)) => CommonContinueHides(o, Stopped(m1, c), c);
    case HeadersOnward(m1, end', cont') => HeadersLoopHides(o, m1, i + 1, end', cont');
  }

  lemma {:induction false} EntryHides(o: Oracle, m: Manager, i: nat, end: bool, cont: Option<nat>)
    requires i < |m.encode.filters|
    ensures Hidden(o, Encoding, m.log, HeadersEntry(o, m, i, end, cont).m.log, i)
  {
    hide AfterCall, SameStream, Hidden;
    var e := end && cont.None?;
    var reply := HeadersAnswer(o, m, i, e);
    var call := Headers(Encoding, i, e, reply.add, HeadersOutcome(o, m, i, e));
    CalledStream(m.log, call, reply.abortDecoding, Encoding);
    SameHidden(o, Encoding, m.log, AfterCall(m.log, call, reply.abortDecoding), i);
  }

  lemma {:induction false} CodecHeadersHide(o: Oracle, m: Manager, end: bool, i: nat)
    ensures Hidden(o, Encoding, m.log, CodecHeadersStep(o, m, end).log, i)
  {
    hide MaybeEndEncode, Came, Shown, Onward, Hidden;
    var m1 := m.(stream := m.stream.(sawReset := m.stream.sawReset || o.codecResets(m.log)),
                 log := After(m.log, CodecHeaders(end)));
    UnmovingStream(m.log, CodecHeaders(end), Encoding);
    MaybeEndEncodeStream(o, m1, end, Encoding);
    SameHidden(o, Encoding, m.log, CodecHeadersStep(o, m, end).log, i);
  }

  /** A resumed filter is shown something itself only if it had stopped everything. */
  lemma {:induction false} CommonContinueHides(o: Oracle, m: Manager, k: nat)
    requires k < |m.encode.filters| && m.encode.filters[k].Stopped()
    ensures Hidden(o, Encoding, m.log, CommonContinue(o, m, k).log, k)
    ensures !m.encode.filters[k].StoppedAll() && !m.encode.filters[k].fromCurrent ==>
              Hidden(o, Encoding, m.log, CommonContinue(o, m, k).log, k + 1)
    decreases 3 * (|m.encode.filters| - k) + 1, 1
  {
    hide Came, Shown, Onward, HeadersLoop, DataLoop;
    if !m.encode.complete {
      var m0 := m.(encode := AllowIteration(m.encode, k));
      if !m0.encode.filters[k].headersContinued {
        HeadersLoopHides(o, m0.(encode := ContinueHeaders(m0.encode, k)), k + 1,
                         m0.encode.observedEnd && m0.encode.buffer.None?, None);
      }
      var m1 := ResumeHeaders(o, m0, k);
      if m1.encode.buffer.Some? {
        DataLoopHides(o, m1, if m1.encode.filters[k].fromCurrent then k else k + 1, Shared, m1.encode.observedEnd);
      }
    }
  }

  lemma {:induction false} DataLoopHides(o: Oracle, m: Manager, i: nat, data: Payload, end: bool)
    requires i <= |m.encode.filters|
    ensures Hidden(o, Encoding, m.log, DataLoop(o, m, i, data, end).log, i)
    decreases 3 * (|m.encode.filters| - i)
              + (if i < |m.encode.filters| && m.encode.filters[i].iteration == StopSingle then 2 else 0), 0
  {
    hide Came, Shown, Onward, CommonContinue, CodecDataStep, DataEntry;
    if i == |m.encode.filters| {
      CodecDataHides(o, m, data, end);
    } else {
      DataEntryHides(o, m, i, data, end);
      match DataEntry(o, m, i, data, end)
      case DataHalt(m1) =>
      case DataResume(m1) => CommonContinueHides(o, m1, i);
      case DataOnward(m1, left) => DataLoopHides(o, m1, i + 1, left, end);
    }
  }

  lemma {:induction false} CodecDataHides(o: Oracle, m: Manager, data: Payload, end: bool)
    ensures Hidden(o, Encoding, m.log, CodecDataStep(o, m, data, end).log, |m.encode.filters|)
  {
    hide MaybeEndEncode, Came, Shown, Onward, Hidden;
    var buffer := if data.Shared? && m.encode.buffer.Some? then Some([]) else m.encode.buffer;
    var event := CodecData(PayloadBytes(m.encode, data), end);
    var m1 := Manager(m.decode, m.encode.(buffer := buffer),
                      m.stream.(sawReset := m.stream.sawReset || o.codecResets(m.log)), After(m.log, event));
    UnmovingStream(m.log, event, Encoding);
    MaybeEndEncodeStream(o, m1, end, Encoding);
    SameHidden(o, Encoding, m.log, CodecDataStep(o, m, data, end).log, |m.encode.filters|);
  }

  lemma {:induction false} DataEntryHides(o: Oracle, m: Manager, i: nat, data: Payload, end: bool)
    requires i < |m.encode.filters|
    ensures Hidden(o, Encoding, m.log, DataEntry(o, m, i, data, end).m.log, i)
    ensures Shown(DataEntry(o, m, i, data, end).m.log, Encoding, i) ==
              Shown(m.log, Encoding, i) +
              if Skipped(m.encode.filters[i]) then [] else PayloadBytes(m.encode, data)
  {
    hide Came, Shown, Onward, AfterCall, DataEntry, Made;
    if !Skipped(m.encode.filters[i]) {
      var reply := DataAnswer(o, m, i, data, end);
      var call := Data(Encoding, i, end, reply.add, PayloadBytes(m.encode, data), data.Shared?);
      DataStream(o, m.log, call, reply.abortDecoding, i);
      forall j: nat | j < i
        ensures Shown(AfterCall(m.log, call, reply.abortDecoding), Encoding, j) == Shown(m.log, Encoding, j)
        ensures Onward(o, AfterCall(m.log, call, reply.abortDecoding), Encoding, j) == Onward(o, m.log, Encoding, j)
      {
        DataStream(o, m.log, call, reply.abortDecoding, j);
      }
    } else {
      assert Shown(m.log, Encoding, i) + [] == Shown(m.log, Encoding, i);
    }
  }

  /** Data that sets out at a filter that takes it is shown to that filter once. */
  lemma {:induction false} DataLoopShowsOnce(o: Oracle, m: Manager, i: nat, data: Payload, end: bool)
    requires i < |m.encode.filters| && !Skipped(m.encode.filters[i])
    requires m.encode.filters[i].iteration == StopSingle ==> !m.encode.filters[i].fromCurrent
    ensures Shown(DataLoop(o, m, i, data, end).log, Encoding, i) ==
              Shown(m.log, Encoding, i) + PayloadBytes(m.encode, data)
  {
    hide Came, Shown, Onward, CommonContinue, DataEntry;
    DataEntryHides(o, m, i, data, end);
    match DataEntry(o, m, i, data, end)
    case DataHalt(m1) =>
    case DataResume(m1) => CommonContinueHides(o, m1, i);
    case DataOnward(m1, left) => DataLoopHides(o, m1, i + 1, left, end);
  }

  // A resume in place.

  /** The shared buffer sets out from filter i, in front of which all of it waits. */
  lemma {:induction false} SharedShows(o: Oracle, m: Manager, p: nat, i: nat, end: bool, lively: bool)
    requires Shaping(o) && (lively || Still(o)) && Resting(m, p) && Tied(m) && Reached(m, p, i)
    requires Split(m.encode, CourseOf(o, m), i, lively) && Clear(m.encode, i + 1) && m.encode.buffer.Some?
    requires i < |m.encode.filters| && m.encode.filters[i].Stopped() ==> !m.encode.filters[i].fromCurrent
    ensures var r := DataLoop(o, m, i, Shared, end); Lined(r.encode, CourseOf(o, r))
    decreases 3 * (|m.encode.filters| - i)
              + (if i < |m.encode.filters| && m.encode.filters[i].iteration == StopSingle then 2 else 0), 0
  {
    hide ResponseCourse, DataEntry, CodecDataStep, CommonContinue, Shaping, Still, Tied, Resting, WatchCodec, Lined,
         Split;
    if i == |m.encode.filters| {
      SharedSinks(o, m, end, lively);
    } else if Skipped(m.encode.filters[i]) {
      SkippedShared(o, m, i, end, lively);
    } else {
      DataEntryLawful(o, m, p, i, Shared, end);
      SharedEntry(o, m, i, end, lively);
      match DataEntry(o, m, i, Shared, end)
      case DataHalt(m1) => LinedAt(m1.encode, CourseOf(o, m1), i + 1, lively);
      case DataResume(m1) => CommonContinueShows(o, m1, p, i, lively);
      case DataOnward(m1, _) => SharedShows(o, m1, p, i + 1, end, lively);
    }
  }

  lemma {:induction false} SharedSinks(o: Oracle, m: Manager, end: bool, lively: bool)
    requires Split(m.encode, CourseOf(o, m), |m.encode.filters|, lively)
    ensures var r := CodecDataStep(o, m, Shared, end); Lined(r.encode, CourseOf(o, r))
  {
    hide ResponseCourse, CodecDataStep;
    var n, r := |m.encode.filters|, CodecDataStep(o, m, Shared, end);
    CodecDataCourse(o, m, Shared, end);
    var k, d := CourseOf(o, m), CourseOf(o, r);
    WaitIs(k, n);
    assert d.below[n] == k.below[n] + Held(m.encode.buffer) == d.above[n];
    assert forall p :: 0 <= p < n ==> Wait(d, p) == Wait(k, p);
    LinedAt(r.encode, d, n, false);
  }

  lemma {:induction false} SharedEntry(o: Oracle, m: Manager, i: nat, end: bool, lively: bool)
    requires Shaping(o) && (lively || Still(o)) && i < |m.encode.filters| && !Skipped(m.encode.filters[i])
    requires Split(m.encode, CourseOf(o, m), i, lively) && m.encode.buffer.Some?
    ensures var next := DataEntry(o, m, i, Shared, end);
            Split(next.m.encode, CourseOf(o, next.m), i + 1, lively) && next.m.encode.buffer.Some? &&
            (next.DataOnward? ==> next.data == Shared) &&
            (!next.DataOnward? ==> next.m.encode.filters[i].iteration == StopSingle)
  {
    hide ResponseCourse, DataEntry, Called;
    DataEntryCourse(o, m, i, Shared, end);
    var next, held := DataEntry(o, m, i, Shared, end), Held(m.encode.buffer);
    var made := Made(held, true, o.data(m.log, Encoding, i, held, end));
    SharedSplit(m.encode, next.m.encode, CourseOf(o, m), i, made, lively);
  }

  lemma SkippedShared(o: Oracle, m: Manager, i: nat, end: bool, lively: bool)
    requires i < |m.encode.filters| && Skipped(m.encode.filters[i]) && Split(m.encode, CourseOf(o, m), i, lively)
    ensures DataLoop(o, m, i, Shared, end) == m && Lined(m.encode, CourseOf(o, m))
  {
    hide ResponseCourse;
    LinedAt(m.encode, CourseOf(o, m), i, lively);
  }

  /** A stopped filter resumes, in front of which everything waits. */
  lemma {:induction false} CommonContinueShows(o: Oracle, m: Manager, p: nat, k: nat, lively: bool)
    requires Shaping(o) && (lively || Still(o)) && Resting(m, p) && Tied(m)
    requires k < |m.encode.filters| && m.encode.filters[k].Stopped() && Clear(m.encode, k)
    requires Split(m.encode, CourseOf(o, m), Front(m.encode, k), lively)
    ensures var r := CommonContinue(o, m, k); Lined(r.encode, CourseOf(o, r))
    decreases 3 * (|m.encode.filters| - k) + 1, 1
  {
    hide ResponseCourse, ResumeHeaders, ResumeData, Shaping, Still, Tied, Resting, Lined, Split;
    if m.encode.complete {
      LinedAt(m.encode, CourseOf(o, m), Front(m.encode, k), lively);
    } else {
      var m1 := ResumeHeaders(o, m.(encode := AllowIteration(m.encode, k)), k);
      ghost var p1 := ResumeHeadersLawful(o, m, p, k);
      ResumeHeadersShow(o, m, p, k, lively);
      ResumeDataShows(o, m1, p1, k, lively);
      LinedLeft(ResumeData(o, m1, k).encode, CourseOf(o, ResumeData(o, m1, k)), k);
    }
  }

  lemma {:induction false} ResumeHeadersShow(o: Oracle, m: Manager, p: nat, k: nat, lively: bool)
    requires Shaping(o) && Resting(m, p) && Tied(m) && k < |m.encode.filters| && m.encode.filters[k].Stopped()
    requires Split(m.encode, CourseOf(o, m), Front(m.encode, k), lively) && Clear(m.encode, k)
    ensures var r := ResumeHeaders(o, m.(encode := AllowIteration(m.encode, k)), k);
            Split(r.encode, CourseOf(o, r), Front(m.encode, k), lively && r.encode.buffer.Some?) &&
            Clear(r.encode, k + 1) && r.encode.filters[k].fromCurrent == m.encode.filters[k].StoppedAll()
  {
    hide ResponseCourse, HeadersLoop, Shaping, Tied, Resting, Arriving;
    if !m.encode.filters[k].headersContinued {
      ReleasedArrives(m, p, k);
      FreshFrom(Released(m, k), k + 1);
      HeadersLoopStill(o, Released(m, k), k + 1, m.encode.observedEnd && m.encode.buffer.None?);
    }
  }

  lemma {:induction false} ResumeDataShows(o: Oracle, m: Manager, p: nat, k: nat, lively: bool)
    requires Shaping(o) && (lively || Still(o)) && Resting(m, p) && Tied(m) && k < p && !m.encode.filters[k].Stopped()
    requires m.encode.filters[k].headersContinued && Clear(m.encode, k + 1)
    requires Split(m.encode, CourseOf(o, m), if m.encode.filters[k].fromCurrent then k else k + 1,
                   lively && m.encode.buffer.Some?)
    ensures var r := ResumeData(o, m, k); Lined(r.encode, CourseOf(o, r))
    decreases 3 * (|m.encode.filters| - k) + 1, 0
  {
    hide ResponseCourse, DataLoop, Shaping, Still, Tied, WatchCodec, Split, Lined;
    var start := if m.encode.filters[k].fromCurrent then k else k + 1;
    if m.encode.buffer.None? {
      LinedAt(m.encode, CourseOf(o, m), start, false);
    } else {
      SharedShows(o, m, p, start, m.encode.observedEnd, lively);
    }
  }

  // Any resume.

  /** The state of a resume when the headers are through. */
  function HeadersThrough(o: Oracle, m: Manager, k: nat): (r: Manager)
    requires k < |m.encode.filters| && m.encode.filters[k].Stopped()
    ensures |r.encode.filters| == |m.encode.filters| && !r.encode.filters[k].Stopped()
  {
    ResumeHeaders(o, m.(encode := AllowIteration(m.encode, k)), k)
  }

  /** The filter that the bytes would go to takes none: it has stopped everything, or seen the
      end. */
  predicate Blocked(o: Oracle, m: Manager, k: nat)
    requires k < |m.encode.filters| && m.encode.filters[k].Stopped()
  {
    var start := Front(m.encode, k);
    start < |m.encode.filters| && Skipped(HeadersThrough(o, m, k).encode.filters[start])
  }

  /** Resuming filter k passes bytes on from where all of them wait, or none at all. If filters
      make something out of nothing, none that is to get it has seen the end. */
  ghost predicate InPlace(o: Oracle, m: Manager, k: nat, lively: bool)
    requires k < |m.encode.filters| && m.encode.filters[k].Stopped()
  {
    var start := Front(m.encode, k);
    m.encode.complete || Blocked(o, m, k) ||
    (Together(m.encode, CourseOf(o, m), start) &&
     (lively ==> forall j :: start <= j < |m.encode.filters| ==> !m.encode.filters[j].endStream))
  }

  /** What the headers of a resume leave as it was. */
  lemma {:induction false} ThroughView(o: Oracle, m: Manager, p: nat, k: nat)
    requires Shaping(o) && Resting(m, p) && Tied(m) && k < |m.encode.filters| && m.encode.filters[k].Stopped()
    requires Clear(m.encode, k) && m.encode.buffer.Some?
    ensures var r := HeadersThrough(o, m, k);
            Unmoved(o, m, r) && Resumed(m.encode, r.encode, k) && Clear(r.encode, k + 1) &&
            r.encode.filters[k].fromCurrent == m.encode.filters[k].StoppedAll()
  {
    hide ResponseCourse, HeadersLoop, Shaping, Tied, WatchCodec;
    if !m.encode.filters[k].headersContinued {
      ReleasedArrives(m, p, k);
      FreshFrom(Released(m, k), k + 1);
      HeadersLoopStill(o, Released(m, k), k + 1, false);
    }
  }

  /** A resume that passes no bytes on. */
  lemma {:induction false} BlockedKeeps(o: Oracle, m: Manager, p: nat, k: nat)
    requires Shaping(o) && Resting(m, p) && Tied(m) && k < |m.encode.filters| && m.encode.filters[k].Stopped()
    requires Clear(m.encode, k) && Tidy(m.encode, CourseOf(o, m)) && !m.encode.complete && m.encode.buffer.Some?
    requires Blocked(o, m, k)
    ensures var r := CommonContinue(o, m, k); Tidy(r.encode, CourseOf(o, r))
  {
    hide ResponseCourse, ResumeHeaders, DataLoop, Shaping, WatchCodec, Tied, Tidy, Resting;
    var m1 := HeadersThrough(o, m, k);
    ThroughView(o, m, p, k);
    assert ResumeData(o, m1, k) == m1 by { BlockedData(o, m1, Front(m.encode, k)); }
    BlockedTidy(m.encode, m1.encode, CourseOf(o, m), k);
    TidyLeft(m1.encode, CourseOf(o, m), k);
  }

  lemma BlockedData(o: Oracle, m: Manager, i: nat)
    requires i < |m.encode.filters| && Skipped(m.encode.filters[i])
    ensures DataLoop(o, m, i, Shared, m.encode.observedEnd) == m
  {}

  /** A resume that passes bytes on gives all of them to the next filter, or to the codec, and
      sends nothing more towards it. */
  lemma {:induction false} PassedOn(o: Oracle, m: Manager, p: nat, k: nat)
    requires Shaping(o) && Resting(m, p) && Tied(m) && k < |m.encode.filters| && m.encode.filters[k].Stopped()
    requires Clear(m.encode, k) && !m.encode.complete && m.encode.buffer.Some? && !Blocked(o, m, k)
    ensures var start, r := Front(m.encode, k), CommonContinue(o, m, k);
            |r.encode.filters| == |m.encode.filters| &&
            CourseOf(o, r).below[start] == CourseOf(o, m).below[start] + Held(m.encode.buffer) &&
            CourseOf(o, r).above[start] == CourseOf(o, m).above[start]
  {
    hide Came, Shown, Onward, Sunk, ResumeHeaders, DataLoop, Shaping, Tied, WatchCodec;
    var start, n := Front(m.encode, k), |m.encode.filters|;
    var m1 := HeadersThrough(o, m, k);
    ThroughView(o, m, p, k);
    var m2 := DataLoop(o, m1, start, Shared, m1.encode.observedEnd);
    assert CommonContinue(o, m, k) == m2.(encode := LeaveCurrent(m2.encode, k));
    DataLoopHides(o, m1, start, Shared, m1.encode.observedEnd);
    assert CourseOf(o, m2).above[start] == CourseOf(o, m1).above[start];
    if start == n { SinkShows(o, m1); } else { DataLoopShowsOnce(o, m1, start, Shared, m1.encode.observedEnd); }
  }

  lemma SinkShows(o: Oracle, m: Manager)
    ensures var n := |m.encode.filters|;
            var r := DataLoop(o, m, n, Shared, m.encode.observedEnd);
            |r.encode.filters| == n && CourseOf(o, r).below[n] == CourseOf(o, m).below[n] + Held(m.encode.buffer)
  {
    hide ResponseCourse, CodecDataStep;
    CodecDataCourse(o, m, Shared, m.encode.observedEnd);
  }

  /** Out of place, the next filter or the codec is given more than was sent towards it. */
  lemma {:induction false} Misplaced(o: Oracle, m: Manager, p: nat, k: nat)
    requires Shaping(o) && Resting(m, p) && Tied(m) && k < |m.encode.filters| && m.encode.filters[k].Stopped()
    requires Clear(m.encode, k) && Tidy(m.encode, CourseOf(o, m)) && !InPlace(o, m, k, false)
    ensures var r := CommonContinue(o, m, k); !InOrder(CourseOf(o, r))
  {
    hide ResponseCourse, CommonContinue, Shaping, Resting, Tied, Blocked, Tidy;
    var start := Front(m.encode, k);
    ApartLonger(m.encode, CourseOf(o, m), start);
    PassedOn(o, m, p, k);
    TidyWaits(m.encode, CourseOf(o, m), start);
  }

  /** A resume in place keeps bytes in order; if filters make nothing out of nothing, it does so if
      and only if it is in place. */
  lemma {:induction false} CommonContinueIff(o: Oracle, m: Manager, p: nat, k: nat, lively: bool)
    requires Shaping(o) && (lively || Still(o)) && Resting(m, p) && Tied(m)
    requires k < |m.encode.filters| && m.encode.filters[k].Stopped()
    requires Clear(m.encode, k) && Tidy(m.encode, CourseOf(o, m))
    ensures var r := CommonContinue(o, m, k);
            (InPlace(o, m, k, lively) ==> Tidy(r.encode, CourseOf(o, r))) &&
            (!lively ==> (InOrder(CourseOf(o, r)) <==> InPlace(o, m, k, lively)))
  {
    hide ResponseCourse, CommonContinue, Shaping, Still, Resting, Tied, Blocked, Lined, Split, Clear, Tidy, Together;
    var r, start := CommonContinue(o, m, k), Front(m.encode, k);
    if !InPlace(o, m, k, lively) {
      if !lively { Misplaced(o, m, p, k); }
    } else {
      assert Tidy(r.encode, CourseOf(o, r)) by {
        if m.encode.complete {
          assert r == m by { CompleteResumes(o, m, k); }
        } else if Together(m.encode, CourseOf(o, m), start) &&
                  (lively ==> forall j :: start <= j < |m.encode.filters| ==> !m.encode.filters[j].endStream) {
          TogetherSplit(m.encode, CourseOf(o, m), start, lively);
          CommonContinueShows(o, m, p, k, lively);
          LinedTidy(r.encode, CourseOf(o, r));
        } else {
          BlockedResume(o, m, p, k);
        }
      }
      TidyWaits(r.encode, CourseOf(o, r), 0);
    }
  }

  lemma {:induction false} BlockedResume(o: Oracle, m: Manager, p: nat, k: nat)
    requires Shaping(o) && Resting(m, p) && Tied(m) && k < |m.encode.filters| && m.encode.filters[k].Stopped()
    requires Clear(m.encode, k) && Tidy(m.encode, CourseOf(o, m)) && !m.encode.complete && Blocked(o, m, k)
    ensures var r := CommonContinue(o, m, k); Tidy(r.encode, CourseOf(o, r))
  {
    hide ResponseCourse, CommonContinue, Shaping, Resting, Tied, Blocked, Tidy, Lined, Split;
    if m.encode.buffer.Some? {
      BlockedKeeps(o, m, p, k);
    } else {
      EmptySplit(m.encode, CourseOf(o, m), Front(m.encode, k));
      var r := CommonContinue(o, m, k);
      EmptyResume(o, m, p, k);
      LinedTidy(r.encode, CourseOf(o, r));
    }
  }

  /** A resume with nothing buffered moves no bytes. */
  lemma {:induction false} EmptyResume(o: Oracle, m: Manager, p: nat, k: nat)
    requires Shaping(o) && Resting(m, p) && Tied(m) && k < |m.encode.filters| && m.encode.filters[k].Stopped()
    requires Clear(m.encode, k) && Split(m.encode, CourseOf(o, m), Front(m.encode, k), false)
    requires m.encode.buffer.None? && !m.encode.complete
    ensures var r := CommonContinue(o, m, k); Lined(r.encode, CourseOf(o, r))
  {
    hide ResponseCourse, ResumeHeaders, Shaping, Tied, Resting, Lined, Split;
    var m1 := HeadersThrough(o, m, k);
    ResumeHeadersShow(o, m, p, k, false);
    ghost var p1 := ResumeHeadersLawful(o, m, p, k);
    BufferNone(o, m, p, k);
    LinedAt(m1.encode, CourseOf(o, m1), Front(m.encode, k), false);
    LinedLeft(m1.encode, CourseOf(o, m1), k);
  }

  lemma {:induction false} BufferNone(o: Oracle, m: Manager, p: nat, k: nat)
    requires Shaping(o) && Resting(m, p) && Tied(m) && k < |m.encode.filters| && m.encode.filters[k].Stopped()
    requires m.encode.buffer.None?
    ensures HeadersThrough(o, m, k).encode.buffer.None?
  {
    hide ResponseCourse, HeadersLoop, Shaping, Tied, Resting, Arriving;
    if !m.encode.filters[k].headersContinued {
      ReleasedArrives(m, p, k);
      FreshFrom(Released(m, k), k + 1);
      HeadersLoopStill(o, Released(m, k), k + 1, m.encode.observedEnd && m.encode.buffer.None?);
    }
  }

  lemma CompleteResumes(o: Oracle, m: Manager, k: nat)
    requires k < |m.encode.filters| && m.encode.filters[k].Stopped() && m.encode.complete
    ensures CommonContinue(o, m, k) == m
  {}

  // A push.

  /** The push does not resume a filter out of place. */
  ghost predicate PushInPlace(o: Oracle, m: Manager, i: nat, b: Bytes, end: bool, lively: bool)
    requires i <= |m.encode.filters|
    decreases |m.encode.filters| - i
  {
    i == |m.encode.filters| ||
    match DataEntry(o, m, i, Own(b), end)
    case DataHalt(_) => true
    case DataResume(m1) => InPlace(o, m1, i, lively)
    case DataOnward(m1, left) => left.Own? && PushInPlace(o, m1, i + 1, left.bytes, end, lively)
  }

  lemma {:induction false} OwnEntry(o: Oracle, m: Manager, i: nat, b: Bytes, end: bool)
    requires Shaping(o) && OnTheWay(m.encode, CourseOf(o, m), i, b) && i < |m.encode.filters|
    ensures match DataEntry(o, m, i, Own(b), end)
            case DataOnward(m1, left) => left.Own? && OnTheWay(m1.encode, CourseOf(o, m1), i + 1, left.bytes)
            case DataHalt(m1) => Tidy(m1.encode, CourseOf(o, m1))
            case DataResume(m1) => Tidy(m1.encode, CourseOf(o, m1))
  {
    hide ResponseCourse, DataEntry, Called, OnTheWay, Tidy;
    var next := DataEntry(o, m, i, Own(b), end);
    OnTheWayOpen(m.encode, CourseOf(o, m), i, b);
    if m.encode.filters[i].StoppedAll() {
      ParkedEntry(o, m, i, b, end);
      ParkedTidy(m.encode, CourseOf(o, m), i, b);
    } else {
      DataEntryCourse(o, m, i, Own(b), end);
      var made := Made(b, false, o.data(m.log, Encoding, i, b, end));
      if next.DataOnward? {
        OnwardOnTheWay(m.encode, next.m.encode, CourseOf(o, m), i, b, made);
      } else {
        HaltedTidy(m.encode, next.m.encode, CourseOf(o, m), i, b, made);
      }
    }
  }

  lemma ParkedEntry(o: Oracle, m: Manager, i: nat, b: Bytes, end: bool)
    requires i < |m.encode.filters| && m.encode.filters[i].StoppedAll()
    ensures DataEntry(o, m, i, Own(b), end) == DataHalt(m.(encode := BufferData(m.encode, Own(b))))
  {}

  lemma {:induction false} SunkPush(o: Oracle, m: Manager, b: Bytes, end: bool)
    requires OnTheWay(m.encode, CourseOf(o, m), |m.encode.filters|, b)
    ensures var r := CodecDataStep(o, m, Own(b), end); Tidy(r.encode, CourseOf(o, r))
  {
    hide ResponseCourse, CodecDataStep;
    var n, r, k := |m.encode.filters|, CodecDataStep(o, m, Own(b), end), CourseOf(o, m);
    CodecDataCourse(o, m, Own(b), end);
    var w, rest :| Passing(m.encode, k, n, b, w, rest);
    var d := CourseOf(o, r);
    WaitIs(k, n);
    assert w == [] && Wait(k, n) == b;
    assert d.below[n] == k.below[n] + b == d.above[n];
    assert forall p :: 0 <= p < n ==> Wait(d, p) == Wait(k, p) == [];
    PileNothing(d, 0);
    hide Wait;
    assert Held(r.encode.buffer) == Held(r.encode.buffer) + Pile(d, 0);
    assert Aligned(r.encode, d, Held(r.encode.buffer));
  }

  /** A push that resumes no stopped filter out of place keeps bytes in order, wherever it leaves
      them waiting; if filters make nothing out of nothing, if and only if. */
  lemma {:induction false} PushIff(o: Oracle, m: Manager, p: nat, i: nat, b: Bytes, end: bool, lively: bool)
    requires Shaping(o) && (lively || Still(o)) && Resting(m, p) && Tied(m) && Reached(m, p, i)
    requires OnTheWay(m.encode, CourseOf(o, m), i, b) && Clear(m.encode, i)
    ensures var r := DataLoop(o, m, i, Own(b), end);
            (PushInPlace(o, m, i, b, end, lively) ==> Tidy(r.encode, CourseOf(o, r))) &&
            (!lively ==> (InOrder(CourseOf(o, r)) <==> PushInPlace(o, m, i, b, end, lively)))
    decreases |m.encode.filters| - i
  {
    hide ResponseCourse, DataEntry, CodecDataStep, CommonContinue, Shaping, Still, Tied, Resting, WatchCodec, OnTheWay,
         Tidy, InPlace;
    if i == |m.encode.filters| {
      SunkPush(o, m, b, end);
      var r := DataLoop(o, m, i, Own(b), end);
      TidyWaits(r.encode, CourseOf(o, r), 0);
    } else {
      OwnEntry(o, m, i, b, end);
      DataEntryLawful(o, m, p, i, Own(b), end);
      match DataEntry(o, m, i, Own(b), end)
      case DataHalt(m1) => TidyWaits(m1.encode, CourseOf(o, m1), 0);
      case DataResume(m1) => CommonContinueIff(o, m1, p, i, lively);
      case DataOnward(m1, left) => PushIff(o, m1, p, i + 1, left.bytes, end, lively);
    }
  }
}
