/** The bytes handed to the codec followed by the bytes still buffered are the bytes that
    came in, in order, for every schedule of filters that neither drop nor rewrite data. */
module EncoderConservation {
  import opened FilterTypes
  import opened ByteStreams
  import opened Protocol
  import opened EncoderChain
  import opened EncoderProtocol
  import opened EncoderEnd
  import opened EncoderDelivery

  predicate Stops(status: HeadersStatus) {
    status == HeadersStopIteration || status == HeadersStopAllAndBuffer || status == HeadersStopAllAndWatermark
  }

  /** Response filters that never abort, rewrite or discard bytes, and add a body only to a
      message they hold back or that would end with its headers. */
  ghost predicate Faithful(o: Oracle) {
    (forall l, i, e ::
       var reply := o.headers(l, Encoding, i, e);
       !reply.abort && (reply.add.Some? ==> e || Stops(reply.status))) &&
    (forall l, i, b, e ::
       var reply := o.data(l, Encoding, i, b, e);
       !reply.abort && reply.rewrite.None? && reply.add.None? && (reply.status == DataStopNoBuffer ==> b == []))
  }

  /** The response bytes the codec has been handed. */
  function Sunk(log: Log): Bytes {
    match log
    case Empty => []
    case After(before, CodecData(bytes, _)) => Sunk(before) + bytes
    case After(before, _) => Sunk(before)
  }

  /** The response bytes that entered the chain, from upstream or from a filter. */
  function Input(log: Log): Bytes {
    match log
    case Empty => []
    case After(before, Arrived(dir, bytes)) => if dir == Encoding then Input(before) + bytes else Input(before)
    case After(before, Headers(dir, _, _, added, _)) =>
      if dir == Encoding then Input(before) + Held(added) else Input(before)
    case After(before, Data(dir, _, _, added, _, _)) =>
      if dir == Encoding then Input(before) + Held(added) else Input(before)
    case After(before, _) => Input(before)
  }

  /** No response bytes moved between the two. */
  ghost predicate SameBytes(a: Log, b: Log) {
    Sunk(b) == Sunk(a) && Input(b) == Input(a) && SameStream(a, b, Encoding)
  }

  /** The bytes of an iteration that are not in the shared buffer. */
  function Flight(data: Payload): Bytes {
    if data.Shared? then [] else data.bytes
  }

  ghost predicate Balanced(m: Manager, flight: Bytes) {
    Sunk(m.log) + Held(m.encode.buffer) + flight == Input(m.log)
  }

  ghost predicate Accounted(m: Manager, flight: Bytes) {
    !m.encode.aborted && Balanced(m, flight) && (Ended(m) ==> Held(m.encode.buffer) == [])
  }

  /** Bytes wait in the shared buffer only behind a stopped filter. */
  ghost predicate Parked(m: Manager, lo: nat) {
    Held(m.encode.buffer) == [] || m.encode.observedEnd || m.stream.sawReset || StoppedFrom(m.encode.filters, lo)
  }

  /** A payload of the caller's may set out from position i: older bytes can wait only at a
      filter it will meet, and no filter it will meet has seen the end. */
  ghost predicate Clean(m: Manager, i: nat) {
    (Held(m.encode.buffer) == [] || StoppedFrom(m.encode.filters, i)) &&
    forall j :: i <= j < |m.encode.filters| ==> !m.encode.filters[j].endStream
  }

  lemma {:induction false} CalledBytes(log: Log, call: Event, aborts: bool)
    requires (call.Headers? || call.Data?) && call.dir == Encoding
    ensures var r := AfterCall(log, call, aborts); Sunk(r) == Sunk(log) && Input(r) == Input(log) + Held(call.added)
  {
    var l1 := After(log, call);
    var l2 := AfterWhen(aborts, l1, DecodingAborted);
    assert Sunk(l1) == Sunk(log) && Input(l1) == Input(log) + Held(call.added);
    assert Sunk(l2) == Sunk(l1) && Input(l2) == Input(l1);
  }

  /** Events that move no response bytes. */
  predicate Silent(e: Event) {
    e.DecodingAborted? || e.ResponseComplete? || e.RequestComplete? || e.StreamEnded? || e.CodecHeaders?
  }

  lemma {:induction false} SilentBytes(log: Log, e: Event)
    requires Silent(e)
    ensures SameBytes(log, After(log, e))
  {
    UnmovingStream(log, e, Encoding);
  }

  lemma {:induction false} EndStreamBytes(o: Oracle, m: Manager)
    ensures SameBytes(m.log, EndStream(o, m).log)
  {
    var event := StreamEnded(m.encode.complete, m.decode.complete || m.decode.aborted);
    SilentBytes(m.log, event);
    SilentBytes(After(m.log, event), DecodingAborted);
  }

  lemma {:induction false} AbortBytes(condition: bool, m: Manager)
    ensures SameBytes(m.log, AbortDecodingWhen(condition, m).log)
  {
    SilentBytes(m.log, DecodingAborted);
  }

  lemma {:induction false} MaybeEndEncodeBytes(o: Oracle, m: Manager, end: bool)
    ensures SameBytes(m.log, MaybeEndEncode(o, m, end).log)
  {
    if end {
      var m1 := CompleteResponse(m);
      SilentBytes(m.log, Completion(m));
      if m1.stream.halfClose { CheckAndCloseBytes(o, m1); } else { EndStreamBytes(o, m1); }
    }
  }

  lemma {:induction false} CheckAndCloseBytes(o: Oracle, m: Manager)
    ensures SameBytes(m.log, CheckAndClose(o, m).log)
  {
    hide EndStream, Sunk, Input, Came, Shown, Onward;
    var error := m.stream.responseStatus.Some? && IsErrorStatus(m.stream.responseStatus.value) && !m.decode.complete;
    AbortBytes(error, m);
    var m1 := AbortDecodingWhen(error, m);
    var paused := m1.encode.complete && m1.decode.observedEnd && !m1.decode.complete && !m1.decode.aborted;
    AbortBytes(paused, m1);
    EndStreamBytes(o, AbortDecodingWhen(paused, m1));
  }

  lemma HeldGrow(buffer: Option<Bytes>, more: Option<Bytes>)
    ensures Held(Grow(buffer, more)) == Held(buffer) + Held(more)
  {}

  lemma Regrouped(a: Bytes, b: Bytes, c: Bytes)
    ensures a + (b + c) + [] == a + b + [] + c
  {}

  lemma {:induction false} HeadersStepAccounted(o: Oracle, m: Manager, i: nat, end: bool)
    requires Faithful(o) && i < |m.encode.filters| && Accounted(m, []) && !Ended(m)
    ensures Accounted(HeadersStep(o, m, i, end), [])
  {
    hide Sunk, Input, WatchCodec, Grow, AfterCall, HeadersOutcome, SameStream;
    var reply := HeadersAnswer(o, m, i, end);
    var call := Headers(Encoding, i, end, reply.add, HeadersOutcome(o, m, i, end));
    CalledBytes(m.log, call, reply.abortDecoding);
    WatchCodecCalled(m.log, call, reply.abortDecoding);
    HeldGrow(m.encode.buffer, reply.add);
    var r := HeadersStep(o, m, i, end);
    assert Sunk(r.log) + Held(r.encode.buffer) + [] == Sunk(m.log) + Held(m.encode.buffer) + [] + Held(reply.add) by {
      Regrouped(Sunk(m.log), Held(m.encode.buffer), Held(reply.add));
    }
  }

  lemma {:induction false} HeadersEntryAccounted(o: Oracle, m: Manager, i: nat, end: bool, cont: Option<nat>)
    requires Faithful(o) && i < |m.encode.filters| && ValidFrom(m.encode, i, cont) && Accounted(m, []) && !Ended(m)
    requires end || cont.Some? ==> m.encode.observedEnd
    ensures var next := HeadersEntry(o, m, i, end, cont);
            Accounted(next.m, []) &&
            (Held(m.encode.buffer) == [] || m.encode.observedEnd ==>
               if next.HeadersHalt? then Parked(next.m, FirstTouched(i, cont))
               else Held(next.m.encode.buffer) == [] || next.m.encode.observedEnd)
  {
    HeadersStepAccounted(o, m, i, end && cont.None?);
    hide Accounted, HeadersStep;
  }

  lemma {:induction false} HeadersExitAccounted(o: Oracle, m: Manager, end: bool, cont: Option<nat>)
    requires Arriving(m, |m.encode.filters|) && Tied(m) && Carrying(m, |m.encode.filters|, end, cont)
    requires Accounted(m, [])
    ensures Accounted(HeadersExit(o, m, end, cont).m, [])
  {
    HeadersExitSingle(o, m, end, cont);
    SilentBytes(m.log, CodecHeaders(end && cont.None?));
    hide Tied, Sunk, Input, WatchCodec, Shape, CheckAndClose, EndStream;
    var m1 := m.(stream := m.stream.(sawReset := m.stream.sawReset || o.codecResets(m.log)),
                 log := After(m.log, CodecHeaders(end && cont.None?)));
    MaybeEndEncodeBytes(o, m1, end && cont.None?);
  }

  lemma {:induction false} HeadersLoopAccounted(o: Oracle, m: Manager, i: nat, end: bool, cont: Option<nat>)
    requires Faithful(o) && Arriving(m, i) && Tied(m) && Carrying(m, i, end, cont)
    requires Accounted(m, []) && (cont.Some? ==> m.encode.observedEnd)
    ensures var r := HeadersLoop(o, m, i, end, cont);
            Accounted(r, []) &&
            (Held(m.encode.buffer) == [] || m.encode.observedEnd ==> Parked(r, FirstTouched(i, cont)))
    decreases 3 * (|m.encode.filters| - FirstTouched(i, cont)) + 2, |m.encode.filters| - i
  {
    hide HeadersEntry, Tied, Resting, Arriving, WatchCodec, CommonContinue, EndsKept, Ends, Accounted, StoppedFrom,
         Faithful;
    NotEnded(m, i);
    if i == |m.encode.filters| {
      HeadersExitedAccounted(o, m, end, cont);
    } else {
      FreshAt(m, i);
      HeadersEntryLawful(o, m, i, end, cont);
      HeadersEntrySingle(o, m, i, end, cont);
      HeadersEntryAccounted(o, m, i, end, cont);
      match HeadersEntry(o, m, i, end, cont)
      case HeadersHalt(m1, None) =>
      case HeadersHalt(m1, Some(c)) => ResumedAccounted(o, m1, i + 1, c);
      case HeadersOnward(m1, end', cont') =>
        HeadersLoopAccounted(o, m1, i + 1, end', cont');
        if cont'.None? && (Held(m.encode.buffer) == [] || m.encode.observedEnd) {
          ParkedBefore(HeadersLoop(o, m1, i + 1, end', cont'), i);
        }
    }
  }

  lemma {:induction false} HeadersExitedAccounted(o: Oracle, m: Manager, end: bool, cont: Option<nat>)
    requires Faithful(o) && Arriving(m, |m.encode.filters|) && Tied(m) && Carrying(m, |m.encode.filters|, end, cont)
    requires Accounted(m, []) && (cont.Some? ==> m.encode.observedEnd)
    ensures var r := HeadersLoop(o, m, |m.encode.filters|, end, cont);
            Accounted(r, []) &&
            (Held(m.encode.buffer) == [] || m.encode.observedEnd ==> Parked(r, FirstTouched(|m.encode.filters|, cont)))
    decreases 3 * (|m.encode.filters| - FirstTouched(|m.encode.filters|, cont)) + 1, 3
  {
    HeadersExitLawful(o, m, end, cont);
    HeadersExitSingle(o, m, end, cont);
    HeadersExitAccounted(o, m, end, cont);
    hide HeadersExit, Tied, Resting, Arriving, WatchCodec, CommonContinue, EndsKept, Sealed, Accounted, StoppedFrom,
         Faithful;
    match HeadersExit(o, m, end, cont)
    case HeadersHalt(m1, None) =>
    case HeadersHalt(m1, Some(c)) => ResumedAccounted(o, m1, |m.encode.filters|, c);
  }

  lemma ParkedBefore(m: Manager, i: nat)
    requires Parked(m, i + 1)
    ensures Parked(m, i)
  {}

  lemma {:induction false} ResumedAccounted(o: Oracle, m: Manager, p: nat, c: nat)
    requires Faithful(o) && Resting(m, p) && Tied(m) && c < p && Ends(m) && WatchCodec(m.log).single && !Ended(m)
    requires Accounted(m, [])
    ensures var r := CommonContinue(o, Stopped(m, c), c); Accounted(r, []) && Parked(r, c)
    decreases 3 * (|m.encode.filters| - c) + 1, 2
  {
    StoppedLawful(m, p, c);
    StoppedKept(m, c);
    hide Tied, Resting, WatchCodec, CommonContinue, Faithful;
    CommonContinueAccounted(o, Stopped(m, c), p, c);
  }

  lemma {:induction false} CommonContinueAccounted(o: Oracle, m: Manager, p: nat, k: nat)
    requires Faithful(o) && Resting(m, p) && Tied(m) && k < |m.encode.filters| && m.encode.filters[k].Stopped()
    requires Ends(m) && WatchCodec(m.log).single && (Ended(m) ==> m.encode.complete)
    requires Accounted(m, [])
    ensures var r := CommonContinue(o, m, k); Accounted(r, []) && Parked(r, k)
    decreases 3 * (|m.encode.filters| - k) + 1, 1
  {
    hide Sunk, Input, Came, Shown, Onward, ResumeHeaders, ResumeData, Faithful;
    if m.encode.complete {
      assert Ended(m);
    } else {
      var m0 := m.(encode := AllowIteration(m.encode, k));
      var m1 := ResumeHeaders(o, m0, k);
      ghost var p1 := ResumeHeadersLawful(o, m, p, k);
      ResumeHeadersSingle(o, m, p, k);
      hide Tied, WatchCodec, Resting, Sealed;
      ResumeHeadersAccounted(o, m, p, k);
      ResumeDataAccounted(o, m1, p1, k);
      var m2 := ResumeData(o, m1, k);
      var m3 := m2.(encode := LeaveCurrent(m2.encode, k));
      if StoppedFrom(m2.encode.filters, k) { StoppedFromKept(m2.encode.filters, m3.encode.filters, k); }
    }
  }

  lemma {:induction false} ResumeHeadersAccounted(o: Oracle, m: Manager, p: nat, k: nat)
    requires Faithful(o) && Resting(m, p) && Tied(m) && k < |m.encode.filters| && m.encode.filters[k].Stopped()
    requires Ends(m) && Accounted(m, [])
    ensures Accounted(ResumeHeaders(o, m.(encode := AllowIteration(m.encode, k)), k), [])
    decreases 3 * (|m.encode.filters| - k) + 1, 0
  {
    hide HeadersLoop, Tied, WatchCodec, Sealed, Faithful, Sunk, Input;
    if !m.encode.filters[k].headersContinued {
      ReleasedArrives(m, p, k);
      SealedKept(m, Released(m, k));
      hide Resting, Arriving;
      HeadersLoopAccounted(o, Released(m, k), k + 1, m.encode.observedEnd && m.encode.buffer.None?, None);
    }
  }

  lemma {:induction false} ResumeDataAccounted(o: Oracle, m: Manager, p: nat, k: nat)
    requires Faithful(o) && Resting(m, p) && Tied(m) && k < p
    requires m.encode.filters[k].headersContinued && !m.encode.filters[k].Stopped()
    requires Ends(m) && Single(m) && (Ended(m) ==> m.encode.buffer.None? || Barred(m, k + 1))
    requires Accounted(m, [])
    ensures var r := ResumeData(o, m, k); Accounted(r, []) && Parked(r, k)
    decreases 3 * (|m.encode.filters| - k) + 1, 0
  {
    if m.encode.buffer.Some? {
      var start := if m.encode.filters[k].fromCurrent then k else k + 1;
      hide Tied, DataLoop, WatchCodec, Faithful;
      if Ended(m) {
        BarredAccounted(o, m, k, start, m.encode.observedEnd);
      } else {
        hide Resting, Sealed, Sunk, Input;
        DataLoopAccounted(o, m, p, start, Shared, m.encode.observedEnd);
        if start == k + 1 { ParkedBefore(DataLoop(o, m, start, Shared, m.encode.observedEnd), k); }
      }
    }
  }

  lemma {:induction false} DataStepAccounted(o: Oracle, m: Manager, i: nat, data: Payload, end: bool)
    requires Faithful(o) && i < |m.encode.filters| && Accounted(m, Flight(data))
    ensures var r := DataStep(o, m, i, data, end);
            Accounted(r, Flight(data)) && r.encode.buffer == m.encode.buffer && WatchCodec(r.log) == WatchCodec(m.log)
  {
    var reply := DataAnswer(o, m, i, data, end);
    var call := Data(Encoding, i, end, reply.add, PayloadBytes(m.encode, data), data.Shared?);
    CalledBytes(m.log, call, reply.abortDecoding);
    WatchCodecCalled(m.log, call, reply.abortDecoding);
    hide Sunk, Input, WatchCodec, AfterCall;
    assert Input(m.log) + [] == Input(m.log);
  }

  lemma {:induction false} BufferAccounted(m: Manager, data: Payload)
    requires Accounted(m, Flight(data)) && (data.Own? ==> !Ended(m))
    ensures Accounted(m.(encode := BufferData(m.encode, data)), [])
  {
    hide Sunk, Input, WatchCodec;
    var r := m.(encode := BufferData(m.encode, data));
    assert Sunk(m.log) + Held(r.encode.buffer) + [] == Sunk(m.log) + Held(m.encode.buffer) + Flight(data);
  }

  lemma {:induction false} DataVerdictAccounted(m: Manager, i: nat, data: Payload, status: DataStatus)
    requires i < |m.encode.filters| && Accounted(m, Flight(data)) && (data.Own? ==> !Ended(m))
    requires status == DataStopNoBuffer ==> PayloadBytes(m.encode, data) == []
    ensures var next := DataVerdict(m, i, data, status);
            Accounted(next.m, if next.DataOnward? then Flight(data) else [])
    ensures var next := DataVerdict(m, i, data, status);
            data.Shared? ==> Held(next.m.encode.buffer) == Held(m.encode.buffer)
  {
    BufferAccounted(m, data);
    hide Sunk, Input, WatchCodec;
  }

  /** One data callback: the bytes stay in flight, or go to the shared buffer. */
  lemma {:induction false} DataEntryAccounted(o: Oracle, m: Manager, i: nat, data: Payload, end: bool)
    requires Faithful(o) && i < |m.encode.filters| && Accounted(m, Flight(data))
    requires data.Own? ==> Clean(m, i) && !Ended(m)
    ensures var next := DataEntry(o, m, i, data, end);
            Accounted(next.m, if next.DataOnward? then Flight(data) else []) &&
            (data.Shared? || next.DataOnward? ==> Held(next.m.encode.buffer) == Held(m.encode.buffer)) &&
            (next.DataHalt? ==> next.m.encode.filters[i].Stopped() || m.encode.filters[i].endStream) &&
            (next.DataOnward? ==> next.data == data)
  {
    if m.encode.filters[i].StoppedAll() {
      BufferAccounted(m, data);
    } else if !m.encode.filters[i].endStream {
      DataStepAccounted(o, m, i, data, end);
      DataVerdictAccounted(DataStep(o, m, i, data, end), i, data, DataOutcome(o, m, i, data, end));
      assert DataLeft(o, m, i, data, end) == data;
      hide Sunk, Input, WatchCodec, Accounted, Faithful;
    }
  }

  lemma {:induction false} BarredAccounted(o: Oracle, m: Manager, k: nat, start: nat, end: bool)
    requires Faithful(o) && k < |m.encode.filters| && !m.encode.filters[k].Stopped() && Barred(m, k + 1)
    requires k <= start <= k + 1 && Accounted(m, []) && Held(m.encode.buffer) == []
    ensures var r := DataLoop(o, m, start, Shared, end); Accounted(r, []) && Held(r.encode.buffer) == []
    decreases k + 1 - start
  {
    hide Sunk, Input, WatchCodec, Faithful, DataEntry, Accounted;
    DataEntryAccounted(o, m, start, Shared, end);
    var next := DataEntry(o, m, start, Shared, end);
    if next.DataOnward? { BarredAccounted(o, next.m, k, k + 1, end); }
  }

  lemma {:induction false} CodecDataAccounted(o: Oracle, m: Manager, data: Payload, end: bool)
    requires Tied(m) && Ends(m) && WatchCodec(m.log).single && !Ended(m)
    requires Accounted(m, Flight(data)) && (data.Own? ==> Clean(m, |m.encode.filters|))
    ensures var r := CodecDataStep(o, m, data, end); Accounted(r, []) && Held(r.encode.buffer) == []
  {
    var buffer := if data.Shared? && m.encode.buffer.Some? then Some([]) else m.encode.buffer;
    var m1 := Manager(m.decode, m.encode.(buffer := buffer),
                      m.stream.(sawReset := m.stream.sawReset || o.codecResets(m.log)),
                      After(m.log, CodecData(PayloadBytes(m.encode, data), end)));
    MaybeEndEncodeBytes(o, m1, end);
    assert Sunk(m1.log) == Sunk(m.log) + PayloadBytes(m.encode, data) && Input(m1.log) == Input(m.log);
    hide Tied, WatchCodec, Sunk, Input, CheckAndClose, EndStream;
    assert Sunk(m1.log) + [] + [] == Sunk(m.log) + Held(m.encode.buffer) + Flight(data);
  }

  lemma CleanOnward(m: Manager, r: Manager, i: nat)
    requires Clean(m, i) && i < |m.encode.filters| && SameExcept(m.encode, r.encode, i)
    requires !m.encode.filters[i].Stopped() && Held(r.encode.buffer) == Held(m.encode.buffer)
    ensures Clean(r, i + 1)
  {
    if StoppedFrom(m.encode.filters, i) {
      assert StoppedFrom(m.encode.filters, i + 1);
      StoppedFromKept(m.encode.filters, r.encode.filters, i + 1);
    }
  }

  lemma {:induction false} DataLoopAccounted(o: Oracle, m: Manager, p: nat, i: nat, data: Payload, end: bool)
    requires Faithful(o) && Resting(m, p) && Tied(m) && Reached(m, p, i) && Ends(m) && end == m.encode.observedEnd
    requires WatchCodec(m.log).single && !Ended(m) && Accounted(m, Flight(data))
    requires data.Own? ==> Clean(m, i)
    ensures var r := DataLoop(o, m, i, data, end); Accounted(r, []) && Parked(r, i)
    decreases 3 * (|m.encode.filters| - i)
              + (if i < |m.encode.filters| && m.encode.filters[i].iteration == StopSingle then 2 else 0), 0
  {
    hide DataEntry, Tied, Resting, WatchCodec, Sealed, CommonContinue, Faithful, Accounted, EndsKept, Single, Clean;
    if i == |m.encode.filters| {
      CodecDataAccounted(o, m, data, end);
    } else {
      DataEntryLawful(o, m, p, i, data, end);
      DataEntryEnds(o, m, i, data, end);
      DataEntryAccounted(o, m, i, data, end);
      match DataEntry(o, m, i, data, end)
      case DataHalt(m1) =>
      case DataResume(m1) => CommonContinueAccounted(o, m1, p, i);
      case DataOnward(m1, left) =>
        if data.Own? { CleanOnward(m, m1, i); }
        DataLoopAccounted(o, m1, p, i + 1, left, end);
        ParkedBefore(DataLoop(o, m1, i + 1, left, end), i);
    }
  }
}
