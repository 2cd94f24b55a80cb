/** What the decoder filters make of a request body: when none of them stops or aborts, each
    filter is shown what the filters before it made of the bytes. */
module DecoderTransform {
  import opened FilterTypes
  import opened DecoderChain
  import opened EncoderTransform

  ghost predicate TransformsRequest(o: Oracle, f: (nat, Bytes) -> Bytes) {
    forall l, i, b, e ::
      var reply := o.data(l, Decoding, i, b, e);
      reply.status == DataContinue && reply.rewrite == Some(f(i, b)) && reply.add.None? &&
      !reply.abort && !reply.abortDecoding
  }

  ghost predicate FlowingRequest(m: Manager, i: nat) {
    i <= |m.decode.filters| && !m.decode.aborted &&
    forall j :: i <= j < |m.decode.filters| ==>
      m.decode.filters[j].iteration == Continue && !m.decode.filters[j].endStream
  }

  /** The bytes of filter j's latest data callback. */
  function LastShown(log: Log, j: nat): Option<Bytes> {
    match log
    case Empty => None
    case After(before, Data(dir, k, _, _, bytes, _)) =>
      if dir == Decoding && k == j then Some(bytes) else LastShown(before, j)
    case After(before, _) => LastShown(before, j)
  }

  lemma {:induction false} CalledShown(log: Log, call: Event, j: nat)
    requires call.Data? && call.dir == Decoding
    ensures LastShown(AfterCall(log, call, false), j) == if call.index == j then Some(call.bytes) else LastShown(log, j)
  {
    assert LastShown(After(log, call), j) == if call.index == j then Some(call.bytes) else LastShown(log, j);
  }

  lemma {:induction false} MaybeEndDecodeShown(o: Oracle, m: Manager, terminal: bool, j: nat)
    ensures LastShown(MaybeEndDecode(o, m, terminal).log, j) == LastShown(m.log, j)
  {
    if terminal {
      var m1 := CompleteRequest(m);
      if m1.stream.halfClose && !m1.decode.aborted { CheckAndCloseShown(o, m1, j); }
    }
  }

  lemma {:induction false} AbortShown(condition: bool, m: Manager, j: nat)
    ensures LastShown(AbortDecodingWhen(condition, m).log, j) == LastShown(m.log, j)
  {}

  lemma {:induction false} EndStreamShown(o: Oracle, m: Manager, j: nat)
    ensures LastShown(EndStream(o, m).log, j) == LastShown(m.log, j)
  {
    var event := StreamEnded(m.encode.complete, m.decode.complete || m.decode.aborted);
    assert LastShown(After(m.log, event), j) == LastShown(m.log, j);
  }

  lemma {:induction false} CheckAndCloseShown(o: Oracle, m: Manager, j: nat)
    ensures LastShown(CheckAndClose(o, m).log, j) == LastShown(m.log, j)
  {
    hide EndStream, LastShown;
    var error := m.stream.responseStatus.Some? && IsErrorStatus(m.stream.responseStatus.value) && !m.decode.complete;
    AbortShown(error, m, j);
    var m1 := AbortDecodingWhen(error, m);
    var paused := m1.encode.complete && m1.decode.observedEnd && !m1.decode.complete && !m1.decode.aborted;
    AbortShown(paused, m1, j);
    EndStreamShown(o, AbortDecodingWhen(paused, m1), j);
  }

  /** Filter j is shown the composition of filters i to j - 1, and the filters before i are
      shown nothing new. */
  lemma {:induction false} DataLoopShows(
    o: Oracle, f: (nat, Bytes) -> Bytes, m: Manager, i: nat, data: Payload, end: bool, terminal: bool, j: nat)
    requires TransformsRequest(o, f) && FlowingRequest(m, i) && (data.Shared? ==> m.decode.buffer.Some?)
    requires j < |m.decode.filters|
    ensures LastShown(DataLoop(o, m, i, data, end, terminal).log, j) ==
              if i <= j then Some(Composed(f, i, j, PayloadBytes(m.decode, data))) else LastShown(m.log, j)
    decreases |m.decode.filters| - i
  {
    hide LastShown, AfterCall, MaybeEndDecode, CommonContinue;
    if i == |m.decode.filters| {
      MaybeEndDecodeShown(o, m, terminal, j);
    } else {
      var reply := DataAnswer(o, m, i, data, end);
      var m1, left := DataStep(o, m, i, data, end), DataLeft(o, m, i, data, end);
      CalledShown(m.log, Data(Decoding, i, end, reply.add, PayloadBytes(m.decode, data), data.Shared?), j);
      assert DataEntry(o, m, i, data, end) == DataOnward(m1, left);
      assert PayloadBytes(m1.decode, left) == f(i, PayloadBytes(m.decode, data));
      DataLoopShows(o, f, m1, i + 1, left, end, end && Last(m, i), j);
    }
  }
}
