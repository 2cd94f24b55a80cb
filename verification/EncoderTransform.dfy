/** What the filters make of the body: when none of them stops, the data iteration hands the
    codec the composition of what each of them does to the bytes, in chain order. */
module EncoderTransform {
  import opened FilterTypes
  import opened Protocol
  import opened EncoderChain
  import opened EncoderConservation
  import EP = EncoderProtocol

  /** Filters that pass everything on, filter i after applying f(i, _) to it. */
  ghost predicate Transforms(o: Oracle, f: (nat, Bytes) -> Bytes) {
    forall l, i, b, e ::
      var reply := o.data(l, Encoding, i, b, e);
      reply.status == DataContinue && reply.rewrite == Some(f(i, b)) && reply.add.None? && !reply.abort
  }

  /** The filters from i to n applied one after the other. */
  function Composed(f: (nat, Bytes) -> Bytes, i: nat, n: nat, b: Bytes): Bytes
    requires i <= n
    decreases n - i
  {
    if i == n then b else Composed(f, i + 1, n, f(i, b))
  }

  ghost predicate Flowing(m: Manager, i: nat) {
    i <= |m.encode.filters| && !m.encode.aborted &&
    forall j :: i <= j < |m.encode.filters| ==>
      m.encode.filters[j].iteration == Continue && !m.encode.filters[j].endStream
  }

  /** Bytes of a caller's, or the shared buffer itself, arrive at the codec transformed by
      every filter on the way, and the buffer they came from is drained. */
  lemma {:induction false} DataLoopComposes(
    o: Oracle, f: (nat, Bytes) -> Bytes, m: Manager, i: nat, data: Payload, end: bool)
    requires Transforms(o, f) && Flowing(m, i) && (data.Shared? ==> m.encode.buffer.Some?)
    ensures var r, n := DataLoop(o, m, i, data, end), |m.encode.filters|;
            Sunk(r.log) == Sunk(m.log) + Composed(f, i, n, PayloadBytes(m.encode, data)) &&
            WatchCodec(r.log).ended == end &&
            Held(r.encode.buffer) == (if data.Shared? then [] else Held(m.encode.buffer))
    decreases |m.encode.filters| - i
  {
    hide Sunk, Input, AfterCall, WatchCodec, CodecDataStep, CommonContinue;
    if i == |m.encode.filters| {
      CodecTakes(o, m, data, end);
    } else {
      var reply := DataAnswer(o, m, i, data, end);
      var m1, left := DataStep(o, m, i, data, end), DataLeft(o, m, i, data, end);
      CalledBytes(m.log, Data(Encoding, i, end, reply.add, PayloadBytes(m.encode, data), data.Shared?),
                  reply.abortDecoding);
      assert DataEntry(o, m, i, data, end) == DataOnward(m1, left);
      assert PayloadBytes(m1.encode, left) == f(i, PayloadBytes(m.encode, data));
      DataLoopComposes(o, f, m1, i + 1, left, end);
    }
  }

  lemma {:induction false} CodecTakes(o: Oracle, m: Manager, data: Payload, end: bool)
    requires data.Shared? ==> m.encode.buffer.Some?
    ensures var r := CodecDataStep(o, m, data, end);
            Sunk(r.log) == Sunk(m.log) + PayloadBytes(m.encode, data) && WatchCodec(r.log).ended == end &&
            Held(r.encode.buffer) == (if data.Shared? then [] else Held(m.encode.buffer))
  {
    var buffer := if data.Shared? && m.encode.buffer.Some? then Some([]) else m.encode.buffer;
    var m1 := Manager(m.decode, m.encode.(buffer := buffer),
                      m.stream.(sawReset := m.stream.sawReset || o.codecResets(m.log)),
                      After(m.log, CodecData(PayloadBytes(m.encode, data), end)));
    MaybeEndEncodeBytes(o, m1, end);
    EP.MaybeEndEncodeQuiet(o, m1, end);
    assert WatchCodec(m1.log).ended == end;
  }
}
