/** The filter manager as the object it is: loops over the filter lists that update the
    filters' flags, the shared buffers and the stream state in place. Every method ends in
    the state that the functions of EncoderChain and DecoderChain give. */
module FilterManagerObject {
  import opened FilterTypes
  import E = EncoderChain
  import D = DecoderChain
  import opened FilterRuns

  // One turn of each loop, as an equation between its functions.

  lemma EncodeHeadersTurn(o: Oracle, m: Manager, i: nat, end: bool, cont: Option<nat>)
    requires i < |m.encode.filters| && ValidFrom(m.encode, i, cont)
    ensures var e := end && cont.None?;
            var status, m1 := E.HeadersOutcome(o, m, i, e), E.HeadersStep(o, m, i, e);
            var end' := end && status != HeadersContinueAndDontEndStream;
            var cont' := if end' && m1.encode.buffer.Some? && cont.None? then Some(i) else cont;
            |m1.encode.filters| == |m.encode.filters| &&
            E.HeadersLoop(o, m, i, end, cont) ==
              if StopsHeaders(m1.encode.filters[i], status) then
                if e || cont.None? then m1 else E.CommonContinue(o, E.Stopped(m1, cont.value), cont.value)
              else E.HeadersLoop(o, m1, i + 1, end', cont')
  {
    hide E.HeadersStep, E.HeadersOutcome, E.CommonContinue;
  }

  lemma EncodeHeadersLast(o: Oracle, m: Manager, end: bool, cont: Option<nat>)
    requires ValidFrom(m.encode, |m.encode.filters|, cont)
    ensures var e := end && cont.None?;
            var m1 := m.(stream := m.stream.(sawReset := m.stream.sawReset || o.codecResets(m.log)),
                         log := After(m.log, CodecHeaders(e)));
            E.HeadersLoop(o, m, |m.encode.filters|, end, cont) ==
              if m1.stream.sawReset then m1
              else if e then MaybeEndEncode(o, m1, true)
              else if cont.None? then m1
              else E.CommonContinue(o, E.Stopped(m1, cont.value), cont.value)
  {
    hide E.CommonContinue, CheckAndClose, EndStream;
  }

  lemma EncodeDataTurn(o: Oracle, m: Manager, i: nat, data: Payload, end: bool)
    requires i < |m.encode.filters|
    ensures E.DataLoop(o, m, i, data, end) ==
              if m.encode.filters[i].StoppedAll() then m.(encode := BufferData(m.encode, data))
              else if m.encode.filters[i].endStream then m
              else
                var m1, left := E.DataStep(o, m, i, data, end), E.DataLeft(o, m, i, data, end);
                var status := E.DataOutcome(o, m, i, data, end);
                if status != DataContinue then m1.(encode := StopOnData(m1.encode, i, left, status))
                else if m1.encode.filters[i].iteration == StopSingle then
                  E.CommonContinue(o, m1.(encode := BufferData(m1.encode, left)), i)
                else E.DataLoop(o, m1, i + 1, left, end)
  {
    hide E.DataStep, E.DataLeft, E.DataOutcome, E.CommonContinue;
  }

  lemma EncodeDataLast(o: Oracle, m: Manager, data: Payload, end: bool)
    ensures E.DataLoop(o, m, |m.encode.filters|, data, end) == E.CodecDataStep(o, m, data, end)
  {}

  lemma DecodeLast(o: Oracle, m: Manager, data: Payload, end: bool, cont: Option<nat>, terminal: bool)
    requires ValidFrom(m.decode, |m.decode.filters|, cont)
    ensures D.HeadersLoop(o, m, |m.decode.filters|, end, cont, terminal) ==
              MaybeEndDecode(o, D.Continued(o, m, cont), terminal)
    ensures D.DataLoop(o, m, |m.decode.filters|, data, end, terminal) == MaybeEndDecode(o, m, terminal)
  {
    hide D.Continued, MaybeEndDecode;
  }

  lemma DecodeHeadersTurn(o: Oracle, m: Manager, i: nat, end: bool, cont: Option<nat>, terminal: bool)
    requires i < |m.decode.filters| && ValidFrom(m.decode, i, cont)
    ensures var e, last := end && cont.None?, D.Last(m, i);
            var status, m1 := D.HeadersOutcome(o, m, i, e), D.HeadersStep(o, m, i, e);
            var end' := end && status != HeadersContinueAndDontEndStream;
            var cont' := if end' && m1.decode.buffer.Some? && cont.None? then Some(i) else cont;
            |m1.decode.filters| == |m.decode.filters| && m1.decode.filters[i].endStream == e &&
            D.HeadersLoop(o, m, i, end, cont, terminal) ==
              if !last && (m1.decode.aborted || StopsHeaders(m1.decode.filters[i], status)) then
                D.Continued(o, m1, cont)
              else D.HeadersLoop(o, m1, i + 1, end', cont', last && e && cont'.None?)
  {
    hide D.HeadersStep, D.HeadersOutcome, D.Continued;
  }

  lemma DecodeDataTurn(o: Oracle, m: Manager, i: nat, data: Payload, end: bool, terminal: bool)
    requires i < |m.decode.filters|
    ensures D.DataLoop(o, m, i, data, end, terminal) ==
              if m.decode.filters[i].StoppedAll() then m.(decode := BufferData(m.decode, data))
              else if m.decode.filters[i].endStream then m
              else
                var m1, left := D.DataStep(o, m, i, data, end), D.DataLeft(o, m, i, data, end);
                var status := D.DataAnswer(o, m, i, data, end).status;
                if m1.decode.aborted then m1
                else if status != DataContinue then
                  MaybeEndDecode(o, m1.(decode := StopOnData(m1.decode, i, left, status)), end && D.Last(m, i))
                else if m1.decode.filters[i].iteration == StopSingle then
                  var m2 := m1.(decode := BufferData(m1.decode, left));
                  MaybeEndDecode(o, D.CommonContinue(o, m2, i), end && D.Last(m, i))
                else D.DataLoop(o, m1, i + 1, left, end, end && D.Last(m, i))
  {
    hide D.DataStep, D.DataLeft, D.DataAnswer, D.CommonContinue, MaybeEndDecode;
  }

  class FilterManager {
    const oracle: Oracle
    var decode: Chain
    var encode: Chain
    var stream: Stream
    var log: Log

    constructor (oracle: Oracle, decoders: nat, encoders: nat, halfClose: bool)
      ensures Valid() && this.oracle == oracle && State() == Init(decoders, encoders, halfClose)
    {
      InitInv(decoders, encoders, halfClose);
      this.oracle := oracle;
      decode, encode := FreshChain(decoders), FreshChain(encoders);
      stream, log := Stream(false, None, false, halfClose), Empty;
    }

    function State(): Manager
      reads this
    {
      Manager(decode, encode, stream, log)
    }

    // Closing the stream.

    method AbortDecoder()
      modifies this
      ensures State() == AbortDecoding(old(State()))
    {
      if !decode.aborted {
        decode := decode.(aborted := true);
        log := After(log, DecodingAborted);
      }
    }

    method EndTheStream()
      modifies this
      ensures State() == EndStream(oracle, old(State()))
    {
      var reply := oracle.close(log);
      log := After(log, StreamEnded(encode.complete, decode.complete || decode.aborted));
      if reply.resets { stream := stream.(sawReset := true); }
      if reply.abortsDecoding { AbortDecoder(); }
    }

    method CloseIfFullyClosed()
      modifies this
      ensures State() == CheckAndClose(oracle, old(State()))
    {
      if stream.responseStatus.Some? {
        var error := IsErrorStatus(stream.responseStatus.value);
        if error && !decode.complete { AbortDecoder(); }
      }
      var paused := !decode.complete && !decode.aborted;
      if encode.complete && decode.observedEnd && paused { AbortDecoder(); }
      if encode.complete && (decode.complete || decode.aborted) { EndTheStream(); }
    }

    method MaybeEndDecoding(terminal: bool)
      modifies this
      ensures State() == MaybeEndDecode(oracle, old(State()), terminal)
    {
      if terminal {
        log := After(log, RequestComplete(decode.aborted));
        decode := decode.(complete := true);
        if stream.halfClose && !decode.aborted { CloseIfFullyClosed(); }
      }
    }

    method MaybeEndEncoding(end: bool)
      modifies this
      ensures State() == MaybeEndEncode(oracle, old(State()), end)
    {
      if end {
        log := After(log, Completion(State()));
        encode := encode.(complete := true);
        if stream.halfClose { CloseIfFullyClosed(); } else { EndTheStream(); }
      }
    }

    // The response direction.

    method CallEncodeHeaders(i: nat, end: bool) returns (status: HeadersStatus)
      requires i < |encode.filters|
      modifies this
      ensures State() == E.HeadersStep(oracle, old(State()), i, end)
      ensures status == E.HeadersOutcome(oracle, old(State()), i, end)
    {
      var reply := oracle.headers(log, Encoding, i, end);
      encode := encode.(buffer := Grow(encode.buffer, reply.add), aborted := encode.aborted || reply.abort);
      status := if encode.aborted then HeadersStopIteration else reply.status;
      log := After(log, Headers(Encoding, i, end, reply.add, status));
      if reply.abortDecoding {
        decode := decode.(aborted := true);
        log := After(log, DecodingAborted);
      }
      encode := SetFilter(encode, i, AfterHeaders(encode.filters[i], end, status));
      if end { log := After(log, Complete(Encoding, i)); }
    }

    method MaybeContinueEncoding(cont: Option<nat>)
      requires cont.Some? ==> cont.value < |encode.filters|
      modifies this
      ensures State() == if cont.Some? then E.CommonContinue(oracle, E.Stopped(old(State()), cont.value), cont.value)
                         else old(State())
      decreases 3 * (|encode.filters| - FirstTouched(|encode.filters|, cont)) + 1, 2
    {
      if cont.Some? {
        encode := SetIteration(encode, cont.value, StopSingle);
        ContinueEncoding(cont.value);
      }
    }

    /** Response headers from filter number start on. */
    method EncodeHeaders(start: nat, endStream: bool)
      requires start <= |encode.filters|
      modifies this
      ensures State() == E.HeadersLoop(oracle, old(State()), start, endStream, None)
      decreases 3 * (|encode.filters| - start) + 2, 0
    {
      ghost var n := |encode.filters|;
      hide E.HeadersLoop, E.HeadersStep, E.HeadersOutcome, E.CommonContinue, CheckAndClose, EndStream;
      var i, end := start, endStream;
      var cont: Option<nat> := None;
      while i < |encode.filters|
        invariant |encode.filters| == n && start <= FirstTouched(i, cont) && ValidFrom(State().encode, i, cont)
        invariant E.HeadersLoop(oracle, State(), i, end, cont) ==
                    E.HeadersLoop(oracle, old(State()), start, endStream, None)
        decreases n - i
      {
        EncodeHeadersTurn(oracle, State(), i, end, cont);
        var endHere := end && cont.None?;
        var status := CallEncodeHeaders(i, endHere);
        if status == HeadersContinueAndDontEndStream { end := false; }
        if StopsHeaders(encode.filters[i], status) {
          if !endHere { MaybeContinueEncoding(cont); }
          return;
        }
        if end && encode.buffer.Some? && cont.None? { cont := Some(i); }
        i := i + 1;
      }
      EncodeHeadersLast(oracle, State(), end, cont);
      var endHere := end && cont.None?;
      if oracle.codecResets(log) { stream := stream.(sawReset := true); }
      log := After(log, CodecHeaders(endHere));
      if stream.sawReset { return; }
      MaybeEndEncoding(endHere);
      if !endHere { MaybeContinueEncoding(cont); }
    }

    method CallEncodeData(i: nat, data: Payload, end: bool) returns (status: DataStatus, left: Payload)
      requires i < |encode.filters|
      modifies this
      ensures State() == E.DataStep(oracle, old(State()), i, data, end)
      ensures status == E.DataOutcome(oracle, old(State()), i, data, end)
      ensures left == E.DataLeft(oracle, old(State()), i, data, end)
    {
      var bytes := PayloadBytes(encode, data);
      var reply := oracle.data(log, Encoding, i, bytes, end);
      log := After(log, Data(Encoding, i, end, reply.add, bytes, data.Shared?));
      left := if data.Shared? then Shared else Own(Rewritten(data.bytes, reply.rewrite));
      encode := DataCalled(encode, i, data, end, reply);
      if reply.abortDecoding {
        decode := decode.(aborted := true);
        log := After(log, DecodingAborted);
      }
      status := if encode.aborted then DataStopNoBuffer else reply.status;
      if end { log := After(log, Complete(Encoding, i)); }
    }

    /** Response data from filter number start on. */
    method EncodeData(start: nat, provided: Payload, end: bool)
      requires start <= |encode.filters|
      modifies this
      ensures State() == E.DataLoop(oracle, old(State()), start, provided, end)
      decreases 3 * (|encode.filters| - start)
                + (if start < |encode.filters| && encode.filters[start].iteration == StopSingle then 2 else 0), 0
    {
      ghost var n := |encode.filters|;
      hide E.DataLoop, E.DataStep, E.DataLeft, E.DataOutcome, E.CommonContinue, E.DataEntry, MaybeEndEncode;
      var i, data := start, provided;
      while i < |encode.filters|
        invariant start <= i <= n == |encode.filters|
        invariant i == start ==> State() == old(State())
        invariant E.DataLoop(oracle, State(), i, data, end) == E.DataLoop(oracle, old(State()), start, provided, end)
        decreases n - i
      {
        EncodeDataTurn(oracle, State(), i, data, end);
        if encode.filters[i].StoppedAll() {
          encode := BufferData(encode, data);
          return;
        }
        if encode.filters[i].endStream { return; }
        var status, left := CallEncodeData(i, data, end);
        if status != DataContinue {
          encode := StopOnData(encode, i, left, status);
          return;
        }
        if encode.filters[i].iteration == StopSingle {
          encode := BufferData(encode, left);
          ContinueEncoding(i);
          return;
        }
        data := left;
        i := i + 1;
      }
      EncodeDataLast(oracle, State(), data, end);
      var bytes := PayloadBytes(encode, data);
      if oracle.codecResets(log) { stream := stream.(sawReset := true); }
      if data.Shared? && encode.buffer.Some? { encode := encode.(buffer := Some([])); }
      log := After(log, CodecData(bytes, end));
      if stream.sawReset { return; }
      MaybeEndEncoding(end);
    }

    /** A stopped encoder filter resumes the chain behind it. */
    method ContinueEncoding(k: nat)
      requires k < |encode.filters| && encode.filters[k].Stopped()
      modifies this
      ensures State() == E.CommonContinue(oracle, old(State()), k)
      decreases 3 * (|encode.filters| - k) + 1, 1
    {
      hide E.HeadersLoop, E.DataLoop;
      if encode.complete { return; }
      encode := AllowIteration(encode, k);
      if !encode.filters[k].headersContinued {
        encode := ContinueHeaders(encode, k);
        EncodeHeaders(k + 1, encode.observedEnd && encode.buffer.None?);
      }
      if encode.buffer.Some? {
        EncodeData(if encode.filters[k].fromCurrent then k else k + 1, Shared, encode.observedEnd);
      }
      encode := LeaveCurrent(encode, k);
    }

    // The request direction.

    method CallDecodeHeaders(i: nat, end: bool) returns (status: HeadersStatus)
      requires i < |decode.filters|
      modifies this
      ensures State() == D.HeadersStep(oracle, old(State()), i, end)
      ensures status == D.HeadersOutcome(oracle, old(State()), i, end)
    {
      var reply := oracle.headers(log, Decoding, i, end);
      var aborts := reply.abort || reply.abortDecoding;
      decode := decode.(buffer := Grow(decode.buffer, reply.add), aborted := decode.aborted || aborts);
      status := if decode.aborted then HeadersStopIteration else reply.status;
      log := After(log, Headers(Decoding, i, end, reply.add, status));
      if aborts { log := After(log, DecodingAborted); }
      decode := SetFilter(decode, i, AfterHeaders(decode.filters[i], end, status));
      if end { log := After(log, Complete(Decoding, i)); }
    }

    method MaybeContinueDecoding(cont: Option<nat>)
      requires cont.Some? ==> cont.value < |decode.filters|
      modifies this
      ensures State() == D.Continued(oracle, old(State()), cont)
      decreases 3 * (|decode.filters| - FirstTouched(|decode.filters|, cont)) + 1, 2
    {
      if cont.Some? {
        decode := SetIteration(decode, cont.value, StopSingle);
        ContinueDecoding(cont.value);
      }
    }

    /** Request headers from filter number start on. */
    method DecodeHeaders(start: nat, endStream: bool)
      requires start <= |decode.filters|
      modifies this
      ensures State() == D.HeadersLoop(oracle, old(State()), start, endStream, None, false)
      decreases 3 * (|decode.filters| - start) + 2, 0
    {
      ghost var n := |decode.filters|;
      hide D.HeadersLoop, D.HeadersStep, D.HeadersOutcome, D.Continued, MaybeEndDecode;
      var i, end, terminal := start, endStream, false;
      var cont: Option<nat> := None;
      while i < |decode.filters|
        invariant |decode.filters| == n && start <= FirstTouched(i, cont) && ValidFrom(State().decode, i, cont)
        invariant D.HeadersLoop(oracle, State(), i, end, cont, terminal)
                  == D.HeadersLoop(oracle, old(State()), start, endStream, None, false)
        decreases n - i
      {
        DecodeHeadersTurn(oracle, State(), i, end, cont, terminal);
        var last := i + 1 == |decode.filters|;
        var endHere := end && cont.None?;
        var status := CallDecodeHeaders(i, endHere);
        if status == HeadersContinueAndDontEndStream { end := false; }
        if decode.aborted && !last {
          MaybeContinueDecoding(cont);
          return;
        }
        if StopsHeaders(decode.filters[i], status) && !last {
          MaybeContinueDecoding(cont);
          return;
        }
        if end && decode.buffer.Some? && cont.None? { cont := Some(i); }
        terminal := last && decode.filters[i].endStream && cont.None?;
        i := i + 1;
      }
      DecodeLast(oracle, State(), Shared, end, cont, terminal);
      MaybeContinueDecoding(cont);
      MaybeEndDecoding(terminal);
    }

    method CallDecodeData(i: nat, data: Payload, end: bool) returns (status: DataStatus, left: Payload)
      requires i < |decode.filters|
      modifies this
      ensures State() == D.DataStep(oracle, old(State()), i, data, end)
      ensures status == D.DataAnswer(oracle, old(State()), i, data, end).status
      ensures left == D.DataLeft(oracle, old(State()), i, data, end)
    {
      var bytes := PayloadBytes(decode, data);
      var reply := oracle.data(log, Decoding, i, bytes, end);
      var aborts := reply.abort || reply.abortDecoding;
      log := After(log, Data(Decoding, i, end, reply.add, bytes, data.Shared?));
      left := if data.Shared? then Shared else Own(Rewritten(data.bytes, reply.rewrite));
      decode := DataCalled(decode, i, data, end, reply.(abort := aborts));
      if aborts { log := After(log, DecodingAborted); }
      status := reply.status;
      if end { log := After(log, Complete(Decoding, i)); }
    }

    /** Request data from filter number start on. */
    method DecodeData(start: nat, provided: Payload, end: bool)
      requires start <= |decode.filters|
      modifies this
      ensures State() == if old(decode.aborted) then old(State())
                         else D.DataLoop(oracle, old(State()), start, provided, end, false)
      decreases 3 * (|decode.filters| - start)
                + (if start < |decode.filters| && decode.filters[start].iteration == StopSingle then 2 else 0), 0
    {
      hide D.DataLoop, D.DataStep, D.DataLeft, D.DataAnswer, D.CommonContinue, D.DataEntry, MaybeEndDecode;
      if decode.aborted { return; }
      ghost var n := |decode.filters|;
      var i, data, terminal := start, provided, false;
      while i < |decode.filters|
        invariant start <= i <= n == |decode.filters|
        invariant i == start ==> State() == old(State())
        invariant D.DataLoop(oracle, State(), i, data, end, terminal)
                  == D.DataLoop(oracle, old(State()), start, provided, end, false)
        decreases n - i
      {
        DecodeDataTurn(oracle, State(), i, data, end, terminal);
        var last := i + 1 == |decode.filters|;
        if decode.filters[i].StoppedAll() {
          decode := BufferData(decode, data);
          return;
        }
        if decode.filters[i].endStream { return; }
        var status, left := CallDecodeData(i, data, end);
        if decode.aborted { return; }
        terminal := end && last;
        if status != DataContinue {
          decode := StopOnData(decode, i, left, status);
          MaybeEndDecoding(terminal);
          return;
        }
        if decode.filters[i].iteration == StopSingle {
          decode := BufferData(decode, left);
          ContinueDecoding(i);
          MaybeEndDecoding(terminal);
          return;
        }
        data := left;
        i := i + 1;
      }
      DecodeLast(oracle, State(), data, end, None, terminal);
      MaybeEndDecoding(terminal);
    }

    /** A stopped decoder filter resumes the chain behind it. */
    method ContinueDecoding(k: nat)
      requires k < |decode.filters| && decode.filters[k].Stopped()
      modifies this
      ensures State() == D.CommonContinue(oracle, old(State()), k)
      decreases 3 * (|decode.filters| - k) + 1, 1
    {
      hide D.HeadersLoop, D.DataLoop;
      if decode.aborted { return; }
      decode := AllowIteration(decode, k);
      if !decode.filters[k].headersContinued {
        decode := ContinueHeaders(decode, k);
        DecodeHeaders(k + 1, decode.observedEnd && decode.buffer.None?);
      }
      if decode.buffer.Some? {
        DecodeData(if decode.filters[k].fromCurrent then k else k + 1, Shared, decode.observedEnd);
      }
      decode := LeaveCurrent(decode, k);
    }

    // The calls into the manager.

    /** Between calls the object satisfies the invariant of all runs. */
    ghost predicate Valid()
      reads this
    {
      Inv(State())
    }

    method EncodePrefix(end: bool)
      modifies this
      ensures State() == E.Prefix(old(State()), end)
    {
      if end {
        encode := encode.(observedEnd := true);
        if !stream.halfClose { AbortDecoder(); }
      }
    }

    method StopDecodingIfNonTerminal(from: nat, end: bool)
      modifies this
      ensures State() == StopDecoding(old(State()), from, end)
    {
      if end && from + 1 != |decode.filters| && !decode.complete { AbortDecoder(); }
    }

    /** One call: pushes or resumes, and leaves the object valid. */
    method Perform(s: Step)
      requires Valid() && Enabled(State(), s)
      modifies this
      ensures Valid() && State() == Apply(oracle, old(State()), s) && Stays(old(State()), State())
    {
      hide Inv, Stays, E.HeadersLoop, E.DataLoop, E.CommonContinue, E.Prefix, D.HeadersLoop, D.DataLoop,
           D.CommonContinue, StopDecoding, Grow;
      StepInv(oracle, State(), s);
      match s
      case RequestHeaders(end) =>
        stream := stream.(hasRequest := true);
        decode := decode.(observedEnd := end);
        DecodeHeaders(0, end);
      case RequestData(bytes, end) =>
        decode := decode.(observedEnd := end);
        log := After(log, Arrived(Decoding, bytes));
        DecodeData(0, Own(bytes), end);
      case AddRequestData(k, bytes) =>
        log := After(log, Arrived(Decoding, bytes));
        decode := decode.(buffer := Grow(decode.buffer, Some(bytes)));
      case ResumeRequest(k) => ContinueDecoding(k);
      case ResponseHeaders(from, status, end) =>
        stream := stream.(responseStatus := Some(status));
        StopDecodingIfNonTerminal(from, end);
        EncodePrefix(end);
        EncodeHeaders(0, end);
      case ResponseData(from, bytes, end) =>
        StopDecodingIfNonTerminal(from, end);
        log := After(log, Arrived(Encoding, bytes));
        EncodePrefix(end);
        EncodeData(0, Own(bytes), end);
      case AddResponseData(k, bytes) =>
        log := After(log, Arrived(Encoding, bytes));
        encode := encode.(buffer := Grow(encode.buffer, Some(bytes)));
      case ResumeResponse(k) => ContinueEncoding(k);
    }
  }
}
