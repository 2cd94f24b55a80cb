/** The bytes of each direction as the log tells of them: what came in, what each filter was
    shown, and what it passed on. */
module ByteStreams {
  import opened FilterTypes

  /** All the bytes that came in from outside, in order. */
  function Came(log: Log, dir: Direction): Bytes {
    match log
    case Empty => []
    case After(before, Arrived(d, bytes)) => if d == dir then Came(before, dir) + bytes else Came(before, dir)
    case After(before, _) => Came(before, dir)
  }

  /** All the bytes filter i was shown, in order. */
  function Shown(log: Log, dir: Direction, i: nat): Bytes {
    match log
    case Empty => []
    case After(before, Data(d, j, _, _, bytes, _)) =>
      if d == dir && j == i then Shown(before, dir, i) + bytes else Shown(before, dir, i)
    case After(before, _) => Shown(before, dir, i)
  }

  /** What a filter makes of the bytes it was shown: what it left of them, unless it discards a
      chunk. The shared buffer is not discarded. */
  function Made(bytes: Bytes, shared: bool, reply: DataReply): Bytes {
    if reply.status == DataStopNoBuffer && !shared then [] else Rewritten(bytes, reply.rewrite)
  }

  /** All the bytes filter i has passed on, or held back in order to pass them on when it resumes,
      by its own replies. */
  function Onward(o: Oracle, log: Log, dir: Direction, i: nat): Bytes {
    match log
    case Empty => []
    case After(before, Data(d, j, end, _, bytes, shared)) =>
      if d == dir && j == i then
        Onward(o, before, dir, i) + Made(bytes, shared, o.data(before, dir, i, bytes, end))
      else Onward(o, before, dir, i)
    case After(before, _) => Onward(o, before, dir, i)
  }

  /** No filter of a direction was called between the two. */
  ghost predicate SameCalls(a: Log, b: Log, dir: Direction) {
    (forall i: nat :: Shown(b, dir, i) == Shown(a, dir, i)) &&
    (forall o: Oracle, i: nat :: Onward(o, b, dir, i) == Onward(o, a, dir, i))
  }

  /** No byte of a direction moved between the two. */
  ghost predicate SameStream(a: Log, b: Log, dir: Direction) {
    Came(b, dir) == Came(a, dir) && SameCalls(a, b, dir)
  }

  /** Bytes of a direction came in between the two, and that is all. */
  ghost predicate Arrives(a: Log, b: Log, dir: Direction, bytes: Bytes) {
    Came(b, dir) == Came(a, dir) + bytes && SameCalls(a, b, dir)
  }

  lemma SameStreamTrans(a: Log, b: Log, c: Log, dir: Direction)
    requires SameStream(a, b, dir) && SameStream(b, c, dir)
    ensures SameStream(a, c, dir)
  {
    hide Came, Shown, Onward;
  }

  /** Events that move no byte of a direction. */
  predicate Unmoving(e: Event, dir: Direction) {
    !(e.Data? && e.dir == dir) && !(e.Arrived? && e.dir == dir)
  }

  lemma UnmovingStream(log: Log, e: Event, dir: Direction)
    requires Unmoving(e, dir)
    ensures SameStream(log, After(log, e), dir)
  {}

  lemma ArrivedStream(log: Log, dir: Direction, bytes: Bytes)
    ensures Arrives(log, After(log, Arrived(dir, bytes)), dir, bytes)
  {}

  lemma {:induction false} CalledStream(log: Log, call: Event, aborts: bool, dir: Direction)
    requires (call.Headers? || call.Data?) && Unmoving(call, dir)
    ensures SameStream(log, AfterCall(log, call, aborts), dir)
  {
    hide Came, Shown, Onward;
    var l1 := After(log, call);
    var l2 := AfterWhen(aborts, l1, DecodingAborted);
    UnmovingStream(log, call, dir);
    UnmovingStream(l1, DecodingAborted, dir);
    UnmovingStream(l2, Complete(call.dir, call.index), dir);
  }

  /** What a data callback adds. */
  lemma {:induction false} DataStream(o: Oracle, log: Log, call: Event, aborts: bool, i: nat)
    requires call.Data?
    ensures var r := AfterCall(log, call, aborts);
            Came(r, call.dir) == Came(log, call.dir) &&
            Shown(r, call.dir, i) == Shown(log, call.dir, i) + (if i == call.index then call.bytes else []) &&
            Onward(o, r, call.dir, i) ==
              Onward(o, log, call.dir, i) +
              if i == call.index then
                Made(call.bytes, call.shared, o.data(log, call.dir, i, call.bytes, call.end))
              else []
  {
    var l1 := After(log, call);
    CalledOnce(o, log, call, i);
    hide Came, Shown, Onward;
    var l2 := AfterWhen(aborts, l1, DecodingAborted);
    UnmovingStream(l1, DecodingAborted, call.dir);
    UnmovingStream(l2, Complete(call.dir, call.index), call.dir);
  }

  lemma CalledOnce(o: Oracle, log: Log, call: Event, i: nat)
    requires call.Data?
    ensures var r := After(log, call);
            Came(r, call.dir) == Came(log, call.dir) &&
            Shown(r, call.dir, i) == Shown(log, call.dir, i) + (if i == call.index then call.bytes else []) &&
            Onward(o, r, call.dir, i) ==
              Onward(o, log, call.dir, i) +
              if i == call.index then
                Made(call.bytes, call.shared, o.data(log, call.dir, i, call.bytes, call.end))
              else []
  {}

  // Closing the stream moves nothing.

  lemma AbortStream(condition: bool, m: Manager, dir: Direction)
    ensures SameStream(m.log, AbortDecodingWhen(condition, m).log, dir)
  {
    UnmovingStream(m.log, DecodingAborted, dir);
  }

  lemma EndStreamStream(o: Oracle, m: Manager, dir: Direction)
    ensures SameStream(m.log, EndStream(o, m).log, dir)
  {
    hide SameStream;
    var reply := o.close(m.log);
    var event := StreamEnded(m.encode.complete, m.decode.complete || m.decode.aborted);
    var m1 := m.(stream := m.stream.(sawReset := m.stream.sawReset || reply.resets), log := After(m.log, event));
    UnmovingStream(m.log, event, dir);
    AbortStream(reply.abortsDecoding, m1, dir);
    SameStreamTrans(m.log, m1.log, EndStream(o, m).log, dir);
  }

  lemma CheckAndCloseStream(o: Oracle, m: Manager, dir: Direction)
    ensures SameStream(m.log, CheckAndClose(o, m).log, dir)
  {
    hide SameStream, EndStream, AbortDecodingWhen;
    var error := m.stream.responseStatus.Some? && IsErrorStatus(m.stream.responseStatus.value) && !m.decode.complete;
    AbortStream(error, m, dir);
    var m1 := AbortDecodingWhen(error, m);
    var paused := m1.encode.complete && m1.decode.observedEnd && !m1.decode.complete && !m1.decode.aborted;
    AbortStream(paused, m1, dir);
    var m2 := AbortDecodingWhen(paused, m1);
    SameStreamTrans(m.log, m1.log, m2.log, dir);
    EndStreamStream(o, m2, dir);
    SameStreamTrans(m.log, m2.log, EndStream(o, m2).log, dir);
  }

  lemma MaybeEndEncodeStream(o: Oracle, m: Manager, end: bool, dir: Direction)
    ensures SameStream(m.log, MaybeEndEncode(o, m, end).log, dir)
  {
    hide Came, Shown, Onward, EndStream, CheckAndClose;
    if end {
      var m1 := CompleteResponse(m);
      UnmovingStream(m.log, Completion(m), dir);
      CheckAndCloseStream(o, m1, dir);
      EndStreamStream(o, m1, dir);
    }
  }

  lemma MaybeEndDecodeStream(o: Oracle, m: Manager, terminal: bool, dir: Direction)
    ensures SameStream(m.log, MaybeEndDecode(o, m, terminal).log, dir)
  {
    hide Came, Shown, Onward, CheckAndClose;
    if terminal {
      UnmovingStream(m.log, RequestComplete(m.decode.aborted), dir);
      CheckAndCloseStream(o, CompleteRequest(m), dir);
    }
  }

  /** No byte came in, and the filters before filter i were not called. */
  ghost predicate Hidden(o: Oracle, dir: Direction, a: Log, b: Log, i: nat) {
    Came(b, dir) == Came(a, dir) &&
    forall j: nat :: j < i ==> Shown(b, dir, j) == Shown(a, dir, j) && Onward(o, b, dir, j) == Onward(o, a, dir, j)
  }

  lemma SameHidden(o: Oracle, dir: Direction, a: Log, b: Log, i: nat)
    requires SameStream(a, b, dir)
    ensures Hidden(o, dir, a, b, i)
  {
    hide Came, Shown, Onward;
  }
}
