/** The callback protocol as automata over the event log, independent of the engine. */
module Protocol {
  import opened FilterTypes

  /** What one filter has seen so far; ok stays true while every callback was in order:
      headers once and before data, nothing after the end, one complete callback and only
      after the end, and for a decoder filter nothing after decoding was aborted. */
  datatype View = View(headers: bool, ended: bool, completed: bool, aborted: bool, ok: bool)

  function Next(v: View, e: Event, dir: Direction, i: nat): View {
    match e
    case Headers(d, j, end, _, _) =>
      if d == dir && j == i then v.(headers := true, ended := end, ok := v.ok && !v.headers && !v.aborted) else v
    case Data(d, j, end, _, _, _) =>
      if d == dir && j == i then v.(ended := end, ok := v.ok && v.headers && !v.ended && !v.aborted) else v
    case Complete(d, j) =>
      if d == dir && j == i then v.(completed := true, ok := v.ok && v.ended && !v.completed) else v
    case DecodingAborted => if dir == Decoding then v.(aborted := true) else v
    case _ => v
  }

  function Watch(log: Log, dir: Direction, i: nat): View {
    match log
    case Empty => View(false, false, false, false, true)
    case After(before, e) => Next(Watch(before, dir, i), e, dir, i)
  }

  /** Headers reach a filter after all the filters before it, and the codec after all of the
      n encoder filters. */
  ghost predicate InChain(log: Log, n: nat) {
    match log
    case Empty => true
    case After(before, Headers(d, j, _, _, _)) =>
      InChain(before, n) && forall i :: 0 <= i < j ==> Watch(before, d, i).headers
    case After(before, CodecHeaders(_)) =>
      InChain(before, n) && forall i :: 0 <= i < n ==> Watch(before, Encoding, i).headers
    case After(before, _) => InChain(before, n)
  }

  /** The last of n decoder filters added a body to a request that ended with its headers, and
      let that end stand. */
  predicate Injected(log: Log, n: nat) {
    match log
    case Empty => false
    case After(before, Headers(Decoding, j, true, Some(_), status)) =>
      Injected(before, n) || (j + 1 == n && status != HeadersContinueAndDontEndStream)
    case After(before, _) => Injected(before, n)
  }

  /** What the codec has seen: ordered says headers came once and before data, single says
      nothing came after the end of the stream, calls counts what it was handed. */
  datatype CodecView = CodecView(headers: bool, ended: bool, ordered: bool, single: bool, calls: nat)

  const UNSEEN := CodecView(false, false, true, true, 0)

  function NextCodec(v: CodecView, e: Event): CodecView {
    match e
    case CodecHeaders(end) => CodecView(true, end, v.ordered && !v.headers, v.single && !v.ended, v.calls + 1)
    case CodecData(_, end) => CodecView(v.headers, end, v.ordered && v.headers, v.single && !v.ended, v.calls + 1)
    case _ => v
  }

  function WatchCodec(log: Log): CodecView {
    match log
    case Empty => UNSEEN
    case After(before, e) => NextCodec(WatchCodec(before), e)
  }

  /** How often the stream was ended, and whether each time both directions were done. */
  datatype CloseView = CloseView(count: nat, encoded: bool, decoded: bool)

  function WatchClose(log: Log): CloseView {
    match log
    case Empty => CloseView(0, true, true)
    case After(before, StreamEnded(encoded, decoded)) =>
      var v := WatchClose(before);
      CloseView(v.count + 1, v.encoded && encoded, v.decoded && decoded)
    case After(before, _) => WatchClose(before)
  }

  /** Neither an informational nor a successful response. */
  predicate Erroneous(status: Option<nat>) { status.Some? && !(100 <= status.value < 300) }

  /** What became of both directions: whether the response was completed, whether the request was
      done with at that time, because it was over or because the response was an error,
      and whether the request was completed without being cut off. */
  datatype DoneView = DoneView(response: bool, requestOver: bool, request: bool)

  function WatchDone(log: Log): DoneView {
    match log
    case Empty => DoneView(false, false, false)
    case After(before, ResponseComplete(over, status)) =>
      WatchDone(before).(response := true, requestOver := over || Erroneous(status))
    case After(before, RequestComplete(cut)) =>
      var v := WatchDone(before);
      v.(request := v.request || !cut)
    case After(before, _) => WatchDone(before)
  }

  /** When the stream is to have been ended: once the response was completed and, with half-close,
      the request was done with at that time or was completed without being cut off. */
  predicate Due(log: Log, halfClose: bool) {
    var v := WatchDone(log);
    v.response && (halfClose ==> v.requestOver || v.request)
  }

  /** What a callback makes of the view of filter (dir, i). */
  function Answered(v: View, call: Event, aborts: bool, dir: Direction, i: nat): View
    requires call.Headers? || call.Data?
  {
    var w := Next(v, call, dir, i);
    var x := w.(aborted := w.aborted || (aborts && dir == Decoding));
    if call.end && call.dir == dir && call.index == i then x.(completed := true, ok := x.ok && !x.completed) else x
  }

  lemma WatchAfter(log: Log, e: Event, dir: Direction, i: nat)
    ensures Watch(After(log, e), dir, i) == Next(Watch(log, dir, i), e, dir, i)
  {}

  lemma WatchCalled(log: Log, call: Event, aborts: bool, dir: Direction, i: nat)
    requires call.Headers? || call.Data?
    ensures Watch(AfterCall(log, call, aborts), dir, i) == Answered(Watch(log, dir, i), call, aborts, dir, i)
  {
    hide Watch;
    var l1 := After(log, call);
    var l2 := AfterWhen(aborts, l1, DecodingAborted);
    WatchAfter(log, call, dir, i);
    WatchAfter(l1, DecodingAborted, dir, i);
    WatchAfter(l2, Complete(call.dir, call.index), dir, i);
  }

  lemma WatchCodecCalled(log: Log, call: Event, aborts: bool)
    requires call.Headers? || call.Data?
    ensures WatchCodec(AfterCall(log, call, aborts)) == WatchCodec(log)
    ensures WatchClose(AfterCall(log, call, aborts)) == WatchClose(log)
    ensures WatchDone(AfterCall(log, call, aborts)) == WatchDone(log)
  {
    var l1 := After(log, call);
    var l2 := AfterWhen(aborts, l1, DecodingAborted);
    assert WatchCodec(l1) == WatchCodec(log) && WatchClose(l1) == WatchClose(log) && WatchDone(l1) == WatchDone(log);
    assert WatchCodec(l2) == WatchCodec(l1) && WatchClose(l2) == WatchClose(l1) && WatchDone(l2) == WatchDone(l1);
  }

  lemma InChainCalled(log: Log, call: Event, aborts: bool, n: nat)
    requires (call.Headers? || call.Data?) && InChain(log, n)
    requires call.Headers? ==> forall i :: 0 <= i < call.index ==> Watch(log, call.dir, i).headers
    ensures InChain(AfterCall(log, call, aborts), n)
  {
    var l1 := After(log, call);
    assert InChain(l1, n);
    assert InChain(AfterWhen(aborts, l1, DecodingAborted), n);
  }

  /** A response callback injects nothing into the request. */
  lemma InjectedCalled(log: Log, call: Event, aborts: bool, n: nat)
    requires call.Headers? || call.Data?
    ensures Injected(AfterCall(log, call, aborts), n) == Injected(After(log, call), n)
    ensures call.Data? || call.dir == Encoding ==> Injected(AfterCall(log, call, aborts), n) == Injected(log, n)
  {
    var l1 := After(log, call);
    assert Injected(AfterWhen(aborts, l1, DecodingAborted), n) == Injected(l1, n);
  }
}
