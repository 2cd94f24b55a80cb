/** The state of a stream's two filter chains, the questions the engine puts to the
    filters and to the codec, and the small state changes that both directions share. */
module FilterTypes {

  newtype byte = x: int | 0 <= x < 256
  type Bytes = seq<byte>

  datatype Option<+T> = None | Some(value: T)

  datatype Direction = Decoding | Encoding

  datatype IterationState = Continue | StopSingle | StopAllBuffer | StopAllWatermark

  /** The flags of one active stream filter. */
  datatype FilterState = FilterState(
    iteration: IterationState,
    fromCurrent: bool,
    headersContinued: bool,
    endStream: bool,
    processedHeaders: bool)
  {
    predicate Stopped() { iteration != Continue }

    predicate StoppedAll() { iteration == StopAllBuffer || iteration == StopAllWatermark }
  }

  const FRESH_FILTER := FilterState(Continue, false, false, false, false)

  datatype HeadersStatus =
    | HeadersContinue
    | HeadersStopIteration
    | HeadersContinueAndDontEndStream
    | HeadersStopAllAndBuffer
    | HeadersStopAllAndWatermark

  datatype DataStatus = DataContinue | DataStopAndBuffer | DataStopAndWatermark | DataStopNoBuffer

  /** What a filter does in a headers callback: the status it returns, a body it adds to
      the shared buffer, and whether it aborts its own chain or the decoding chain. */
  datatype HeadersReply = HeadersReply(status: HeadersStatus, add: Option<Bytes>, abort: bool, abortDecoding: bool)

  /** As above for a data callback, which may also replace the bytes it was handed. */
  datatype DataReply = DataReply(
    status: DataStatus, rewrite: Option<Bytes>, add: Option<Bytes>, abort: bool, abortDecoding: bool)

  datatype CloseReply = CloseReply(abortsDecoding: bool, resets: bool)

  /** A data event says whether what the filter was handed is the shared buffer itself. */
  datatype Event =
    | Headers(dir: Direction, index: nat, end: bool, added: Option<Bytes>, status: HeadersStatus)
    | Data(dir: Direction, index: nat, end: bool, added: Option<Bytes>, bytes: Bytes, shared: bool)
    | Complete(dir: Direction, index: nat)
    | Arrived(dir: Direction, bytes: Bytes)
    | CodecHeaders(end: bool)
    | CodecData(bytes: Bytes, end: bool)
    | DecodingAborted
    | ResponseComplete(requestOver: bool, code: Option<nat>)
    | RequestComplete(cut: bool)
    | StreamEnded(encoded: bool, decoded: bool)

  /** Everything that happened so far, latest on the outside. */
  datatype Log = Empty | After(before: Log, event: Event)

  /** The environment. Every answer may depend on everything that came before it, so a
      value of this type stands for an arbitrary schedule of filter and codec behaviour. */
  datatype Oracle = Oracle(
    headers: (Log, Direction, nat, bool) -> HeadersReply,
    data: (Log, Direction, nat, Bytes, bool) -> DataReply,
    codecResets: Log -> bool,
    close: Log -> CloseReply)

  /** The bytes an iteration carries: the shared buffer itself, or a buffer of the caller's. */
  datatype Payload = Shared | Own(bytes: Bytes)

  /** One direction's chain: its filters, the buffer they share, and its flags. */
  datatype Chain = Chain(
    filters: seq<FilterState>, buffer: Option<Bytes>, observedEnd: bool, complete: bool, aborted: bool)

  datatype Stream = Stream(hasRequest: bool, responseStatus: Option<nat>, sawReset: bool, halfClose: bool)

  datatype Manager = Manager(decode: Chain, encode: Chain, stream: Stream, log: Log)

  function FreshChain(n: nat): Chain {
    Chain(seq(n, _ => FRESH_FILTER), None, false, false, false)
  }

  function Init(decoders: nat, encoders: nat, halfClose: bool): Manager {
    Manager(FreshChain(decoders), FreshChain(encoders), Stream(false, None, false, halfClose), Empty)
  }

  function Held(buffer: Option<Bytes>): Bytes {
    if buffer.Some? then buffer.value else []
  }

  /** Appending to the shared buffer, which is created on the first append. */
  function Grow(buffer: Option<Bytes>, more: Option<Bytes>): Option<Bytes> {
    if more.None? then buffer else Some(Held(buffer) + more.value)
  }

  function Rewritten(bytes: Bytes, rewrite: Option<Bytes>): Bytes {
    if rewrite.Some? then rewrite.value else bytes
  }

  function AfterWhen(condition: bool, before: Log, event: Event): Log {
    if condition then After(before, event) else before
  }

  /** The flags after the headers callback of a filter, by the status it returned. */
  function AfterHeaders(f: FilterState, end: bool, status: HeadersStatus): FilterState {
    var g := f.(endStream := end, processedHeaders := true);
    match status
    case HeadersStopIteration => g.(iteration := StopSingle)
    case HeadersStopAllAndBuffer => g.(iteration := StopAllBuffer)
    case HeadersStopAllAndWatermark => g.(iteration := StopAllWatermark)
    case HeadersContinueAndDontEndStream => g.(headersContinued := true)
    case HeadersContinue => g.(headersContinued := true)
  }

  predicate StopsHeaders(f: FilterState, status: HeadersStatus) {
    f.StoppedAll() || status == HeadersStopIteration
  }

  // Positions in one chain.

  /** An iteration may stand at filter i, with cont as the entry after which a body was added to
      a headers-only message. */
  predicate ValidFrom(c: Chain, i: nat, cont: Option<nat>) {
    i <= |c.filters| && (cont.Some? ==> cont.value < i)
  }

  function FirstTouched(i: nat, cont: Option<nat>): nat {
    if cont.Some? then cont.value else i
  }

  /** The later filters of a chain are reached only through the earlier ones, so a call that
      works from position k on leaves the filters before k as they were. */
  ghost predicate SameBefore(c: Chain, d: Chain, k: nat) {
    |d.filters| == |c.filters| && forall j :: 0 <= j < k && j < |c.filters| ==> d.filters[j] == c.filters[j]
  }

  ghost predicate SameExcept(c: Chain, d: Chain, i: nat) {
    |d.filters| == |c.filters| && forall j :: 0 <= j < |c.filters| && j != i ==> d.filters[j] == c.filters[j]
  }

  /** Filters that get no data callback. */
  predicate Skipped(f: FilterState) { f.StoppedAll() || f.endStream }

  /** The message has arrived and nothing of it is buffered. */
  predicate Awaiting(c: Chain) { c.observedEnd && c.buffer.None? }

  /** ... then the headers carried its end, to every filter they have reached. */
  ghost predicate Settled(c: Chain, bound: nat) {
    Awaiting(c) ==>
      forall j :: 0 <= j < bound && j < |c.filters| ==>
        c.filters[j].processedHeaders ==>
          c.filters[j].endStream && (c.filters[j].Stopped() ==> !c.filters[j].headersContinued)
  }

  /** After a body was added at entry cont, the end is withheld from the later entries. */
  ghost predicate Withheld(c: Chain, i: nat, cont: Option<nat>) {
    cont.Some? ==> forall j :: cont.value < j < i && j < |c.filters| ==> !c.filters[j].endStream
  }

  /** No filter from lo on is marked as the one to start from. */
  ghost predicate Clear(c: Chain, lo: nat) {
    forall j :: lo <= j < |c.filters| ==> !c.filters[j].fromCurrent
  }

  /** Resuming filter k would start the data at k itself, which has already seen the end. */
  predicate Wedged(c: Chain, k: nat)
    requires k < |c.filters|
  {
    c.filters[k].StoppedAll() && c.filters[k].endStream && c.buffer.Some?
  }

  // Steps on one chain.

  function PayloadBytes(c: Chain, data: Payload): Bytes {
    if data.Shared? then Held(c.buffer) else data.bytes
  }

  /** Handing the payload to the shared buffer: nothing moves when it is that buffer. */
  function BufferData(c: Chain, data: Payload): (r: Chain)
    ensures r == c.(buffer := r.buffer) && (c.buffer.Some? ==> r.buffer.Some?)
  {
    if data.Shared? then c else c.(buffer := Some(Held(c.buffer) + data.bytes))
  }

  function SetFilter(c: Chain, i: nat, f: FilterState): Chain
    requires i < |c.filters|
  {
    c.(filters := c.filters[i := f])
  }

  function SetIteration(c: Chain, i: nat, state: IterationState): Chain
    requires i < |c.filters|
  {
    SetFilter(c, i, c.filters[i].(iteration := state))
  }

  function AllowIteration(c: Chain, k: nat): Chain
    requires k < |c.filters| && c.filters[k].Stopped()
  {
    var f := c.filters[k];
    SetFilter(c, k, f.(iteration := Continue, fromCurrent := f.fromCurrent || f.StoppedAll()))
  }

  function ContinueHeaders(c: Chain, k: nat): Chain
    requires k < |c.filters|
  {
    SetFilter(c, k, c.filters[k].(headersContinued := true))
  }

  function LeaveCurrent(c: Chain, k: nat): Chain
    requires k < |c.filters|
  {
    SetFilter(c, k, c.filters[k].(fromCurrent := false))
  }

  /** The chain after filter i's headers callback. */
  function HeadersCalled(c: Chain, i: nat, end: bool, status: HeadersStatus, reply: HeadersReply): Chain
    requires i < |c.filters|
  {
    Chain(c.filters[i := AfterHeaders(c.filters[i], end, status)], Grow(c.buffer, reply.add),
          c.observedEnd, c.complete, c.aborted || reply.abort)
  }

  /** The chain after filter i's data callback. */
  function DataCalled(c: Chain, i: nat, data: Payload, end: bool, reply: DataReply): (r: Chain)
    requires i < |c.filters|
    ensures SameExcept(c, r, i) && r.filters[i] == c.filters[i].(endStream := end) && (c.aborted ==> r.aborted)
    ensures r.observedEnd == c.observedEnd && r.complete == c.complete && (c.buffer.Some? ==> r.buffer.Some?)
  {
    var buffer := if data.Shared? && c.buffer.Some? then Some(Rewritten(c.buffer.value, reply.rewrite)) else c.buffer;
    Chain(c.filters[i := c.filters[i].(endStream := end)], Grow(buffer, reply.add),
          c.observedEnd, c.complete, c.aborted || reply.abort)
  }

  /** A filter stops on data. */
  function StopOnData(c: Chain, i: nat, data: Payload, status: DataStatus): (r: Chain)
    requires i < |c.filters|
    ensures r == c.(filters := r.filters, buffer := r.buffer) && SameExcept(c, r, i)
    ensures r.filters[i] == c.filters[i].(iteration := StopSingle) && (c.buffer.Some? ==> r.buffer.Some?)
  {
    var c1 := SetIteration(c, i, StopSingle);
    if status == DataStopAndBuffer || status == DataStopAndWatermark then BufferData(c1, data)
    else if c1.observedEnd && c1.buffer.None? then c1.(buffer := Some([]))
    else c1
  }

  /** What a callback leaves in the log: the call, the abort it caused, and the complete
      callback that follows when it carried the end of the stream. */
  function AfterCall(before: Log, call: Event, aborts: bool): Log
    requires call.Headers? || call.Data?
  {
    AfterWhen(call.end, AfterWhen(aborts, After(before, call), DecodingAborted), Complete(call.dir, call.index))
  }

  // Closing the stream.

  function AbortDecoding(m: Manager): Manager {
    if m.decode.aborted then m
    else m.(decode := m.decode.(aborted := true), log := After(m.log, DecodingAborted))
  }

  function AbortDecodingWhen(condition: bool, m: Manager): Manager {
    if condition then AbortDecoding(m) else m
  }

  /** The end-stream callback of the connection manager; the event records how far each
      direction had come. */
  function EndStream(o: Oracle, m: Manager): Manager {
    var reply := o.close(m.log);
    var event := StreamEnded(m.encode.complete, m.decode.complete || m.decode.aborted);
    AbortDecodingWhen(reply.abortsDecoding,
                      m.(stream := m.stream.(sawReset := m.stream.sawReset || reply.resets),
                         log := After(m.log, event)))
  }

  predicate IsErrorStatus(status: nat) {
    !(200 <= status < 300) && !(100 <= status < 200)
  }

  function CheckAndClose(o: Oracle, m: Manager): Manager {
    var m1 := AbortDecodingWhen(
                m.stream.responseStatus.Some? && IsErrorStatus(m.stream.responseStatus.value) && !m.decode.complete, m);
    var paused := !m1.decode.complete && !m1.decode.aborted;
    var m2 := AbortDecodingWhen(m1.encode.complete && m1.decode.observedEnd && paused, m1);
    if m2.encode.complete && (m2.decode.complete || m2.decode.aborted) then EndStream(o, m2) else m2
  }

  /** The request is complete, aborted or all in. */
  predicate RequestOver(m: Manager) { m.decode.complete || m.decode.aborted || m.decode.observedEnd }

  /** The request chain is complete; the event records whether it had been aborted. */
  function CompleteRequest(m: Manager): Manager {
    m.(decode := m.decode.(complete := true), log := After(m.log, RequestComplete(m.decode.aborted)))
  }

  /** The completion of the response records how far the request had come, and the status. */
  function Completion(m: Manager): Event { ResponseComplete(RequestOver(m), m.stream.responseStatus) }

  /** The response chain is complete. */
  function CompleteResponse(m: Manager): Manager {
    m.(encode := m.encode.(complete := true), log := After(m.log, Completion(m)))
  }

  function MaybeEndDecode(o: Oracle, m: Manager, terminal: bool): (r: Manager)
    ensures r.encode == m.encode && r.decode.filters == m.decode.filters && r.decode.buffer == m.decode.buffer
  {
    if !terminal then m
    else
      var m1 := CompleteRequest(m);
      if m1.stream.halfClose && !m1.decode.aborted then CheckAndClose(o, m1) else m1
  }

  function MaybeEndEncode(o: Oracle, m: Manager, end: bool): (r: Manager)
    ensures r.encode == m.encode.(complete := m.encode.complete || end)
  {
    if !end then m
    else
      var m1 := CompleteResponse(m);
      if m1.stream.halfClose then CheckAndClose(o, m1) else EndStream(o, m1)
  }
}
