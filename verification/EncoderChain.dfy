/** Response iteration: headers and data pushed through the encoder filters to the codec. */
module EncoderChain {
  import opened FilterTypes

  function HeadersAnswer(o: Oracle, m: Manager, i: nat, end: bool): HeadersReply {
    o.headers(m.log, Encoding, i, end)
  }

  function HeadersOutcome(o: Oracle, m: Manager, i: nat, end: bool): HeadersStatus {
    var reply := HeadersAnswer(o, m, i, end);
    if m.encode.aborted || reply.abort then HeadersStopIteration else reply.status
  }

  /** One filter's headers callback with the bookkeeping around it. */
  function HeadersStep(o: Oracle, m: Manager, i: nat, end: bool): (r: Manager)
    requires i < |m.encode.filters|
    ensures r.encode == HeadersCalled(m.encode, i, end, HeadersOutcome(o, m, i, end), HeadersAnswer(o, m, i, end))
  {
    var reply := HeadersAnswer(o, m, i, end);
    var status := HeadersOutcome(o, m, i, end);
    Manager(m.decode.(aborted := m.decode.aborted || reply.abortDecoding),
            HeadersCalled(m.encode, i, end, status, reply), m.stream,
            AfterCall(m.log, Headers(Encoding, i, end, reply.add, status), reply.abortDecoding))
  }

  /** Headers leave the chain. */
  function CodecHeadersStep(o: Oracle, m: Manager, end: bool): (r: Manager)
    ensures r.encode.filters == m.encode.filters && r.encode.buffer == m.encode.buffer
    ensures r.encode.observedEnd == m.encode.observedEnd
  {
    var m1 := m.(stream := m.stream.(sawReset := m.stream.sawReset || o.codecResets(m.log)),
                 log := After(m.log, CodecHeaders(end)));
    if m1.stream.sawReset then m1 else MaybeEndEncode(o, m1, end)
  }

  function DataAnswer(o: Oracle, m: Manager, i: nat, data: Payload, end: bool): DataReply {
    o.data(m.log, Encoding, i, PayloadBytes(m.encode, data), end)
  }

  function DataOutcome(o: Oracle, m: Manager, i: nat, data: Payload, end: bool): DataStatus {
    var reply := DataAnswer(o, m, i, data, end);
    if m.encode.aborted || reply.abort then DataStopNoBuffer else reply.status
  }

  /** One filter's data callback with the bookkeeping around it. */
  function DataStep(o: Oracle, m: Manager, i: nat, data: Payload, end: bool): (r: Manager)
    requires i < |m.encode.filters|
    ensures r.encode == DataCalled(m.encode, i, data, end, DataAnswer(o, m, i, data, end))
  {
    var reply := DataAnswer(o, m, i, data, end);
    Manager(m.decode.(aborted := m.decode.aborted || reply.abortDecoding),
            DataCalled(m.encode, i, data, end, reply), m.stream,
            AfterCall(m.log, Data(Encoding, i, end, reply.add, PayloadBytes(m.encode, data), data.Shared?),
                      reply.abortDecoding))
  }

  /** The payload after the data callback, which may have replaced its bytes. */
  function DataLeft(o: Oracle, m: Manager, i: nat, data: Payload, end: bool): Payload {
    if data.Shared? then Shared else Own(Rewritten(data.bytes, DataAnswer(o, m, i, data, end).rewrite))
  }

  /** Data leaves the chain; the codec takes every byte. */
  function CodecDataStep(o: Oracle, m: Manager, data: Payload, end: bool): (r: Manager)
    ensures r.encode.filters == m.encode.filters && r.encode.observedEnd == m.encode.observedEnd
    ensures m.encode.buffer.Some? ==> r.encode.buffer.Some?
  {
    var buffer := if data.Shared? && m.encode.buffer.Some? then Some([]) else m.encode.buffer;
    var m1 := Manager(m.decode, m.encode.(buffer := buffer),
                      m.stream.(sawReset := m.stream.sawReset || o.codecResets(m.log)),
                      After(m.log, CodecData(PayloadBytes(m.encode, data), end)));
    if m1.stream.sawReset then m1 else MaybeEndEncode(o, m1, end)
  }

  /** Entry k, at which a body was added to a headers-only message, is resumed by the
      manager itself. */
  function Stopped(m: Manager, k: nat): Manager
    requires k < |m.encode.filters|
  {
    m.(encode := SetIteration(m.encode, k, StopSingle))
  }

  /** What the headers loop does after an entry: leave, resuming an earlier entry if a body
      was added there, or go on to the next entry. */
  datatype HeadersNext =
    | HeadersHalt(m: Manager, resume: Option<nat>)
    | HeadersOnward(m: Manager, end: bool, cont: Option<nat>)

  function HeadersEntry(o: Oracle, m: Manager, i: nat, end: bool, cont: Option<nat>): (r: HeadersNext)
    requires i < |m.encode.filters|
    ensures SameExcept(m.encode, r.m.encode, i)
    ensures r.m.stream == m.stream && r.m.encode.observedEnd == m.encode.observedEnd &&
            r.m.encode.complete == m.encode.complete
    ensures r.m.encode.filters[i].endStream == (end && cont.None?)
    ensures r.m.encode.filters[i].fromCurrent == m.encode.filters[i].fromCurrent
    ensures (m.encode.buffer.Some? ==> r.m.encode.buffer.Some?) && (m.encode.aborted ==> r.m.encode.aborted)
    ensures r.HeadersHalt? ==> r.resume.None? || r.resume == cont
    ensures r.HeadersOnward? ==> r.cont == cont || (cont.None? && r.cont == Some(i))
  {
    var e := end && cont.None?;
    var status := HeadersOutcome(o, m, i, e);
    var m1 := HeadersStep(o, m, i, e);
    if StopsHeaders(m1.encode.filters[i], status) then HeadersHalt(m1, if e then None else cont)
    else
      var end' := end && status != HeadersContinueAndDontEndStream;
      HeadersOnward(m1, end', if end' && m1.encode.buffer.Some? && cont.None? then Some(i) else cont)
  }

  function HeadersExit(o: Oracle, m: Manager, end: bool, cont: Option<nat>): (r: HeadersNext)
    ensures r.HeadersHalt? && r.m.encode.filters == m.encode.filters
    ensures r.m.encode.buffer == m.encode.buffer && r.m.encode.observedEnd == m.encode.observedEnd
    ensures r.resume.None? || r.resume == cont
  {
    var m1 := CodecHeadersStep(o, m, end && cont.None?);
    HeadersHalt(m1, if m1.stream.sawReset || (end && cont.None?) then None else cont)
  }

  /** The headers loop from filter i on; cont is the entry after which a body was added to
      a headers-only message. */
  function HeadersLoop(o: Oracle, m: Manager, i: nat, end: bool, cont: Option<nat>): (r: Manager)
    requires ValidFrom(m.encode, i, cont)
    ensures SameBefore(m.encode, r.encode, FirstTouched(i, cont))
    decreases 3 * (|m.encode.filters| - FirstTouched(i, cont)) + 2, |m.encode.filters| - i
  {
    var next := if i == |m.encode.filters| then HeadersExit(o, m, end, cont) else HeadersEntry(o, m, i, end, cont);
    match next
    case HeadersHalt(m1, None) => m1
    case HeadersHalt(m1, Some(c)) => CommonContinue(o, Stopped(m1, c), c)
    case HeadersOnward(m1, end', cont') => HeadersLoop(o, m1, i + 1, end', cont')
  }

  /** A stopped filter resumes the chain behind it. */
  function CommonContinue(o: Oracle, m: Manager, k: nat): (r: Manager)
    requires k < |m.encode.filters| && m.encode.filters[k].Stopped()
    ensures SameBefore(m.encode, r.encode, k)
    decreases 3 * (|m.encode.filters| - k) + 1, 1
  {
    if m.encode.complete then m
    else
      var m1 := ResumeHeaders(o, m.(encode := AllowIteration(m.encode, k)), k);
      var m2 := ResumeData(o, m1, k);
      m2.(encode := LeaveCurrent(m2.encode, k))
  }

  /** Headers that filter k withheld go on to the next filter. */
  function ResumeHeaders(o: Oracle, m: Manager, k: nat): (r: Manager)
    requires k < |m.encode.filters|
    ensures SameBefore(m.encode, r.encode, k)
    ensures r.encode.filters[k] == m.encode.filters[k].(headersContinued := true)
    decreases 3 * (|m.encode.filters| - k) + 1, 0
  {
    if m.encode.filters[k].headersContinued then m
    else HeadersLoop(o, m.(encode := ContinueHeaders(m.encode, k)), k + 1,
                     m.encode.observedEnd && m.encode.buffer.None?, None)
  }

  /** The shared buffer goes on, to filter k itself when it had stopped everything. */
  function ResumeData(o: Oracle, m: Manager, k: nat): (r: Manager)
    requires k < |m.encode.filters| && !m.encode.filters[k].Stopped()
    ensures SameBefore(m.encode, r.encode, k)
    decreases 3 * (|m.encode.filters| - k) + 1, 0
  {
    if m.encode.buffer.None? then m
    else DataLoop(o, m, if m.encode.filters[k].fromCurrent then k else k + 1, Shared, m.encode.observedEnd)
  }

  /** What the data loop does after an entry: leave, resume the chain from it, or go on. */
  datatype DataNext = DataHalt(m: Manager) | DataResume(m: Manager) | DataOnward(m: Manager, data: Payload)

  /** What becomes of the iteration after filter i answered a data callback. */
  function DataVerdict(m: Manager, i: nat, left: Payload, status: DataStatus): (r: DataNext)
    requires i < |m.encode.filters|
    ensures SameExcept(m.encode, r.m.encode, i)
    ensures r.m.log == m.log && r.m.decode == m.decode && r.m.stream == m.stream
    ensures r.m.encode.observedEnd == m.encode.observedEnd && r.m.encode.complete == m.encode.complete
    ensures r.m.encode.filters[i] == m.encode.filters[i].(
              iteration := if r.DataHalt? then StopSingle else m.encode.filters[i].iteration)
    ensures r.DataResume? ==> m.encode.filters[i].iteration == StopSingle
    ensures r.DataOnward? ==> m.encode.filters[i].iteration != StopSingle
    ensures (m.encode.buffer.Some? ==> r.m.encode.buffer.Some?) && r.m.encode.aborted == m.encode.aborted
  {
    if status != DataContinue then DataHalt(m.(encode := StopOnData(m.encode, i, left, status)))
    else if m.encode.filters[i].iteration == StopSingle then DataResume(m.(encode := BufferData(m.encode, left)))
    else DataOnward(m, left)
  }

  function DataEntry(o: Oracle, m: Manager, i: nat, data: Payload, end: bool): (r: DataNext)
    requires i < |m.encode.filters|
    ensures SameExcept(m.encode, r.m.encode, i)
    ensures r.m.stream == m.stream && r.m.encode.observedEnd == m.encode.observedEnd &&
            r.m.encode.complete == m.encode.complete
    ensures Skipped(m.encode.filters[i]) ==>
              r.DataHalt? && r.m.log == m.log && r.m.decode == m.decode && r.m.encode.filters == m.encode.filters
    ensures !Skipped(m.encode.filters[i]) ==>
              var s := DataStep(o, m, i, data, end);
              r.m.log == s.log && r.m.decode == s.decode &&
              r.m.encode.filters[i] == m.encode.filters[i].(
                endStream := end, iteration := if r.DataHalt? then StopSingle else m.encode.filters[i].iteration)
    ensures r.DataResume? ==> m.encode.filters[i].iteration == StopSingle
    ensures r.DataOnward? ==> m.encode.filters[i].iteration == Continue
    ensures (m.encode.buffer.Some? ==> r.m.encode.buffer.Some?) && (m.encode.aborted ==> r.m.encode.aborted)
  {
    if m.encode.filters[i].StoppedAll() then DataHalt(m.(encode := BufferData(m.encode, data)))
    else if m.encode.filters[i].endStream then DataHalt(m)
    else DataVerdict(DataStep(o, m, i, data, end), i, DataLeft(o, m, i, data, end), DataOutcome(o, m, i, data, end))
  }

  /** The data loop from filter i on. */
  function DataLoop(o: Oracle, m: Manager, i: nat, data: Payload, end: bool): (r: Manager)
    requires i <= |m.encode.filters|
    ensures SameBefore(m.encode, r.encode, i)
    decreases 3 * (|m.encode.filters| - i)
              + (if i < |m.encode.filters| && m.encode.filters[i].iteration == StopSingle then 2 else 0), 0
  {
    if i == |m.encode.filters| then CodecDataStep(o, m, data, end)
    else
      match DataEntry(o, m, i, data, end)
      case DataHalt(m1) => m1
      case DataResume(m1) => CommonContinue(o, m1, i)
      case DataOnward(m1, left) => DataLoop(o, m1, i + 1, left, end)
  }

  /** What the chain's entry point records before the first filter is called. */
  function Prefix(m: Manager, end: bool): Manager {
    if !end then m
    else AbortDecodingWhen(!m.stream.halfClose, m.(encode := m.encode.(observedEnd := true)))
  }

  function PushHeaders(o: Oracle, m: Manager, end: bool): Manager {
    HeadersLoop(o, Prefix(m, end), 0, end, None)
  }

  function PushData(o: Oracle, m: Manager, bytes: Bytes, end: bool): Manager {
    var m1 := m.(log := After(m.log, Arrived(Encoding, bytes)));
    DataLoop(o, Prefix(m1, end), 0, Own(bytes), end)
  }
}
