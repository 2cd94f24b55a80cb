/** Request iteration: headers and data pushed through the decoder filters. The chain has no
    codec behind it; it can be aborted, and its last filter may complete it. */
module DecoderChain {
  import opened FilterTypes

  /** In the decoder chain both kinds of abort stop the chain the filter is in. */
  function HeadersAnswer(o: Oracle, m: Manager, i: nat, end: bool): HeadersReply {
    var reply := o.headers(m.log, Decoding, i, end);
    reply.(abort := reply.abort || reply.abortDecoding)
  }

  function HeadersOutcome(o: Oracle, m: Manager, i: nat, end: bool): HeadersStatus {
    var reply := HeadersAnswer(o, m, i, end);
    if m.decode.aborted || reply.abort then HeadersStopIteration else reply.status
  }

  function HeadersStep(o: Oracle, m: Manager, i: nat, end: bool): (r: Manager)
    requires i < |m.decode.filters|
    ensures r.decode == HeadersCalled(m.decode, i, end, HeadersOutcome(o, m, i, end), HeadersAnswer(o, m, i, end))
  {
    var reply := HeadersAnswer(o, m, i, end);
    var status := HeadersOutcome(o, m, i, end);
    Manager(HeadersCalled(m.decode, i, end, status, reply), m.encode, m.stream,
            AfterCall(m.log, Headers(Decoding, i, end, reply.add, status), reply.abort))
  }

  function DataAnswer(o: Oracle, m: Manager, i: nat, data: Payload, end: bool): DataReply {
    var reply := o.data(m.log, Decoding, i, PayloadBytes(m.decode, data), end);
    reply.(abort := reply.abort || reply.abortDecoding)
  }

  function DataStep(o: Oracle, m: Manager, i: nat, data: Payload, end: bool): (r: Manager)
    requires i < |m.decode.filters|
    ensures r.decode == DataCalled(m.decode, i, data, end, DataAnswer(o, m, i, data, end))
  {
    var reply := DataAnswer(o, m, i, data, end);
    Manager(DataCalled(m.decode, i, data, end, reply), m.encode, m.stream,
            AfterCall(m.log, Data(Decoding, i, end, reply.add, PayloadBytes(m.decode, data), data.Shared?),
                      reply.abort))
  }

  function DataLeft(o: Oracle, m: Manager, i: nat, data: Payload, end: bool): Payload {
    if data.Shared? then Shared else Own(Rewritten(data.bytes, DataAnswer(o, m, i, data, end).rewrite))
  }

  function Stopped(m: Manager, k: nat): Manager
    requires k < |m.decode.filters|
  {
    m.(decode := SetIteration(m.decode, k, StopSingle))
  }

  predicate Last(m: Manager, i: nat) { i + 1 == |m.decode.filters| }

  /** What the headers loop does after an entry. At the last filter it always leaves through
      the end of the loop, where terminal tells whether the chain is complete. */
  datatype HeadersNext =
    | HeadersHalt(m: Manager)
    | HeadersOnward(m: Manager, end: bool, cont: Option<nat>, terminal: bool)

  function HeadersEntry(o: Oracle, m: Manager, i: nat, end: bool, cont: Option<nat>): (r: HeadersNext)
    requires i < |m.decode.filters|
    ensures SameExcept(m.decode, r.m.decode, i)
    ensures r.m == HeadersStep(o, m, i, end && cont.None?)
    ensures r.HeadersHalt? ==> !Last(m, i)
    ensures r.HeadersOnward? ==> r.cont == cont || (cont.None? && r.cont == Some(i))
  {
    var e := end && cont.None?;
    var status := HeadersOutcome(o, m, i, e);
    var m1 := HeadersStep(o, m, i, e);
    if !Last(m, i) && (m1.decode.aborted || StopsHeaders(m1.decode.filters[i], status)) then HeadersHalt(m1)
    else
      var end' := end && status != HeadersContinueAndDontEndStream;
      var cont' := if end' && m1.decode.buffer.Some? && cont.None? then Some(i) else cont;
      HeadersOnward(m1, end', cont', Last(m, i) && e && cont'.None?)
  }

  function HeadersLoop(o: Oracle, m: Manager, i: nat, end: bool, cont: Option<nat>, terminal: bool): (r: Manager)
    requires ValidFrom(m.decode, i, cont)
    ensures SameBefore(m.decode, r.decode, FirstTouched(i, cont))
    decreases 3 * (|m.decode.filters| - FirstTouched(i, cont)) + 2, |m.decode.filters| - i
  {
    if i == |m.decode.filters| then MaybeEndDecode(o, Continued(o, m, cont), terminal)
    else
      match HeadersEntry(o, m, i, end, cont)
      case HeadersHalt(m1) => Continued(o, m1, cont)
      case HeadersOnward(m1, end', cont', terminal') => HeadersLoop(o, m1, i + 1, end', cont', terminal')
  }

  /** The manager resumes the entry at which a body was added, if there is one. */
  function Continued(o: Oracle, m: Manager, cont: Option<nat>): (r: Manager)
    requires cont.Some? ==> cont.value < |m.decode.filters|
    ensures cont.Some? ==> SameBefore(m.decode, r.decode, cont.value)
    ensures cont.None? ==> r == m
    decreases 3 * (|m.decode.filters| - FirstTouched(|m.decode.filters|, cont)) + 1, 2
  {
    if cont.None? then m else CommonContinue(o, Stopped(m, cont.value), cont.value)
  }

  function CommonContinue(o: Oracle, m: Manager, k: nat): (r: Manager)
    requires k < |m.decode.filters| && m.decode.filters[k].Stopped()
    ensures SameBefore(m.decode, r.decode, k)
    decreases 3 * (|m.decode.filters| - k) + 1, 1
  {
    if m.decode.aborted then m
    else
      var m1 := ResumeHeaders(o, m.(decode := AllowIteration(m.decode, k)), k);
      var m2 := ResumeData(o, m1, k);
      m2.(decode := LeaveCurrent(m2.decode, k))
  }

  function ResumeHeaders(o: Oracle, m: Manager, k: nat): (r: Manager)
    requires k < |m.decode.filters|
    ensures SameBefore(m.decode, r.decode, k)
    ensures r.decode.filters[k] == m.decode.filters[k].(headersContinued := true)
    decreases 3 * (|m.decode.filters| - k) + 1, 0
  {
    if m.decode.filters[k].headersContinued then m
    else HeadersLoop(o, m.(decode := ContinueHeaders(m.decode, k)), k + 1,
                     m.decode.observedEnd && m.decode.buffer.None?, None, false)
  }

  function ResumeData(o: Oracle, m: Manager, k: nat): (r: Manager)
    requires k < |m.decode.filters| && !m.decode.filters[k].Stopped()
    ensures SameBefore(m.decode, r.decode, k)
    decreases 3 * (|m.decode.filters| - k) + 1, 0
  {
    if m.decode.buffer.None? || m.decode.aborted then m
    else DataLoop(o, m, if m.decode.filters[k].fromCurrent then k else k + 1, Shared, m.decode.observedEnd, false)
  }

  /** What the data loop does after an entry: leave at once, leave through the end of the
      loop, first resuming the chain from this entry, or go on. */
  datatype DataNext =
    | DataHalt(m: Manager)
    | DataStop(m: Manager)
    | DataResume(m: Manager)
    | DataOnward(m: Manager, data: Payload)

  function DataVerdict(m: Manager, i: nat, left: Payload, status: DataStatus): (r: DataNext)
    requires i < |m.decode.filters|
    ensures SameExcept(m.decode, r.m.decode, i)
    ensures r.m.log == m.log && r.m.encode == m.encode && r.m.stream == m.stream
    ensures r.m.decode.observedEnd == m.decode.observedEnd && r.m.decode.complete == m.decode.complete
    ensures r.m.decode.aborted == m.decode.aborted
    ensures r.m.decode.filters[i] == m.decode.filters[i].(
              iteration := if r.DataStop? then StopSingle else m.decode.filters[i].iteration)
    ensures !r.DataHalt? && (r.DataResume? ==> m.decode.filters[i].iteration == StopSingle)
    ensures r.DataOnward? ==> m.decode.filters[i].iteration != StopSingle
    ensures m.decode.buffer.Some? ==> r.m.decode.buffer.Some?
  {
    if status != DataContinue then DataStop(m.(decode := StopOnData(m.decode, i, left, status)))
    else if m.decode.filters[i].iteration == StopSingle then DataResume(m.(decode := BufferData(m.decode, left)))
    else DataOnward(m, left)
  }

  function DataEntry(o: Oracle, m: Manager, i: nat, data: Payload, end: bool): (r: DataNext)
    requires i < |m.decode.filters|
    ensures SameExcept(m.decode, r.m.decode, i)
    ensures r.m.stream == m.stream && r.m.encode == m.encode
    ensures r.m.decode.observedEnd == m.decode.observedEnd && r.m.decode.complete == m.decode.complete
    ensures Skipped(m.decode.filters[i]) ==>
              r.DataHalt? && r.m.log == m.log && r.m.decode.filters == m.decode.filters &&
              r.m.decode.aborted == m.decode.aborted
    ensures !Skipped(m.decode.filters[i]) ==>
              var s := DataStep(o, m, i, data, end);
              r.m.log == s.log && r.m.decode.aborted == s.decode.aborted && r.DataHalt? == s.decode.aborted &&
              r.m.decode.filters[i] == m.decode.filters[i].(
                endStream := end, iteration := if r.DataStop? then StopSingle else m.decode.filters[i].iteration)
    ensures r.DataResume? ==> m.decode.filters[i].iteration == StopSingle
    ensures r.DataOnward? ==> m.decode.filters[i].iteration == Continue
  {
    if m.decode.filters[i].StoppedAll() then DataHalt(m.(decode := BufferData(m.decode, data)))
    else if m.decode.filters[i].endStream then DataHalt(m)
    else
      var m1 := DataStep(o, m, i, data, end);
      if m1.decode.aborted then DataHalt(m1)
      else DataVerdict(m1, i, DataLeft(o, m, i, data, end), DataAnswer(o, m, i, data, end).status)
  }

  function DataLoop(o: Oracle, m: Manager, i: nat, data: Payload, end: bool, terminal: bool): (r: Manager)
    requires i <= |m.decode.filters|
    ensures SameBefore(m.decode, r.decode, i)
    decreases 3 * (|m.decode.filters| - i)
              + (if i < |m.decode.filters| && m.decode.filters[i].iteration == StopSingle then 2 else 0), 0
  {
    if i == |m.decode.filters| then MaybeEndDecode(o, m, terminal)
    else
      match DataEntry(o, m, i, data, end)
      case DataHalt(m1) => m1
      case DataStop(m1) => MaybeEndDecode(o, m1, end && Last(m, i))
      case DataResume(m1) => MaybeEndDecode(o, CommonContinue(o, m1, i), end && Last(m, i))
      case DataOnward(m1, left) => DataLoop(o, m1, i + 1, left, end, end && Last(m, i))
  }

  function PushHeaders(o: Oracle, m: Manager, end: bool): Manager {
    HeadersLoop(o, m.(decode := m.decode.(observedEnd := end)), 0, end, None, false)
  }

  function PushData(o: Oracle, m: Manager, bytes: Bytes, end: bool): Manager {
    var m1 := m.(decode := m.decode.(observedEnd := end), log := After(m.log, Arrived(Decoding, bytes)));
    if m1.decode.aborted then m1 else DataLoop(o, m1, 0, Own(bytes), end, false)
  }
}
