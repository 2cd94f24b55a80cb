/** Every decoder filter sees headers once and before data, nothing after the end and
    nothing once decoding is aborted; the chain completes, and closes the stream, once. */
module DecoderProtocol {
  import opened FilterTypes
  import opened ByteStreams
  import opened Protocol
  import opened DecoderChain
  import EP = EncoderProtocol
  import EE = EncoderEnd
  import EC = EncoderConservation

  predicate LastEnded(m: Manager) {
    m.decode.filters != [] && m.decode.filters[|m.decode.filters| - 1].endStream
  }

  predicate BodyInjected(m: Manager) { Injected(m.log, |m.decode.filters|) }

  /** The chain is complete only when its last filter has seen the end, and not if that filter
      then injected a body. */
  predicate Finished(m: Manager) {
    (m.decode.complete || BodyInjected(m) ==> LastEnded(m)) && !(m.decode.complete && BodyInjected(m))
  }

  /** The last filter has seen the end without injecting a body, and the chain is still to be
      completed. */
  predicate Owing(m: Manager) {
    LastEnded(m) && !m.decode.complete && !m.decode.aborted && !BodyInjected(m)
  }

  ghost predicate Sound(m: Manager) {
    EP.Tied(m) && EE.Sealed(m) && Finished(m)
  }

  /** What a request step leaves alone, and what it never takes back. */
  ghost predicate Kept(m: Manager, r: Manager) {
    r.encode == m.encode && r.stream == m.stream.(sawReset := m.stream.sawReset || r.stream.sawReset) &&
    |r.decode.filters| == |m.decode.filters| && r.decode.observedEnd == m.decode.observedEnd &&
    (forall j :: 0 <= j < |m.decode.filters| ==> m.decode.filters[j].endStream ==> r.decode.filters[j].endStream) &&
    (m.decode.buffer.Some? ==> r.decode.buffer.Some?) &&
    (m.decode.aborted ==> r.decode.aborted && WatchClose(r.log) == WatchClose(m.log)) &&
    (r.stream.sawReset ==> m.stream.sawReset || m.encode.complete) &&
    WatchCodec(r.log) == WatchCodec(m.log) && EC.SameBytes(m.log, r.log)
  }

  lemma KeptTrans(m: Manager, r: Manager, t: Manager)
    requires Kept(m, r) && Kept(r, t)
    ensures Kept(m, t)
  {}

  ghost predicate Arriving(m: Manager, p: nat) {
    EP.Shape(m.decode.filters, p) && EP.Passed(m.decode.filters, p)
  }

  ghost predicate Resting(m: Manager, p: nat) {
    EP.Shape(m.decode.filters, p) && (p == |m.decode.filters| || !EP.Passed(m.decode.filters, p))
  }

  /** A step outside the callbacks, on filter i only. */
  lemma {:induction false} SoundKept(m: Manager, r: Manager, i: nat)
    requires Sound(m) && i < |m.decode.filters| && SameExcept(m.decode, r.decode, i)
    requires r.log == m.log && r.encode == m.encode && r.stream == m.stream
    requires r.decode.aborted == m.decode.aborted && r.decode.complete == m.decode.complete
    requires r.decode.observedEnd == m.decode.observedEnd && (m.decode.buffer.Some? ==> r.decode.buffer.Some?)
    requires r.decode.filters[i].processedHeaders == m.decode.filters[i].processedHeaders
    requires r.decode.filters[i].endStream == m.decode.filters[i].endStream
    ensures Sound(r) && Kept(m, r) && Owing(r) == Owing(m)
  {
    hide Watch, InChain, Injected, WatchCodec, WatchClose, EC.Sunk, EC.Input, Came, Shown, Onward;
  }

  lemma {:induction false} CalledBytes(log: Log, call: Event, aborts: bool)
    requires (call.Headers? || call.Data?) && call.dir == Decoding
    ensures EC.SameBytes(log, AfterCall(log, call, aborts))
  {
    var l1 := After(log, call);
    var l2 := AfterWhen(aborts, l1, DecodingAborted);
    assert EC.SameBytes(log, l1) && EC.SameBytes(l1, l2);
  }

  lemma {:induction false} CalledTied(m: Manager, r: Manager, i: nat, call: Event, aborts: bool)
    requires EP.Tied(m) && i < |m.decode.filters| && !m.decode.aborted
    requires call.Headers? || call.Data?
    requires call.dir == Decoding && call.index == i && r.log == AfterCall(m.log, call, aborts)
    requires SameExcept(m.decode, r.decode, i) && r.encode == m.encode && r.decode.aborted == aborts
    requires r.decode.filters[i].endStream == call.end && r.decode.filters[i].processedHeaders
    requires !m.decode.filters[i].endStream && m.decode.filters[i].processedHeaders == call.Data?
    requires call.Headers? ==> forall j :: 0 <= j < i ==> m.decode.filters[j].processedHeaders
    ensures EP.Tied(r)
  {
    InChainCalled(m.log, call, aborts, |m.encode.filters|);
    forall j | 0 <= j < |m.decode.filters|
      ensures Watch(r.log, Decoding, j) == EP.ViewOf(r.decode.filters[j], r.decode.aborted)
    {
      WatchCalled(m.log, call, aborts, Decoding, j);
    }
    forall j | 0 <= j < |m.encode.filters|
      ensures Watch(r.log, Encoding, j) == EP.ViewOf(r.encode.filters[j], false)
    {
      WatchCalled(m.log, call, aborts, Encoding, j);
    }
  }

  /** A body added to a request that ends with its headers, with that end left standing. */
  predicate Injects(call: Event) {
    call.Headers? && call.end && call.added.Some? && call.status != HeadersContinueAndDontEndStream
  }

  /** A callback in order keeps everything; it is the first to carry the end, so before it
      the chain was not complete if this is the last filter. */
  lemma {:induction false} CalledSound(m: Manager, r: Manager, i: nat, call: Event, aborts: bool)
    requires Sound(m) && i < |m.decode.filters| && !m.decode.aborted
    requires call.Headers? || call.Data?
    requires call.dir == Decoding && call.index == i && r.log == AfterCall(m.log, call, aborts)
    requires SameExcept(m.decode, r.decode, i) && r.encode == m.encode && r.stream == m.stream
    requires r.decode.aborted == aborts && r.decode.complete == m.decode.complete
    requires r.decode.observedEnd == m.decode.observedEnd && (m.decode.buffer.Some? ==> r.decode.buffer.Some?)
    requires r.decode.filters[i].endStream == call.end && r.decode.filters[i].processedHeaders
    requires !m.decode.filters[i].endStream && m.decode.filters[i].processedHeaders == call.Data?
    requires call.Headers? ==> forall j :: 0 <= j < i ==> m.decode.filters[j].processedHeaders
    ensures Sound(r) && Kept(m, r) && (Last(m, i) ==> !r.decode.complete)
    ensures BodyInjected(r) == (BodyInjected(m) || (Last(m, i) && Injects(call)))
  {
    CalledTied(m, r, i, call, aborts);
    CalledBytes(m.log, call, aborts);
    WatchCodecCalled(m.log, call, aborts);
    InjectedCalled(m.log, call, aborts, |m.decode.filters|);
    hide EP.Tied, AfterCall, WatchCodec, WatchClose;
  }

  lemma {:induction false} HeadersEntryLawful(o: Oracle, m: Manager, i: nat, end: bool, cont: Option<nat>)
    requires Arriving(m, i) && Sound(m) && !m.decode.aborted && ValidFrom(m.decode, i, cont) && i < |m.decode.filters|
    requires end && cont.None? ==> m.decode.buffer.None?
    ensures !m.decode.complete
    ensures var next := HeadersEntry(o, m, i, end, cont);
            Sound(next.m) && Kept(m, next.m) &&
            match next
            case HeadersHalt(m1) => Resting(m1, i + 1) && !Owing(m1)
            case HeadersOnward(m1, end', cont', terminal) =>
              (if Last(m, i) then Resting(m1, i + 1) else !m1.decode.aborted && Arriving(m1, i + 1)) &&
              (terminal ==> cont'.None? && Completing(m1)) && (Owing(m1) ==> terminal) &&
              (end' && cont'.None? ==> m1.decode.buffer.None?)
  {
    hide EP.Tied, WatchCodec, EE.Sealed;
    var e := end && cont.None?;
    var reply := HeadersAnswer(o, m, i, e);
    assert m.decode.filters[i] == FRESH_FILTER;
    CalledSound(m, HeadersStep(o, m, i, e), i, Headers(Decoding, i, e, reply.add, HeadersOutcome(o, m, i, e)),
                reply.abort);
    hide Kept;
  }

  /** The last filter has just seen the end, and injected no body. */
  predicate Completing(m: Manager) {
    !m.decode.complete && LastEnded(m) && !BodyInjected(m)
  }

  /** The chain is complete, before the stream is checked. */
  lemma {:induction false} RequestCompleteSound(m: Manager)
    requires Sound(m) && Completing(m)
    ensures var r := CompleteRequest(m);
            EP.Tied(r) && EE.Guarded(r) && Finished(r) && Kept(m, r) &&
            if r.stream.halfClose && !r.decode.aborted then
              WatchClose(r.log).count == 0 && (Due(r.log, true) <==> r.encode.complete)
            else EE.Sealed(r)
  {
    var r := CompleteRequest(m);
    EP.LoggedQuiet(m, RequestComplete(m.decode.aborted), r);
    EC.SilentBytes(m.log, RequestComplete(m.decode.aborted));
    assert WatchClose(r.log) == WatchClose(m.log) && BodyInjected(r) == BodyInjected(m);
    hide EP.Tied, EC.Sunk, EC.Input, Came, Shown, Onward, Injected;
  }

  lemma {:induction false} MaybeEndDecodeSound(o: Oracle, m: Manager, terminal: bool)
    requires Sound(m) && (terminal ==> Completing(m))
    ensures var r := MaybeEndDecode(o, m, terminal);
            Sound(r) && Kept(m, r) && r.decode.filters == m.decode.filters && (Owing(r) ==> Owing(m) && !terminal)
  {
    if terminal {
      var m1 := CompleteRequest(m);
      RequestCompleteSound(m);
      if m1.stream.halfClose && !m1.decode.aborted {
        EP.CheckAndCloseQuiet(o, m1);
        EE.CheckAndCloseSealed(o, m1);
        EC.CheckAndCloseBytes(o, m1);
        CheckAndCloseKept(o, m1);
        hide CheckAndClose, EP.Tied, WatchCodec, EE.Sealed;
      }
    }
  }

  lemma CheckAndCloseKept(o: Oracle, m: Manager)
    ensures var r := CheckAndClose(o, m);
            r.encode == m.encode && r.stream == m.stream.(sawReset := m.stream.sawReset || r.stream.sawReset) &&
            (r.stream.sawReset ==> m.stream.sawReset || m.encode.complete) &&
            r.decode == m.decode.(aborted := m.decode.aborted || r.decode.aborted) &&
            Injected(r.log, |m.decode.filters|) == Injected(m.log, |m.decode.filters|)
  {}

  lemma {:induction false} StoppedLawful(m: Manager, p: nat, c: nat)
    requires Resting(m, p) && Sound(m) && c < p
    ensures Resting(Stopped(m, c), p) && Sound(Stopped(m, c)) && Kept(m, Stopped(m, c)) &&
            Owing(Stopped(m, c)) == Owing(m)
  {
    SoundKept(m, Stopped(m, c), c);
    hide Sound, Kept;
  }

  lemma {:induction false} HeadersLoopLawful(
    o: Oracle, m: Manager, i: nat, end: bool, cont: Option<nat>, terminal: bool)
    returns (p: nat)
    requires Sound(m) && ValidFrom(m.decode, i, cont) && (terminal ==> cont.None? && Completing(m))
    requires if i == |m.decode.filters| then Resting(m, i) else !m.decode.aborted && Arriving(m, i)
    requires end && cont.None? ==> m.decode.buffer.None?
    ensures var r := HeadersLoop(o, m, i, end, cont, terminal);
            Resting(r, p) && Sound(r) && Kept(m, r) && (Owing(r) ==> Owing(m) && !terminal)
    ensures i <= p
    decreases 3 * (|m.decode.filters| - FirstTouched(i, cont)) + 2, |m.decode.filters| - i
  {
    hide HeadersEntry, Sound, Kept, Arriving, MaybeEndDecode, Continued, Owing, Completing;
    if i == |m.decode.filters| {
      p := ContinuedLawful(o, m, i, cont);
      var m1 := Continued(o, m, cont);
      MaybeEndDecodeSound(o, m1, terminal);
      KeptTrans(m, m1, MaybeEndDecode(o, m1, terminal));
    } else {
      HeadersEntryLawful(o, m, i, end, cont);
      match HeadersEntry(o, m, i, end, cont)
      case HeadersHalt(m1) =>
        p := ContinuedLawful(o, m1, i + 1, cont);
        KeptTrans(m, m1, Continued(o, m1, cont));
      case HeadersOnward(m1, end', cont', terminal') =>
        p := HeadersLoopLawful(o, m1, i + 1, end', cont', terminal');
        KeptTrans(m, m1, HeadersLoop(o, m1, i + 1, end', cont', terminal'));
    }
  }

  lemma {:induction false} ContinuedLawful(o: Oracle, m: Manager, p0: nat, cont: Option<nat>) returns (p: nat)
    requires Resting(m, p0) && Sound(m) && (cont.Some? ==> cont.value < p0)
    ensures var r := Continued(o, m, cont); Resting(r, p) && Sound(r) && Kept(m, r) && (Owing(r) ==> Owing(m))
    ensures p0 <= p
    decreases 3 * (|m.decode.filters| - FirstTouched(|m.decode.filters|, cont)) + 1, 2
  {
    p := p0;
    if cont.Some? {
      StoppedLawful(m, p0, cont.value);
      hide Sound, Kept, CommonContinue, Owing;
      var m1 := Stopped(m, cont.value);
      p := CommonContinueLawful(o, m1, p0, cont.value);
      KeptTrans(m, m1, CommonContinue(o, m1, cont.value));
    }
  }

  lemma {:induction false} RestingKept(m: Manager, r: Manager, p: nat, i: nat)
    requires Resting(m, p) && i < p && SameExcept(m.decode, r.decode, i)
    requires EP.SameProgress(m.decode.filters[i], r.decode.filters[i])
    ensures Resting(r, p)
  {}

  lemma {:induction false} CommonContinueLawful(o: Oracle, m: Manager, p0: nat, k: nat) returns (p: nat)
    requires Resting(m, p0) && Sound(m) && k < |m.decode.filters| && m.decode.filters[k].Stopped()
    ensures var r := CommonContinue(o, m, k); Resting(r, p) && Sound(r) && Kept(m, r) && (Owing(r) ==> Owing(m))
    ensures p0 <= p
    decreases 3 * (|m.decode.filters| - k) + 1, 1
  {
    p := p0;
    if !m.decode.aborted {
      var m0 := m.(decode := AllowIteration(m.decode, k));
      p := ResumeHeadersLawful(o, m, p, k);
      var m1 := ResumeHeaders(o, m0, k);
      hide Sound, Kept, ResumeHeaders, ResumeData, Resting, Owing;
      p := ResumeDataLawful(o, m1, p, k);
      var m2 := ResumeData(o, m1, k);
      var m3 := m2.(decode := LeaveCurrent(m2.decode, k));
      RestingKept(m2, m3, p, k);
      SoundKept(m2, m3, k);
      KeptTrans(m, m1, m2);
      KeptTrans(m, m2, m3);
    }
  }

  function Released(m: Manager, k: nat): Manager
    requires k < |m.decode.filters| && m.decode.filters[k].Stopped()
  {
    m.(decode := ContinueHeaders(AllowIteration(m.decode, k), k))
  }

  lemma {:induction false} ReleasedArrives(m: Manager, p: nat, k: nat)
    requires Resting(m, p) && k < |m.decode.filters|
    requires m.decode.filters[k].Stopped() && !m.decode.filters[k].headersContinued
    ensures Arriving(Released(m, k), k + 1) && k + 1 == p
  {}

  lemma {:induction false} ResumeHeadersLawful(o: Oracle, m: Manager, p0: nat, k: nat) returns (p: nat)
    requires Resting(m, p0) && Sound(m) && k < |m.decode.filters| && m.decode.filters[k].Stopped() && !m.decode.aborted
    ensures var r := ResumeHeaders(o, m.(decode := AllowIteration(m.decode, k)), k);
            Resting(r, p) && Sound(r) && Kept(m, r) && (Owing(r) ==> Owing(m)) && k < p && p0 <= p
    decreases 3 * (|m.decode.filters| - k) + 1, 0
  {
    var m0 := m.(decode := AllowIteration(m.decode, k));
    if m.decode.filters[k].headersContinued {
      p := p0;
      RestingKept(m, m0, p, k);
      SoundKept(m, m0, k);
      hide Sound, Kept, HeadersLoop, Owing;
    } else {
      ReleasedArrives(m, p0, k);
      var m1 := Released(m, k);
      SoundKept(m, m1, k);
      hide Sound, Kept, HeadersLoop, Owing, Completing;
      var end := m.decode.observedEnd && m.decode.buffer.None?;
      p := HeadersLoopLawful(o, m1, k + 1, end, None, false);
      KeptTrans(m, m1, HeadersLoop(o, m1, k + 1, end, None, false));
      assert HeadersLoop(o, m1, k + 1, end, None, false).decode.filters[k] == m1.decode.filters[k];
    }
  }

  lemma {:induction false} ResumeDataLawful(o: Oracle, m: Manager, p0: nat, k: nat) returns (p: nat)
    requires Resting(m, p0) && Sound(m) && k < p0 && !m.decode.filters[k].Stopped()
    ensures var r := ResumeData(o, m, k); Resting(r, p) && Sound(r) && Kept(m, r) && (Owing(r) ==> Owing(m)) && p0 <= p
    decreases 3 * (|m.decode.filters| - k) + 1, 0
  {
    p := p0;
    if m.decode.buffer.Some? && !m.decode.aborted {
      assert m.decode.filters[k].headersContinued;
      hide Sound, Kept, DataLoop, Owing, Completing;
      p := DataLoopLawful(o, m, p0, if m.decode.filters[k].fromCurrent then k else k + 1, Shared, m.decode.observedEnd,
                          false);
    }
  }

  lemma BufferStays(o: Oracle, m: Manager, i: nat, data: Payload, end: bool)
    requires i < |m.decode.filters|
    ensures m.decode.buffer.Some? ==> DataEntry(o, m, i, data, end).m.decode.buffer.Some?
  {}

  lemma {:induction false} DataEntryLawful(o: Oracle, m: Manager, p: nat, i: nat, data: Payload, end: bool)
    requires Resting(m, p) && Sound(m) && i < p && !m.decode.aborted && end == m.decode.observedEnd
    ensures var next := DataEntry(o, m, i, data, end);
            Sound(next.m) && Kept(m, next.m) && Resting(next.m, p) &&
            (Owing(next.m) ==> Owing(m) || (!next.DataHalt? && end && Last(m, i))) &&
            (next.DataHalt? || (!next.m.decode.aborted && (end && Last(m, i) ==> Completing(next.m)))) &&
            (next.DataOnward? ==> next.m.decode.filters[i].headersContinued && (Last(m, i) || i + 1 < p)) &&
            (m.decode.observedEnd && !Skipped(m.decode.filters[i]) ==> next.m.decode.filters[i].endStream)
  {
    hide EP.Tied, EE.Sealed, Kept, DataEntry, Injected;
    var reply := DataAnswer(o, m, i, data, end);
    var next := DataEntry(o, m, i, data, end);
    BufferStays(o, m, i, data, end);
    if Skipped(m.decode.filters[i]) {
      SoundKept(m, next.m, i);
    } else {
      assert !m.decode.filters[i].endStream && m.decode.filters[i].processedHeaders;
      CalledSound(m, next.m, i, Data(Decoding, i, end, reply.add, PayloadBytes(m.decode, data), data.Shared?),
                  reply.abort);
    }
    RestingKept(m, next.m, p, i);
  }

  /** Resuming the last filter, which has seen the end, completes nothing. */
  lemma {:induction false} LastResumed(o: Oracle, m: Manager, k: nat)
    requires Last(m, k) && m.decode.filters[k].Stopped() && m.decode.filters[k].endStream
    ensures var r := CommonContinue(o, m, k);
            r.decode.complete == m.decode.complete && r.decode.filters[k].endStream && r.log == m.log
  {
    if !m.decode.aborted {
      var m0 := m.(decode := AllowIteration(m.decode, k));
      var m1 := ResumeHeaders(o, m0, k);
      LastHeaders(o, m0.(decode := ContinueHeaders(m0.decode, k)), m0.decode.observedEnd && m0.decode.buffer.None?);
      assert m1.decode.complete == m.decode.complete && m1.decode.filters[k].endStream && m1.log == m.log;
      hide ResumeHeaders;
      if m1.decode.buffer.Some? && !m1.decode.aborted {
        LastData(o, m1, k, m1.decode.observedEnd);
      }
    }
  }

  lemma LastData(o: Oracle, m: Manager, k: nat, end: bool)
    requires Last(m, k) && m.decode.filters[k].endStream
    ensures DataLoop(o, m, k + 1, Shared, end, false) == m
    ensures DataLoop(o, m, k, Shared, end, false) == m
  {}

  lemma LastHeaders(o: Oracle, m: Manager, end: bool)
    ensures HeadersLoop(o, m, |m.decode.filters|, end, None, false) == m
  {}

  lemma {:induction false} DataLoopLawful(
    o: Oracle, m: Manager, p0: nat, i: nat, data: Payload, end: bool, terminal: bool)
    returns (p: nat)
    requires Resting(m, p0) && Sound(m) && i <= |m.decode.filters| && !m.decode.aborted && end == m.decode.observedEnd
    requires if i == |m.decode.filters| then (terminal ==> Completing(m)) else i < p0
    ensures var r := DataLoop(o, m, i, data, end, terminal); Resting(r, p) && Sound(r) && Kept(m, r) && p0 <= p
    ensures Owing(DataLoop(o, m, i, data, end, terminal)) ==> Owing(m) && !(i == |m.decode.filters| && terminal)
    decreases 3 * (|m.decode.filters| - i)
              + (if i < |m.decode.filters| && m.decode.filters[i].iteration == StopSingle then 2 else 0), 0
  {
    hide Sound, Kept, DataEntry, MaybeEndDecode, CommonContinue, Completing, Owing;
    p := p0;
    if i == |m.decode.filters| {
      MaybeEndDecodeSound(o, m, terminal);
    } else {
      DataEntryLawful(o, m, p, i, data, end);
      match DataEntry(o, m, i, data, end)
      case DataHalt(m1) =>
      case DataStop(m1) =>
        MaybeEndDecodeSound(o, m1, end && Last(m, i));
        KeptTrans(m, m1, MaybeEndDecode(o, m1, end && Last(m, i)));
      case DataResume(m1) =>
        p := ResumedLawful(o, m1, p, i, end && Last(m, i));
        KeptTrans(m, m1, MaybeEndDecode(o, CommonContinue(o, m1, i), end && Last(m, i)));
      case DataOnward(m1, left) =>
        p := DataLoopLawful(o, m1, p, i + 1, left, end, end && Last(m, i));
        KeptTrans(m, m1, DataLoop(o, m1, i + 1, left, end, end && Last(m, i)));
    }
  }

  lemma {:induction false} ResumedLawful(o: Oracle, m: Manager, p0: nat, i: nat, terminal: bool) returns (p: nat)
    requires Resting(m, p0) && Sound(m) && i < p0 && m.decode.filters[i].Stopped()
    requires terminal ==> Last(m, i) && Completing(m)
    ensures var r := MaybeEndDecode(o, CommonContinue(o, m, i), terminal);
            Resting(r, p) && Sound(r) && Kept(m, r) && (Owing(r) ==> Owing(m) && !terminal)
    ensures p0 <= p
    decreases 3 * (|m.decode.filters| - i) + 1, 2
  {
    hide Sound, Kept, MaybeEndDecode, CommonContinue, Owing, Injected;
    p := CommonContinueLawful(o, m, p0, i);
    var m1 := CommonContinue(o, m, i);
    if terminal { LastResumed(o, m, i); }
    MaybeEndDecodeSound(o, m1, terminal);
    KeptTrans(m, m1, MaybeEndDecode(o, m1, terminal));
  }
}
