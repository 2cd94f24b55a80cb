/** What becomes of the end of a response after a wedged resume has lost it. */
module WedgeTheorems {
  import opened FilterTypes
  import opened ByteStreams
  import opened Protocol
  import opened EncoderProtocol
  import opened EncoderEnd
  import opened EncoderDelivery
  import opened EncoderConservation
  import opened FilterRuns
  import opened FilterTheorems
  import E = EncoderChain

  /** The whole response is in, some of it buffered, and from filter lo on the end is handed on. */
  ghost predicate Owed(m: Manager, lo: nat) {
    Honest(m) && Clear(m.encode, 0) && Settled(m.encode, |m.encode.filters|) && HandedFrom(m, lo) &&
    m.encode.observedEnd && m.encode.buffer.Some?
  }

  /** The codec has the end, or a filter from lo on is still to resume. */
  ghost predicate Pending(m: Manager, lo: nat) { Ended(m) || StoppedFrom(m.encode.filters, lo) }

  /** A wedged resume loses the end, and leaves the filters behind it in order. */
  lemma {:induction false} WedgeLeaves(o: Oracle, m: Manager, k: nat)
    requires Patient(o) && Inv(m) && Delivering(m) && Enabled(m, ResumeResponse(k)) && Wedged(m.encode, k) && !Ended(m)
    ensures var r := Apply(o, m, ResumeResponse(k)); Owed(r, k + 1) && !Ended(r)
  {
    hide Tied, Sealed, WatchCodec, WatchClose, Sunk, Input, Came, Shown, Onward, E.ResumeHeaders, E.ResumeData, Patient,
         RequestPlace, Settled;
    assert m.stream.responseStatus.Some?;
    ghost var p :| Resting(m, p);
    assert m.encode.filters[k].processedHeaders;
    var m0 := m.(encode := AllowIteration(m.encode, k));
    var m1 := E.ResumeHeaders(o, m0, k);
    ResumeHeadersDelivers(o, m, p, k);
    ResumeHeadersSingle(o, m, p, k);
    assert E.ResumeData(o, m1, k) == m1 by { BarredResume(o, m1, k); }
    LeftDelivers(m1, k);
    var r := m1.(encode := LeaveCurrent(m1.encode, k));
    assert E.CommonContinue(o, m, k) == r;
    WedgeLosesEnd(o, m, k);
    HandedKept(m1, r, k + 1);
  }

  lemma BarredResume(o: Oracle, m: Manager, k: nat)
    requires k < |m.encode.filters| && !m.encode.filters[k].Stopped()
    requires m.encode.filters[k].endStream && m.encode.filters[k].fromCurrent
    ensures E.ResumeData(o, m, k) == m
  {
    if m.encode.buffer.Some? { BarredAt(o, m, k); }
  }

  /** The step resumes no filter before lo, and none that is wedged. */
  predicate Behind(m: Manager, s: Step, lo: nat)
    requires Enabled(m, s)
  {
    s.ResumeResponse? ==> lo <= s.k && !Wedged(m.encode, s.k)
  }

  predicate AlwaysBehind(o: Oracle, m: Manager, steps: seq<Step>, lo: nat)
    decreases |steps|
  {
    steps == [] ||
    if Enabled(m, steps[0]) then
      Behind(m, steps[0], lo) && AlwaysBehind(o, Apply(o, m, steps[0]), steps[1..], lo)
    else AlwaysBehind(o, m, steps[1..], lo)
  }

  lemma {:induction false} ResumeOwed(o: Oracle, m: Manager, lo: nat, k: nat)
    requires Patient(o) && Inv(m) && Owed(m, lo) && Enabled(m, ResumeResponse(k)) && lo <= k && !Wedged(m.encode, k)
    ensures var r := Apply(o, m, ResumeResponse(k)); Owed(r, lo) && (Pending(m, lo) ==> Pending(r, lo))
  {
    assert m.stream.responseStatus.Some?;
    ghost var p :| Resting(m, p);
    hide Tied, Sealed, WatchCodec, WatchClose, Sunk, Input, Came, Shown, Onward, E.CommonContinue, Resting, Patient,
         RequestPlace, Settled;
    var r := E.CommonContinue(o, m, k);
    CommonContinueDelivers(o, m, p, k);
    CommonContinueSingle(o, m, p, k);
    hide HandedFrom;
    HandedBehind(m, r, lo, k);
    StillPending(m, r, lo, k);
  }

  lemma {:induction false} HandedBehind(m: Manager, r: Manager, lo: nat, k: nat)
    requires lo <= k < |m.encode.filters| && HandedFrom(m, lo) && HandedFrom(r, k) && SameBefore(m.encode, r.encode, k)
    requires EndsKept(m, r) && (m.encode.filters[k].StoppedAll() ==> Got(r, k))
    ensures HandedFrom(r, lo)
  {
    hide WatchCodec, WatchClose, Beside;
    forall j | lo <= j < k && r.encode.filters[j].endStream ensures r.encode.filters[j].Stopped() || Got(r, j + 1) {
      assert m.encode.filters[j].Stopped() || Got(m, j + 1);
    }
  }

  lemma {:induction false} StillPending(m: Manager, r: Manager, lo: nat, k: nat)
    requires lo <= k < |m.encode.filters| && |r.encode.filters| == |m.encode.filters| && HandedFrom(r, k)
    requires Ended(m) ==> Ended(r)
    requires if m.encode.filters[k].StoppedAll() then Got(r, k) else Ended(m) || Got(r, k + 1)
    ensures Pending(r, lo)
  {
    hide WatchCodec;
    if !Ended(r) && !StoppedFrom(r.encode.filters, lo) {
      HandedToAll(r, if m.encode.filters[k].StoppedAll() then k else k + 1);
    }
  }

  lemma {:induction false} RequestOwed(m: Manager, r: Manager, lo: nat)
    requires Owed(m, lo) && r.encode == m.encode && WatchCodec(r.log) == WatchCodec(m.log)
    requires r.stream.sawReset ==> m.stream.sawReset || m.encode.complete
    ensures Owed(r, lo) && Pending(r, lo) == Pending(m, lo)
  {
    hide WatchCodec;
  }

  lemma {:induction false} AddResponseDataOwed(o: Oracle, m: Manager, lo: nat, k: nat, bytes: Bytes)
    requires Inv(m) && Owed(m, lo) && Enabled(m, AddResponseData(k, bytes))
    ensures var r := Apply(o, m, AddResponseData(k, bytes)); Owed(r, lo) && Pending(r, lo) == Pending(m, lo)
  {
    ArrivedSound(m, Encoding, bytes);
    hide Tied, Sealed, WatchCodec, WatchClose, Sunk, Input, Came, Shown, Onward, Resting;
  }

  lemma Arrived(m: Manager)
    requires Inv(m) && m.encode.observedEnd
    ensures m.stream.responseStatus.Some?
  {}

  lemma {:induction false} StepOwed(o: Oracle, m: Manager, s: Step, lo: nat)
    requires Patient(o) && Inv(m) && Owed(m, lo) && Enabled(m, s) && Behind(m, s, lo)
    ensures var r := Apply(o, m, s); Owed(r, lo) && (Pending(m, lo) ==> Pending(r, lo))
  {
    hide Inv, Apply, Patient, Stays, WatchCodec, Sunk, Input, Came, Shown, Onward, Pending, Settled, HandedFrom;
    Arrived(m);
    match s
    case RequestHeaders(end) =>
      RequestHeadersInv(o, m, end);
      RequestOwed(m, Apply(o, m, s), lo);
    case RequestData(bytes, end) =>
      RequestDataInv(o, m, bytes, end);
      RequestOwed(m, Apply(o, m, s), lo);
    case AddRequestData(k, bytes) =>
      AddRequestDataInv(o, m, k, bytes);
      RequestOwed(m, Apply(o, m, s), lo);
    case ResumeRequest(k) =>
      ResumeRequestInv(o, m, k);
      RequestOwed(m, Apply(o, m, s), lo);
    case AddResponseData(k, bytes) => AddResponseDataOwed(o, m, lo, k, bytes);
    case ResumeResponse(k) => ResumeOwed(o, m, lo, k);
  }

  lemma {:induction false} RunOwed(o: Oracle, m: Manager, steps: seq<Step>, lo: nat)
    requires Patient(o) && Inv(m) && Owed(m, lo) && AlwaysBehind(o, m, steps, lo)
    ensures var r := Run(o, m, steps); Owed(r, lo) && (Pending(m, lo) ==> Pending(r, lo))
    decreases |steps|
  {
    hide Inv, Apply, Enabled, Patient, Stays, Owed, Pending;
    if steps != [] {
      if Enabled(m, steps[0]) {
        StepInv(o, m, steps[0]);
        StepOwed(o, m, steps[0], lo);
        RunOwed(o, Apply(o, m, steps[0]), steps[1..], lo);
      } else {
        RunOwed(o, m, steps[1..], lo);
      }
    }
  }

  /** When the response is all in and no filter is stopped, no step touches it any more. */
  lemma {:induction false} StepIdle(o: Oracle, m: Manager, s: Step)
    requires Inv(m) && m.encode.observedEnd && !StoppedFrom(m.encode.filters, 0) && Enabled(m, s)
    ensures var r := Apply(o, m, s); r.encode == m.encode && WatchCodec(r.log) == WatchCodec(m.log)
  {
    hide Inv, Apply, Stays, WatchCodec, Sunk, Input, Came, Shown, Onward;
    Arrived(m);
    match s
    case RequestHeaders(end) => RequestHeadersInv(o, m, end);
    case RequestData(bytes, end) => RequestDataInv(o, m, bytes, end);
    case AddRequestData(k, bytes) => AddRequestDataInv(o, m, k, bytes);
    case ResumeRequest(k) => ResumeRequestInv(o, m, k);
  }

  lemma {:induction false} RunIdle(o: Oracle, m: Manager, steps: seq<Step>)
    requires Inv(m) && m.encode.observedEnd && !StoppedFrom(m.encode.filters, 0)
    ensures var r := Run(o, m, steps); r.encode == m.encode && WatchCodec(r.log) == WatchCodec(m.log)
    decreases |steps|
  {
    hide Inv, Apply, Enabled, Stays, WatchCodec;
    if steps != [] {
      if Enabled(m, steps[0]) {
        StepInv(o, m, steps[0]);
        StepIdle(o, m, steps[0]);
        RunIdle(o, Apply(o, m, steps[0]), steps[1..]);
      } else {
        RunIdle(o, m, steps[1..]);
      }
    }
  }

  /** After the first wedge of a run: if nothing is stopped the end is lost for good. If a filter
      behind the wedged one is stopped, the end comes on again: once those filters have resumed,
      and none of them was wedged, the codec has it. */
  lemma {:induction false} AfterWedge(
    o: Oracle, decoders: nat, encoders: nat, halfClose: bool, steps: seq<Step>, k: nat, more: seq<Step>)
    requires Patient(o) && NeverWedged(o, Init(decoders, encoders, halfClose), steps, Encoding)
    requires var m := Run(o, Init(decoders, encoders, halfClose), steps);
             Enabled(m, ResumeResponse(k)) && Wedged(m.encode, k) && !WatchCodec(m.log).ended
    ensures var w := Apply(o, Run(o, Init(decoders, encoders, halfClose), steps), ResumeResponse(k));
            var r := Run(o, w, more);
            !WatchCodec(w.log).ended &&
            (!StoppedFrom(w.encode.filters, 0) ==> !WatchCodec(r.log).ended) &&
            (StoppedFrom(w.encode.filters, k + 1) && AlwaysBehind(o, w, more, k + 1) ==>
               StoppedFrom(r.encode.filters, k + 1) || WatchCodec(r.log).ended)
  {
    hide Run, Inv, Delivering, WatchCodec, Apply, Patient, Stays, NeverWedged, AlwaysBehind, Owed;
    var m0 := Init(decoders, encoders, halfClose);
    InitInv(decoders, encoders, halfClose);
    InitDelivering(decoders, encoders, halfClose);
    RunDelivering(o, m0, steps);
    RunInv(o, m0, steps);
    var m := Run(o, m0, steps);
    var w := Apply(o, m, ResumeResponse(k));
    WedgeLeaves(o, m, k);
    StepInv(o, m, ResumeResponse(k));
    OwedEnd(w, k + 1);
    if !StoppedFrom(w.encode.filters, 0) { RunIdle(o, w, more); }
    if StoppedFrom(w.encode.filters, k + 1) && AlwaysBehind(o, w, more, k + 1) { RunOwed(o, w, more, k + 1); }
  }

  lemma OwedEnd(m: Manager, lo: nat)
    requires Owed(m, lo)
    ensures m.encode.observedEnd
  {}

  lemma InitDelivering(decoders: nat, encoders: nat, halfClose: bool)
    ensures Delivering(Init(decoders, encoders, halfClose))
  {}
}
