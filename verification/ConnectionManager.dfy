/** The downstream connection manager: tearing down its streams when the connection closes,
    and closing the connection once it drains. */
module ConnectionManager {
  import opened HttpHeaders

  type StreamId = nat

  datatype DrainState = NotDraining | Draining | Closing

  datatype CloseType = NoClose | FlushWrite | FlushWriteAndDelay | Abort

  /** How far a stream has come; it can be destroyed once any of the first three holds. */
  datatype StreamState = StreamState(reset: bool, encodeComplete: bool, internallyDestroyed: bool, zombie: bool)
  {
    predicate CanDestroy() { reset || encodeComplete || internallyDestroyed }
  }

  datatype Event =
    | FilterComplete(stream: StreamId, filter: nat)
    | FilterDestroyed(stream: StreamId, filter: nat)
    | StreamDeleted(stream: StreamId)
    | ConnectionClosed(kind: CloseType)

  datatype HttpVersion = Http10 | Http11 | Http2

  const KEEP_ALIVE := Header(Connection, "keep-alive")
  const CLOSE := Header(Connection, "close")

  /** A response header block as sent, with the drain state it left behind. */
  datatype Response = Response(headers: seq<Header>, drain: DrainState, tunneling: bool)

  /** Section 9.6 of RFC 9112: an HTTP/1.x response on a draining connection says so. */
  predicate Announces(version: HttpVersion, r: Response) {
    version != Http2 && r.drain != NotDraining && !r.tunneling ==> CLOSE in r.headers
  }

  /** The responses of a connection, in order: each announces a drain, and a drain that has
      reached closing is never taken back. */
  ghost predicate Promised(version: HttpVersion, responses: seq<Response>, drain: DrainState) {
    (forall r :: r in responses ==> Announces(version, r)) &&
    (forall i, j :: 0 <= i < j < |responses| ==> responses[i].drain == Closing ==> responses[j].drain == Closing) &&
    (forall i :: 0 <= i < |responses| ==> responses[i].drain == Closing ==> drain == Closing)
  }

  const PREMATURE_RESET_LIMIT: nat := 500

  /** At least half of the requests that came to an end, and of a minimum number of them, were
      reset prematurely. */
  predicate TooManyResets(closed: nat, premature: nat) {
    closed > 0 && premature * 2 >= (if closed < PREMATURE_RESET_LIMIT then PREMATURE_RESET_LIMIT else closed)
  }

  // What tearing down streams looks like.

  function Completes(s: StreamId, n: nat): seq<Event> { seq(n, (i: nat) => FilterComplete(s, i)) }

  function Destroys(s: StreamId, n: nat): seq<Event> { seq(n, (i: nat) => FilterDestroyed(s, i)) }

  function Torn(s: StreamId, n: nat): seq<Event> {
    Completes(s, n) + Destroys(s, n) + [StreamDeleted(s)]
  }

  function TornAll(ids: seq<StreamId>, filters: StreamId -> nat): seq<Event> {
    if ids == [] then [] else Torn(ids[0], filters(ids[0])) + TornAll(ids[1..], filters)
  }

  /** Nothing but closing the connection, as asked for or because of too many resets. */
  ghost predicate Closings(events: seq<Event>, kind: CloseType) {
    forall e :: e in events ==> e == ConnectionClosed(Abort) || (kind != NoClose && e == ConnectionClosed(kind))
  }

  /** All streams on the list were torn down, in its order, and only then was the connection
      closed, if at all. */
  ghost predicate TornDown(
    before: seq<Event>, log: seq<Event>, ids: seq<StreamId>, filters: StreamId -> nat, kind: CloseType)
  {
    before + TornAll(ids, filters) <= log && Closings(log[|before + TornAll(ids, filters)|..], kind)
  }

  ghost predicate Distinct(ids: seq<StreamId>) {
    forall i, j :: 0 <= i < j < |ids| ==> ids[i] != ids[j]
  }

  /** Removal of the one occurrence of s, as from a linked list. */
  function Without(ids: seq<StreamId>, s: StreamId): (r: seq<StreamId>)
    ensures s in ids ==> |r| == |ids| - 1
    ensures forall x :: x in r ==> x in ids
  {
    if ids == [] then [] else if ids[0] == s then ids[1..] else [ids[0]] + Without(ids[1..], s)
  }

  lemma {:induction false} WithoutDistinct(ids: seq<StreamId>, s: StreamId)
    requires Distinct(ids)
    ensures Distinct(Without(ids, s))
  {
    if ids != [] && ids[0] != s {
      var rest := Without(ids[1..], s);
      WithoutDistinct(ids[1..], s);
      forall j | 0 <= j < |rest| ensures rest[j] != ids[0] { assert rest[j] in ids[1..]; }
    }
  }

  lemma {:induction false} TornAllAppend(a: seq<StreamId>, b: seq<StreamId>, filters: StreamId -> nat)
    ensures TornAll(a + b, filters) == TornAll(a, filters) + TornAll(b, filters)
  {
    hide Torn;
    if a == [] {
      assert a + b == b;
    } else {
      assert (a + b)[1..] == a[1..] + b;
      TornAllAppend(a[1..], b, filters);
    }
  }

  lemma TornSingle(s: StreamId, filters: StreamId -> nat)
    ensures TornAll([s], filters) == Torn(s, filters(s))
  {
    assert [s][1..] == [];
    assert TornAll([s][1..], filters) == [];
  }

  /** One stream is torn down, then the rest of the list. */
  lemma TornFirst(
    before: seq<Event>, log: seq<Event>, s: StreamId, rest: seq<StreamId>, filters: StreamId -> nat, kind: CloseType)
    requires TornDown(before + Torn(s, filters(s)), log, rest, filters, kind)
    ensures TornDown(before, log, [s] + rest, filters, kind)
  {
    TornAllAppend([s], rest, filters);
    TornSingle(s, filters);
    hide Torn, TornAll;
    assert before + Torn(s, filters(s)) + TornAll(rest, filters) ==
             before + (Torn(s, filters(s)) + TornAll(rest, filters));
  }

  lemma TornMore(
    before: seq<Event>, done: seq<StreamId>, log: seq<Event>, rest: seq<StreamId>, filters: StreamId -> nat,
    kind: CloseType)
    requires TornDown(before + TornAll(done, filters), log, rest, filters, kind)
    ensures TornDown(before, log, done + rest, filters, kind)
  {
    TornAllAppend(done, rest, filters);
    hide TornAll;
    assert before + TornAll(done, filters) + TornAll(rest, filters) ==
             before + (TornAll(done, filters) + TornAll(rest, filters));
  }

  // Each stream of a torn-down list is destroyed exactly once, and in the right order.

  /** How often an event occurs. */
  function Count(log: seq<Event>, e: Event): nat { multiset(log)[e] }

  lemma {:induction false} TornOnce(s: StreamId, n: nat, t: StreamId, f: nat)
    ensures Count(Torn(s, n), StreamDeleted(t)) == (if s == t then 1 else 0)
    ensures Count(Torn(s, n), FilterComplete(t, f)) == (if s == t && f < n then 1 else 0)
    ensures Count(Torn(s, n), FilterDestroyed(t, f)) == (if s == t && f < n then 1 else 0)
  {
    CountIndexed(s, n, t, f);
  }

  lemma {:induction false} CountIndexed(s: StreamId, n: nat, t: StreamId, f: nat)
    ensures Count(Completes(s, n), FilterComplete(t, f)) == (if s == t && f < n then 1 else 0)
    ensures Count(Destroys(s, n), FilterDestroyed(t, f)) == (if s == t && f < n then 1 else 0)
    ensures Count(Completes(s, n), FilterDestroyed(t, f)) == 0 && Count(Completes(s, n), StreamDeleted(t)) == 0
    ensures Count(Destroys(s, n), FilterComplete(t, f)) == 0 && Count(Destroys(s, n), StreamDeleted(t)) == 0
  {
    if n > 0 {
      CountIndexed(s, n - 1, t, f);
      assert Completes(s, n) == Completes(s, n - 1) + [FilterComplete(s, n - 1)];
      assert Destroys(s, n) == Destroys(s, n - 1) + [FilterDestroyed(s, n - 1)];
    }
  }

  /** The teardown of a list of distinct streams completes and destroys every filter of
      every stream on it once, deletes every stream once, and touches no other stream. */
  lemma {:induction false} TornAllOnce(ids: seq<StreamId>, filters: StreamId -> nat, t: StreamId, f: nat)
    requires Distinct(ids)
    ensures Count(TornAll(ids, filters), StreamDeleted(t)) == (if t in ids then 1 else 0)
    ensures Count(TornAll(ids, filters), FilterComplete(t, f)) == (if t in ids && f < filters(t) then 1 else 0)
    ensures Count(TornAll(ids, filters), FilterDestroyed(t, f)) == (if t in ids && f < filters(t) then 1 else 0)
  {
    if ids != [] {
      TornOnce(ids[0], filters(ids[0]), t, f);
      TornAllOnce(ids[1..], filters, t, f);
      assert t in ids <==> t == ids[0] || t in ids[1..];
    }
  }

  /** Once a filter of t is destroyed, no filter of t is told of completion any more. */
  ghost predicate CompletesFirst(log: seq<Event>, t: StreamId) {
    forall i, j :: 0 <= i < j < |log| ==>
      !(log[i].FilterDestroyed? && log[i].stream == t && log[j].FilterComplete? && log[j].stream == t)
  }

  ghost predicate Silent(log: seq<Event>, t: StreamId) {
    forall e :: e in log ==> !e.ConnectionClosed? && e.stream != t
  }

  lemma {:induction false} TornAllSilent(ids: seq<StreamId>, filters: StreamId -> nat, t: StreamId)
    requires t !in ids
    ensures Silent(TornAll(ids, filters), t)
  {
    if ids != [] { TornAllSilent(ids[1..], filters, t); }
  }

  lemma {:induction false} TornAllOrdered(ids: seq<StreamId>, filters: StreamId -> nat, t: StreamId)
    requires Distinct(ids)
    ensures CompletesFirst(TornAll(ids, filters), t)
  {
    if ids != [] {
      var first, rest := Torn(ids[0], filters(ids[0])), TornAll(ids[1..], filters);
      TornAllOrdered(ids[1..], filters, t);
      if t == ids[0] {
        TornAllSilent(ids[1..], filters, t);
        assert forall j :: 0 <= j < |rest| ==> rest[j] in rest;
      }
    }
  }

  class Manager {
    var streams: seq<StreamId>
    var states: map<StreamId, StreamState>
    var closedRequests: nat
    var prematureRequests: nat
    var open: bool
    var drain: DrainState
    var log: seq<Event>
    var responses: seq<Response>
    const version: HttpVersion
    /** The number of filters of each stream, and whether the connection still reports open
        after it was told to close. */
    const filters: StreamId -> nat
    const stillOpen: seq<Event> -> bool

    constructor (version: HttpVersion, filters: StreamId -> nat, stillOpen: seq<Event> -> bool)
      ensures Valid() && streams == [] && log == [] && responses == [] && drain == NotDraining && open
    {
      this.version, this.filters, this.stillOpen := version, filters, stillOpen;
      streams, states, log, responses := [], map[], [], [];
      closedRequests, prematureRequests, open, drain := 0, 0, true, NotDraining;
    }

    ghost predicate Valid()
      reads this
    {
      Distinct(streams) && (forall s :: s in streams ==> s in states) && Promised(version, responses, drain)
    }

    /** The end of stream s makes the resets too many for an open connection. */
    predicate Aborts(s: StreamId)
      requires s in states
      reads this
    {
      open && TooManyResets(closedRequests + if states[s].internallyDestroyed then 0 else 1, prematureRequests)
    }

    method FilterManagerComplete(s: StreamId)
      modifies this`log
      ensures log == old(log) + Completes(s, filters(s))
    {
      var i := 0;
      while i < filters(s)
        invariant 0 <= i <= filters(s) && log == old(log) + Completes(s, i)
      {
        log := log + [FilterComplete(s, i)];
        i := i + 1;
      }
    }

    method FilterManagerDestroy(s: StreamId)
      modifies this`log
      ensures log == old(log) + Destroys(s, filters(s))
    {
      var i := 0;
      while i < filters(s)
        invariant 0 <= i <= filters(s) && log == old(log) + Destroys(s, i)
      {
        log := log + [FilterDestroyed(s, i)];
        i := i + 1;
      }
    }

    /** A stream that cannot be destroyed yet becomes a zombie and stays on the list;
        otherwise it is torn down, alone or with all others if that closes the connection. */
    method DeferredStreamDestroy(s: StreamId)
      requires Valid() && s in streams
      modifies this
      ensures Valid() && drain == old(drain) && responses == old(responses)
      ensures !old(states)[s].CanDestroy() ==>
                streams == old(streams) && log == old(log) &&
                states == old(states)[s := old(states)[s].(zombie := true)]
      ensures old(states)[s].CanDestroy() ==>
                if old(Aborts(s)) then
                  streams == [] && TornDown(old(log), log, [s] + Without(old(streams), s), filters, Abort)
                else streams == Without(old(streams), s) && log == old(log) + Torn(s, filters(s))
      decreases |streams|, 2
    {
      if !states[s].internallyDestroyed {
        closedRequests := closedRequests + 1;
      }
      if !states[s].CanDestroy() {
        states := states[s := states[s].(zombie := true)];
        return;
      }
      FilterManagerComplete(s);
      FilterManagerDestroy(s);
      WithoutDistinct(streams, s);
      streams := Without(streams, s);
      log := log + [StreamDeleted(s)];
      assert log == old(log) + Torn(s, filters(s));
      hide Torn, TornAll, Without, TornDown;
      ghost var rest := streams;
      MaybeDrainDueToPrematureResets();
      if streams == [] && TornDown(old(log) + Torn(s, filters(s)), log, rest, filters, Abort) {
        TornFirst(old(log), log, s, rest, filters, Abort);
      }
    }

    /** Too many premature resets tear everything down and close an open connection. */
    method MaybeDrainDueToPrematureResets()
      requires Valid()
      modifies this
      ensures Valid() && drain == old(drain) && responses == old(responses)
      ensures if old(open) && TooManyResets(old(closedRequests), old(prematureRequests)) then
                streams == [] && TornDown(old(log), log, old(streams), filters, Abort) &&
                |old(log)| <= |log| && ConnectionClosed(Abort) in log[|old(log)|..]
              else streams == old(streams) && log == old(log)
      decreases |streams|, 8
    {
      if closedRequests == 0 { return; }
      if closedRequests < PREMATURE_RESET_LIMIT {
        if prematureRequests * 2 < PREMATURE_RESET_LIMIT { return; }
      } else if prematureRequests * 2 < closedRequests {
        return;
      }
      if open { DoConnectionClose(Abort); }
    }

    method OnResetStream(s: StreamId)
      requires Valid() && s in streams
      modifies this
      ensures Valid() && drain == old(drain) && responses == old(responses)
      ensures if old(Aborts(s)) then
                streams == [] && TornDown(old(log), log, [s] + Without(old(streams), s), filters, Abort)
              else streams == Without(old(streams), s) && log == old(log) + Torn(s, filters(s))
      decreases |streams|, 3
    {
      states := states[s := states[s].(reset := true)];
      DeferredStreamDestroy(s);
    }

    /** Whatever the counters and the connection do meanwhile, the list ends up empty and
        exactly the streams that were on it have been torn down, in its order, before the
        connection was closed. */
    method ResetAllStreams()
      requires Valid()
      modifies this
      ensures Valid() && streams == [] && TornDown(old(log), log, old(streams), filters, Abort)
      ensures drain == old(drain) && responses == old(responses)
      decreases |streams|, 4
    {
      hide Torn, TornAll, Without, TornDown;
      ghost var done: seq<StreamId> := [];
      NothingTorn(log, filters);
      assert done + streams == streams;
      while streams != []
        invariant Valid() && |streams| <= old(|streams|) && drain == old(drain) && responses == old(responses)
        invariant streams != [] ==> done + streams == old(streams) && log == old(log) + TornAll(done, filters)
        invariant streams == [] ==> TornDown(old(log), log, old(streams), filters, Abort)
        decreases |streams|
      {
        ghost var s, rest, before := streams[0], streams[1..], log;
        assert Without(streams, s) == rest by { FirstWithout(streams); }
        assert done + ([s] + rest) == old(streams) && done + [s] + rest == old(streams);
        OnResetStream(streams[0]);
        TornNext(old(log), done, before, log, s, rest, filters);
        done := done + [s];
        assert streams == [] && rest == [] ==> done == old(streams);
      }
    }

    method DoConnectionClose(kind: CloseType)
      requires Valid()
      modifies this
      ensures Valid() && streams == [] && TornDown(old(log), log, old(streams), filters, kind)
      ensures drain == old(drain) && responses == old(responses)
      ensures kind != NoClose ==> ConnectionClosed(kind) in log[|old(log) + TornAll(old(streams), filters)|..]
      ensures old(streams) == [] ==> log == old(log) + if kind == NoClose then [] else [ConnectionClosed(kind)]
      decreases |streams|, if kind == NoClose then 5 else 7
    {
      hide TornAll, TornDown, Closings;
      NothingTorn(log, filters);
      if streams != [] { ResetAllStreams(); }
      TornThenClosed(old(log), log, old(streams), filters, kind);
      if kind != NoClose {
        log := log + [ConnectionClosed(kind)];
        open := stillOpen(log);
        if !open { OnClose(); }
      }
    }

    /** The connection's close event, local or remote. */
    method OnClose()
      requires Valid()
      modifies this
      ensures Valid() && streams == [] && TornDown(old(log), log, old(streams), filters, NoClose)
      ensures drain == old(drain) && responses == old(responses)
      ensures old(streams) == [] ==> log == old(log)
      decreases |streams|, 6
    {
      DoConnectionClose(NoClose);
    }

    // Draining.

    method NewStream(s: StreamId, softDrain: bool)
      requires Valid() && s !in streams
      modifies this`drain, this`states, this`streams
      ensures Valid() && streams == old(streams) + [s] && !states[s].CanDestroy()
      ensures states == old(states)[s := StreamState(false, false, false, false)]
      ensures drain == if softDrain then Closing else old(drain)
    {
      if softDrain { drain := Closing; }
      states := states[s := StreamState(false, false, false, false)];
      streams := streams + [s];
    }

    /** The connection is to close once this response is through: the stream asked for it, or the
        length of an HTTP/1.0 response is not given. */
    predicate Asked(headers: seq<Header>, shouldDrain: bool) {
      shouldDrain || (version == Http10 && !Has(headers, ContentLength))
    }

    /** An HTTP/1.0 response says that the connection is kept, unless it was asked to close. */
    predicate Keeps(headers: seq<Header>, shouldDrain: bool) { version == Http10 && !Asked(headers, shouldDrain) }

    /** An HTTP/1.x response says that the connection closes, unless it opens a tunnel. */
    predicate Drops(tunneling: bool)
      reads this`drain
    {
      drain != NotDraining && version != Http2 && !tunneling
    }

    /** Sending a response's header block, in which only Connection headers are replaced, one at a
        time. The stream asked for the connection to be drained
        if shouldDrain; lastByteReceived says that its request is complete. */
    method EncodeHeaders(headers: seq<Header>, shouldDrain: bool, lastByteReceived: bool, tunneling: bool)
      returns (sent: seq<Header>)
      requires Valid()
      modifies this`drain, this`responses
      ensures Valid() && responses == old(responses) + [Response(sent, drain, tunneling)]
      ensures drain == if (old(drain) == NotDraining && Asked(headers, shouldDrain)) ||
                          (!lastByteReceived && version != Http2) then Closing
                       else old(drain)
      ensures Except(sent, Connection) == Except(headers, Connection)
      ensures var n := Named(headers, Connection);
              Named(sent, Connection) == if n == 0 && (Keeps(headers, shouldDrain) || Drops(tunneling)) then 1 else n
      ensures Drops(tunneling) && (Keeps(headers, shouldDrain) ==> Named(headers, Connection) <= 1) ==>
                sent == WithoutFirst(headers, Connection) + [CLOSE]
      ensures Drops(tunneling) && Keeps(headers, shouldDrain) && Named(headers, Connection) > 1 ==>
                sent == WithoutFirst(WithoutFirst(headers, Connection), Connection) + [KEEP_ALIVE, CLOSE]
      ensures !Drops(tunneling) && Keeps(headers, shouldDrain) ==>
                sent == WithoutFirst(headers, Connection) + [KEEP_ALIVE]
      ensures !Drops(tunneling) && !Keeps(headers, shouldDrain) ==> sent == headers
    {
      EditedOnce(headers);
      ReplacedTwice(headers, KEEP_ALIVE);
      ReplacedOthers(WithoutFirst(headers, Connection) + [KEEP_ALIVE], CLOSE);
      hide Except, Named, WithoutFirst;
      sent := headers;
      var asked := shouldDrain;
      if version == Http10 {
        if !Has(headers, ContentLength) { asked := true; }
        if !asked {
          sent := WithoutFirst(sent, Connection) + [KEEP_ALIVE];
        }
      }
      if drain == NotDraining && asked { drain := Closing; }
      if !lastByteReceived && version != Http2 { drain := Closing; }
      if drain != NotDraining && version != Http2 && !tunneling {
        sent := WithoutFirst(sent, Connection) + [CLOSE];
      }
      responses := responses + [Response(sent, drain, tunneling)];
    }

    /** The connection closes at the first check that finds it drained. */
    method CheckForDeferredClose(wantsToWrite: bool)
      requires Valid()
      modifies this
      ensures Valid() && streams == old(streams) && drain == old(drain) && responses == old(responses)
      ensures var closes := drain == Closing && streams == [] && !wantsToWrite;
              log == if closes then old(log) + [ConnectionClosed(FlushWrite)] else old(log)
    {
      if drain == Closing && streams == [] && !wantsToWrite {
        DoConnectionClose(FlushWrite);
      }
    }

    /** The end of a stream: reset if either side is incomplete, destroyed otherwise. A reset
        drains an HTTP/1.x connection. If the caller asks for the check, the connection is closed
        when it is closing, this was its last stream and nothing is left to write, and otherwise
        not, unless too many resets abort it. */
    method EndStream(
      s: StreamId, hasEncoder: bool, lastByteReceived: bool, localComplete: bool, checkClose: bool, wantsToWrite: bool)
      requires Valid() && s in streams
      modifies this
      ensures Valid() && responses == old(responses)
      ensures var reset := hasEncoder && (!lastByteReceived || !localComplete);
              drain == (if reset && version != Http2 then Closing else old(drain)) &&
              streams == if !(reset || old(states)[s].CanDestroy()) then old(streams)
                         else if old(Aborts(s)) then []
                         else Without(old(streams), s)
      ensures s !in Without(old(streams), s) && |old(log)| <= |log|
      ensures var gone := (hasEncoder && (!lastByteReceived || !localComplete)) || old(states)[s].CanDestroy();
              var closes := checkClose && drain == Closing && streams == [] && !wantsToWrite;
              !(gone && old(Aborts(s))) ==>
                log == old(log) + (if gone then Torn(s, filters(s)) else []) +
                       if closes then [ConnectionClosed(FlushWrite)] else []
      ensures checkClose && drain == Closing && streams == [] && !wantsToWrite <==>
              ConnectionClosed(FlushWrite) in log[|old(log)|..]
    {
      WithoutRemoves(streams, s);
      var reset := hasEncoder && (!lastByteReceived || !localComplete);
      if reset { OnResetStream(s); } else { DeferredStreamDestroy(s); }
      NoFlush(old(log), log, s, Without(old(streams), s), filters);
      if reset && version != Http2 { drain := Closing; }
      ghost var before := log;
      if checkClose { CheckForDeferredClose(wantsToWrite); }
      assert log == before || log[|old(log)|..] == before[|old(log)|..] + [ConnectionClosed(FlushWrite)];
    }
  }

  lemma EditedOnce(headers: seq<Header>)
    ensures var n := Named(headers, Connection);
            forall h :: h == KEEP_ALIVE || h == CLOSE ==>
              var sent := WithoutFirst(headers, Connection) + [h];
              Except(sent, Connection) == Except(headers, Connection) &&
              Named(sent, Connection) == if n == 0 then 1 else n
  {
    ReplacedOthers(headers, KEEP_ALIVE);
    ReplacedOthers(headers, CLOSE);
  }

  lemma NothingTorn(log: seq<Event>, filters: StreamId -> nat)
    ensures TornDown(log, log, [], filters, Abort) && log == log + TornAll([], filters)
  {}

  /** The connection is closed behind the streams. */
  lemma TornThenClosed(
    before: seq<Event>, log: seq<Event>, ids: seq<StreamId>, filters: StreamId -> nat, kind: CloseType)
    requires TornDown(before, log, ids, filters, Abort)
    ensures kind == NoClose ==> TornDown(before, log, ids, filters, kind)
    ensures var torn, closed := before + TornAll(ids, filters), log + [ConnectionClosed(kind)];
            kind != NoClose ==>
              TornDown(before, closed, ids, filters, kind) && |torn| <= |closed| &&
              ConnectionClosed(kind) in closed[|torn|..]
  {
    hide TornAll;
    var torn, closed := before + TornAll(ids, filters), log + [ConnectionClosed(kind)];
    assert closed[|torn|..] == log[|torn|..] + [ConnectionClosed(kind)];
  }

  lemma FirstWithout(ids: seq<StreamId>)
    requires ids != []
    ensures Without(ids, ids[0]) == ids[1..] && ids == [ids[0]] + ids[1..]
  {}

  /** One stream more is torn down, alone or with all that are left. */
  lemma TornNext(
    start: seq<Event>, done: seq<StreamId>, before: seq<Event>, log: seq<Event>, s: StreamId, rest: seq<StreamId>,
    filters: StreamId -> nat)
    requires before == start + TornAll(done, filters)
    ensures log == before + Torn(s, filters(s)) ==>
              log == start + TornAll(done + [s], filters) && TornDown(start, log, done + [s], filters, Abort)
    ensures TornDown(before, log, [s] + rest, filters, Abort) ==>
              TornDown(start, log, done + ([s] + rest), filters, Abort)
  {
    if TornDown(before, log, [s] + rest, filters, Abort) { TornMore(start, done, log, [s] + rest, filters, Abort); }
    TornAllAppend(done, [s], filters);
    TornSingle(s, filters);
    hide Torn, TornAll;
    assert start + TornAll(done, filters) + Torn(s, filters(s)) ==
             start + (TornAll(done, filters) + Torn(s, filters(s)));
  }

  /** Tearing down closes nothing but an aborted connection. */
  lemma {:induction false} NoFlush(
    before: seq<Event>, log: seq<Event>, s: StreamId, rest: seq<StreamId>, filters: StreamId -> nat)
    requires log == before || log == before + Torn(s, filters(s)) || TornDown(before, log, [s] + rest, filters, Abort)
    ensures |before| <= |log| && ConnectionClosed(FlushWrite) !in log[|before|..]
  {
    NoClosings([s], filters);
    NoClosings([s] + rest, filters);
    TornSingle(s, filters);
    hide Torn, TornAll;
    var torn := TornAll([s] + rest, filters);
    if TornDown(before, log, [s] + rest, filters, Abort) {
      assert log == before + torn + log[|before + torn|..];
      assert log[|before|..] == torn + log[|before + torn|..];
    } else if log == before + Torn(s, filters(s)) {
      assert log[|before|..] == Torn(s, filters(s));
    }
  }

  lemma {:induction false} NoClosings(ids: seq<StreamId>, filters: StreamId -> nat)
    ensures forall e :: e in TornAll(ids, filters) ==> !e.ConnectionClosed?
  {
    if ids != [] { NoClosings(ids[1..], filters); }
  }

  lemma {:induction false} WithoutRemoves(ids: seq<StreamId>, s: StreamId)
    requires Distinct(ids)
    ensures s !in Without(ids, s)
  {
    if ids != [] && ids[0] != s { WithoutRemoves(ids[1..], s); }
  }
}
