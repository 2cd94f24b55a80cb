/** The upstream codec client: its list of active requests, and what closing the connection
    does to them. Resetting a stream runs its reset callbacks at once; the first of them is
    the request's own, which takes the request off the list, and any other may reset further
    streams or close the connection from inside. */
module CodecClient {

  type Request = nat

  /** What happened to requests; Told is a run of one of the other reset callbacks. */
  datatype Event =
    | Created(request: Request)
    | WasReset(request: Request)
    | Completed(request: Request)
    | Told(request: Request, slot: nat)

  /** What a reset callback does from inside. */
  datatype Reaction = ResetOther(request: Request) | CloseConnection

  /** The requests to which something happened, with multiplicity. */
  function Creations(log: seq<Event>): multiset<Request> {
    if log == [] then multiset{}
    else
      var rest, e := Creations(log[..|log| - 1]), log[|log| - 1];
      if e.Created? then rest + multiset{e.request} else rest
  }

  function ResetsIn(log: seq<Event>): multiset<Request> {
    if log == [] then multiset{}
    else
      var rest, e := ResetsIn(log[..|log| - 1]), log[|log| - 1];
      if e.WasReset? then rest + multiset{e.request} else rest
  }

  function Completions(log: seq<Event>): multiset<Request> {
    if log == [] then multiset{}
    else
      var rest, e := Completions(log[..|log| - 1]), log[|log| - 1];
      if e.Completed? then rest + multiset{e.request} else rest
  }

  lemma Logged(log: seq<Event>, e: Event)
    ensures Creations(log + [e]) == Creations(log) + if e.Created? then multiset{e.request} else multiset{}
    ensures ResetsIn(log + [e]) == ResetsIn(log) + if e.WasReset? then multiset{e.request} else multiset{}
    ensures Completions(log + [e]) == Completions(log) + if e.Completed? then multiset{e.request} else multiset{}
  {
    assert (log + [e])[..|log|] == log;
  }

  /** A stream's reset state: its own request's callback in the first slot, how many other
      callbacks follow it, whether the reset callbacks have been started, and how many of the
      others have been told. */
  datatype StreamState = StreamState(own: bool, others: nat, started: bool, told: nat)

  /** The streams whose reset has not been started. */
  function Waiting(streams: map<Request, StreamState>): set<Request> {
    set r | r in streams && !streams[r].started
  }

  /** The other callbacks of a stream that have been told, in the order of their runs. */
  function ToldOf(log: seq<Event>, r: Request): seq<nat> {
    if log == [] then []
    else
      var rest, e := ToldOf(log[..|log| - 1], r), log[|log| - 1];
      if e.Told? && e.request == r then rest + [e.slot] else rest
  }

  lemma ToldLogged(log: seq<Event>, e: Event, r: Request)
    ensures ToldOf(log + [e], r) == ToldOf(log, r) + if e.Told? && e.request == r then [e.slot] else []
  {
    assert (log + [e])[..|log|] == log;
  }

  /** The first n slots, once each and in order. */
  function Slots(n: nat): (s: seq<nat>)
    ensures |s| == n && forall i :: 0 <= i < n ==> s[i] == i
  {
    seq(n, i requires 0 <= i => i)
  }

  /** Of the other callbacks of a stream the first so many have been told, once each and in order,
      and no more than there are. */
  ghost predicate Notified(streams: map<Request, StreamState>, log: seq<Event>) {
    (forall r :: r in streams ==>
       streams[r].told <= streams[r].others && (!streams[r].started ==> streams[r].told == 0)) &&
    (forall r :: ToldOf(log, r) == if r in streams then Slots(streams[r].told) else [])
  }

  /** No stream comes or goes, and each keeps its callbacks. */
  ghost predicate SameCallbacks(was: map<Request, StreamState>, now: map<Request, StreamState>) {
    now.Keys == was.Keys && forall q :: q in was ==> now[q].others == was[q].others
  }

  /** What resets do to streams, that of r apart: one that was started before is left alone, and
      one that is started is carried through. */
  ghost predicate Progressed(was: map<Request, StreamState>, now: map<Request, StreamState>, r: Request) {
    SameCallbacks(was, now) &&
    forall q :: q in was && q != r ==>
      if was[q].started then now[q] == was[q] else now[q].started ==> now[q].told == now[q].others
  }

  lemma ProgressedTrans(
    a: map<Request, StreamState>, b: map<Request, StreamState>, c: map<Request, StreamState>, r: Request, q: Request)
    requires Progressed(a, b, r) && Progressed(b, c, q) && r in b && b[r].started
    requires q in c && (if b[q].started then c[q] == b[q] else c[q].told == c[q].others)
    ensures Progressed(a, c, r) && c[r] == b[r]
  {}

  /** The same of all streams. */
  ghost predicate Carried(was: map<Request, StreamState>, now: map<Request, StreamState>) {
    SameCallbacks(was, now) &&
    forall q :: q in was ==>
      if was[q].started then now[q] == was[q] else now[q].started ==> now[q].told == now[q].others
  }

  lemma CarriedSelf(a: map<Request, StreamState>)
    ensures Carried(a, a)
  {}

  lemma CarriedTrans(
    a: map<Request, StreamState>, b: map<Request, StreamState>, c: map<Request, StreamState>, q: Request)
    requires Carried(a, b) && Progressed(b, c, q) && q in c
    requires if b[q].started then c[q] == b[q] else c[q].told == c[q].others
    ensures Carried(a, c)
  {}

  lemma CarriedOn(a: map<Request, StreamState>, b: map<Request, StreamState>, c: map<Request, StreamState>)
    requires Carried(a, b) && Carried(b, c)
    ensures Carried(a, c)
  {}

  lemma ProgressedCarried(
    a: map<Request, StreamState>, b: map<Request, StreamState>, c: map<Request, StreamState>, r: Request)
    requires Progressed(a, b, r) && Carried(b, c) && r in b && b[r].started
    ensures Progressed(a, c, r) && r in c && c[r] == b[r]
  {}

  function Unlisted(requests: seq<Request>, r: Request): (rest: seq<Request>)
    ensures multiset(rest) == multiset(requests) - multiset{r}
    ensures r in requests ==> |rest| < |requests|
  {
    if requests == [] then []
    else if requests[0] == r then
      assert requests == [r] + requests[1..];
      requests[1..]
    else
      assert requests == [requests[0]] + requests[1..];
      [requests[0]] + Unlisted(requests[1..], r)
  }

  /** Every request ever created is on the list, or was reset, or was completed, and just
      one of these, once. */
  ghost predicate Accounted(requests: seq<Request>, log: seq<Event>) {
    multiset(requests) + ResetsIn(log) + Completions(log) == Creations(log) && forall r :: Creations(log)[r] <= 1
  }

  /** A listed request's stream has not started its reset, and its own callback is in place;
      of every other stream that callback is gone or used up. */
  ghost predicate Tracked(requests: seq<Request>, streams: map<Request, StreamState>, log: seq<Event>) {
    (forall r :: r in requests ==> r in streams && streams[r].own && !streams[r].started) &&
    (forall r :: r in streams ==> r in Creations(log) && (streams[r].own && !streams[r].started ==> r in requests))
  }

  lemma CreatedAccounted(requests: seq<Request>, log: seq<Event>, r: Request)
    requires Accounted(requests, log) && r !in Creations(log)
    ensures Accounted([r] + requests, log + [Created(r)])
  {
    Logged(log, Created(r));
    hide Creations, ResetsIn, Completions;
    assert multiset([r] + requests) == multiset{r} + multiset(requests);
  }

  /** A request leaves the list, by a reset or by completion. */
  lemma LeftAccounted(requests: seq<Request>, log: seq<Event>, e: Event)
    requires Accounted(requests, log) && (e.WasReset? || e.Completed?) && e.request in requests
    ensures Accounted(Unlisted(requests, e.request), log + [e]) && e.request !in Unlisted(requests, e.request)
    ensures Creations(log + [e]) == Creations(log)
  {
    Logged(log, e);
    hide Creations, ResetsIn, Completions, Unlisted;
    var rest := Unlisted(requests, e.request);
    assert multiset(requests) == multiset(rest) + multiset{e.request};
    assert multiset(requests)[e.request] <= Creations(log)[e.request];
  }

  lemma UnlistedKeeps(requests: seq<Request>, r: Request, q: Request)
    requires q != r
    ensures q in Unlisted(requests, r) <==> q in requests
  {
    hide Unlisted;
    assert q in Unlisted(requests, r) <==> q in multiset(Unlisted(requests, r));
    assert q in requests <==> q in multiset(requests);
  }

  ghost predicate Sublist(a: seq<Request>, b: seq<Request>) { multiset(a) <= multiset(b) }

  lemma SublistSelf(a: seq<Request>, r: Request)
    ensures Sublist(a, a) && Sublist(Unlisted(a, r), a)
  {}

  lemma SublistOf(a: seq<Request>, b: seq<Request>, c: seq<Request>, r: Request)
    requires Sublist(a, b) && Sublist(b, c)
    ensures Sublist(a, c) && (r in a ==> r in b)
  {
    assert r in a <==> r in multiset(a);
    assert r in b <==> r in multiset(b);
  }

  /** With the list empty, what has left it is what was on it. */
  lemma AllLeft(log: seq<Event>, was: seq<Request>, before: seq<Event>)
    requires Accounted([], log) && Accounted(was, before) && Creations(log) == Creations(before)
    ensures ResetsIn(log) + Completions(log) == ResetsIn(before) + Completions(before) + multiset(was)
    ensures Completions(log) == Completions(before) ==> ResetsIn(log) == ResetsIn(before) + multiset(was)
  {
    hide Creations, ResetsIn, Completions;
    var empty: seq<Request> := [];
    assert multiset(empty) == multiset{};
    assert ResetsIn(log) + Completions(log) == multiset(was) + ResetsIn(before) + Completions(before);
    if Completions(log) == Completions(before) {
      forall r ensures ResetsIn(log)[r] == (ResetsIn(before) + multiset(was))[r] {
        assert (ResetsIn(log) + Completions(log))[r] == (multiset(was) + ResetsIn(before) + Completions(before))[r];
      }
    }
  }

  lemma ProgressedOn(a: map<Request, StreamState>, b: map<Request, StreamState>, c: map<Request, StreamState>,
                     d: map<Request, StreamState>, r: Request)
    requires Progressed(a, b, r) && r in b && r in c && c == b[r := c[r].(others := b[r].others)] && Progressed(c, d, r)
    ensures Progressed(a, d, r)
  {}

  lemma OtherLogged(log: seq<Event>, streams: map<Request, StreamState>, e: Event)
    requires Notified(streams, log) && !e.Told?
    ensures Notified(streams, log + [e])
  {
    forall r ensures ToldOf(log + [e], r) == ToldOf(log, r) { ToldLogged(log, e, r); }
  }

  class Client {
    var requests: seq<Request>
    var streams: map<Request, StreamState>
    var connected: bool
    var remoteClosed: bool
    var log: seq<Event>
    /** What another party does when it is told of a reset. */
    const reacts: (seq<Event>, Request, nat) -> seq<Reaction>

    constructor (reacts: (seq<Event>, Request, nat) -> seq<Reaction>)
      ensures Valid() && requests == [] && log == []
    {
      this.reacts := reacts;
      requests, streams, connected, remoteClosed, log := [], map[], false, false, [];
    }

    ghost predicate Valid()
      reads this
    {
      Accounted(requests, log) && Tracked(requests, streams, log) && Notified(streams, log)
    }

    method NewStream(r: Request, others: nat)
      requires Valid() && r !in Creations(log)
      modifies this
      ensures Valid() && requests == [r] + old(requests) && log == old(log) + [Created(r)]
      ensures r !in old(streams) && streams == old(streams)[r := StreamState(true, others, false, 0)]
    {
      hide Creations, ResetsIn, Completions, Accounted;
      Logged(log, Created(r));
      CreatedAccounted(requests, log, r);
      OpenedNotified(streams, log, r, others);
      hide Notified;
      log := log + [Created(r)];
      streams := streams[r := StreamState(true, others, false, 0)];
      requests := [r] + requests;
    }

    /** The request's own reset callback. */
    method OnReset(r: Request)
      requires r in requests
      modifies this`requests, this`log
      ensures requests == Unlisted(old(requests), r) && log == old(log) + [WasReset(r)]
    {
      requests := Unlisted(requests, r);
      log := log + [WasReset(r)];
    }

    /** A response came to its end: the request goes, and its callback with it. */
    method CompleteRequest(r: Request)
      requires Valid() && r in requests
      modifies this
      ensures Valid() && requests == Unlisted(old(requests), r) && log == old(log) + [Completed(r)]
      ensures r in old(streams) && !old(streams)[r].started &&
              streams == old(streams)[r := old(streams)[r].(own := false)]
    {
      hide Creations, ResetsIn, Completions, Accounted, Unlisted, Notified;
      LeftAccounted(requests, log, Completed(r));
      forall q | q != r ensures q in Unlisted(requests, r) <==> q in requests { UnlistedKeeps(requests, r, q); }
      CompletedNotified(streams, log, r);
      requests := Unlisted(requests, r);
      log := log + [Completed(r)];
      streams := streams[r := streams[r].(own := false)];
    }

    /** What a reset leaves alone. */
    twostate predicate OnlyResets()
      reads this
    {
      Creations(log) == Creations(old(log)) && Completions(log) == Completions(old(log)) &&
      Sublist(requests, old(requests)) && old(log) <= log
    }

    /** Resetting one stream. Its own callback and then every other one runs, once each and in order,
        unless its reset was started before; they may reset further streams or close the connection
        from inside. Every reset that is started is carried through, one
        that is under way is left alone, nothing is created or completed, and the request is off
        the list. */
    method ResetStream(r: Request)
      requires Valid() && r in streams
      modifies this
      ensures Valid() && r !in requests && OnlyResets() && Waiting(streams) <= Waiting(old(streams)) - {r}
      ensures Progressed(old(streams), streams, r)
      ensures r in streams && (if old(streams)[r].started then streams[r] == old(streams)[r]
                               else streams[r].started && streams[r].told == streams[r].others)
      ensures if old(streams)[r].started then log == old(log) && requests == old(requests) && streams == old(streams)
              else ToldOf(log, r) == Slots(old(streams)[r].others) &&
                   (old(streams)[r].own ==> old(log) + [WasReset(r)] <= log)
      decreases Waiting(streams), 0
    {
      hide Creations, ResetsIn, Completions, Accounted, Tracked, Notified, Sublist, Waiting;
      SublistSelf(requests, r);
      if streams[r].started {
        StartedGone(requests, streams, log, r);
        return;
      }
      var others := streams[r].others;
      BeginReset(r);
      ghost var begun := log;
      var i := 0;
      while i < others
        invariant Valid() && r !in requests && OnlyResets() && Waiting(streams) <= Waiting(old(streams)) - {r}
        invariant i <= others && Progressed(old(streams), streams, r) && begun <= log
        invariant r in streams && streams[r].started && streams[r].told == i && streams[r].others == others
      {
        ghost var now, were := requests, streams;
        TellOther(r, i);
        ghost var told := streams;
        React(r, reacts(log, r, i));
        SublistOf(requests, now, old(requests), r);
        ProgressedOn(old(streams), were, told, streams, r);
        i := i + 1;
      }
      AllTold(streams, log, r);
    }

    /** The reset of r is started, and its own callback comes first. */
    method BeginReset(r: Request)
      requires Valid() && r in streams && !streams[r].started
      modifies this
      ensures Valid() && r !in requests && OnlyResets() &&
              streams == old(streams)[r := old(streams)[r].(started := true)] &&
              log == old(log) + if old(streams)[r].own then [WasReset(r)] else []
      ensures streams[r].told == 0 && r in Waiting(old(streams)) && Waiting(streams) == Waiting(old(streams)) - {r}
    {
      hide Creations, ResetsIn, Completions, Accounted, Notified, Sublist, Unlisted, Waiting;
      SublistSelf(requests, r);
      Started(streams, log, r);
      var own := streams[r].own;
      streams := streams[r := streams[r].(started := true)];
      if own {
        Logged(log, WasReset(r));
        LeftAccounted(requests, log, WasReset(r));
        OtherLogged(log, streams, WasReset(r));
        forall q | q != r ensures q in Unlisted(requests, r) <==> q in requests { UnlistedKeeps(requests, r, q); }
        OnReset(r);
      }
    }

    /** One of the other callbacks is told. */
    method TellOther(r: Request, i: nat)
      requires Valid() && r !in requests && r in streams && streams[r].started &&
               streams[r].told == i < streams[r].others
      modifies this`streams, this`log
      ensures Valid() && OnlyResets() && Waiting(streams) == Waiting(old(streams))
      ensures streams == old(streams)[r := old(streams)[r].(told := i + 1)] && log == old(log) + [Told(r, i)]
    {
      hide Creations, ResetsIn, Completions, Accounted, Tracked, Notified, Sublist, Waiting;
      Logged(log, Told(r, i));
      ToldAccounted(requests, log, r, i);
      ToldNotified(streams, log, r, i);
      ToldTracked(requests, streams, log, r, i);
      SublistSelf(requests, r);
      log := log + [Told(r, i)];
      streams := streams[r := streams[r].(told := i + 1)];
    }

    /** ... and does what it does, while the reset of r is under way. */
    method React(r: Request, todo: seq<Reaction>)
      requires Valid() && r !in requests && r in streams && streams[r].started
      modifies this
      ensures Valid() && r !in requests && OnlyResets() && Waiting(streams) <= Waiting(old(streams))
      ensures Progressed(old(streams), streams, r) && r in streams && streams[r] == old(streams)[r]
      decreases Waiting(streams), 2
    {
      hide Creations, ResetsIn, Completions, Accounted, Tracked, Notified, Sublist, Waiting, Carried;
      SublistSelf(requests, r);
      var j := 0;
      while j < |todo|
        invariant Valid() && r !in requests && OnlyResets() && Waiting(streams) <= Waiting(old(streams))
        invariant Progressed(old(streams), streams, r) && r in streams && streams[r] == old(streams)[r]
      {
        ghost var now, were := requests, streams;
        if todo[j].CloseConnection? {
          ResetActive();
          SublistOf(requests, now, old(requests), r);
          ProgressedCarried(old(streams), were, streams, r);
        } else if todo[j].request in streams {
          ResetStream(todo[j].request);
          SublistOf(requests, now, old(requests), r);
          ProgressedTrans(old(streams), were, streams, r, todo[j].request);
        }
        j := j + 1;
      }
    }

    /** Every listed request is reset; resets that are under way are left alone. */
    method ResetActive()
      requires Valid()
      modifies this
      ensures Valid() && requests == [] && OnlyResets() && Waiting(streams) <= Waiting(old(streams))
      ensures Carried(old(streams), streams)
      decreases Waiting(streams), 1
    {
      hide Creations, ResetsIn, Completions, Accounted, Tracked, Notified, Sublist, Waiting, Carried, Progressed;
      SublistSelf(requests, 0);
      CarriedSelf(streams);
      while requests != []
        invariant Valid() && OnlyResets() && Waiting(streams) <= Waiting(old(streams))
        invariant Carried(old(streams), streams)
        decreases |requests|
      {
        ghost var first, now, were := requests[0], requests, streams;
        InStreams(requests, streams, log, first);
        ResetStream(requests[0]);
        CarriedTrans(old(streams), were, streams, first);
        SublistOf(requests, now, old(requests), first);
        FewerListed(requests, now, first);
      }
    }

    /** The connection closes. The last bytes of a remotely closed HTTP/1 connection may
        complete some of the requests; every other listed request is reset exactly once, the
        list ends up empty, and requests that were already gone are left alone. */
    method OnClose(remote: bool, http1: bool, finished: seq<Request>)
      requires Valid()
      modifies this
      ensures Valid() && requests == [] && Creations(log) == Creations(old(log)) && Carried(old(streams), streams)
      ensures ResetsIn(log) + Completions(log) == ResetsIn(old(log)) + Completions(old(log)) + multiset(old(requests))
      ensures !(remote && http1) ==> Completions(log) == Completions(old(log)) &&
                                     ResetsIn(log) == ResetsIn(old(log)) + multiset(old(requests))
    {
      hide Creations, ResetsIn, Completions, Tracked, Accounted, Notified;
      if remote { remoteClosed := true; }
      if remote && http1 && requests != [] {
        var i := 0;
        while i < |finished|
          invariant Valid() && Creations(log) == Creations(old(log)) && Carried(old(streams), streams)
        {
          if finished[i] in requests {
            Logged(log, Completed(finished[i]));
            ghost var were := streams;
            CompleteRequest(finished[i]);
            assert Carried(were, streams);
            CarriedOn(old(streams), were, streams);
          }
          i := i + 1;
        }
      }
      ghost var rest := streams;
      ResetActive();
      CarriedOn(old(streams), rest, streams);
      AllLeft(log, old(requests), old(log));
    }
  }

  lemma AllTold(streams: map<Request, StreamState>, log: seq<Event>, r: Request)
    requires Notified(streams, log) && r in streams
    ensures ToldOf(log, r) == Slots(streams[r].told)
  {}

  lemma OpenedNotified(streams: map<Request, StreamState>, log: seq<Event>, r: Request, others: nat)
    requires Notified(streams, log) && r !in streams
    ensures Notified(streams[r := StreamState(true, others, false, 0)], log + [Created(r)])
  {
    OtherLogged(log, streams, Created(r));
    hide ToldOf;
  }

  lemma CompletedNotified(streams: map<Request, StreamState>, log: seq<Event>, r: Request)
    requires Notified(streams, log) && r in streams
    ensures Notified(streams[r := streams[r].(own := false)], log + [Completed(r)])
  {
    OtherLogged(log, streams, Completed(r));
    hide ToldOf;
  }

  lemma ToldNotified(streams: map<Request, StreamState>, log: seq<Event>, r: Request, i: nat)
    requires Notified(streams, log) && r in streams && streams[r].started && streams[r].told == i < streams[r].others
    ensures Notified(streams[r := streams[r].(told := i + 1)], log + [Told(r, i)])
  {
    hide ToldOf;
    forall q ensures ToldOf(log + [Told(r, i)], q) == ToldOf(log, q) + if q == r then [i] else [] {
      ToldLogged(log, Told(r, i), q);
    }
    assert Slots(i) + [i] == Slots(i + 1);
  }

  lemma Started(streams: map<Request, StreamState>, log: seq<Event>, r: Request)
    requires Notified(streams, log) && r in streams
    ensures Notified(streams[r := streams[r].(started := true)], log)
    ensures var now := streams[r := streams[r].(started := true)];
            !streams[r].started ==>
              streams[r].told == 0 && r in Waiting(streams) && Waiting(now) == Waiting(streams) - {r}
  {}

  lemma StartedGone(requests: seq<Request>, streams: map<Request, StreamState>, log: seq<Event>, r: Request)
    requires Tracked(requests, streams, log) && r in streams && streams[r].started
    ensures r !in requests && r !in Waiting(streams)
  {}

  lemma ToldTracked(requests: seq<Request>, streams: map<Request, StreamState>, log: seq<Event>, r: Request, i: nat)
    requires Tracked(requests, streams, log) && r in streams && streams[r].started &&
             Creations(log + [Told(r, i)]) == Creations(log)
    ensures var now := streams[r := streams[r].(told := i + 1)];
            Tracked(requests, now, log + [Told(r, i)]) && Waiting(now) == Waiting(streams)
  {
    hide Creations;
  }

  lemma ToldAccounted(requests: seq<Request>, log: seq<Event>, r: Request, i: nat)
    requires Accounted(requests, log)
    ensures Accounted(requests, log + [Told(r, i)])
  {
    Logged(log, Told(r, i));
  }

  lemma InStreams(requests: seq<Request>, streams: map<Request, StreamState>, log: seq<Event>, r: Request)
    requires Tracked(requests, streams, log) && r in requests
    ensures r in streams
  {}

  lemma FewerListed(requests: seq<Request>, listed: seq<Request>, first: Request)
    requires Sublist(requests, listed) && first in listed && first !in requests
    ensures |requests| < |listed|
  {
    assert first in multiset(listed) && first !in multiset(requests);
    assert multiset(requests) <= multiset(listed) - multiset{first};
    Smaller(multiset(requests), multiset(listed) - multiset{first});
    assert |multiset(requests)| == |requests| && |multiset(listed)| == |listed|;
  }

  lemma Smaller(a: multiset<Request>, b: multiset<Request>)
    requires a <= b
    ensures |a| <= |b|
  {
    assert b == a + (b - a);
  }
}
