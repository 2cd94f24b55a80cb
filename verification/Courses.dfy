/** The course of bytes along a chain: at each position what was sent towards it and what got
    through. What was sent and has not got through waits there. */
module Courses {
  import opened FilterTypes

  datatype Course = Course(above: seq<Bytes>, below: seq<Bytes>)

  predicate Even(c: Course) { |c.above| == |c.below| }

  /** At every position what got through is the beginning of what was sent. */
  ghost predicate InOrder(c: Course) {
    Even(c) && forall p :: 0 <= p < |c.below| ==> c.below[p] <= c.above[p]
  }

  /** What waits at a position. */
  function Wait(c: Course, p: nat): Bytes
    requires Even(c) && p < |c.below|
  {
    if c.below[p] <= c.above[p] then c.above[p][|c.below[p]|..] else []
  }

  /** What waits from position p on, the bytes that have come farthest first. */
  function Pile(c: Course, p: nat): Bytes
    requires Even(c) && p <= |c.below|
    decreases |c.below| - p
  {
    if p == |c.below| then [] else Pile(c, p + 1) + Wait(c, p)
  }

  lemma WaitIs(c: Course, p: nat)
    requires InOrder(c) && p < |c.below|
    ensures c.above[p] == c.below[p] + Wait(c, p)
  {}

  lemma {:induction false} PileNothing(c: Course, p: nat)
    requires Even(c) && p <= |c.below| && forall x :: p <= x < |c.below| ==> Wait(c, x) == []
    ensures Pile(c, p) == []
    decreases |c.below| - p
  {
    hide Wait;
    if p < |c.below| { PileNothing(c, p + 1); }
  }

  /** With one place of waiting the pile is what waits there. */
  lemma {:induction false} PileOne(c: Course, p: nat, f: nat)
    requires Even(c) && p <= f < |c.below| && forall x :: p <= x < |c.below| && x != f ==> Wait(c, x) == []
    ensures Pile(c, p) == Wait(c, f)
    decreases f - p
  {
    hide Wait;
    if p == f { PileNothing(c, p + 1); } else { PileOne(c, p + 1, f); }
  }

  /** The pile is longer than what waits at one place unless nothing waits elsewhere. */
  lemma {:induction false} PileLong(c: Course, p: nat, f: nat)
    requires Even(c) && p <= f < |c.below|
    ensures |Pile(c, p)| >= |Wait(c, f)|
    ensures |Pile(c, p)| == |Wait(c, f)| ==> forall x :: p <= x < |c.below| && x != f ==> Wait(c, x) == []
    decreases f - p
  {
    hide Wait;
    if p == f { PileEmpty(c, p + 1); } else { PileLong(c, p + 1, f); }
  }

  lemma {:induction false} PileEmpty(c: Course, p: nat)
    requires Even(c) && p <= |c.below|
    ensures Pile(c, p) == [] ==> forall x :: p <= x < |c.below| ==> Wait(c, x) == []
    decreases |c.below| - p
  {
    hide Wait;
    if p < |c.below| { PileEmpty(c, p + 1); }
  }

  lemma {:induction false} PileSame(c: Course, d: Course, p: nat)
    requires Even(c) && Even(d) && |d.below| == |c.below| && p <= |c.below|
    requires forall x :: p <= x < |c.below| ==> Wait(d, x) == Wait(c, x)
    ensures Pile(d, p) == Pile(c, p)
    decreases |c.below| - p
  {
    hide Wait;
    if p < |c.below| { PileSame(c, d, p + 1); }
  }

  /** Bytes that come to wait in front of all others are added at the end. */
  lemma {:induction false} PileMore(c: Course, d: Course, p: nat, i: nat, b: Bytes)
    requires Even(c) && Even(d) && |d.below| == |c.below| && p <= i < |c.below|
    requires forall x :: p <= x < |c.below| && x != i ==> Wait(d, x) == Wait(c, x)
    requires Wait(d, i) == Wait(c, i) + b && forall x :: p <= x < i ==> Wait(c, x) == []
    ensures Pile(d, p) == Pile(c, p) + b
    decreases i - p
  {
    hide Wait;
    if p == i {
      PileSame(c, d, p + 1);
    } else {
      PileMore(c, d, p + 1, i, b);
      assert Pile(d, p) == Pile(d, p + 1) + [] && Pile(c, p) == Pile(c, p + 1) + [];
    }
  }

  function Extended(s: seq<Bytes>, i: nat, b: Bytes): (r: seq<Bytes>)
    ensures |r| == |s| && forall x :: 0 <= x < |s| ==> r[x] == if x == i then s[x] + b else s[x]
  {
    if i < |s| then s[i := s[i] + b] else s
  }

  /** Filter i is shown bytes, and passes on what it makes of them. */
  function Called(c: Course, i: nat, bytes: Bytes, made: Bytes): Course {
    Course(Extended(c.above, i + 1, made), Extended(c.below, i, bytes))
  }

  /** A filter is shown the first of what waits for it. */
  lemma CalledWaits(c: Course, i: nat, bytes: Bytes, made: Bytes)
    requires InOrder(c) && i < |c.below| && bytes <= Wait(c, i)
    ensures var d := Called(c, i, bytes, made);
            InOrder(d) && Wait(d, i) == Wait(c, i)[|bytes|..] &&
            (i + 1 < |c.below| ==> Wait(d, i + 1) == Wait(c, i + 1) + made) &&
            forall x :: 0 <= x < |c.below| && x != i && x != i + 1 ==> Wait(d, x) == Wait(c, x)
  {
    var d := Called(c, i, bytes, made);
    WaitIs(c, i);
    assert d.below[i] == c.below[i] + bytes && d.above[i] == c.above[i];
    if i + 1 < |c.below| {
      WaitIs(c, i + 1);
      assert d.above[i + 1] == c.below[i + 1] + (Wait(c, i + 1) + made);
    }
  }

  // A chain and the course of its bytes. Behind the last filter there may be a further position,
  // at which the codec takes what comes.

  /** Where the bytes wait that filter k holds back: behind it, or in front of it if it stopped
      everything. */
  function Front(c: Chain, k: nat): nat
    requires k < |c.filters|
  {
    if c.filters[k].StoppedAll() then k else k + 1
  }

  /** Some filter is stopped that holds back what waits at position p. */
  predicate Holding(c: Chain, p: nat) {
    (0 < p <= |c.filters| && c.filters[p - 1].iteration == StopSingle) ||
    (p < |c.filters| && c.filters[p].StoppedAll())
  }

  predicate Fits(c: Chain, k: Course) {
    Even(k) && |c.filters| <= |k.below| <= |c.filters| + 1
  }

  /** A filter that has seen the end has nothing to wait for. */
  ghost predicate Spent(c: Chain, k: Course)
    requires Fits(c, k)
  {
    forall j, p :: 0 <= p <= j < |c.filters| && c.filters[j].endStream ==> Wait(k, p) == []
  }

  /** Bytes are in order and wait only where they are held; what waits is the end of what is
      buffered. */
  ghost predicate Aligned(c: Chain, k: Course, rest: Bytes) {
    !c.aborted && Fits(c, k) && InOrder(k) && Held(c.buffer) == rest + Pile(k, 0) && Spent(c, k) &&
    forall p :: 0 <= p < |k.below| && Wait(k, p) != [] ==> Holding(c, p)
  }

  ghost predicate Tidy(c: Chain, k: Course) { exists rest :: Aligned(c, k, rest) }

  /** All that is buffered waits at position h, and nothing waits elsewhere; behind the last
      position nothing waits at all. Where lively filters make something out of nothing, those
      from h on have not seen the end. */
  ghost predicate Split(c: Chain, k: Course, h: nat, lively: bool) {
    !c.aborted && Fits(c, k) && InOrder(k) && h <= |c.filters| &&
    (forall p :: 0 <= p < |k.below| && p != h ==> Wait(k, p) == []) &&
    (h < |k.below| ==> Wait(k, h) == Held(c.buffer)) &&
    (h < |k.below| && (lively || Held(c.buffer) != []) ==> forall j :: h <= j < |c.filters| ==> !c.filters[j].endStream)
  }

  /** Bytes wait in one place, where they are held. */
  ghost predicate Lined(c: Chain, k: Course) {
    exists h: nat :: Split(c, k, h, false) && (h < |k.below| && Held(c.buffer) != [] ==> Holding(c, h))
  }

  lemma LinedAt(c: Chain, k: Course, h: nat, lively: bool)
    requires Split(c, k, h, lively) && (h < |k.below| && Held(c.buffer) != [] ==> Holding(c, h))
    ensures Lined(c, k)
  {
    assert Split(c, k, h, false);
  }

  lemma {:induction false} LinedTidy(c: Chain, k: Course)
    requires Lined(c, k)
    ensures Tidy(c, k)
  {
    hide Wait, Holding;
    var h: nat :| Split(c, k, h, false) && (h < |k.below| && Held(c.buffer) != [] ==> Holding(c, h));
    if h < |k.below| {
      PileOne(k, 0, h);
      assert Held(c.buffer) == [] + Pile(k, 0);
      assert Aligned(c, k, []);
    } else {
      PileNothing(k, 0);
      assert Held(c.buffer) == Held(c.buffer) + Pile(k, 0);
      assert Aligned(c, k, Held(c.buffer));
    }
  }

  /** All that is buffered waits at position f. */
  ghost predicate Together(c: Chain, k: Course, f: nat) {
    Fits(c, k) && f < |k.below| && Held(c.buffer) == Wait(k, f)
  }

  lemma {:induction false} TogetherSplit(c: Chain, k: Course, f: nat, lively: bool)
    requires Tidy(c, k) && Together(c, k, f) && f <= |c.filters|
    requires lively ==> forall j :: f <= j < |c.filters| ==> !c.filters[j].endStream
    ensures Split(c, k, f, lively)
  {
    hide Wait, Holding;
    var rest :| Aligned(c, k, rest);
    PileLong(k, 0, f);
    assert |Pile(k, 0)| == |Wait(k, f)|;
  }

  /** Otherwise more is buffered than waits there. */
  lemma {:induction false} ApartLonger(c: Chain, k: Course, f: nat)
    requires Tidy(c, k) && f < |k.below| && !Together(c, k, f)
    ensures |Held(c.buffer)| > |Wait(k, f)|
  {
    hide Wait, Holding;
    var rest :| Aligned(c, k, rest);
    PileLong(k, 0, f);
    if |Pile(k, 0)| == |Wait(k, f)| { PileOne(k, 0, f); }
    if rest == [] { assert rest + Pile(k, 0) == Pile(k, 0); }
  }

  /** Filters from p on have not seen the headers. */
  ghost predicate Fresh(c: Chain, p: nat) {
    forall i :: p <= i < |c.filters| ==> c.filters[i] == FRESH_FILTER
  }

  /** Between c and d filter x resumed and passed its headers on, if it had withheld them, to
      filters that had not seen any. */
  ghost predicate Resumed(c: Chain, d: Chain, x: nat) {
    x < |c.filters| && SameBefore(c, d, x) && d.buffer == c.buffer && d.aborted == c.aborted &&
    c.filters[x].Stopped() && d.filters[x].iteration == Continue &&
    d.filters[x].endStream == c.filters[x].endStream &&
    ((forall j :: x < j < |c.filters| ==> d.filters[j] == c.filters[j]) ||
     (Fresh(c, x + 1) && forall j :: x < j < |c.filters| ==> !d.filters[j].endStream))
  }

  /** A resume that passes no bytes on, because the filter they would go to takes none or because
      there is none. */
  lemma {:induction false} BlockedTidy(c: Chain, d: Chain, k: Course, x: nat)
    requires Tidy(c, k) && Resumed(c, d, x)
    requires Front(c, x) < |k.below| ==> Front(c, x) < |c.filters| && Skipped(d.filters[Front(c, x)])
    ensures Tidy(d, k)
  {
    hide Wait;
    var start := Front(c, x);
    var rest :| Aligned(c, k, rest);
    assert Spent(d, k);
    forall p | 0 <= p < |k.below| && Wait(k, p) != [] ensures Holding(d, p) {
      assert Holding(c, p);
      if p == start { assert !d.filters[start].endStream; }
    }
    assert Aligned(d, k, rest);
  }

  // A push.

  /** Bytes b are on their way to filter i: nothing waits before it, and bytes wait there already
      only if filter i has stopped everything. */
  ghost predicate Passing(c: Chain, k: Course, i: nat, b: Bytes, w: Bytes, rest: Bytes) {
    !c.aborted && Fits(c, k) && InOrder(k) && i <= |c.filters| &&
    (forall p :: 0 <= p < i && p < |k.below| ==> Wait(k, p) == []) &&
    (i < |k.below| ==>
       Wait(k, i) == w + b && Held(c.buffer) + b == rest + Pile(k, 0) &&
       (w != [] ==> i < |c.filters| && c.filters[i].StoppedAll())) &&
    (forall p :: i < p < |k.below| && Wait(k, p) != [] ==> Holding(c, p)) &&
    (forall j :: 0 <= j < i ==> c.filters[j].iteration == Continue) &&
    (forall j :: i <= j < |c.filters| ==> !c.filters[j].endStream)
  }

  ghost predicate OnTheWay(c: Chain, k: Course, i: nat, b: Bytes) {
    exists w, rest :: Passing(c, k, i, b, w, rest)
  }

  /** Bytes are sent towards the first position. */
  lemma SentMore(k: Course, d: Course, b: Bytes)
    requires InOrder(k) && Even(d) && |d.below| == |k.below| > 0 && d.below == k.below
    requires d.above == k.above[0 := k.above[0] + b]
    ensures InOrder(d) && Wait(d, 0) == Wait(k, 0) + b && forall x :: 0 < x < |k.below| ==> Wait(d, x) == Wait(k, x)
  {
    WaitIs(k, 0);
    assert d.above[0] == k.below[0] + (Wait(k, 0) + b);
  }

  /** Bytes that come in set out. */
  lemma {:induction false} SetOut(c: Chain, k: Course, d: Course, b: Bytes)
    requires Tidy(c, k) && Even(d) && |d.below| == |k.below| && d.below == k.below
    requires |k.below| > 0 ==> d.above == k.above[0 := k.above[0] + b]
    requires forall j :: 0 <= j < |c.filters| ==> !c.filters[j].endStream
    ensures OnTheWay(c, d, 0, b)
  {
    hide Wait;
    var rest :| Aligned(c, k, rest);
    if |k.below| > 0 {
      SentMore(k, d, b);
      PileMore(k, d, 0, 0, b);
      assert Held(c.buffer) + b == rest + Pile(d, 0) by {
        assert rest + Pile(k, 0) + b == rest + (Pile(k, 0) + b);
      }
      assert Wait(k, 0) != [] ==> Holding(c, 0);
      assert Passing(c, d, 0, b, Wait(k, 0), rest);
    } else {
      assert Passing(c, d, 0, b, [], rest);
    }
  }

  /** They come to a filter that has stopped everything. */
  lemma {:induction false} ParkedTidy(c: Chain, k: Course, i: nat, b: Bytes)
    requires OnTheWay(c, k, i, b) && i < |c.filters| && c.filters[i].StoppedAll()
    ensures Tidy(BufferData(c, Own(b)), k)
  {
    hide Wait;
    var w, rest :| Passing(c, k, i, b, w, rest);
    assert Aligned(BufferData(c, Own(b)), k, rest);
  }

  /** The course when filter i has been shown the bytes and passes on what it made of them. */
  lemma {:induction false} ShownCourse(c: Chain, k: Course, i: nat, b: Bytes, made: Bytes) returns (rest: Bytes)
    requires OnTheWay(c, k, i, b) && i < |c.filters| && !c.filters[i].StoppedAll()
    ensures var d := Called(k, i, b, made);
            InOrder(d) && |d.below| == |k.below| && (forall p :: 0 <= p <= i ==> Wait(d, p) == []) &&
            (i + 1 < |k.below| ==>
               Wait(d, i + 1) == Wait(k, i + 1) + made && Held(c.buffer) + made == rest + Pile(d, 0)) &&
            forall p :: i + 1 < p < |k.below| ==> Wait(d, p) == Wait(k, p)
  {
    hide Wait, Called;
    ghost var w;
    w, rest :| Passing(c, k, i, b, w, rest);
    CalledWaits(k, i, b, []);
    CalledWaits(k, i, b, made);
    CalledLength(k, i, b, made);
    assert Wait(k, i) == [] + b;
    if i + 1 < |k.below| { ShownPile(c, k, i, b, made, rest); }
  }

  lemma {:induction false} ShownPile(c: Chain, k: Course, i: nat, b: Bytes, made: Bytes, rest: Bytes)
    requires InOrder(k) && i + 1 < |k.below| && Wait(k, i) == b && (forall p :: 0 <= p < i ==> Wait(k, p) == [])
    requires Held(c.buffer) + b == rest + Pile(k, 0)
    ensures Even(Called(k, i, b, made)) && Held(c.buffer) + made == rest + Pile(Called(k, i, b, made), 0)
  {
    hide Wait, Called;
    var e, d := Called(k, i, b, []), Called(k, i, b, made);
    CalledWaits(k, i, b, []);
    CalledWaits(k, i, b, made);
    assert |e.below| == |k.below| == |d.below| by { CalledLength(k, i, b, []); CalledLength(k, i, b, made); }
    assert Wait(e, i) == [] && Wait(d, i) == [] by { assert b[|b|..] == []; }
    assert Wait(e, i + 1) == Wait(k, i + 1) by { assert Wait(k, i + 1) + [] == Wait(k, i + 1); }
    assert Wait(k, i) == Wait(e, i) + b by { assert [] + b == b; }
    PileMore(e, k, 0, i, b);
    PileMore(e, d, 0, i + 1, made);
    Cancel(Held(c.buffer), rest + Pile(e, 0), b, rest, Pile(e, 0));
    assert rest + Pile(e, 0) + made == rest + (Pile(e, 0) + made);
  }

  lemma CalledLength(k: Course, i: nat, b: Bytes, made: Bytes)
    ensures |Called(k, i, b, made).below| == |k.below| && |Called(k, i, b, made).above| == |k.above|
  {}

  lemma Cancel(x: Bytes, y: Bytes, b: Bytes, rest: Bytes, pile: Bytes)
    requires x + b == rest + (pile + b) && y == rest + pile
    ensures x == y
  {
    assert rest + (pile + b) == y + b;
    assert (x + b)[..|x|] == x && (y + b)[..|y|] == y;
  }

  /** The filter lets them go on. */
  lemma {:induction false} OnwardOnTheWay(c: Chain, d: Chain, k: Course, i: nat, b: Bytes, made: Bytes)
    requires OnTheWay(c, k, i, b) && i < |c.filters| && SameExcept(c, d, i)
    requires c.filters[i].iteration == Continue == d.filters[i].iteration && !d.aborted
    requires Held(d.buffer) == Held(c.buffer)
    ensures OnTheWay(d, Called(k, i, b, made), i + 1, made)
  {
    hide Wait, Called;
    var rest := ShownCourse(c, k, i, b, made);
    var w0, rest0 :| Passing(c, k, i, b, w0, rest0);
    var w := if i + 1 < |k.below| then Wait(k, i + 1) else [];
    assert Passing(d, Called(k, i, b, made), i + 1, made, w, rest);
  }

  /** ... or stops them. */
  lemma {:induction false} HaltedTidy(c: Chain, d: Chain, k: Course, i: nat, b: Bytes, made: Bytes)
    requires OnTheWay(c, k, i, b) && i < |c.filters| && SameExcept(c, d, i) && !c.filters[i].StoppedAll()
    requires d.filters[i].iteration == StopSingle && !d.aborted && Held(d.buffer) == Held(c.buffer) + made
    ensures Tidy(d, Called(k, i, b, made))
  {
    hide Wait, Called;
    var rest := ShownCourse(c, k, i, b, made);
    var w0, rest0 :| Passing(c, k, i, b, w0, rest0);
    var e := Called(k, i, b, made);
    if i + 1 < |k.below| {
      assert Aligned(d, e, rest);
    } else {
      PileNothing(e, 0);
      assert Held(d.buffer) == Held(d.buffer) + Pile(e, 0);
      assert Aligned(d, e, Held(d.buffer));
    }
  }

  /** The whole buffer is shown to the filter at whose place it waits. */
  lemma {:induction false} SharedSplit(c: Chain, d: Chain, k: Course, i: nat, made: Bytes, lively: bool)
    requires Split(c, k, i, lively) && i < |c.filters| && SameExcept(c, d, i) && !d.aborted && Held(d.buffer) == made
    requires !lively && Held(c.buffer) == [] ==> made == []
    ensures Split(d, Called(k, i, Held(c.buffer), made), i + 1, lively)
  {
    CalledWaits(k, i, Held(c.buffer), made);
    hide Wait, Called;
  }

  lemma LinedLeft(c: Chain, k: Course, x: nat)
    requires Lined(c, k) && x < |c.filters|
    ensures Lined(LeaveCurrent(c, x), k)
  {
    hide Wait;
    var h: nat :| Split(c, k, h, false) && (h < |k.below| && Held(c.buffer) != [] ==> Holding(c, h));
    LinedAt(LeaveCurrent(c, x), k, h, false);
  }

  lemma TidyLeft(c: Chain, k: Course, x: nat)
    requires Tidy(c, k) && x < |c.filters|
    ensures Tidy(LeaveCurrent(c, x), k)
  {
    hide Wait, Pile;
    var rest :| Aligned(c, k, rest);
    assert Aligned(LeaveCurrent(c, x), k, rest);
  }

  lemma TidyWaits(c: Chain, k: Course, p: nat)
    requires Tidy(c, k) && p < |k.below|
    ensures InOrder(k) && k.above[p] == k.below[p] + Wait(k, p)
  {
    WaitIs(k, p);
  }

  lemma {:induction false} EmptySplit(c: Chain, k: Course, h: nat)
    requires Tidy(c, k) && Held(c.buffer) == [] && h <= |c.filters|
    ensures Split(c, k, h, false)
  {
    hide Wait, Holding;
    var rest :| Aligned(c, k, rest);
    PileEmpty(k, 0);
  }

  lemma OnTheWayOpen(c: Chain, k: Course, i: nat, b: Bytes)
    requires OnTheWay(c, k, i, b) && i < |c.filters|
    ensures !c.aborted && !c.filters[i].endStream
  {
    var w, rest :| Passing(c, k, i, b, w, rest);
  }

  lemma {:induction false} EmptyLined(c: Chain, d: Chain, k: Course)
    requires Split(c, k, 0, false) && Held(c.buffer) == [] && |d.filters| == |c.filters|
    requires d.buffer == c.buffer && d.aborted == c.aborted
    ensures Lined(d, k)
  {
    hide Wait;
    LinedAt(d, k, 0, false);
  }

  lemma OnTheWayKept(c: Chain, d: Chain, k: Course, b: Bytes)
    requires OnTheWay(c, k, 0, b) && d == c.(observedEnd := d.observedEnd)
    ensures OnTheWay(d, k, 0, b)
  {
    hide Wait, Pile;
    var w, rest :| Passing(c, k, 0, b, w, rest);
    assert Passing(d, k, 0, b, w, rest);
  }

  /** Tidy, unless the chain was aborted: then at least in order. */
  ghost predicate Kempt(c: Chain, k: Course) {
    InOrder(k) && (!c.aborted ==> Tidy(c, k))
  }

  lemma LinedKempt(c: Chain, k: Course)
    requires Lined(c, k)
    ensures Kempt(c, k)
  {
    hide Wait, Pile;
    LinedTidy(c, k);
  }

  lemma KemptFinished(c: Chain, d: Chain, k: Course)
    requires Kempt(c, k) && d == c.(complete := d.complete, aborted := d.aborted) && (c.aborted ==> d.aborted)
    ensures Kempt(d, k)
  {
    hide Wait, Pile;
    if !d.aborted {
      var rest :| Aligned(c, k, rest);
      assert Aligned(d, k, rest);
    }
  }

  lemma KemptLeft(c: Chain, k: Course, x: nat)
    requires Kempt(c, k) && x < |c.filters|
    ensures Kempt(LeaveCurrent(c, x), k)
  {
    hide Wait, Pile;
    if !c.aborted { TidyLeft(c, k, x); }
  }

  lemma TidyKempt(c: Chain, k: Course)
    requires Tidy(c, k)
    ensures Kempt(c, k)
  {}
}
