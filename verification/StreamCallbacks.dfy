/** The stream callback list of the codecs: slots that are cleared but never moved, so that
    callbacks can come, go, reset the stream and raise further marks while a run over the list is
    under way. */
module StreamCallbacks {
  import opened FilterTypes

  type Callback = nat

  datatype Notice = High(callback: Callback) | Low(callback: Callback) | Reset(callback: Callback)

  function Weight(n: Notice, c: Callback): int {
    if n == High(c) then 1 else if n == Low(c) then -1 else 0
  }

  /** How many more highs than lows a callback has seen. */
  function Net(notices: seq<Notice>, c: Callback): int {
    if notices == [] then 0 else Net(notices[..|notices| - 1], c) + Weight(notices[|notices| - 1], c)
  }

  function Resets(notices: seq<Notice>, c: Callback): nat {
    if notices == [] then 0
    else Resets(notices[..|notices| - 1], c) + if notices[|notices| - 1] == Reset(c) then 1 else 0
  }

  /** Some callback was told of a mark after its own reset. */
  predicate Late(notices: seq<Notice>) {
    notices != [] &&
    var before, last := notices[..|notices| - 1], notices[|notices| - 1];
    Late(before) || (!last.Reset? && Resets(before, last.callback) > 0)
  }

  lemma {:induction false} Appended(notices: seq<Notice>, n: Notice)
    ensures forall c :: Net(notices + [n], c) == Net(notices, c) + Weight(n, c)
    ensures forall c :: Resets(notices + [n], c) == Resets(notices, c) + if n == Reset(c) then 1 else 0
    ensures Late(notices + [n]) <==> Late(notices) || (!n.Reset? && Resets(notices, n.callback) > 0)
  {
    assert (notices + [n])[..|notices|] == notices;
  }

  /** What a callback does from inside a run. */
  datatype Reaction = Remove(callback: Callback) | Add(callback: Callback) | ResetStream | MarkStream(up: bool)

  /** Each registration is of a new callback; known says of every callback there ever was how many
      more high than low runs were under way when it registered, active how many are now. The
      script says what the callbacks do, notice by notice; every behaviour that comes to an end is
      one. */
  datatype List = List(
    slots: seq<Option<Callback>>, high: nat, started: bool, localEnd: bool, notices: seq<Notice>,
    known: map<Callback, int>, active: int, script: seq<seq<Reaction>>)

  // The operations, as functions of the list.

  function Cleared(slots: seq<Option<Callback>>, c: Callback): (r: seq<Option<Callback>>)
    ensures |r| == |slots|
    ensures forall j :: 0 <= j < |slots| ==> r[j] == slots[j] || (r[j] == None && slots[j] == Some(c))
  {
    if slots == [] then []
    else if slots[0] == Some(c) then [None] + slots[1..]
    else [slots[0]] + Cleared(slots[1..], c)
  }

  function Removed(s: List, c: Callback): List { s.(slots := Cleared(s.slots, c)) }

  function Replay(c: Callback, n: nat): seq<Notice> { seq(n, _ => High(c)) }

  function Added(s: List, c: Callback): List {
    s.(slots := s.slots + [Some(c)], known := s.known[c := s.active], notices := s.notices + Replay(c, s.high))
  }

  function Told(s: List, n: Notice): List { s.(notices := s.notices + [n]) }

  /** One callback is told, and reacts. */
  function Notified(s: List, n: Notice): (r: List)
    ensures |r.script| <= |s.script| && |s.slots| <= |r.slots| && (s.started ==> r.started)
    ensures |r.script| == |s.script| ==> r.slots == s.slots
    decreases |s.script|, 0, 0
  {
    if s.script == [] then Told(s, n) else Reacted(Told(s, n).(script := s.script[1..]), s.script[0])
  }

  function Reacted(s: List, todo: seq<Reaction>): (r: List)
    ensures |r.script| <= |s.script| && |s.slots| <= |r.slots| && (s.started ==> r.started)
    decreases |s.script|, 3, |todo|
  {
    if todo == [] then s else Reacted(Performed(s, todo[0]), todo[1..])
  }

  /** A mark is lowered only while one is in force. */
  function Performed(s: List, a: Reaction): (r: List)
    ensures |r.script| <= |s.script| && |s.slots| <= |r.slots| && (s.started ==> r.started)
    decreases |s.script|, 3, 0
  {
    match a
    case Remove(c) => Removed(s, c)
    case Add(c) => if c !in s.known then Added(s, c) else s
    case ResetStream => ResetAll(s)
    case MarkStream(up) => if up || s.high > 0 then MarkAll(s, up) else s
  }

  /** The reset callbacks, which are started once. */
  function ResetAll(s: List): (r: List)
    ensures r.started && |r.script| <= |s.script| && |s.slots| <= |r.slots| && (s.started ==> r == s)
    decreases |s.script|, 2, 0
  {
    if s.started then s else ResetFrom(s.(started := true), 0)
  }

  function ResetFrom(s: List, i: nat): (r: List)
    requires s.started && i <= |s.slots|
    ensures r.started && |r.script| <= |s.script| && |s.slots| <= |r.slots|
    decreases |s.script|, 1, |s.slots| - i
  {
    if i == |s.slots| then s
    else ResetFrom(if s.slots[i].Some? then Notified(s, Reset(s.slots[i].value)) else s, i + 1)
  }

  function Mark(up: bool, c: Callback): Notice { if up then High(c) else Low(c) }

  /** One turn of a watermark run. */
  function Visit(s: List, i: nat, up: bool): (r: List)
    requires i < |s.slots|
    ensures |r.script| <= |s.script| && |s.slots| <= |r.slots| && (s.started ==> r.started)
    ensures |r.script| == |s.script| ==> r.slots == s.slots
    decreases |s.script|, 0, 1
  {
    if s.slots[i].Some? then Notified(s, Mark(up, s.slots[i].value)) else s
  }

  function MarkFrom(s: List, i: nat, up: bool): (r: List)
    requires i <= |s.slots|
    ensures |r.script| <= |s.script| && |s.slots| <= |r.slots| && (s.started ==> r.started)
    decreases |s.script|, 1, |s.slots| - i
  {
    if i == |s.slots| then s else MarkFrom(Visit(s, i, up), i + 1, up)
  }

  function Way(up: bool): int { if up then 1 else -1 }

  function Counted(s: List, up: bool): List
    requires !up ==> s.high > 0
  {
    s.(high := s.high + Way(up), active := s.active + Way(up))
  }

  /** A watermark run, up or down. */
  function MarkAll(s: List, up: bool): (r: List)
    requires !up ==> s.high > 0
    ensures |r.script| <= |s.script| && |s.slots| <= |r.slots| && (s.started ==> r.started)
    decreases |s.script|, 2, 0
  {
    if s.started || s.localEnd then s else MarkFrom(Counted(s, up), 0, up).(active := s.active)
  }

  // What they keep.

  /** Slots hold distinct known callbacks; an unknown one has seen nothing; nobody is told of a
      reset that was not started, and nobody before those in front. */
  ghost predicate Valid(s: List) {
    (forall i :: 0 <= i < |s.slots| && s.slots[i].Some? ==> s.slots[i].value in s.known) &&
    (forall i, j :: 0 <= i < j < |s.slots| && s.slots[i].Some? ==> s.slots[i] != s.slots[j]) &&
    (forall c :: c !in s.known ==> Net(s.notices, c) == 0 && Resets(s.notices, c) == 0) &&
    (!s.started ==> forall c :: Resets(s.notices, c) == 0) &&
    (forall i, j :: 0 <= i < j < |s.slots| && s.slots[i].Some? && s.slots[j].Some? ==>
       Resets(s.notices, s.slots[j].value) > 0 ==> Resets(s.notices, s.slots[i].value) > 0)
  }

  /** How many highs a callback is ahead of the stream. */
  function Lead(s: List, c: Callback): int { Net(s.notices, c) - s.high }

  /** Every registered callback is as many highs ahead as the stream is. */
  ghost predicate Balanced(s: List) {
    forall j :: 0 <= j < |s.slots| && s.slots[j].Some? ==> Lead(s, s.slots[j].value) == 0
  }

  /** The old slots are where they were, or cleared; new ones hold new callbacks. */
  ghost predicate Grown(s: List, r: List) {
    |s.slots| <= |r.slots| && r.localEnd == s.localEnd && r.active == s.active && (s.started ==> r.started) &&
    (forall c :: c in s.known ==> c in r.known && r.known[c] == s.known[c]) &&
    (forall j :: 0 <= j < |s.slots| ==> r.slots[j] == s.slots[j] || r.slots[j] == None) &&
    (forall j :: |s.slots| <= j < |r.slots| && r.slots[j].Some? ==>
       r.slots[j].value in r.known && r.slots[j].value !in s.known)
  }

  /** What becomes of a callback's lead: callbacks that were there before the slot numbered lo gain
      nothing, those from there on so much, and a new one is ahead by what was under way when it
      registered, beyond what is under way now. */
  ghost predicate Leads(s: List, r: List, lo: nat, gain: int) {
    forall j :: 0 <= j < |r.slots| && r.slots[j].Some? ==>
      Lead(r, r.slots[j].value) ==
        if j < |s.slots| then Lead(s, r.slots[j].value) + (if j < lo then 0 else gain)
        else if r.slots[j].value in r.known then r.known[r.slots[j].value] - s.active + gain
        else 0
  }

  /** Once the reset has been started, no old callback is told of it again, no new one at all, and
      none of a mark after its reset. */
  ghost predicate Quiet(s: List, r: List) {
    s.started ==>
      (Late(r.notices) <==> Late(s.notices)) &&
      (forall c :: c in s.known ==> Resets(r.notices, c) == Resets(s.notices, c)) &&
      (forall j :: |s.slots| <= j < |r.slots| && r.slots[j].Some? ==> Resets(r.notices, r.slots[j].value) == 0)
  }

  /** What callbacks do in reaction, a whole reset or whole watermark runs included, changes no
      lead. */
  ghost predicate Settled(s: List, r: List) {
    Valid(r) && Grown(s, r) && Leads(s, r, 0, 0) && Quiet(s, r)
  }

  lemma SettledTrans(s: List, r: List, t: List)
    requires Settled(s, r) && Settled(r, t)
    ensures Settled(s, t)
  {
    hide Lead, Resets, Late, Net;
  }

  lemma SettledSelf(s: List)
    requires Valid(s)
    ensures Settled(s, s)
  {
    hide Lead, Resets, Late, Net;
  }

  lemma RemovedSettled(s: List, c: Callback)
    requires Valid(s)
    ensures Settled(s, Removed(s, c))
  {
    hide Net, Resets, Late;
  }

  lemma {:induction false} Replayed(notices: seq<Notice>, c: Callback, n: nat)
    requires Resets(notices, c) == 0
    ensures var r := notices + Replay(c, n);
            (forall d :: Net(r, d) == Net(notices, d) + (if d == c then n else 0)) &&
            (forall d :: Resets(r, d) == Resets(notices, d)) && (Late(r) <==> Late(notices))
  {
    hide Net, Resets, Late;
    if n == 0 {
      assert notices + Replay(c, 0) == notices;
    } else {
      Replayed(notices, c, n - 1);
      assert notices + Replay(c, n) == notices + Replay(c, n - 1) + [High(c)];
      Appended(notices + Replay(c, n - 1), High(c));
    }
  }

  /** However late a callback registers, it is as many highs ahead as the stream. */
  lemma {:induction false} AddedSettled(s: List, c: Callback)
    requires Valid(s) && c !in s.known
    ensures var r := Added(s, c);
            Settled(s, r) && Lead(r, c) == 0 && Resets(r.notices, c) == 0 && (Balanced(s) ==> Balanced(r))
  {
    hide Net, Resets, Late;
    Replayed(s.notices, c, s.high);
    var r := Added(s, c);
    assert forall j :: 0 <= j < |s.slots| ==> r.slots[j] == s.slots[j];
    assert Valid(r) && Grown(s, r);
    hide Valid, Grown;
  }

  lemma {:induction false} ReactedSettled(s: List, todo: seq<Reaction>)
    requires Valid(s)
    ensures Settled(s, Reacted(s, todo))
    decreases |s.script|, 3, |todo|
  {
    hide Settled, Valid, Performed;
    if todo == [] {
      SettledSelf(s);
    } else {
      var s1 := Performed(s, todo[0]);
      PerformedSettled(s, todo[0]);
      SettledValid(s, s1);
      ReactedSettled(s1, todo[1..]);
      SettledTrans(s, s1, Reacted(s1, todo[1..]));
    }
  }

  lemma {:induction false} PerformedSettled(s: List, a: Reaction)
    requires Valid(s)
    ensures Settled(s, Performed(s, a))
    decreases |s.script|, 3, 0
  {
    hide Settled, Valid, ResetAll, MarkAll;
    SettledSelf(s);
    match a
    case Remove(c) => RemovedSettled(s, c);
    case Add(c) => if c !in s.known { AddedSettled(s, c); }
    case ResetStream => ResetAllSettled(s);
    case MarkStream(up) => if up || s.high > 0 { MarkAllSettled(s, up); }
  }

  lemma SettledValid(s: List, r: List)
    requires Settled(s, r)
    ensures Valid(r) && (s.started ==> r.started)
  {}

  /** A callback that has been told reacts. */
  lemma {:induction false} NotifiedSettled(s: List, n: Notice)
    requires Valid(Told(s, n))
    ensures Settled(Told(s, n), Notified(s, n))
    decreases |s.script|, 0, 0
  {
    hide Valid, Reacted;
    var s1 := Told(s, n);
    SettledSelf(s1);
    if s.script != [] {
      var s2 := s1.(script := s.script[1..]);
      assert Valid(s2) by { ScriptValid(s1, s.script[1..]); }
      ReactedSettled(s2, s.script[0]);
      ScriptSettled(s1, s2, Reacted(s2, s.script[0]));
    }
  }

  lemma ScriptValid(s: List, script: seq<seq<Reaction>>)
    requires Valid(s)
    ensures Valid(s.(script := script))
  {
    hide Net, Resets;
  }

  lemma ScriptSettled(s: List, s1: List, r: List)
    requires Settled(s1, r) && s1 == s.(script := s1.script)
    ensures Settled(s, r)
  {
    hide Net, Resets, Late, Valid;
  }

  // A reset.

  ghost predicate ResetTo(s: List, i: nat) {
    forall j :: 0 <= j < |s.slots| && s.slots[j].Some? ==> Resets(s.notices, s.slots[j].value) == if j < i then 1 else 0
  }

  /** As Settled, but for the reset notices themselves. */
  ghost predicate Resetting(s: List, r: List) {
    Valid(r) && Grown(s, r) && Leads(s, r, 0, 0) && (Late(r.notices) <==> Late(s.notices))
  }

  lemma ResettingTrans(s: List, r: List, t: List)
    requires Resetting(s, r) && Resetting(r, t)
    ensures Resetting(s, t)
  {
    hide Lead, Net, Resets, Late;
  }

  lemma ResettingSelf(s: List)
    requires Valid(s)
    ensures Resetting(s, s)
  {
    hide Lead, Net, Resets, Late;
  }

  /** A reset that is started reaches every callback registered at its end exactly once, and no
      mark comes after it meanwhile. */
  lemma {:induction false} ResetAllSettled(s: List)
    requires Valid(s)
    ensures var r := ResetAll(s);
            Settled(s, r) && (Late(r.notices) <==> Late(s.notices)) &&
            (!s.started ==>
               forall j :: 0 <= j < |r.slots| && r.slots[j].Some? ==> Resets(r.notices, r.slots[j].value) == 1)
    decreases |s.script|, 2, 0
  {
    hide Net, Resets, Late, Valid, Settled, Resetting, ResetFrom;
    if s.started {
      SettledSelf(s);
    } else {
      var s1 := s.(started := true);
      StartedValid(s);
      ResetFromSettled(s1, 0);
      ResettingSettled(s, ResetFrom(s1, 0));
    }
  }

  lemma StartedValid(s: List)
    requires Valid(s) && !s.started
    ensures Valid(s.(started := true)) && ResetTo(s.(started := true), 0)
  {
    hide Net, Resets;
  }

  lemma ResettingSettled(s: List, r: List)
    requires !s.started && Resetting(s.(started := true), r)
    ensures Settled(s, r) && (Late(r.notices) <==> Late(s.notices))
  {
    hide Net, Resets, Late, Valid;
  }

  lemma {:induction false} ResetFromSettled(s: List, i: nat)
    requires Valid(s) && s.started && i <= |s.slots| && ResetTo(s, i)
    ensures var r := ResetFrom(s, i); Resetting(s, r) && ResetTo(r, |r.slots|)
    decreases |s.script|, 1, |s.slots| - i
  {
    hide Resets, Valid, Notified, Resetting;
    if i == |s.slots| {
      ResettingSelf(s);
    } else {
      var s1 := if s.slots[i].Some? then Notified(s, Reset(s.slots[i].value)) else s;
      assert Resetting(s, s1) && Valid(s1) && ResetTo(s1, i + 1) by {
        ResettingSelf(s);
        if s.slots[i].Some? { ResetNotified(s, i); }
      }
      ResetFromSettled(s1, i + 1);
      ResettingTrans(s, s1, ResetFrom(s1, i + 1));
    }
  }

  lemma {:induction false} ResetNotified(s: List, i: nat)
    requires Valid(s) && s.started && i < |s.slots| && s.slots[i].Some? && ResetTo(s, i)
    ensures var r := Notified(s, Reset(s.slots[i].value));
            Resetting(s, r) && Valid(r) && ResetTo(r, i + 1)
    decreases |s.script|, 0, 1
  {
    hide Net, Resets, Late, Notified;
    var n := Reset(s.slots[i].value);
    ToldValid(s, i);
    NotifiedSettled(s, n);
    Appended(s.notices, n);
  }

  lemma ToldValid(s: List, i: nat)
    requires Valid(s) && s.started && i < |s.slots| && s.slots[i].Some? && ResetTo(s, i)
    ensures Valid(Told(s, Reset(s.slots[i].value)))
  {
    hide Net, Resets, Late;
    Appended(s.notices, Reset(s.slots[i].value));
  }

  // A watermark run.

  lemma MarkedValid(s: List, n: Notice)
    requires Valid(s) && !n.Reset? && n.callback in s.known
    ensures Valid(Told(s, n))
  {
    hide Net, Resets, Late;
    Appended(s.notices, n);
  }

  /** One callback is told of a mark. */
  lemma {:induction false} Visited(s: List, i: nat, up: bool)
    requires Valid(s) && i < |s.slots|
    ensures var r := Visit(s, i, up);
            Valid(r) && Grown(s, r) && VisitLeads(s, r, i, Way(up)) && (s.slots[i].None? ==> r == s) &&
            (s.started ==>
               (Late(r.notices) <==>
                  Late(s.notices) || (s.slots[i].Some? && Resets(s.notices, s.slots[i].value) > 0)) &&
               (forall c :: c in s.known ==> Resets(r.notices, c) == Resets(s.notices, c)) &&
               (forall j :: |s.slots| <= j < |r.slots| && r.slots[j].Some? ==>
                  Resets(r.notices, r.slots[j].value) == 0))
    decreases |s.script|, 0, 1
  {
    hide Net, Resets, Late, Notified, Valid;
    if s.slots[i].Some? {
      var n := Mark(up, s.slots[i].value);
      KnownSlot(s, i);
      MarkedValid(s, n);
      NotifiedSettled(s, n);
      Appended(s.notices, n);
      SlotsDiffer(s, i);
    }
  }

  lemma SlotsDiffer(s: List, i: nat)
    requires Valid(s) && i < |s.slots| && s.slots[i].Some?
    ensures forall j :: 0 <= j < |s.slots| && j != i ==> s.slots[j] != s.slots[i]
    ensures forall c :: c !in s.known ==> c != s.slots[i].value
  {
    hide Net, Resets;
  }

  ghost predicate VisitLeads(s: List, r: List, i: nat, gain: int) {
    forall j :: 0 <= j < |r.slots| && r.slots[j].Some? ==>
      Lead(r, r.slots[j].value) ==
        if j < |s.slots| then Lead(s, r.slots[j].value) + (if j == i then gain else 0)
        else if r.slots[j].value in r.known then r.known[r.slots[j].value] - s.active
        else 0
  }

  lemma {:induction false} MarkFromLeads(s: List, i: nat, up: bool)
    requires Valid(s) && i <= |s.slots|
    ensures var r := MarkFrom(s, i, up);
            Valid(r) && Grown(s, r) && Leads(s, r, i, Way(up))
    decreases |s.script|, 1, |s.slots| - i
  {
    hide Lead, Valid, Visit, Leads, VisitLeads, Grown, Late, Resets;
    if i < |s.slots| {
      Visited(s, i, up);
      var s1 := Visit(s, i, up);
      MarkFromLeads(s1, i + 1, up);
      LeadsOn(s, s1, MarkFrom(s1, i + 1, up), i, Way(up));
    } else {
      assert Grown(s, s) && Leads(s, s, i, Way(up)) by { LeadsSelf(s, Way(up)); }
    }
  }

  lemma LeadsSelf(s: List, gain: int)
    ensures Grown(s, s) && Leads(s, s, |s.slots|, gain)
  {}

  lemma LeadsOn(s: List, s1: List, r: List, i: nat, gain: int)
    requires i < |s.slots| && Grown(s, s1) && VisitLeads(s, s1, i, gain) && Grown(s1, r) && Leads(s1, r, i + 1, gain)
    ensures Grown(s, r) && Leads(s, r, i, gain)
  {
    hide Lead;
  }

  lemma CountedValid(s: List, up: bool)
    requires Valid(s) && (!up ==> s.high > 0)
    ensures Valid(Counted(s, up))
  {
    hide Net, Resets;
  }

  lemma {:induction false} MarkAllSettled(s: List, up: bool)
    requires Valid(s) && (!up ==> s.high > 0)
    ensures Settled(s, MarkAll(s, up))
    decreases |s.script|, 2, 0
  {
    hide Net, Resets, Late, MarkFrom, Valid, Settled;
    if s.started || s.localEnd {
      SettledSelf(s);
    } else {
      var s0 := Counted(s, up);
      CountedValid(s, up);
      MarkFromLeads(s0, 0, up);
      RunOver(s, s0, MarkFrom(s0, 0, up), up);
    }
  }

  /** A run that is over has made up for the count. */
  lemma {:induction false} RunOver(s: List, s0: List, r0: List, up: bool)
    requires (!up ==> s.high > 0) && s0 == Counted(s, up) && !s.started
    requires Valid(r0) && Grown(s0, r0) && Leads(s0, r0, 0, Way(up))
    ensures Settled(s, r0.(active := s.active))
  {
    hide Net, Resets, Late, Valid;
    ActiveValid(r0, s.active);
  }

  lemma ActiveValid(s: List, active: int)
    requires Valid(s)
    ensures Valid(s.(active := active))
  {
    hide Net, Resets;
  }

  /** A run, up or down. Whoever is removed meanwhile, even if the stream is reset meanwhile, and
      whatever further marks are raised from inside, every callback that was there before and
      still is has been told of every mark exactly once. A callback that registers meanwhile has
      the marks in force replayed and is then told by every run that is under way as well: it ends
      up ahead by as many highs as were under way when it registered. So the list stays balanced
      if and only if no callback is left for which that was not nought. */
  lemma {:induction false} MarkBalance(s: List, up: bool)
    requires Valid(s) && Balanced(s) && s.active == 0 && (!up ==> s.high > 0)
    ensures var r := MarkAll(s, up);
            Valid(r) && r.active == 0 && |s.slots| <= |r.slots| &&
            (forall j :: 0 <= j < |s.slots| ==> r.slots[j] == s.slots[j] || r.slots[j] == None) &&
            (forall j :: 0 <= j < |r.slots| && r.slots[j].Some? ==>
               r.slots[j].value in r.known &&
               Net(r.notices, r.slots[j].value) == r.high + if j < |s.slots| then 0 else r.known[r.slots[j].value]) &&
            (Balanced(r) <==>
               forall j :: |s.slots| <= j < |r.slots| && r.slots[j].Some? ==> r.known[r.slots[j].value] == 0)
  {
    hide Net, Resets, Late, MarkAll;
    MarkAllSettled(s, up);
  }

  // Marks after the reset.

  datatype Point = Point(list: List, next: nat)

  /** The state of a run when the reset has just been started, with the slot it visits next, or
      at its end. */
  function ResetPoint(s: List, i: nat, up: bool): (p: Point)
    requires i <= |s.slots|
    ensures p.next <= |p.list.slots|
    decreases |s.script|, |s.slots| - i
  {
    if i == |s.slots| || s.started then Point(s, i) else ResetPoint(Visit(s, i, up), i + 1, up)
  }

  /** A callback that has been told of the reset is still registered at slot i or behind it. */
  ghost predicate ResetBehind(s: List, i: nat) {
    exists k :: i <= k < |s.slots| && s.slots[k].Some? && Resets(s.notices, s.slots[k].value) > 0
  }

  lemma {:induction false} NeverReset(notices: seq<Notice>)
    requires forall c :: Resets(notices, c) == 0
    ensures !Late(notices)
  {
    if notices != [] {
      var before, last := notices[..|notices| - 1], notices[|notices| - 1];
      assert notices == before + [last];
      Appended(before, last);
      forall c ensures Resets(before, c) == 0 { assert Resets(notices, c) == 0; }
      NeverReset(before);
    }
  }

  lemma {:induction false} PointReached(s: List, i: nat, up: bool)
    requires Valid(s) && i <= |s.slots|
    ensures var p := ResetPoint(s, i, up);
            Valid(p.list) && (p.list.started || p.next == |p.list.slots|) &&
            MarkFrom(s, i, up) == MarkFrom(p.list, p.next, up)
    decreases |s.script|, |s.slots| - i
  {
    hide Valid, Visit, VisitLeads, Grown;
    if i < |s.slots| && !s.started {
      Visited(s, i, up);
      PointReached(Visit(s, i, up), i + 1, up);
    }
  }

  /** Once the reset has been started, a run tells somebody of a mark too late if and only if it
      still has somebody to visit who was told of the reset. */
  lemma {:induction false} StartedLate(s: List, i: nat, up: bool)
    requires Valid(s) && s.started && i <= |s.slots|
    ensures Late(MarkFrom(s, i, up).notices) <==> Late(s.notices) || ResetBehind(s, i)
    decreases |s.script|, |s.slots| - i
  {
    hide Net, Resets, Late, Visit, VisitLeads;
    if i < |s.slots| {
      var s1 := Visit(s, i, up);
      Visited(s, i, up);
      StartedLate(s1, i + 1, up);
      BehindNext(s, s1, i);
    }
  }

  lemma BehindNext(s: List, r: List, i: nat)
    requires Valid(s) && Grown(s, r) && s.started && i < |s.slots|
    requires forall c :: c in s.known ==> Resets(r.notices, c) == Resets(s.notices, c)
    requires forall j :: |s.slots| <= j < |r.slots| && r.slots[j].Some? ==> Resets(r.notices, r.slots[j].value) == 0
    ensures ResetBehind(r, i + 1) ==> ResetBehind(s, i)
    ensures ResetBehind(s, i) ==>
              (s.slots[i].Some? && Resets(s.notices, s.slots[i].value) > 0) ||
              (s.slots[i].None? && ResetBehind(s, i + 1))
  {
    hide Net, Resets;
    if ResetBehind(r, i + 1) {
      var k :| i + 1 <= k < |r.slots| && r.slots[k].Some? && Resets(r.notices, r.slots[k].value) > 0;
      assert s.slots[k] == r.slots[k];
    }
  }

  /** Nothing follows the reset, exactly when: a run in which the reset is started tells somebody
      of the mark after their reset if and only if a run raised from inside it has done so, or some
      callback that was told of the reset is still registered behind the one that started it. */
  lemma {:induction false} MarksAfterResetIff(s: List, up: bool)
    requires Valid(s) && (!up ==> s.high > 0) && !s.started && !s.localEnd
    ensures var p := ResetPoint(Counted(s, up), 0, up);
            Late(MarkAll(s, up).notices) <==>
              p.list.started && (Late(p.list.notices) || ResetBehind(p.list, p.next))
  {
    hide Net, Resets, Late, MarkFrom;
    CountedValid(s, up);
    PointReached(Counted(s, up), 0, up);
    var p := ResetPoint(Counted(s, up), 0, up);
    if p.list.started {
      StartedLate(p.list, p.next, up);
    } else {
      MarkOver(p.list, up);
      NeverReset(p.list.notices);
    }
  }

  lemma MarkOver(s: List, up: bool)
    ensures MarkFrom(s, |s.slots|, up) == s
  {}

  // No marks once the stream has ended locally or its reset has been started.

  /** What is asked of the list from outside. */
  datatype Operation =
    | Register(callback: Callback)
    | Unregister(callback: Callback)
    | RunMark(up: bool)
    | RunResets
    | EndHere

  function Done(s: List, a: Operation): List {
    match a
    case Register(c) => if c !in s.known then Added(s, c) else s
    case Unregister(c) => Removed(s, c)
    case RunMark(up) => if up || s.high > 0 then MarkAll(s, up) else s
    case RunResets => ResetAll(s)
    case EndHere => s.(localEnd := true)
  }

  function AllDone(s: List, todo: seq<Operation>): List
    decreases |todo|
  {
    if todo == [] then s else AllDone(Done(s, todo[0]), todo[1..])
  }

  /** The marks a callback was told of, in order. */
  function Heard(notices: seq<Notice>, c: Callback): seq<bool> {
    if notices == [] then []
    else
      var before, last := Heard(notices[..|notices| - 1], c), notices[|notices| - 1];
      if last == High(c) then before + [true] else if last == Low(c) then before + [false] else before
  }

  lemma HeardMore(notices: seq<Notice>, n: Notice, c: Callback)
    ensures Heard(notices + [n], c) ==
              Heard(notices, c) + if n == High(c) then [true] else if n == Low(c) then [false] else []
  {
    assert (notices + [n])[..|notices|] == notices;
  }

  function Highs(n: nat): seq<bool> { seq(n, _ => true) }

  lemma {:induction false} HeardReplay(notices: seq<Notice>, c: Callback, n: nat, d: Callback)
    ensures Heard(notices + Replay(c, n), d) == Heard(notices, d) + if d == c then Highs(n) else []
  {
    hide Heard;
    if n == 0 {
      assert notices + Replay(c, 0) == notices;
    } else {
      HeardReplay(notices, c, n - 1, d);
      assert notices + Replay(c, n) == notices + Replay(c, n - 1) + [High(c)];
      HeardMore(notices + Replay(c, n - 1), High(c), d);
      assert Highs(n) == Highs(n - 1) + [true];
    }
  }

  predicate Closed(s: List) { s.localEnd || s.started }

  /** The count stays, no callback that was registered before is told of a mark, and one that
      registers has the marks in force replayed, no more. */
  ghost predicate Silent(s: List, r: List) {
    r.high == s.high && s.known.Keys <= r.known.Keys && (Closed(s) ==> Closed(r)) &&
    forall c: Callback :: Heard(r.notices, c) ==
      Heard(s.notices, c) + if c in r.known && c !in s.known then Highs(s.high) else []
  }

  lemma SilentSelf(s: List)
    ensures Silent(s, s)
  {}

  lemma SilentTrans(s: List, r: List, t: List)
    requires Silent(s, r) && Silent(r, t)
    ensures Silent(s, t)
  {
    hide Heard, Highs;
    forall c: Callback
      ensures Heard(t.notices, c) ==
                Heard(s.notices, c) + if c in t.known && c !in s.known then Highs(s.high) else []
    {
      assert Heard(r.notices, c) ==
               Heard(s.notices, c) + if c in r.known && c !in s.known then Highs(s.high) else [];
    }
  }

  lemma {:induction false} AddedSilent(s: List, c: Callback)
    requires c !in s.known
    ensures Silent(s, Added(s, c))
  {
    hide Heard, Highs, Replay;
    forall d: Callback ensures Heard(Added(s, c).notices, d) == Heard(s.notices, d) + if d ==
      c then Highs(s.high) else [] {
      HeardReplay(s.notices, c, s.high, d);
    }
  }

  lemma ToldSilent(s: List, c: Callback, script: seq<seq<Reaction>>)
    ensures Silent(s, Told(s, Reset(c)).(script := script))
  {
    forall d: Callback ensures Heard(s.notices + [Reset(c)], d) == Heard(s.notices, d) {
      HeardMore(s.notices, Reset(c), d);
    }
    hide Heard;
  }

  lemma {:induction false} ReactedSilent(s: List, todo: seq<Reaction>)
    requires Closed(s)
    ensures Silent(s, Reacted(s, todo))
    decreases |s.script|, 3, |todo|
  {
    hide Heard, Performed;
    if todo == [] {
      SilentSelf(s);
    } else {
      var s1 := Performed(s, todo[0]);
      PerformedSilent(s, todo[0]);
      ReactedSilent(s1, todo[1..]);
      SilentTrans(s, s1, Reacted(s1, todo[1..]));
    }
  }

  lemma {:induction false} PerformedSilent(s: List, a: Reaction)
    requires Closed(s)
    ensures Silent(s, Performed(s, a))
    decreases |s.script|, 3, 0
  {
    hide Heard, ResetAll;
    match a
    case Remove(c) => SilentSelf(s);
    case Add(c) => SilentSelf(s); if c !in s.known { AddedSilent(s, c); }
    case ResetStream => ResetAllSilent(s);
    case MarkStream(up) => SilentSelf(s);
  }

  lemma {:induction false} ResetAllSilent(s: List)
    ensures Silent(s, ResetAll(s))
    decreases |s.script|, 2, 0
  {
    hide Heard, ResetFrom;
    SilentSelf(s);
    if !s.started {
      var s1 := s.(started := true);
      assert Silent(s, s1);
      ResetFromSilent(s1, 0);
      SilentTrans(s, s1, ResetFrom(s1, 0));
    }
  }

  lemma {:induction false} ResetFromSilent(s: List, i: nat)
    requires s.started && i <= |s.slots|
    ensures Silent(s, ResetFrom(s, i))
    decreases |s.script|, 1, |s.slots| - i
  {
    hide Heard, Notified;
    SilentSelf(s);
    if i < |s.slots| {
      var s1 := if s.slots[i].Some? then Notified(s, Reset(s.slots[i].value)) else s;
      if s.slots[i].Some? { ResetToldSilent(s, s.slots[i].value); }
      ResetFromSilent(s1, i + 1);
      SilentTrans(s, s1, ResetFrom(s1, i + 1));
    }
  }

  lemma {:induction false} ResetToldSilent(s: List, c: Callback)
    requires Closed(s)
    ensures Silent(s, Notified(s, Reset(c)))
    decreases |s.script|, 0, 0
  {
    hide Heard, Reacted;
    if s.script == [] {
      ToldSilent(s, c, []);
    } else {
      var s1 := Told(s, Reset(c)).(script := s.script[1..]);
      ToldSilent(s, c, s.script[1..]);
      ReactedSilent(s1, s.script[0]);
      SilentTrans(s, s1, Reacted(s1, s.script[0]));
    }
  }

  lemma {:induction false} DoneSilent(s: List, a: Operation)
    requires Closed(s) || a.EndHere? || a.RunResets?
    ensures Silent(s, Done(s, a)) && Closed(Done(s, a))
  {
    hide Heard, ResetAll;
    SilentSelf(s);
    match a
    case Register(c) => if c !in s.known { AddedSilent(s, c); }
    case Unregister(c) =>
    case RunMark(up) =>
    case RunResets => ResetAllSilent(s);
    case EndHere =>
  }

  lemma {:induction false} AllDoneSilent(s: List, todo: seq<Operation>)
    requires Closed(s)
    ensures Silent(s, AllDone(s, todo))
    decreases |todo|
  {
    hide Heard, Done, Closed;
    if todo == [] {
      SilentSelf(s);
    } else {
      var s1 := Done(s, todo[0]);
      DoneSilent(s, todo[0]);
      AllDoneSilent(s1, todo[1..]);
      SilentTrans(s, s1, AllDone(s1, todo[1..]));
    }
  }

  /** When a stream ends locally, or is reset, marks are over: over that step and whatever is asked
      of the list afterwards, from outside or by callbacks from inside a run, the count of highs
      stays, no callback hears of a mark, and one that registers hears the replay only. */
  lemma {:induction false} NoMarksOnceOver(s: List, last: Operation, after: seq<Operation>)
    requires last.EndHere? || last.RunResets?
    ensures Silent(s, AllDone(s, [last] + after))
    ensures forall c :: c in s.known ==> Net(AllDone(s, [last] + after).notices, c) == Net(s.notices, c)
  {
    hide Heard, Done, Net;
    var s1 := Done(s, last);
    DoneSilent(s, last);
    AllDoneSilent(s1, after);
    SilentTrans(s, s1, AllDone(s1, after));
    assert ([last] + after)[1..] == after;
    var r := AllDone(s, [last] + after);
    forall c | c in s.known ensures Net(r.notices, c) == Net(s.notices, c) {
      NetHeard(r.notices, c);
      NetHeard(s.notices, c);
      var none: seq<bool> := [];
      assert Heard(r.notices, c) == Heard(s.notices, c) + none == Heard(s.notices, c);
    }
  }

  function Sum(marks: seq<bool>): int {
    if marks == [] then 0 else Sum(marks[..|marks| - 1]) + Way(marks[|marks| - 1])
  }

  lemma {:induction false} NetHeard(notices: seq<Notice>, c: Callback)
    ensures Net(notices, c) == Sum(Heard(notices, c))
  {
    if notices != [] { NetHeard(notices[..|notices| - 1], c); }
  }

  /** Otherwise, with callbacks that do nothing about it, a mark counts and each registered callback
      hears of it once, in the order of the slots. */
  lemma {:induction false} OpenMarkIsHeard(s: List, up: bool)
    requires !Closed(s) && s.script == [] && (!up ==> s.high > 0)
    ensures MarkAll(s, up) == s.(high := s.high + Way(up), notices := s.notices + Marks(s.slots, up))
  {
    hide MarkFrom;
    MarksFrom(Counted(s, up), 0, up);
    assert s.slots[0..] == s.slots;
  }

  function Marks(slots: seq<Option<Callback>>, up: bool): seq<Notice> {
    if slots == [] then []
    else (if slots[0].Some? then [Mark(up, slots[0].value)] else []) + Marks(slots[1..], up)
  }

  lemma NoMarks(slots: seq<Option<Callback>>, up: bool)
    requires slots == []
    ensures Marks(slots, up) == []
  {}

  lemma MarksFirst(slots: seq<Option<Callback>>, i: nat, up: bool)
    requires i < |slots|
    ensures Marks(slots[i..], up) ==
              (if slots[i].Some? then [Mark(up, slots[i].value)] else []) + Marks(slots[i + 1..], up)
  {
    assert slots[i..][1..] == slots[i + 1..];
  }

  lemma VisitPlain(s: List, i: nat, up: bool)
    requires s.script == [] && i < |s.slots|
    ensures Visit(s, i, up) ==
              s.(notices := s.notices + if s.slots[i].Some? then [Mark(up, s.slots[i].value)] else [])
  {
    assert s.notices + [] == s.notices;
  }

  lemma {:induction false} MarksFrom(s: List, i: nat, up: bool)
    requires s.script == [] && i <= |s.slots|
    ensures MarkFrom(s, i, up) == s.(notices := s.notices + Marks(s.slots[i..], up))
    decreases |s.slots| - i
  {
    hide Visit, MarkFrom, Marks;
    if i == |s.slots| {
      MarkOver(s, up);
      NoMarks(s.slots[i..], up);
    } else {
      var told := if s.slots[i].Some? then [Mark(up, s.slots[i].value)] else [];
      var s1 := s.(notices := s.notices + told);
      assert Visit(s, i, up) == s1 by { VisitPlain(s, i, up); }
      MarkTurn(s, i, up);
      MarksFrom(s1, i + 1, up);
      MarksFirst(s.slots, i, up);
      assert s1.notices + Marks(s.slots[i + 1..], up) == s.notices + (told + Marks(s.slots[i + 1..], up));
    }
  }

  // Two runs that go wrong.

  function Single(reaction: Reaction): List {
    List([Some(0)], 0, false, false, [], map[0 := 0], 0, [[reaction]])
  }

  function Pair(reaction: Reaction): List {
    List([Some(0), Some(1)], 0, false, false, [], map[0 := 0, 1 := 0], 0, [[reaction]])
  }

  /** The first callback is told of the first mark, and reacts. */
  lemma FirstVisit(s: List, a: Reaction)
    requires s == Single(a) || s == Pair(a)
    ensures var s1 := Counted(s, true).(notices := [High(0)], script := []);
            Visit(Counted(s, true), 0, true) == Performed(s1, a)
  {
    hide Performed;
    assert [[a]][1..] == [];
    var s1 := Counted(s, true).(notices := [High(0)], script := []);
    assert Told(Counted(s, true), High(0)).(script := []) == s1;
    assert [a][1..] == [];
    assert Reacted(s1, [a]) == Reacted(Performed(s1, a), []);
  }

  /** A callback that registers another from inside a run leaves the list unbalanced. */
  lemma {:induction false} LateRegistrationIsOff()
    ensures var s := Single(Add(1)); Valid(s) && Balanced(s) && !Balanced(MarkAll(s, true))
  {
    hide MarkAll, Valid, Balanced, Net;
    StartValid(Single(Add(1)));
    var r := LateRun();
    MarkBalance(Single(Add(1)), true);
    assert r.slots[1].Some?;
  }

  lemma {:induction false} LateRun() returns (r: List)
    ensures r == MarkAll(Single(Add(1)), true) && r.slots == [Some(0), Some(1)] && 1 in r.known && r.known[1] == 1
  {
    hide Notified, MarkFrom, Visit, ResetAll, Replay;
    var s := Single(Add(1));
    var s0 := Counted(s, true);
    var s1 := s0.(notices := [High(0)], script := []);
    var s2 := Added(s1, 1);
    var s3 := Told(s2, High(1));
    FirstVisit(s, Add(1));
    Untouched(s2, 1, true);
    MarkTurn(s0, 0, true);
    MarkTurn(s2, 1, true);
    MarkOver(s3, true);
    r := MarkAll(s, true);
  }

  /** A new list. */
  lemma StartValid(s: List)
    requires s.notices == [] && s.high == 0
    requires forall i :: 0 <= i < |s.slots| ==> s.slots[i] == Some(i) && i in s.known
    ensures Valid(s) && Balanced(s)
  {
    hide Net, Resets;
    NothingSeen();
  }

  lemma NothingSeen()
    ensures forall c :: Net([], c) == 0 && Resets([], c) == 0
  {}

  lemma Untouched(s: List, i: nat, up: bool)
    requires s.script == [] && i < |s.slots| && s.slots[i].Some?
    ensures Visit(s, i, up) == Told(s, Mark(up, s.slots[i].value))
  {}

  lemma Unmoved(s: List, n: Notice)
    requires s.script == []
    ensures Notified(s, n) == Told(s, n)
  {}

  /** A callback that resets the stream from inside a run has the next one told of the mark after
      its reset. */
  lemma {:induction false} MarkFollowsReset()
    ensures var s := Pair(ResetStream); Valid(s) && Balanced(s) && Late(MarkAll(s, true).notices)
  {
    hide MarkAll, Late, Valid, Balanced, Resets, ResetPoint;
    var s := Pair(ResetStream);
    StartValid(s);
    var r := ResetRun();
    assert ResetBehind(r, 1) by { assert r.slots[1] == Some(1); }
    MarksAfterResetIff(s, true);
  }

  lemma {:induction false} ResetRun() returns (r: List)
    ensures ResetPoint(Counted(Pair(ResetStream), true), 0, true) == Point(r, 1)
    ensures r.started && r.slots == [Some(0), Some(1)] && Resets(r.notices, 1) > 0
  {
    hide Notified, ResetFrom, Visit, Resets, MarkAll;
    var s := Pair(ResetStream);
    var s1 := Counted(s, true).(notices := [High(0)], script := []);
    r := BothReset(s1.(started := true));
    FirstVisit(s, ResetStream);
    assert ResetPoint(r, 1, true) == Point(r, 1);
  }

  lemma BothReset(s: List) returns (r: List)
    requires s.started && s.slots == [Some(0), Some(1)] && s.script == []
    ensures r == ResetFrom(s, 0) && r.started && r.slots == s.slots && Resets(r.notices, 1) > 0
  {
    hide Notified;
    var s1 := Told(s, Reset(0));
    r := Told(s1, Reset(1));
    Unmoved(s, Reset(0));
    Unmoved(s1, Reset(1));
    assert ResetFrom(r, 2) == r;
    assert ResetFrom(s1, 1) == r;
    Appended(s1.notices, Reset(1));
  }

  // One turn of each loop, as an equation between its functions.

  lemma ReactedTurn(s: List, todo: seq<Reaction>, i: nat)
    requires i < |todo|
    ensures Reacted(s, todo[i..]) == Reacted(Performed(s, todo[i]), todo[i + 1..])
  {
    hide Performed;
    assert todo[i..][1..] == todo[i + 1..];
  }

  lemma NothingToDo(s: List, todo: seq<Reaction>)
    requires todo == []
    ensures Reacted(s, todo) == s
  {}

  lemma ResetTurn(s: List, i: nat)
    requires s.started && i < |s.slots|
    ensures ResetFrom(s, i) ==
              ResetFrom(if s.slots[i].Some? then Notified(s, Reset(s.slots[i].value)) else s, i + 1)
  {
    hide Notified;
  }

  lemma ResetOver(s: List)
    requires s.started
    ensures ResetFrom(s, |s.slots|) == s
  {}

  lemma MarkTurn(s: List, i: nat, up: bool)
    requires i < |s.slots|
    ensures MarkFrom(s, i, up) == MarkFrom(Visit(s, i, up), i + 1, up)
  {
    hide Visit;
  }

  lemma KnownSlot(s: List, i: nat)
    requires Valid(s) && i < |s.slots| && s.slots[i].Some?
    ensures s.slots[i].value in s.known
  {
    hide Net, Resets;
  }

  lemma {:induction false} ClearedAt(slots: seq<Option<Callback>>, c: Callback, i: nat)
    requires i <= |slots| && forall j :: 0 <= j < i ==> slots[j] != Some(c)
    ensures i == |slots| ==> Cleared(slots, c) == slots
    ensures i < |slots| && slots[i] == Some(c) ==> Cleared(slots, c) == slots[i := None]
  {
    if i > 0 { ClearedAt(slots[1..], c, i - 1); }
  }

  /** With distinct callbacks the one that is removed is gone. */
  lemma {:induction false} ClearedGone(slots: seq<Option<Callback>>, c: Callback, k: nat)
    requires forall i, j :: 0 <= i < j < |slots| && slots[i].Some? ==> slots[i] != slots[j]
    requires k < |slots|
    ensures Cleared(slots, c)[k] == if slots[k] == Some(c) then None else slots[k]
  {
    if slots[0] != Some(c) && k > 0 {
      assert forall i :: 0 <= i < |slots| - 1 ==> slots[1..][i] == slots[i + 1];
      ClearedGone(slots[1..], c, k - 1);
    }
  }

  /** The list as an object, with the source's loops over it. What the callbacks do, and which
      runs are under way, is kept beside it. */
  class Helper {
    var slots: seq<Option<Callback>>
    var high: nat
    var resetStarted: bool
    var localEndStream: bool
    var notices: seq<Notice>
    var known: map<Callback, int>
    var active: int
    var script: seq<seq<Reaction>>

    constructor (script: seq<seq<Reaction>>)
      ensures Valid(State()) && Balanced(State()) && State() == List([], 0, false, false, [], map[], 0, script)
    {
      slots, high, resetStarted, localEndStream, notices, known, active := [], 0, false, false, [], map[], 0;
      this.script := script;
    }

    function State(): List
      reads this
    {
      List(slots, high, resetStarted, localEndStream, notices, known, active, script)
    }

    /** Registration appends a slot and replays the highs that are in force. */
    method AddCallbacks(c: Callback)
      requires Valid(State()) && c !in known
      modifies this
      ensures State() == Added(old(State()), c) && Valid(State())
      ensures Net(notices, c) == high && (old(Balanced(State())) ==> Balanced(State()))
    {
      AddedSettled(State(), c);
      hide Valid, Balanced, Net;
      slots := slots + [Some(c)];
      known := known[c := active];
      var i := 0;
      while i < high
        invariant 0 <= i <= high && notices == old(notices) + Replay(c, i)
        invariant State() == old(State()).(slots := old(slots) + [Some(c)], known := old(known)[c := active],
                                           notices := notices)
      {
        notices := notices + [High(c)];
        i := i + 1;
      }
    }

    /** Removal clears the slot and moves nothing. */
    method RemoveCallbacks(c: Callback)
      requires Valid(State())
      modifies this`slots
      ensures State() == Removed(old(State()), c) && Valid(State()) && (old(Balanced(State())) ==> Balanced(State()))
      ensures |slots| == |old(slots)|
      ensures forall j :: 0 <= j < |slots| ==> slots[j] == if old(slots)[j] == Some(c) then None else old(slots)[j]
    {
      hide Net, Resets, Late, Cleared;
      RemovedSettled(State(), c);
      forall j | 0 <= j < |slots| ensures Cleared(slots, c)[j] == if slots[j] == Some(c) then None else slots[j] {
        ClearedGone(slots, c, j);
      }
      var i := 0;
      while i < |slots|
        invariant 0 <= i <= |slots| && slots == old(slots)
        invariant forall j :: 0 <= j < i ==> slots[j] != Some(c)
      {
        if slots[i] == Some(c) {
          ClearedAt(slots, c, i);
          slots := slots[i := None];
          return;
        }
        i := i + 1;
      }
      ClearedAt(slots, c, i);
    }

    /** A notice, and what the callback does about it. */
    method Notify(n: Notice)
      requires Valid(Told(State(), n))
      modifies this
      ensures State() == Notified(old(State()), n) && Valid(State())
      decreases |script|, 0, 0
    {
      hide Valid, Reacted, Performed;
      notices := notices + [n];
      if script == [] { return; }
      var todo := script[0];
      ScriptValid(State(), script[1..]);
      script := script[1..];
      ghost var s1 := State();
      assert todo[0..] == todo;
      var i := 0;
      while i < |todo|
        invariant 0 <= i <= |todo| && Valid(State()) && |script| <= |s1.script|
        invariant Reacted(State(), todo[i..]) == Reacted(s1, todo)
      {
        ReactedTurn(State(), todo, i);
        Perform(todo[i]);
        i := i + 1;
      }
      NothingToDo(State(), todo[i..]);
    }

    method Perform(a: Reaction)
      requires Valid(State())
      modifies this
      ensures State() == Performed(old(State()), a) && Valid(State()) && |script| <= |old(script)|
      decreases |script|, 3, 0
    {
      hide Valid, ResetAll, MarkAll, Net;
      match a {
        case Remove(c) => RemoveCallbacks(c);
        case Add(c) => if c !in known { AddCallbacks(c); }
        case ResetStream => RunReset();
        case MarkStream(up) => if up || high > 0 { RunWatermark(up); }
      }
    }

    /** The reset callbacks run once, however often the reset is asked for. */
    method RunReset()
      requires Valid(State())
      modifies this
      ensures State() == ResetAll(old(State())) && Valid(State())
      decreases |script|, 2, 0
    {
      hide Net, Resets, Late, ResetFrom, Notified, Valid;
      if resetStarted { return; }
      StartedValid(State());
      resetStarted := true;
      ghost var s1 := State();
      var i := 0;
      while i < |slots|
        invariant 0 <= i <= |slots| && resetStarted && Valid(State()) && ResetTo(State(), i)
        invariant |script| <= |s1.script| && ResetFrom(State(), i) == ResetFrom(s1, 0)
        decreases |script|, |slots| - i
      {
        ResetTurn(State(), i);
        if slots[i].Some? {
          ResetNotified(State(), i);
          ToldValid(State(), i);
          Notify(Reset(slots[i].value));
        }
        i := i + 1;
      }
      ResetOver(State());
    }

    /** A watermark run. */
    method RunWatermark(up: bool)
      requires Valid(State()) && (!up ==> high > 0)
      modifies this
      ensures State() == MarkAll(old(State()), up) && Valid(State())
      ensures old(resetStarted) || old(localEndStream) ==> State() == old(State())
      decreases |script|, 2, 0
    {
      hide Net, Resets, Late, MarkFrom, Notified, Valid;
      if resetStarted || localEndStream { return; }
      var outer := active;
      ghost var s0 := Counted(State(), up);
      CountedValid(State(), up);
      high, active := if up then high + 1 else high - 1, if up then active + 1 else active - 1;
      var i := 0;
      while i < |slots|
        invariant 0 <= i <= |slots| && Valid(State())
        invariant |script| <= |s0.script| && MarkFrom(State(), i, up) == MarkFrom(s0, 0, up)
        decreases |script|, |slots| - i
      {
        MarkTurn(State(), i, up);
        if slots[i].Some? {
          var n := if up then High(slots[i].value) else Low(slots[i].value);
          KnownSlot(State(), i);
          MarkedValid(State(), n);
          Notify(n);
        }
        i := i + 1;
      }
      MarkOver(State(), up);
      ActiveValid(State(), outer);
      active := outer;
    }

    /** The stream has sent its last byte: watermarks do not concern it any more. */
    method EndLocally()
      requires Valid(State())
      modifies this`localEndStream
      ensures Valid(State()) && State() == old(State()).(localEnd := true)
    {
      localEndStream := true;
    }
  }

  /** The filter manager's list of downstream watermark callbacks: a plain list, with no calls
      back into it from inside a run. */
  class DownstreamWatermarks {
    var callbacks: seq<Callback>
    var high: nat
    var notices: seq<Notice>
    var known: set<Callback>

    constructor ()
      ensures Balanced() && high == 0 && callbacks == [] && notices == []
    {
      callbacks, high, notices, known := [], 0, [], {};
    }

    /** Registered callbacks are distinct and as many highs ahead as the stream. */
    ghost predicate Balanced()
      reads this
    {
      (forall i :: 0 <= i < |callbacks| ==> callbacks[i] in known && Net(notices, callbacks[i]) == high) &&
      (forall i, j :: 0 <= i < j < |callbacks| ==> callbacks[i] != callbacks[j]) &&
      (forall c :: c !in known ==> Net(notices, c) == 0)
    }

    method Add(c: Callback)
      requires Balanced() && c !in known
      modifies this
      ensures Balanced() && callbacks == old(callbacks) + [c] && high == old(high)
    {
      hide Net;
      callbacks := callbacks + [c];
      known := known + {c};
      var i := 0;
      while i < high
        invariant 0 <= i <= high == old(high) && callbacks == old(callbacks) + [c] && known == old(known) + {c}
        invariant forall d :: Net(notices, d) == Net(old(notices), d) + (if d == c then i else 0)
      {
        Appended(notices, High(c));
        notices := notices + [High(c)];
        i := i + 1;
      }
    }

    method Remove(c: Callback)
      requires Balanced()
      modifies this`callbacks
      ensures Balanced() && c !in callbacks && forall d :: d in callbacks <==> d in old(callbacks) && d != c
    {
      var i := 0;
      while i < |callbacks| && callbacks[i] != c
        invariant 0 <= i <= |callbacks| && callbacks == old(callbacks) && forall j :: 0 <= j < i ==> callbacks[j] != c
      {
        i := i + 1;
      }
      if i < |callbacks| {
        callbacks := callbacks[..i] + callbacks[i + 1..];
        assert forall j :: 0 <= j < |callbacks| ==> callbacks[j] == old(callbacks)[if j < i then j else j + 1];
        assert forall j :: 0 <= j < |old(callbacks)| && j != i ==>
                 old(callbacks)[j] == callbacks[if j < i then j else j - 1];
      }
    }

    /** A high or a low mark: every registered callback hears of it once. */
    method Call(up: bool)
      requires Balanced() && (!up ==> high > 0)
      modifies this`high, this`notices
      ensures Balanced() && high == if up then old(high) + 1 else old(high) - 1
    {
      hide Net;
      high := if up then high + 1 else high - 1;
      var i := 0;
      while i < |callbacks|
        invariant 0 <= i <= |callbacks| && high == if up then old(high) + 1 else old(high) - 1
        invariant forall j :: 0 <= j < |callbacks| ==> Net(notices, callbacks[j]) == if j < i then high else old(high)
        invariant forall c :: c !in known ==> Net(notices, c) == 0
      {
        var n := if up then High(callbacks[i]) else Low(callbacks[i]);
        Appended(notices, n);
        notices := notices + [n];
        i := i + 1;
      }
    }
  }
}
