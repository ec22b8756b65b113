/** How long a message stays on display while the user goes on working: over any actions and page reloads
    (web/src/core/state/ChatContext.tsx:37-65, 135-426). */
module DisplayTime {
  import opened Options
  import opened ChatEvents
  import opened ChatReducer
  import opened ExactlyOnceDisplay
  import opened Redelivery

  // ----- What a reload finds -----

  /** Permission cards apart, the stored messages are the last 200 of those on display. */
  predicate Stored(w: World) {
    && |w.stored| <= MAX_STORED
    && NotPermissions(w.stored) == NotPermissions(LastN(w.state.messages, MAX_STORED))
  }

  lemma {:induction false} NotPermissionsOf(messages: seq<Message>)
    ensures |NotPermissions(messages)| <= |messages|
    ensures NotPermissions(NotPermissions(messages)) == NotPermissions(messages)
  {
    if messages != [] {
      var init, last := messages[..|messages| - 1], messages[|messages| - 1];
      NotPermissionsOf(init);
      var p := NotPermissions(init);
      if !ShowsPermission(last) { assert (p + [last])[..|p|] == p; }
      assert p + [] == p;
    }
  }

  lemma {:induction false} NotPermissionsAppend(a: seq<Message>, b: seq<Message>)
    ensures NotPermissions(a + b) == NotPermissions(a) + NotPermissions(b)
  {
    if b == [] {
      assert a + b == a;
    } else {
      var n := |b| - 1;
      assert (a + b)[..|a + b| - 1] == a + b[..n];
      NotPermissionsAppend(a, b[..n]);
    }
  }

  /** An answer only touches a permission card. */
  lemma {:induction false} MarkKeepsOthers(messages: seq<Message>, r: Resolution)
    ensures var m := MarkAnswer(messages, r);
            && |m| == |messages|
            && (forall i :: 0 <= i < |messages| ==>
                  Id(m[i]) == Id(messages[i]) && ShowsPermission(m[i]) == ShowsPermission(messages[i]))
            && (forall i :: 0 <= i < |messages| && !ShowsPermission(messages[i]) ==> m[i] == messages[i])
  {
    if messages != [] {
      var n := |messages| - 1;
      if !ShowsPermission(messages[n]) { MarkKeepsOthers(messages[..n], r); }
    }
  }

  /** Lists that differ in permission cards only. */
  lemma {:induction false} SameOthers(a: seq<Message>, b: seq<Message>)
    requires |a| == |b|
    requires forall i :: 0 <= i < |a| ==> ShowsPermission(a[i]) == ShowsPermission(b[i])
    requires forall i :: 0 <= i < |a| && !ShowsPermission(a[i]) ==> a[i] == b[i]
    ensures NotPermissions(a) == NotPermissions(b)
  {
    if a != [] { SameOthers(a[..|a| - 1], b[..|b| - 1]); }
  }

  lemma MarkIsStored(messages: seq<Message>, r: Resolution)
    ensures NotPermissions(LastN(MarkAnswer(messages, r), MAX_STORED)) == NotPermissions(LastN(messages, MAX_STORED))
  {
    hide MarkAnswer, LastN;
    MarkKeepsOthers(messages, r);
    var m := MarkAnswer(messages, r);
    CutLength(m, MAX_STORED);
    CutLength(messages, MAX_STORED);
    forall i | 0 <= i < |LastN(messages, MAX_STORED)|
      ensures ShowsPermission(LastN(m, MAX_STORED)[i]) == ShowsPermission(LastN(messages, MAX_STORED)[i])
      ensures !ShowsPermission(LastN(m, MAX_STORED)[i]) ==> LastN(m, MAX_STORED)[i] == LastN(messages, MAX_STORED)[i]
    {
      CutAt(m, MAX_STORED, i);
      CutAt(messages, MAX_STORED, i);
    }
    SameOthers(LastN(m, MAX_STORED), LastN(messages, MAX_STORED));
  }

  lemma CutTwice<T>(xs: seq<T>, n: nat)
    ensures LastN(LastN(xs, n), n) == LastN(xs, n)
    ensures |xs| <= n ==> LastN(xs, n) == xs
  {
  }

  /** What the actions do to the list: it is saved, reset, marked, or left alone. */
  lemma ListAfter(env: Env, s: State, a: Action)
    ensures var m := Reduce(env, s, a).messages;
            if Resets(s, a) then m == []
            else if a.UserMessageSent? then m == LastN(s.messages + [User(a.text, a.session)], MAX_MESSAGES)
            else if a.EventReceived? then m == Receive(env, s, a.event, a.from).messages
            else if a.PermissionAnswered? then m == MarkAnswer(s.messages, if a.allowed then Allowed else Denied)
            else m == s.messages
  {
    hide Receive, MarkAnswer, LastN;
  }

  lemma IgnoredKeepsList(env: Env, s: State, a: Action)
    requires a.EventReceived? && Ignored(s, a.event, a.from)
    ensures Reduce(env, s, a) == s
  {
    hide Place, LastN;
  }

  lemma LoadIsFilter(stored: seq<Message>)
    requires |stored| <= MAX_STORED
    ensures Load(stored) == NotPermissions(stored)
    ensures LastN(Load(stored), MAX_STORED) == Load(stored)
    ensures NotPermissions(Load(stored)) == Load(stored)
  {
    NotPermissionsOf(stored);
    CutTwice(NotPermissions(stored), MAX_STORED);
  }

  lemma StepIsStored(env: Env, w: World, op: Op)
    requires Stored(w)
    ensures Stored(Step(env, w, op))
  {
    hide NotPermissions, LastN, Reduce, MarkAnswer, Ignored, Load;
    match op {
      case Dispatch(a) =>
        ListAfter(env, w.state, a);
        if a.PermissionAnswered? {
          MarkIsStored(w.state.messages, if a.allowed then Allowed else Denied);
        } else if Saves(w.state, a) {
          CutLength(Reduce(env, w.state, a).messages, MAX_STORED);
        } else if a.EventReceived? {
          IgnoredKeepsList(env, w.state, a);
        } else if Resets(w.state, a) {
          CutTwice<Message>([], MAX_STORED);
        }
      case Reload(_) => LoadIsFilter(w.stored);
    }
  }

  /** In every reachable world. */
  lemma {:induction false} EveryWorldIsStored(env: Env, ops: seq<Op>)
    ensures Stored(Run(env, ops))
  {
    hide Stored, Step;
    if ops == [] {
      FirstIsStored();
    } else {
      EveryWorldIsStored(env, ops[..|ops| - 1]);
      StepIsStored(env, Run(env, ops[..|ops| - 1]), ops[|ops| - 1]);
    }
  }

  lemma FirstIsStored()
    ensures Stored(FIRST_VISIT)
  {
  }

  /** A page reload leaves on display exactly the last 200 messages without the permission cards. */
  lemma {:induction false} ReloadKeeps(env: Env, ops: seq<Op>, session: Option<string>)
    ensures var before, after := Run(env, ops).state, Run(env, ops + [Reload(session)]).state;
            after.messages == NotPermissions(LastN(before.messages, MAX_STORED))
  {
    hide Run, NotPermissions, LastN, Load;
    EveryWorldIsStored(env, ops);
    RunLast(env, ops, Reload(session));
    LoadIsFilter(Run(env, ops).stored);
  }

  lemma RunLast(env: Env, ops: seq<Op>, op: Op)
    ensures Run(env, ops + [op]) == Step(env, Run(env, ops), op)
  {
    assert (ops + [op])[..|ops|] == ops;
  }

  // ----- Where a message is -----

  function RunFrom(env: Env, w: World, ops: seq<Op>): World {
    if ops == [] then w else Step(env, RunFrom(env, w, ops[..|ops| - 1]), ops[|ops| - 1])
  }

  /** The action makes the list longer: a user message always, an event if it is not merged. */
  predicate ActionPushes(s: State, a: Action) {
    a.UserMessageSent? || (a.EventReceived? && Pushes(s, a.event, a.from))
  }

  function CountPermissions(messages: seq<Message>): nat {
    if messages == [] then 0
    else CountPermissions(messages[..|messages| - 1]) + if ShowsPermission(messages[|messages| - 1]) then 1 else 0
  }

  /** Permission cards among the last `d` messages. */
  function PermissionsAfter(messages: seq<Message>, d: nat): nat
    requires d <= |messages|
  {
    CountPermissions(messages[|messages| - d..])
  }

  /** How far from the end a message is after a step, None if it is gone. It is pushed back by new
      messages until 500 have come; a reload takes it away unless it is one of the last 200, and moves it
      forward past permission cards; a session reset takes it away; nothing else touches it. */
  function PlaceAfter(w: World, op: Op, d: nat): Option<nat> {
    match op
    case Dispatch(a) =>
      if Resets(w.state, a) then None
      else if !ActionPushes(w.state, a) then Some(d)
      else if d + 1 < MAX_MESSAGES then Some(d + 1) else None
    case Reload(_) =>
      if d < MAX_STORED && d <= |w.state.messages|
      then var n := PermissionsAfter(w.state.messages, d); Some(if n <= d then d - n else 0)
      else None
  }

  function PlaceThrough(env: Env, w: World, ops: seq<Op>, d: nat): Option<nat> {
    if ops == [] then Some(d)
    else
      var before := PlaceThrough(env, w, ops[..|ops| - 1], d);
      if before.None? then None
      else PlaceAfter(RunFrom(env, w, ops[..|ops| - 1]), ops[|ops| - 1], before.value)
  }

  /** The operation delivers an event with this id. */
  predicate Delivers(op: Op, id: string) {
    op.Dispatch? && op.action.EventReceived? && op.action.event.messageId == id
  }

  /** The message is where it should be. */
  predicate Found(messages: seq<Message>, id: string, place: Option<nat>) {
    if place.Some? then At(messages, id, place.value) && place.value < MAX_MESSAGES else !OnDisplay(messages, id)
  }

  lemma {:induction false} CountIsLength(messages: seq<Message>)
    ensures |NotPermissions(messages)| + CountPermissions(messages) == |messages|
  {
    if messages != [] { CountIsLength(messages[..|messages| - 1]); }
  }

  /** What stays of a list comes from it. */
  lemma {:induction false} FilterComesFrom(messages: seq<Message>, i: nat)
    requires i < |NotPermissions(messages)|
    ensures NotPermissions(messages)[i] in messages
  {
    var init := messages[..|messages| - 1];
    if i < |NotPermissions(init)| {
      FilterComesFrom(init, i);
      assert messages == init + [messages[|messages| - 1]];
    }
  }

  /** The filter around a message that stays. */
  lemma FilterSplits(a: seq<Message>, m: Message, b: seq<Message>)
    requires !ShowsPermission(m)
    ensures NotPermissions(a + [m] + b) == NotPermissions(a) + [m] + NotPermissions(b)
  {
    NotPermissionsAppend(a + [m], b);
    NotPermissionsAppend(a, [m]);
    assert [m][..0] == [];
    assert NotPermissions([m]) == NotPermissions([m][..0]) + [m] == [m];
  }

  lemma FilterHasNoId(messages: seq<Message>, id: string)
    requires forall i :: 0 <= i < |messages| ==> Id(messages[i]) != id
    ensures forall i :: 0 <= i < |NotPermissions(messages)| ==> Id(NotPermissions(messages)[i]) != id
  {
    forall i | 0 <= i < |NotPermissions(messages)| ensures Id(NotPermissions(messages)[i]) != id {
      FilterComesFrom(messages, i);
    }
  }

  lemma FilterMoves(messages: seq<Message>, id: string, d: nat)
    requires At(messages, id, d)
    ensures PermissionsAfter(messages, d) <= d
    ensures At(NotPermissions(messages), id, d - PermissionsAfter(messages, d))
  {
    hide NotPermissions, CountPermissions;
    var k := |messages| - 1 - d;
    var a, m, b := messages[..k], messages[k], messages[k + 1..];
    assert messages == a + [m] + b && b == messages[|messages| - d..];
    FilterSplits(a, m, b);
    CountIsLength(b);
    FilterHasNoId(a, id);
    FilterHasNoId(b, id);
    SplitAt(NotPermissions(a), m, NotPermissions(b), id);
  }

  lemma SplitAt(a: seq<Message>, m: Message, b: seq<Message>, id: string)
    requires Id(m) == id && ShowsDurable(m)
    requires forall i :: 0 <= i < |a| ==> Id(a[i]) != id
    requires forall i :: 0 <= i < |b| ==> Id(b[i]) != id
    ensures At(a + [m] + b, id, |b|)
  {
  }

  /** Cutting a list to its last `n` messages. */
  lemma CutTo(messages: seq<Message>, n: nat, id: string, d: nat)
    requires At(messages, id, d) && id != ""
    ensures d < n ==> At(LastN(messages, n), id, d)
    ensures d < n ==> (d <= |LastN(messages, n)| &&
                       LastN(messages, n)[|LastN(messages, n)| - d..] == messages[|messages| - d..])
    ensures d >= n ==> !OnDisplay(LastN(messages, n), id)
  {
    hide ShowsDurable, LastN;
    var cut := LastN(messages, n);
    CutLength(messages, n);
    forall i | 0 <= i < |cut| ensures Id(cut[i]) == id <==> i == |cut| - 1 - d {
      CutAt(messages, n, i);
    }
    if d < n {
      CutAt(messages, n, |cut| - 1 - d);
      var a, b := cut[|cut| - d..], messages[|messages| - d..];
      forall i | 0 <= i < |a| ensures a[i] == b[i] {
        CutAt(messages, n, |cut| - d + i);
      }
      assert a == b;
    }
  }

  lemma ReloadMoves(env: Env, w: World, session: Option<string>, id: string, d: nat)
    requires Stored(w) && At(w.state.messages, id, d) && d < MAX_MESSAGES && id != ""
    ensures Found(Step(env, w, Reload(session)).state.messages, id, PlaceAfter(w, Reload(session), d))
  {
    hide NotPermissions, LastN, Load, At, OnDisplay, CountPermissions;
    var cut := LastN(w.state.messages, MAX_STORED);
    LoadIsFilter(w.stored);
    CutTo(w.state.messages, MAX_STORED, id, d);
    AtIsIn(w.state.messages, id, d);
    if d < MAX_STORED { FilterMoves(cut, id, d); } else { FilterStaysGone(cut, id); }
  }

  lemma AtIsIn(messages: seq<Message>, id: string, d: nat)
    requires At(messages, id, d)
    ensures d < |messages|
  {
  }

  lemma FilterStaysGone(messages: seq<Message>, id: string)
    requires !OnDisplay(messages, id) && id != ""
    ensures !OnDisplay(NotPermissions(messages), id)
  {
    FilterHasNoId(messages, id);
  }

  lemma CutToStaysGone(messages: seq<Message>, n: nat, id: string)
    requires !OnDisplay(messages, id) && id != ""
    ensures !OnDisplay(LastN(messages, n), id)
  {
    hide LastN;
    CutLength(messages, n);
    forall i | 0 <= i < |LastN(messages, n)| ensures Id(LastN(messages, n)[i]) != id {
      CutAt(messages, n, i);
    }
  }

  lemma UserMoves(messages: seq<Message>, text: string, session: string, id: string, d: nat)
    requires At(messages, id, d) && id != "" && d < MAX_MESSAGES
    ensures Found(LastN(messages + [User(text, session)], MAX_MESSAGES), id,
                  if d + 1 < MAX_MESSAGES then Some(d + 1) else None)
  {
    hide LastN;
    assert At(messages + [User(text, session)], id, d + 1);
    CutTo(messages + [User(text, session)], MAX_MESSAGES, id, d + 1);
  }

  lemma MarkMoves(messages: seq<Message>, r: Resolution, id: string, d: nat)
    requires At(messages, id, d)
    ensures At(MarkAnswer(messages, r), id, d)
  {
    MarkKeepsOthers(messages, r);
  }

  lemma MarkStaysGone(messages: seq<Message>, r: Resolution, id: string)
    requires !OnDisplay(messages, id)
    ensures !OnDisplay(MarkAnswer(messages, r), id)
  {
    MarkKeepsOthers(messages, r);
  }

  lemma UserStaysGone(messages: seq<Message>, text: string, session: string, id: string)
    requires !OnDisplay(messages, id) && id != ""
    ensures !OnDisplay(LastN(messages + [User(text, session)], MAX_MESSAGES), id)
  {
    hide LastN;
    CutToStaysGone(messages + [User(text, session)], MAX_MESSAGES, id);
  }

  lemma StepMoves(env: Env, w: World, op: Op, id: string, d: nat)
    requires Stored(w) && At(w.state.messages, id, d) && d < MAX_MESSAGES && id != "" && !Delivers(op, id)
    ensures Found(Step(env, w, op).state.messages, id, PlaceAfter(w, op, d))
  {
    hide Stored, At, OnDisplay, Reduce, Receive, MarkAnswer, LastN, Pushes, PermissionsAfter;
    match op {
      case Reload(session) => ReloadMoves(env, w, session, id, d);
      case Dispatch(a) =>
        ListAfter(env, w.state, a);
        if Resets(w.state, a) {
          NothingShown(id);
        } else if a.UserMessageSent? {
          UserMoves(w.state.messages, a.text, a.session, id, d);
        } else if a.EventReceived? {
          ReceiveMoves(env, w.state, a.event, a.from, id, d);
        } else if a.PermissionAnswered? {
          MarkMoves(w.state.messages, if a.allowed then Allowed else Denied, id, d);
        }
    }
  }

  lemma NothingShown(id: string)
    ensures !OnDisplay([], id)
  {
  }

  lemma StepStaysGone(env: Env, w: World, op: Op, id: string)
    requires Stored(w) && !OnDisplay(w.state.messages, id) && id != "" && !Delivers(op, id)
    ensures !OnDisplay(Step(env, w, op).state.messages, id)
  {
    hide OnDisplay, Reduce, Receive, MarkAnswer, LastN, NotPermissions, Load;
    match op {
      case Reload(_) =>
        LoadIsFilter(w.stored);
        CutToStaysGone(w.state.messages, MAX_STORED, id);
        FilterStaysGone(LastN(w.state.messages, MAX_STORED), id);
      case Dispatch(a) =>
        ListAfter(env, w.state, a);
        if Resets(w.state, a) {
          NothingShown(id);
        } else if a.UserMessageSent? {
          UserStaysGone(w.state.messages, a.text, a.session, id);
        } else if a.EventReceived? {
          ReceiveStaysGone(env, w.state, a.event, a.from, id);
        } else if a.PermissionAnswered? {
          MarkStaysGone(w.state.messages, if a.allowed then Allowed else Denied, id);
        }
    }
  }

  lemma {:induction false} RunFromIsStored(env: Env, w: World, ops: seq<Op>)
    requires Stored(w)
    ensures Stored(RunFrom(env, w, ops))
  {
    hide Stored, Step;
    if ops != [] {
      RunFromIsStored(env, w, ops[..|ops| - 1]);
      StepIsStored(env, RunFrom(env, w, ops[..|ops| - 1]), ops[|ops| - 1]);
    }
  }

  /** Over any actions and reloads that do not deliver it again, a durable message is on display exactly
      while its place says so, and there. */
  lemma {:induction false} OnDisplayExactly(env: Env, w: World, ops: seq<Op>, id: string, d: nat)
    requires Stored(w) && At(w.state.messages, id, d) && d < MAX_MESSAGES && id != ""
    requires forall op :: op in ops ==> !Delivers(op, id)
    ensures Found(RunFrom(env, w, ops).state.messages, id, PlaceThrough(env, w, ops, d))
    ensures OnDisplay(RunFrom(env, w, ops).state.messages, id) <==> PlaceThrough(env, w, ops, d).Some?
  {
    hide Stored, Step, At, OnDisplay, Delivers, PlaceAfter;
    if ops != [] {
      var init, last := ops[..|ops| - 1], ops[|ops| - 1];
      assert last in ops && forall op :: op in init ==> op in ops;
      OnDisplayExactly(env, w, init, id, d);
      RunFromIsStored(env, w, init);
      var u, before := RunFrom(env, w, init), PlaceThrough(env, w, init, d);
      if before.Some? { StepMoves(env, u, last, id, before.value); } else { StepStaysGone(env, u, last, id); }
    }
    var place := PlaceThrough(env, w, ops, d);
    if place.Some? { AtSome(RunFrom(env, w, ops).state.messages, id, place.value); }
  }

  /** No reload and no session reset on the way. */
  predicate Unbroken(env: Env, w: World, ops: seq<Op>) {
    ops == [] ||
    (Unbroken(env, w, ops[..|ops| - 1]) &&
     var last := ops[|ops| - 1];
     last.Dispatch? && !Resets(RunFrom(env, w, ops[..|ops| - 1]).state, last.action))
  }

  function CountActionPushes(env: Env, w: World, ops: seq<Op>): nat {
    if ops == [] then 0
    else
      var last := ops[|ops| - 1];
      CountActionPushes(env, w, ops[..|ops| - 1]) +
      if last.Dispatch? && ActionPushes(RunFrom(env, w, ops[..|ops| - 1]).state, last.action) then 1 else 0
  }

  /** While the page is not reloaded and the session not reset, the place is a count of new messages. */
  lemma {:induction false} PlaceCounts(env: Env, w: World, ops: seq<Op>, d: nat)
    requires Unbroken(env, w, ops) && d < MAX_MESSAGES
    ensures var n := d + CountActionPushes(env, w, ops);
            PlaceThrough(env, w, ops, d) == if n < MAX_MESSAGES then Some(n) else None
  {
    hide ActionPushes, Resets, Step;
    if ops != [] { PlaceCounts(env, w, ops[..|ops| - 1], d); }
  }

  /** A durable event that is taken in, and delivered again after anything else has happened, changes
      nothing the second time if and only if its session is stopped by then, or it is still on display:
      fewer than 500 messages after it at any time, fewer than 200 at every reload, and no session reset. */
  lemma {:induction false} SeenAgainExactly(env: Env, before: seq<Op>, ev: Event, from: string, ops: seq<Op>)
    requires var s := Run(env, before).state;
             Durable(ev) && !Stopped(s, from) && !OnDisplay(s.messages, ev.messageId)
    requires forall op :: op in ops ==> !Delivers(op, ev.messageId)
    ensures var w := Step(env, Run(env, before), Dispatch(EventReceived(ev, from)));
            var u := RunFrom(env, w, ops).state;
            Receive(env, u, ev, from) == u <==> Stopped(u, from) || PlaceThrough(env, w, ops, 0).Some?
  {
    hide Receive, OnDisplay, At, Stopped, PlaceThrough, Stored, Run, Delivers;
    var v := Run(env, before);
    EveryWorldIsStored(env, before);
    FirstCopyIsLast(env, v.state, ev, from);
    StepIsStored(env, v, Dispatch(EventReceived(ev, from)));
    var w := Step(env, v, Dispatch(EventReceived(ev, from)));
    OnDisplayExactly(env, w, ops, ev.messageId, 0) by { HasId(ev); }
    DurableExactly(env, RunFrom(env, w, ops).state, ev, from);
  }

  lemma HasId(ev: Event)
    requires Durable(ev)
    ensures ev.messageId != ""
  {
  }
}
