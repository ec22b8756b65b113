/** Events are delivered at least once; the chat shows them exactly once
    (web/src/core/state/ChatContext.tsx:143-197, 222-301, 371-396). */
module ExactlyOnceDisplay {
  import opened Options
  import opened ChatEvents
  import opened ChatReducer

  /** Messages whose id the reducer keeps unique. */
  predicate Tracked(m: Message) {
    m.Shown? && !Permission(m.event.kind) && m.event.messageId != ""
  }

  function IdOf(m: Message): set<string> {
    if Tracked(m) then {Id(m)} else {}
  }

  function TrackedIds(messages: seq<Message>): set<string> {
    if messages == [] then {}
    else TrackedIds(messages[..|messages| - 1]) + IdOf(messages[|messages| - 1])
  }

  /** No two tracked messages have the same id. */
  predicate Distinct(messages: seq<Message>) {
    messages == [] ||
    (&& Distinct(messages[..|messages| - 1])
     && IdOf(messages[|messages| - 1]) !! TrackedIds(messages[..|messages| - 1]))
  }

  function SeqOf(m: Message): int {
    if m.Shown? then m.event.seq_ else 0
  }

  predicate SeqsUpTo(messages: seq<Message>, n: int) {
    forall m :: m in messages ==> SeqOf(m) <= n
  }

  predicate ListOk(messages: seq<Message>, lastSeq: int) {
    Distinct(messages) && SeqsUpTo(messages, lastSeq) && 0 <= lastSeq
  }

  /** A permission question that can be answered by id is the one on screen. */
  predicate PromptOk(s: State) {
    s.requestId != "" ==> s.prompt.Some? && s.prompt.value.kind.PermissionAsk? && s.prompt.value.messageId == s.requestId
  }

  predicate Inv(w: World) {
    && ListOk(w.state.messages, w.state.lastSeq) && |w.state.messages| <= MAX_MESSAGES
    && ListOk(w.stored, w.storedSeq) && |w.stored| <= MAX_STORED
    && w.storedSeq == w.state.lastSeq
    && PromptOk(w.state)
  }

  // ----- The list operations -----

  lemma TrackedIdsSnoc(init: seq<Message>, m: Message)
    ensures TrackedIds(init + [m]) == TrackedIds(init) + IdOf(m)
    ensures Distinct(init + [m]) <==> Distinct(init) && IdOf(m) !! TrackedIds(init)
  {
    assert (init + [m])[..|init|] == init;
  }

  /** Tracked ids are on display, and ids that are not on display are not tracked. */
  lemma {:induction false} TrackedIsOnDisplay(messages: seq<Message>)
    ensures forall id :: id in TrackedIds(messages) ==> OnDisplay(messages, id)
  {
    if messages != [] {
      var init := messages[..|messages| - 1];
      TrackedIsOnDisplay(init);
      forall id | id in TrackedIds(messages) ensures OnDisplay(messages, id) {
        if id in TrackedIds(init) {
          var i :| 0 <= i < |init| && Id(init[i]) == id;
          assert Id(messages[i]) == id;
        } else {
          assert Id(messages[|messages| - 1]) == id;
        }
      }
    }
  }

  lemma {:induction false} SuffixOk(messages: seq<Message>, k: nat)
    requires k <= |messages| && Distinct(messages)
    ensures Distinct(messages[k..]) && TrackedIds(messages[k..]) <= TrackedIds(messages)
  {
    if k < |messages| {
      var n := |messages| - 1;
      SuffixOk(messages[..n], k);
      assert messages[k..][..n - k] == messages[..n][k..];
    }
  }

  lemma LastNOk(messages: seq<Message>, n: nat, lastSeq: int)
    requires ListOk(messages, lastSeq)
    ensures ListOk(LastN(messages, n), lastSeq) && |LastN(messages, n)| <= n
  {
    if |messages| > n { SuffixOk(messages, |messages| - n); }
  }

  lemma SeqsSnoc(init: seq<Message>, m: Message, n: int)
    ensures SeqsUpTo(init + [m], n) <==> SeqsUpTo(init, n) && SeqOf(m) <= n
  {
    assert forall x :: x in init + [m] <==> x in init || x == m;
  }

  lemma {:induction false} NotPermissionsOk(messages: seq<Message>, n: int)
    ensures TrackedIds(NotPermissions(messages)) == TrackedIds(messages)
    ensures Distinct(messages) ==> Distinct(NotPermissions(messages))
    ensures SeqsUpTo(messages, n) ==> SeqsUpTo(NotPermissions(messages), n)
  {
    hide SeqsUpTo;
    if messages != [] {
      var init, last := messages[..|messages| - 1], messages[|messages| - 1];
      assert messages == init + [last];
      NotPermissionsOk(init, n);
      TrackedIdsSnoc(init, last);
      TrackedIdsSnoc(NotPermissions(init), last);
      SeqsSnoc(init, last, n);
      SeqsSnoc(NotPermissions(init), last, n);
      assert NotPermissions(init) + [] == NotPermissions(init);
    }
  }

  lemma {:induction false} MarkAnswerOk(messages: seq<Message>, r: Resolution, n: int)
    ensures |MarkAnswer(messages, r)| == |messages|
    ensures TrackedIds(MarkAnswer(messages, r)) == TrackedIds(messages)
    ensures Distinct(messages) ==> Distinct(MarkAnswer(messages, r))
    ensures SeqsUpTo(messages, n) ==> SeqsUpTo(MarkAnswer(messages, r), n)
  {
    hide SeqsUpTo;
    if messages != [] {
      var init, last := messages[..|messages| - 1], messages[|messages| - 1];
      assert messages == init + [last];
      TrackedIdsSnoc(init, last);
      SeqsSnoc(init, last, n);
      if ShowsPermission(last) {
        var marked := last.(resolved := r);
        assert messages[|init| := marked] == init + [marked];
        TrackedIdsSnoc(init, marked);
        SeqsSnoc(init, marked, n);
      } else {
        MarkAnswerOk(init, r, n);
        TrackedIdsSnoc(MarkAnswer(init, r), last);
        SeqsSnoc(MarkAnswer(init, r), last, n);
      }
    }
  }

  lemma SeqsRaised(messages: seq<Message>, n: int, m: int)
    requires SeqsUpTo(messages, n) && n <= m
    ensures SeqsUpTo(messages, m)
  {
  }

  /** A new event goes in with an id that is not on display, or is a permission card. */
  lemma PlaceOk(messages: seq<Message>, ev: Event, lastSeq: int)
    requires ListOk(messages, lastSeq)
    requires Permission(ev.kind) || !OnDisplay(messages, ev.messageId)
    ensures ListOk(Place(messages, ev), NextSeq(lastSeq, ev))
  {
    hide OnDisplay, MergeThinking, SeqsUpTo;
    var n := NextSeq(lastSeq, ev);
    TrackedIsOnDisplay(messages);
    TrackedIdsSnoc(messages, Shown(ev, Unresolved));
    SeqsRaised(messages, lastSeq, n);
    SeqsSnoc(messages, Shown(ev, Unresolved), n);
    if messages != [] {
      var init, last := messages[..|messages| - 1], messages[|messages| - 1];
      assert messages == init + [last];
      TrackedIdsSnoc(init, last);
      SeqsSnoc(init, last, n);
      var r := Replacement(last, ev);
      if r.Some? {
        TrackedIdsSnoc(init, Shown(r.value, Unresolved));
        SeqsSnoc(init, Shown(r.value, Unresolved), n);
      }
    }
  }

  // ----- Every run -----

  lemma ReceiveKeepsInv(env: Env, w: World, ev: Event, from: string)
    requires Inv(w)
    ensures Inv(Step(env, w, Dispatch(EventReceived(ev, from))))
  {
    hide Distinct, Place, OnDisplay, SeqsUpTo, RefusalPrompt, NextAgent;
    if !Ignored(w.state, ev, from) {
      PlaceOk(w.state.messages, ev, w.state.lastSeq);
      var placed := Place(w.state.messages, ev);
      var seq_ := NextSeq(w.state.lastSeq, ev);
      LastNOk(placed, MAX_MESSAGES, seq_);
      LastNOk(LastN(placed, MAX_MESSAGES), MAX_STORED, seq_);
    }
  }

  lemma UserMessageKeepsInv(env: Env, w: World, text: string, session: string)
    requires Inv(w)
    ensures Inv(Step(env, w, Dispatch(UserMessageSent(text, session))))
  {
    hide Distinct;
    var grown := w.state.messages + [User(text, session)];
    TrackedIdsSnoc(w.state.messages, User(text, session));
    LastNOk(grown, MAX_MESSAGES, w.state.lastSeq);
    LastNOk(LastN(grown, MAX_MESSAGES), MAX_STORED, w.state.lastSeq);
  }

  lemma ReloadKeepsInv(env: Env, w: World, sessionId: Option<string>)
    requires Inv(w)
    ensures Inv(Step(env, w, Reload(sessionId)))
  {
    hide Distinct;
    NotPermissionsOk(w.stored, w.storedSeq);
    LastNOk(NotPermissions(w.stored), MAX_STORED, w.storedSeq);
  }

  lemma StepKeepsInv(env: Env, w: World, op: Op)
    requires Inv(w)
    ensures Inv(Step(env, w, op))
  {
    hide Distinct, SeqsUpTo, MarkAnswer, Load;
    if op.Reload? {
      ReloadKeepsInv(env, w, op.sessionId);
    } else if op.action.EventReceived? {
      ReceiveKeepsInv(env, w, op.action.event, op.action.from);
    } else if op.action.UserMessageSent? {
      UserMessageKeepsInv(env, w, op.action.text, op.action.session);
    } else {
      OtherKeepsInv(env, w, op.action);
    }
  }

  /** The other actions leave list and prompt alone, empty or clear them, or mark an answer. */
  lemma OtherEffects(env: Env, s: State, a: Action)
    requires !a.EventReceived? && !a.UserMessageSent?
    ensures var t := Reduce(env, s, a);
            && t.messages == (if Resets(s, a) then [] else
                              if a.PermissionAnswered? then MarkAnswer(s.messages, if a.allowed then Allowed else Denied)
                              else s.messages)
            && t.lastSeq == (if Resets(s, a) then 0 else s.lastSeq)
            && (t.requestId == "" || (t.requestId == s.requestId && t.prompt == s.prompt))
  {
    hide Receive, MarkAnswer, LastN, Truthy;
  }

  lemma OtherKeepsInv(env: Env, w: World, a: Action)
    requires Inv(w) && !a.EventReceived? && !a.UserMessageSent?
    ensures Inv(Step(env, w, Dispatch(a)))
  {
    hide Reduce, MarkAnswer, Distinct, SeqsUpTo;
    OtherEffects(env, w.state, a);
    MarkAnswerOk(w.state.messages, Allowed, w.state.lastSeq);
    MarkAnswerOk(w.state.messages, Denied, w.state.lastSeq);
    EmptyOk();
  }

  lemma EmptyOk()
    ensures ListOk([], 0)
  {
  }

  lemma {:induction false} ReachableOk(env: Env, ops: seq<Op>)
    ensures Inv(Run(env, ops))
  {
    hide Step;
    if ops != [] {
      ReachableOk(env, ops[..|ops| - 1]);
      StepKeepsInv(env, Run(env, ops[..|ops| - 1]), ops[|ops| - 1]);
    }
  }

  lemma {:induction false} DistinctMeans(messages: seq<Message>)
    requires Distinct(messages)
    ensures forall i :: 0 <= i < |messages| && Tracked(messages[i]) ==> Id(messages[i]) in TrackedIds(messages)
    ensures forall i, j :: 0 <= i < j < |messages| && Tracked(messages[i]) && Tracked(messages[j]) ==>
              Id(messages[i]) != Id(messages[j])
  {
    if messages != [] {
      var n := |messages| - 1;
      DistinctMeans(messages[..n]);
      forall i | 0 <= i < n && Tracked(messages[i]) ensures Id(messages[i]) in TrackedIds(messages[..n]) {
        assert messages[..n][i] == messages[i];
      }
      forall i, j | 0 <= i < j < |messages| && Tracked(messages[i]) && Tracked(messages[j])
        ensures Id(messages[i]) != Id(messages[j])
      {
        if j < n { assert messages[..n][i] == messages[i] && messages[..n][j] == messages[j]; }
      }
    }
  }

  /** In every reachable state, also after page reloads: ids of messages other than permission cards
      are distinct, at most 500 messages are held, and no displayed seq exceeds lastSeq. */
  lemma {:induction false} EveryStateIsClean(env: Env, ops: seq<Op>)
    ensures var s := Run(env, ops).state;
            && |s.messages| <= MAX_MESSAGES
            && (forall i, j :: 0 <= i < j < |s.messages| && Tracked(s.messages[i]) && Tracked(s.messages[j]) ==>
                  Id(s.messages[i]) != Id(s.messages[j]))
            && SeqsUpTo(s.messages, s.lastSeq)
            && PromptOk(s)
  {
    hide Run, Distinct, SeqsUpTo;
    ReachableOk(env, ops);
    DistinctMeans(Run(env, ops).state.messages);
  }

  lemma SeqEffect(env: Env, s: State, a: Action)
    requires !Resets(s, a)
    ensures Reduce(env, s, a).lastSeq ==
            if a.EventReceived? && !Ignored(s, a.event, a.from) then NextSeq(s.lastSeq, a.event) else s.lastSeq
  {
    hide Place, LastN, Ignored, MarkAnswer, NextAgent, RefusalPrompt, NextPrompt;
  }

  /** lastSeq never goes back, over any actions between two session resets and over reloads. */
  lemma {:induction false} LastSeqIsMonotone(env: Env, ops: seq<Op>, op: Op)
    requires op.Dispatch? ==> !Resets(Run(env, ops).state, op.action)
    ensures Step(env, Run(env, ops), op).state.lastSeq >= Run(env, ops).state.lastSeq
    ensures op.Dispatch? && op.action.EventReceived? && !Ignored(Run(env, ops).state, op.action.event, op.action.from) ==>
              Step(env, Run(env, ops), op).state.lastSeq >= op.action.event.seq_
  {
    hide Run, Reduce, Distinct, SeqsUpTo, Ignored, Load, LastN;
    ReachableOk(env, ops);
    if op.Dispatch? { SeqEffect(env, Run(env, ops).state, op.action); }
  }

  // ----- Redelivery -----

  /** Events whose message stays as it is; a delta may be merged or replaced, a permission card too. */
  predicate Durable(ev: Event) {
    ev.messageId != "" && !Permission(ev.kind) && !ev.kind.TextDelta?
  }

  predicate ShowsDurable(m: Message) {
    m.Shown? && Durable(m.event)
  }

  /** The id is only used by durable messages. */
  predicate Own(messages: seq<Message>, id: string) {
    forall i :: 0 <= i < |messages| && Id(messages[i]) == id ==> ShowsDurable(messages[i])
  }

  lemma PlaceKeeps(messages: seq<Message>, ev: Event, id: string)
    requires id != "" && Own(messages, id) && (ev.messageId == id ==> Durable(ev))
    ensures Own(Place(messages, ev), id)
    ensures OnDisplay(messages, id) || ev.messageId == id ==> OnDisplay(Place(messages, ev), id)
    ensures |Place(messages, ev)| <= |messages| + 1
  {
    hide MergeThinking;
    var placed := Place(messages, ev);
    var n := |placed| - 1;
    if OnDisplay(messages, id) {
      var i :| 0 <= i < |messages| && Id(messages[i]) == id;
      assert Id(placed[i]) == id;
    } else if ev.messageId == id {
      assert Id(placed[n]) == id;
    }
  }

  function Deliver(env: Env, s: State, from: string, evs: seq<Event>): State {
    if evs == [] then s else Receive(env, Deliver(env, s, from, evs[..|evs| - 1]), evs[|evs| - 1], from)
  }

  predicate Stopped(s: State, from: string) {
    from != "" && s.stoppedSessionId == Some(from)
  }

  /** Among these events, and on this list, the id is not used by anything but durable messages. */
  predicate OwnAmong(messages: seq<Message>, evs: seq<Event>, id: string) {
    id != "" && Own(messages, id) && forall e :: e in evs && e.messageId == id ==> Durable(e)
  }

  lemma ReceiveKeeps(env: Env, s: State, from: string, ev: Event, id: string)
    requires id != "" && Own(s.messages, id) && (ev.messageId == id ==> Durable(ev))
    requires |s.messages| < MAX_MESSAGES && !Stopped(s, from)
    ensures var t := Receive(env, s, ev, from);
            && Own(t.messages, id) && |t.messages| <= |s.messages| + 1 && !Stopped(t, from)
            && (OnDisplay(s.messages, id) || ev.messageId == id ==> OnDisplay(t.messages, id))
  {
    hide Own, OnDisplay, Place, NextAgent, NextPrompt;
    PlaceKeeps(s.messages, ev, id);
  }

  /** While nothing is pushed out of the window, a durable id that was delivered is on display. */
  lemma {:induction false} DeliveredIsShown(env: Env, s: State, from: string, evs: seq<Event>, id: string)
    requires OwnAmong(s.messages, evs, id)
    requires |s.messages| + |evs| <= MAX_MESSAGES && !Stopped(s, from)
    ensures var t := Deliver(env, s, from, evs);
            && Own(t.messages, id) && |t.messages| <= |s.messages| + |evs| && !Stopped(t, from)
            && (OnDisplay(s.messages, id) || (exists e :: e in evs && e.messageId == id) ==> OnDisplay(t.messages, id))
  {
    hide Own, OnDisplay, Receive;
    if evs != [] {
      var init, last := evs[..|evs| - 1], evs[|evs| - 1];
      assert evs == init + [last] && last in evs;
      DeliveredIsShown(env, s, from, init, id);
      ReceiveKeeps(env, Deliver(env, s, from, init), from, last, id);
    }
  }

  lemma {:induction false} DeliverAppend(env: Env, s: State, from: string, a: seq<Event>, b: seq<Event>)
    ensures Deliver(env, s, from, a + b) == Deliver(env, Deliver(env, s, from, a), from, b)
    decreases |b|
  {
    hide Receive;
    if b == [] {
      assert a + b == a;
    } else {
      var n := |b| - 1;
      assert (a + b)[..|a + b| - 1] == a + b[..n];
      DeliverAppend(env, s, from, a, b[..n]);
    }
  }

  /** Events whose ids are on display, permission cards apart, change nothing at all. */
  lemma {:induction false} KnownIdsChangeNothing(env: Env, s: State, from: string, again: seq<Event>)
    requires forall e :: e in again ==> !Permission(e.kind) && OnDisplay(s.messages, e.messageId)
    ensures Deliver(env, s, from, again) == s
  {
    hide OnDisplay;
    if again != [] {
      var init, last := again[..|again| - 1], again[|again| - 1];
      assert again == init + [last];
      KnownIdsChangeNothing(env, s, from, init);
    }
  }

  /** Whatever is delivered, as long as the window does not overflow: delivering durable events of it
      again, in any order and number, changes nothing, and each of them is on display exactly once. Module
      Redelivery has the exact conditions, without the bound. */
  lemma RedeliveryWithinWindow(env: Env, s: State, from: string, evs: seq<Event>, again: seq<Event>)
    requires |s.messages| + |evs| <= MAX_MESSAGES && !Stopped(s, from)
    requires forall e :: e in again ==> e in evs && Durable(e) && OwnAmong(s.messages, evs, e.messageId)
    ensures Deliver(env, s, from, evs + again) == Deliver(env, s, from, evs)
  {
    hide Deliver, OnDisplay, Own;
    var t := Deliver(env, s, from, evs);
    forall e | e in again ensures !Permission(e.kind) && OnDisplay(t.messages, e.messageId) {
      DeliveredIsShown(env, s, from, evs, e.messageId);
    }
    KnownIdsChangeNothing(env, t, from, again);
    DeliverAppend(env, s, from, evs, again);
  }

  lemma {:induction false} DeliverKeepsDistinct(env: Env, s: State, from: string, evs: seq<Event>)
    requires ListOk(s.messages, s.lastSeq)
    ensures ListOk(Deliver(env, s, from, evs).messages, Deliver(env, s, from, evs).lastSeq)
  {
    hide ListOk, Place, LastN, OnDisplay, NextAgent, NextPrompt, NextSeq;
    if evs != [] {
      var init, last := evs[..|evs| - 1], evs[|evs| - 1];
      DeliverKeepsDistinct(env, s, from, init);
      var t := Deliver(env, s, from, init);
      if !Ignored(t, last, from) {
        PlaceOk(t.messages, last, t.lastSeq);
        LastNOk(Place(t.messages, last), MAX_MESSAGES, NextSeq(t.lastSeq, last));
      }
    }
  }

  lemma OwnIsUnique(shown: seq<Message>, id: string)
    requires Distinct(shown) && Own(shown, id) && OnDisplay(shown, id)
    ensures exists i :: 0 <= i < |shown| && Id(shown[i]) == id && forall j :: 0 <= j < |shown| && Id(shown[j]) == id ==> j == i
  {
    hide Distinct;
    DistinctMeans(shown);
    var i :| 0 <= i < |shown| && Id(shown[i]) == id;
    forall j | 0 <= j < |shown| && Id(shown[j]) == id ensures j == i {
      assert Tracked(shown[i]) && Tracked(shown[j]);
    }
  }

  lemma ShownExactlyOnce(env: Env, s: State, from: string, evs: seq<Event>, e: Event)
    requires ListOk(s.messages, s.lastSeq)
    requires |s.messages| + |evs| <= MAX_MESSAGES && !Stopped(s, from)
    requires e in evs && OwnAmong(s.messages, evs, e.messageId)
    ensures var shown := Deliver(env, s, from, evs).messages;
            exists i :: 0 <= i < |shown| && Id(shown[i]) == e.messageId &&
                        forall j :: 0 <= j < |shown| && Id(shown[j]) == e.messageId ==> j == i
  {
    hide Deliver, Distinct, SeqsUpTo, Own, OnDisplay;
    DeliveredIsShown(env, s, from, evs, e.messageId);
    DeliverKeepsDistinct(env, s, from, evs);
    OwnIsUnique(Deliver(env, s, from, evs).messages, e.messageId);
  }

  lemma DeltaIsMerged(env: Env, s: State, card: Event, ev: Event)
    requires s.messages == [Shown(card, Unresolved)] && !Stopped(s, "")
    requires card.kind.TextDelta? && ev.kind.TextDelta? && card.blockIndex == ev.blockIndex
    requires card.messageId != ev.messageId
    ensures Receive(env, s, ev, "").messages == [Shown(MergeDelta(card, ev), Unresolved)]
  {
    hide NextAgent, NextPrompt, MergeThinking;
    assert !OnDisplay(s.messages, ev.messageId);
    assert s.messages[..0] == [];
  }

  /** Deltas are not durable: a merged card keeps only the id of its first delta, so a second copy
      of a later one is appended to the text again. */
  lemma ReplayedDeltaIsRepeated(env: Env, s: State, first: Event, second: Event)
    requires s.messages == [Shown(first, Unresolved)] && !Stopped(s, "")
    requires first.kind.TextDelta? && second.kind.TextDelta? && first.blockIndex == second.blockIndex
    requires first.messageId != second.messageId
    ensures var once := MergeDelta(first, second);
            && Deliver(env, s, "", [second]).messages == [Shown(once, Unresolved)]
            && Deliver(env, s, "", [second, second]).messages == [Shown(MergeDelta(once, second), Unresolved)]
            && MergeDelta(once, second).text == first.text + second.text + second.text
  {
    hide Receive, MergeThinking;
    assert [second, second] == [second] + [second];
    DeliverOne(env, s, second);
    DeltaIsMerged(env, s, first, second);
    var t := Deliver(env, s, "", [second]);
    DeliverOne(env, t, second);
    DeliverAppend(env, s, "", [second], [second]);
    ReceiveKeepsStopped(env, s, second);
    DeltaIsMerged(env, t, MergeDelta(first, second), second);
  }

  lemma DeliverOne(env: Env, s: State, ev: Event)
    ensures Deliver(env, s, "", [ev]) == Receive(env, s, ev, "")
  {
    hide Receive;
    assert [ev][..|[ev]| - 1] == [];
    assert Deliver(env, s, "", []) == s;
  }

  lemma ReceiveKeepsStopped(env: Env, s: State, ev: Event)
    ensures Receive(env, s, ev, "").stoppedSessionId == s.stoppedSessionId
  {
    hide Ignored, NextAgent, NextPrompt;
  }
}
