/** When the reducer takes no notice of an event that is delivered again: the exact conditions
    (web/src/core/state/ChatContext.tsx:231-301). */
module Redelivery {
  import opened ChatEvents
  import opened ChatReducer
  import opened ExactlyOnceDisplay

  // ----- One event -----

  /** The delta continues the last card. */
  predicate Merges(messages: seq<Message>, ev: Event) {
    && ev.kind.TextDelta? && messages != []
    && ShowsDelta(messages[|messages| - 1]) && messages[|messages| - 1].event.blockIndex == ev.blockIndex
  }

  /** The same event again does to the other fields what it has done already. */
  lemma FieldsSettle(env: Env, s: State, ev: Event, from: string, messages: seq<Message>)
    ensures var t := Fields(env, s, ev, from).(messages := messages);
            Fields(env, t, ev, from) == t
  {
    hide RefusalPrompt, Refused;
  }

  /** What a second copy does: nothing if it is ignored, else nothing exactly if its place in the list is
      taken by the first already. */
  lemma SecondCopy(env: Env, s: State, ev: Event, from: string)
    requires !Ignored(s, ev, from)
    ensures var t := Receive(env, s, ev, from);
            && Stopped(t, from) == Stopped(s, from)
            && (Receive(env, t, ev, from) == t <==>
                  Ignored(t, ev, from) || LastN(Place(t.messages, ev), MAX_MESSAGES) == t.messages)
  {
    hide Place, LastN, OnDisplay, NextAgent, NextPrompt;
    var m := LastN(Place(s.messages, ev), MAX_MESSAGES);
    FieldsSettle(env, s, ev, from, m);
  }

  lemma PlaceShape(messages: seq<Message>, ev: Event)
    ensures var placed := LastN(Place(messages, ev), MAX_MESSAGES);
            && 0 < |placed| <= MAX_MESSAGES
            && placed[|placed| - 1] ==
                 (if messages != [] && Replacement(messages[|messages| - 1], ev).Some?
                  then Shown(Replacement(messages[|messages| - 1], ev).value, Unresolved) else Shown(ev, Unresolved))
  {
    hide Replacement;
  }

  /** A placed list shows what was shown, and the event unless it is merged. */
  lemma PlaceAdds(messages: seq<Message>, ev: Event)
    requires ev.messageId != ""
    ensures !Merges(messages, ev) ==> OnDisplay(LastN(Place(messages, ev), MAX_MESSAGES), ev.messageId)
    ensures Merges(messages, ev) && !OnDisplay(messages, ev.messageId) ==>
              !OnDisplay(LastN(Place(messages, ev), MAX_MESSAGES), ev.messageId)
  {
    hide MergeThinking;
    var placed := LastN(Place(messages, ev), MAX_MESSAGES);
    if Merges(messages, ev) {
      if !OnDisplay(messages, ev.messageId) {
        forall i | 0 <= i < |placed| ensures Id(placed[i]) != ev.messageId {
          var all := Place(messages, ev);
          assert placed[i] == all[|all| - |placed| + i];
          assert Id(all[|all| - |placed| + i]) == Id(messages[|all| - |placed| + i]);
        }
      }
    } else {
      PlaceShape(messages, ev);
      assert Id(placed[|placed| - 1]) == ev.messageId;
    }
  }

  /** A durable event changes nothing if and only if its session is stopped or its id is on display. */
  lemma {:induction false} DurableExactly(env: Env, s: State, ev: Event, from: string)
    requires Durable(ev)
    ensures Receive(env, s, ev, from) == s <==> Stopped(s, from) || OnDisplay(s.messages, ev.messageId)
  {
    hide Place, LastN, OnDisplay, NextAgent, NextPrompt;
    PlaceAdds(s.messages, ev);
  }

  /** The first copy makes the second one visible: it is a delta that says something, and its card keeps
      the id of the delta before it, or it has no id at all. */
  predicate ShownAgain(s: State, ev: Event, from: string) {
    && !Ignored(s, ev, from) && ev.kind.TextDelta?
    && (Merges(s.messages, ev) || ev.messageId == "")
    && (ev.text != "" || ev.thinking != "")
  }

  lemma MergeAgain(card: Event, ev: Event)
    ensures MergeDelta(MergeDelta(card, ev), ev) == MergeDelta(card, ev) <==> ev.text == "" && ev.thinking == ""
    ensures MergeDelta(card, ev) == card ==> ev.text == "" && ev.thinking == ""
    ensures ev.text == "" && ev.thinking == "" ==> MergeDelta(card, ev) == card
  {
    var once := MergeDelta(card, ev);
    assert |once.text + ev.text| == |once.text| + |ev.text|;
    assert |card.text + ev.text| == |card.text| + |ev.text|;
    assert ev.text == "" ==> card.text + ev.text == card.text && once.text + ev.text == once.text;
    if ev.thinking != "" {
      assert card.thinking != "" ==> |MergeThinking(card.thinking, ev.thinking)| > |card.thinking|;
      assert |MergeThinking(once.thinking, ev.thinking)| > |once.thinking|;
    }
  }

  /** A second delta of the block of the last card. */
  lemma PlaceOnCard(messages: seq<Message>, ev: Event)
    requires 0 < |messages| <= MAX_MESSAGES && Merges(messages, ev)
    ensures LastN(Place(messages, ev), MAX_MESSAGES) == messages <==>
            messages[|messages| - 1].resolved.Unresolved? &&
            MergeDelta(messages[|messages| - 1].event, ev) == messages[|messages| - 1].event
  {
    hide MergeDelta;
    var n := |messages| - 1;
    var placed := Place(messages, ev);
    assert |placed| == |messages| && LastN(placed, MAX_MESSAGES) == placed;
    assert placed[n] == Shown(MergeDelta(messages[n].event, ev), Unresolved);
    assert messages == messages[..n] + [messages[n]];
  }

  /** The second copy of a delta that is not ignored falls on a card of its block. */
  lemma DeltaAgain(s: State, ev: Event)
    requires ev.kind.TextDelta?
    ensures var t := LastN(Place(s.messages, ev), MAX_MESSAGES);
            && Merges(t, ev) && t[|t| - 1].resolved.Unresolved?
            && t[|t| - 1].event ==
                 if Merges(s.messages, ev) then MergeDelta(s.messages[|s.messages| - 1].event, ev) else ev
  {
    hide MergeThinking;
    PlaceShape(s.messages, ev);
  }

  lemma PermissionAgain(s: State, ev: Event)
    requires Permission(ev.kind)
    ensures var t := LastN(Place(s.messages, ev), MAX_MESSAGES);
            LastN(Place(t, ev), MAX_MESSAGES) == t
  {
    PlaceShape(s.messages, ev);
    var t := LastN(Place(s.messages, ev), MAX_MESSAGES);
    assert t == t[..|t| - 1] + [Shown(ev, Unresolved)];
  }

  lemma DeltaCopy(env: Env, s: State, ev: Event, from: string)
    requires !Ignored(s, ev, from) && ev.kind.TextDelta?
    ensures var t := Receive(env, s, ev, from);
            Receive(env, t, ev, from) == t <==> !ShownAgain(s, ev, from)
  {
    hide Place, LastN, OnDisplay, Fields, MergeDelta, Replacement;
    SecondCopy(env, s, ev, from);
    DeltaAgain(s, ev);
    var t := Receive(env, s, ev, from);
    PlaceShape(s.messages, ev);
    PlaceOnCard(t.messages, ev);
    MergeAgain(ev, ev);
    if Merges(s.messages, ev) { MergeAgain(s.messages[|s.messages| - 1].event, ev); }
    if ev.messageId != "" { PlaceAdds(s.messages, ev); } else { NoId(t.messages); }
  }

  lemma NoId(messages: seq<Message>)
    ensures !OnDisplay(messages, "")
  {
  }

  /** Any delta, at any time, leaves the list alone if and only if it is ignored, or continues the last
      card and says nothing. (A delta's card is never resolved by an answer.) */
  lemma {:induction false} DeltaExactly(env: Env, s: State, ev: Event, from: string)
    requires ev.kind.TextDelta? && |s.messages| <= MAX_MESSAGES
    ensures Receive(env, s, ev, from).messages == s.messages <==>
            || Ignored(s, ev, from)
            || (Merges(s.messages, ev) && ev.text == "" && ev.thinking == "" &&
                s.messages[|s.messages| - 1].resolved.Unresolved?)
  {
    hide Place, LastN, OnDisplay, Fields, MergeDelta, Replacement;
    if !Ignored(s, ev, from) {
      if Merges(s.messages, ev) {
        PlaceOnCard(s.messages, ev);
        MergeAgain(s.messages[|s.messages| - 1].event, ev);
      } else {
        DeltaAgain(s, ev);
        PlaceShape(s.messages, ev);
      }
    }
  }

  /** Delivering an event twice in a row is delivering it once, for every event with an id, every delta
      and every permission question, if and only if the second copy is not shown again. */
  lemma {:induction false} SecondCopyExactly(env: Env, s: State, ev: Event, from: string)
    requires ev.messageId != "" || ev.kind.TextDelta? || Permission(ev.kind)
    ensures var t := Receive(env, s, ev, from);
            Receive(env, t, ev, from) == t <==> !ShownAgain(s, ev, from)
  {
    hide Place, LastN, OnDisplay, Fields;
    if Ignored(s, ev, from) {
    } else if ev.kind.TextDelta? {
      DeltaCopy(env, s, ev, from);
    } else {
      SecondCopy(env, s, ev, from);
      if Permission(ev.kind) { PermissionAgain(s, ev); } else { PlaceAdds(s.messages, ev); }
    }
  }

  predicate AllAre<T(==)>(xs: seq<T>, x: T) {
    forall i :: 0 <= i < |xs| ==> xs[i] == x
  }

  lemma {:induction false} ShiftIsSame<T>(xs: seq<T>, x: T)
    requires xs != [] && xs[1..] + [x] == xs
    ensures AllAre(xs, x)
  {
    SameFrom(xs, x, |xs| - 1);
  }

  lemma {:induction false} SameFrom<T>(xs: seq<T>, x: T, n: nat)
    requires n < |xs| && xs[1..] + [x] == xs
    ensures forall i :: |xs| - 1 - n <= i < |xs| ==> xs[i] == x
  {
    var k := |xs| - 1 - n;
    assert (xs[1..] + [x])[k] == xs[k];
    if n > 0 { SameFrom(xs, x, n - 1); }
  }

  lemma AppendSame<T>(xs: seq<T>, x: T, n: nat)
    requires 0 < |xs| <= n
    ensures LastN(xs + [x], n) == xs <==> |xs| == n && AllAre(xs, x)
  {
    if |xs| == n {
      assert LastN(xs + [x], n) == xs[1..] + [x];
      if xs[1..] + [x] == xs { ShiftIsSame(xs, x); }
      if AllAre(xs, x) { assert xs[1..] + [x] == xs; }
    }
  }

  lemma OtherAgain(messages: seq<Message>, ev: Event)
    requires !ev.kind.TextDelta? && !Permission(ev.kind)
    ensures var t := LastN(Place(messages, ev), MAX_MESSAGES);
            Place(t, ev) == t + [Shown(ev, Unresolved)]
  {
    PlaceShape(messages, ev);
  }

  /** An event without an id that is neither delta nor permission question is shown once more, unless the
      whole window consists of its copies. */
  lemma {:induction false} IdlessCopyExactly(env: Env, s: State, ev: Event, from: string)
    requires ev.messageId == "" && !ev.kind.TextDelta? && !Permission(ev.kind)
    ensures var t := Receive(env, s, ev, from);
            Receive(env, t, ev, from) == t <==>
              Stopped(s, from) || (|t.messages| == MAX_MESSAGES && AllAre(t.messages, Shown(ev, Unresolved)))
  {
    hide Place, LastN, OnDisplay, Fields, AllAre, Replacement;
    NoId(s.messages);
    if !Stopped(s, from) {
      SecondCopy(env, s, ev, from);
      PlaceShape(s.messages, ev);
      OtherAgain(s.messages, ev);
      var t := Receive(env, s, ev, from);
      NoId(t.messages);
      AppendSame(t.messages, Shown(ev, Unresolved), MAX_MESSAGES);
    }
  }

  // ----- Any list of events -----

  /** The state is the same after every one of the events. */
  predicate Unmoved(env: Env, s: State, from: string, again: seq<Event>) {
    again == [] || (Unmoved(env, s, from, again[..|again| - 1]) && Receive(env, s, again[|again| - 1], from) == s)
  }

  lemma {:induction false} UnmovedMeans(env: Env, s: State, from: string, again: seq<Event>)
    ensures Unmoved(env, s, from, again) <==> forall n :: 0 <= n <= |again| ==> Deliver(env, s, from, again[..n]) == s
  {
    hide Receive;
    if again == [] {
      assert forall n :: 0 <= n <= |again| ==> again[..n] == [];
    } else {
      var k := |again| - 1;
      var init := again[..k];
      UnmovedMeans(env, s, from, init);
      assert forall n :: 0 <= n <= k ==> init[..n] == again[..n];
      assert again[..|again|] == again && again[..k + 1] == again;
      if Unmoved(env, s, from, again) {
        forall n | 0 <= n <= |again| ensures Deliver(env, s, from, again[..n]) == s {
          if n <= k { assert init[..n] == again[..n]; }
        }
      }
      if forall n :: 0 <= n <= |again| ==> Deliver(env, s, from, again[..n]) == s {
        forall n | 0 <= n <= k ensures Deliver(env, s, from, init[..n]) == s {
          assert init[..n] == again[..n];
        }
        assert Deliver(env, s, from, again[..k]) == s && Deliver(env, s, from, again[..k + 1]) == s;
      }
    }
  }

  /** At-least-once delivery becomes exactly-once display, whatever has been delivered and whatever has
      been pushed out of the window: durable events, in any order and number, change nothing if and only
      if the session is stopped or all their ids are on display. */
  lemma {:induction false} RedeliveryIsInvisible(env: Env, s: State, from: string, again: seq<Event>)
    requires forall e :: e in again ==> Durable(e)
    ensures Unmoved(env, s, from, again) <==>
            Stopped(s, from) || forall e :: e in again ==> OnDisplay(s.messages, e.messageId)
  {
    hide Receive, OnDisplay, Stopped, Durable;
    if again != [] {
      var init, last := again[..|again| - 1], again[|again| - 1];
      assert again == init + [last];
      RedeliveryIsInvisible(env, s, from, init);
      DurableExactly(env, s, last, from);
    }
  }

  // ----- How long a message stays -----

  /** The id is shown once, by a durable message, `d` places before the end. */
  predicate At(messages: seq<Message>, id: string, d: nat) {
    && d < |messages|
    && ShowsDurable(messages[|messages| - 1 - d])
    && forall i :: 0 <= i < |messages| ==> (Id(messages[i]) == id <==> i == |messages| - 1 - d)
  }

  /** The event makes the list longer. */
  predicate Pushes(s: State, ev: Event, from: string) {
    !Ignored(s, ev, from) &&
    (s.messages == [] || Replacement(s.messages[|s.messages| - 1], ev).None?)
  }

  function CountPushes(env: Env, s: State, from: string, evs: seq<Event>): nat {
    if evs == [] then 0
    else
      var t := Deliver(env, s, from, evs[..|evs| - 1]);
      CountPushes(env, s, from, evs[..|evs| - 1]) + if Pushes(t, evs[|evs| - 1], from) then 1 else 0
  }

  lemma PlaceMoves(messages: seq<Message>, ev: Event, id: string, d: nat)
    requires At(messages, id, d) && ev.messageId != id
    ensures var pushed := Replacement(messages[|messages| - 1], ev).None?;
            At(Place(messages, ev), id, if pushed then d + 1 else d)
  {
    hide MergeThinking;
    var placed := Place(messages, ev);
    var last := messages[|messages| - 1];
    if Replacement(last, ev).Some? {
      ReplacementId(last, ev, id);
      assert forall i :: 0 <= i < |messages| - 1 ==> placed[i] == messages[i];
    } else {
      assert placed == messages + [Shown(ev, Unresolved)];
    }
  }

  /** A durable card is not replaced, and what replaces another one does not take a strange id. */
  lemma ReplacementId(last: Message, ev: Event, id: string)
    requires Replacement(last, ev).Some? && ev.messageId != id
    ensures !ShowsDurable(last)
    ensures Id(last) != id ==> Replacement(last, ev).value.messageId != id
  {
    hide MergeThinking;
  }

  lemma CutLength<T>(xs: seq<T>, n: nat)
    ensures |LastN(xs, n)| == if |xs| > n then n else |xs|
  {
  }

  lemma CutAt<T>(xs: seq<T>, n: nat, k: nat)
    requires k < |LastN(xs, n)| <= |xs|
    ensures LastN(xs, n)[k] == xs[|xs| - |LastN(xs, n)| + k]
  {
  }

  lemma CutMoves(messages: seq<Message>, id: string, d: nat)
    requires At(messages, id, d)
    ensures d < MAX_MESSAGES ==> At(LastN(messages, MAX_MESSAGES), id, d)
    ensures id != "" && d >= MAX_MESSAGES ==> !OnDisplay(LastN(messages, MAX_MESSAGES), id)
  {
    hide ShowsDurable, LastN;
    var cut := LastN(messages, MAX_MESSAGES);
    CutLength(messages, MAX_MESSAGES);
    forall i | 0 <= i < |cut| ensures Id(cut[i]) == id <==> i == |cut| - 1 - d {
      CutAt(messages, MAX_MESSAGES, i);
    }
    if d < MAX_MESSAGES { CutAt(messages, MAX_MESSAGES, |cut| - 1 - d); }
  }

  lemma ReceiveMoves(env: Env, s: State, ev: Event, from: string, id: string, d: nat)
    requires At(s.messages, id, d) && d < MAX_MESSAGES && id != "" && ev.messageId != id
    ensures var t := Receive(env, s, ev, from);
            var now := if Pushes(s, ev, from) then d + 1 else d;
            if now < MAX_MESSAGES then At(t.messages, id, now) else !OnDisplay(t.messages, id)
  {
    hide At, Place, LastN, OnDisplay, Fields, Replacement;
    assert s.messages != [] by { AtSome(s.messages, id, d); }
    PlaceMoves(s.messages, ev, id, d);
    CutMoves(Place(s.messages, ev), id, if Replacement(s.messages[|s.messages| - 1], ev).None? then d + 1 else d);
  }

  lemma AtSome(messages: seq<Message>, id: string, d: nat)
    requires At(messages, id, d) && id != ""
    ensures messages != [] && OnDisplay(messages, id)
  {
    assert Id(messages[|messages| - 1 - d]) == id;
  }

  lemma PlaceStaysGone(messages: seq<Message>, ev: Event, id: string)
    requires id != "" && !OnDisplay(messages, id) && ev.messageId != id
    ensures !OnDisplay(Place(messages, ev), id)
  {
    hide Replacement;
    var placed := Place(messages, ev);
    if messages != [] && Replacement(messages[|messages| - 1], ev).Some? {
      ReplacementId(messages[|messages| - 1], ev, id);
    }
    forall i | 0 <= i < |placed| ensures Id(placed[i]) != id {
      if i < |messages| { assert Id(messages[i]) != id; }
    }
  }

  lemma CutStaysGone(messages: seq<Message>, id: string)
    requires !OnDisplay(messages, id)
    ensures !OnDisplay(LastN(messages, MAX_MESSAGES), id)
  {
    hide LastN;
    var cut := LastN(messages, MAX_MESSAGES);
    CutLength(messages, MAX_MESSAGES);
    forall i | 0 <= i < |cut| ensures Id(cut[i]) == Id(messages[|messages| - |cut| + i]) {
      CutAt(messages, MAX_MESSAGES, i);
    }
  }

  lemma ReceiveStaysGone(env: Env, s: State, ev: Event, from: string, id: string)
    requires id != "" && !OnDisplay(s.messages, id) && ev.messageId != id
    ensures !OnDisplay(Receive(env, s, ev, from).messages, id)
  {
    hide Fields, Place, LastN, OnDisplay;
    PlaceStaysGone(s.messages, ev, id);
    CutStaysGone(Place(s.messages, ev), id);
  }

  /** While nothing but events comes in, a durable message leaves the display exactly when as many messages
      have been pushed after it as the window holds. Module DisplayTime says it for all actions. */
  lemma {:induction false} OnDisplayWhileDelivering(env: Env, s: State, from: string, rest: seq<Event>, id: string, d: nat)
    requires At(s.messages, id, d) && d < MAX_MESSAGES && id != ""
    requires forall e :: e in rest ==> e.messageId != id
    ensures var t := Deliver(env, s, from, rest);
            var now := d + CountPushes(env, s, from, rest);
            if now < MAX_MESSAGES then At(t.messages, id, now) && OnDisplay(t.messages, id)
            else !OnDisplay(t.messages, id)
  {
    hide At, Receive, OnDisplay, Pushes;
    if rest == [] {
      AtSome(s.messages, id, d);
    } else {
      var init, last := rest[..|rest| - 1], rest[|rest| - 1];
      assert last in rest && forall e :: e in init ==> e in rest;
      OnDisplayWhileDelivering(env, s, from, init, id, d);
      var t := Deliver(env, s, from, init);
      var now := d + CountPushes(env, s, from, init);
      if now < MAX_MESSAGES {
        ReceiveMoves(env, t, last, from, id, now);
        var next := if Pushes(t, last, from) then now + 1 else now;
        if next < MAX_MESSAGES { AtSome(Receive(env, t, last, from).messages, id, next); }
      } else {
        ReceiveStaysGone(env, t, last, from, id);
      }
    }
  }

  lemma FirstCopyIsLast(env: Env, s: State, ev: Event, from: string)
    requires Durable(ev) && !Stopped(s, from) && !OnDisplay(s.messages, ev.messageId)
    ensures At(Receive(env, s, ev, from).messages, ev.messageId, 0)
  {
    hide Fields, MergeThinking;
    var placed := Place(s.messages, ev);
    assert forall i :: 0 <= i < |s.messages| ==> Id(s.messages[i]) != ev.messageId;
    assert At(placed, ev.messageId, 0);
    CutMoves(placed, ev.messageId, 0);
  }

  lemma {:induction false} StoppedStays(env: Env, s: State, from: string, evs: seq<Event>)
    ensures Stopped(Deliver(env, s, from, evs), from) == Stopped(s, from)
  {
    hide Place, LastN, OnDisplay, NextAgent, NextPrompt;
    if evs != [] { StoppedStays(env, s, from, evs[..|evs| - 1]); }
  }

  /** A durable event that is taken in, and delivered again after nothing but other events, is seen again if
      and only if those have pushed as many messages as the window holds. */
  lemma {:induction false} SeenAgainWhileDelivering(env: Env, s: State, from: string, ev: Event, rest: seq<Event>)
    requires Durable(ev) && !Stopped(s, from) && !OnDisplay(s.messages, ev.messageId)
    requires forall e :: e in rest ==> e.messageId != ev.messageId
    ensures var t := Receive(env, s, ev, from);
            var u := Deliver(env, t, from, rest);
            Receive(env, u, ev, from) == u <==> CountPushes(env, t, from, rest) < MAX_MESSAGES
  {
    hide Receive, OnDisplay, At, Stopped, CountPushes;
    var t := Receive(env, s, ev, from);
    FirstCopyIsLast(env, s, ev, from);
    OnDisplayWhileDelivering(env, t, from, rest, ev.messageId, 0);
    var u := Deliver(env, t, from, rest);
    DurableExactly(env, u, ev, from);
    StoppedStays(env, t, from, rest);
    StoppedOnce(env, s, ev, from);
  }

  lemma StoppedOnce(env: Env, s: State, ev: Event, from: string)
    ensures Stopped(Receive(env, s, ev, from), from) == Stopped(s, from)
  {
    hide Place, LastN, OnDisplay, NextAgent, NextPrompt;
  }
}
