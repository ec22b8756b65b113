/** What the cards of the web chat say (web/src/core/state/ChatContext.tsx:239-301, 383-396). */
module ChatCards {
  import opened Options
  import opened Text
  import opened ChatEvents
  import opened ChatReducer
  import opened ExactlyOnceDisplay

  // ----- One event -----

  /** The event goes into the last card: a question about the same tool, a delta of the same block, or the
      complete text of what the card has so far. */
  predicate TakenUp(messages: seq<Message>, ev: Event) {
    && messages != [] && messages[|messages| - 1].Shown?
    && var last := messages[|messages| - 1].event;
       || (Permission(ev.kind) && Permission(last.kind) && last.toolName == ev.toolName)
       || (ev.kind.TextDelta? && last.kind.TextDelta? && last.blockIndex == ev.blockIndex)
       || (ev.kind.Text? && last.kind.TextDelta?)
  }

  function NonEmpty(parts: seq<string>): seq<string> {
    if parts == [] then []
    else NonEmpty(parts[..|parts| - 1]) + if parts[|parts| - 1] == "" then [] else [parts[|parts| - 1]]
  }

  /** Thinkings, those that say nothing left out, one below the other. */
  function Together(thinkings: seq<string>): string {
    Join(NonEmpty(thinkings), "\n\n")
  }

  lemma TogetherTwo(a: string, b: string)
    ensures Together([a]) == a
    ensures Together([a, b]) == if a == "" then b else if b == "" then a else a + "\n\n" + b
  {
    NonEmptyOne(a);
    assert [a, b][..1] == [a];
    assert NonEmpty([a, b]) == NonEmpty([a]) + if b == "" then [] else [b];
    if a != "" && b != "" {
      assert NonEmpty([a, b]) == [a, b] && [a, b][1..] == [b];
      assert Join([a, b], "\n\n") == a + "\n\n" + Join([b], "\n\n");
    }
  }

  lemma NonEmptyOne(a: string)
    ensures NonEmpty([a]) == if a == "" then [] else [a]
  {
    assert [a][..0] == [];
  }

  /** For every event that is taken in, what the last card then says, and that everything before it stays:
      a text has its own words, and for thinking its own or else that of the card it completes; a delta's
      words and thinking come after those of its card; anything else is shown as it is. */
  lemma {:induction false} ShownLast(env: Env, s: State, ev: Event, from: string)
    requires !Ignored(s, ev, from)
    ensures var t, taken := Receive(env, s, ev, from).messages, TakenUp(s.messages, ev);
            var rest := if taken then s.messages[..|s.messages| - 1] else s.messages;
            && t != [] && t[|t| - 1].Shown? && t[|t| - 1].resolved.Unresolved?
            && t == LastN(rest + [t[|t| - 1]], MAX_MESSAGES)
            && var card := t[|t| - 1].event;
               if ev.kind.Text? then
                 && card == ev.(thinking := card.thinking)
                 && card.thinking == (if ev.thinking != "" || !taken then ev.thinking
                                      else s.messages[|s.messages| - 1].event.thinking)
               else if ev.kind.TextDelta? && taken then
                 var last := s.messages[|s.messages| - 1].event;
                 && card == last.(text := card.text, thinking := card.thinking)
                 && card.text == last.text + ev.text && card.thinking == Together([last.thinking, ev.thinking])
               else card == ev
  {
    hide OnDisplay, Fields, Together;
    if TakenUp(s.messages, ev) { TogetherTwo(s.messages[|s.messages| - 1].event.thinking, ev.thinking); }
    var placed := Place(s.messages, ev);
    assert LastN(placed, MAX_MESSAGES)[|LastN(placed, MAX_MESSAGES)| - 1] == placed[|placed| - 1];
  }

  // ----- A turn -----

  function Words(evs: seq<Event>): string {
    if evs == [] then "" else Words(evs[..|evs| - 1]) + evs[|evs| - 1].text
  }

  function Thoughts(evs: seq<Event>): seq<string> {
    seq(|evs|, i requires 0 <= i < |evs| => evs[i].thinking)
  }

  predicate DeltasOf(evs: seq<Event>, block: int) {
    forall e :: e in evs ==> e.kind.TextDelta? && e.blockIndex == block
  }

  /** The id is none, or one that neither the list nor a card with the id `first` has. */
  predicate FreshId(messages: seq<Message>, id: string, first: string) {
    id == "" || (!OnDisplay(messages, id) && id != first)
  }

  /** Deltas of which the reducer takes in every one. */
  predicate Fresh(messages: seq<Message>, evs: seq<Event>) {
    forall i :: 0 <= i < |evs| ==> FreshId(messages, evs[i].messageId, if i == 0 then "" else evs[0].messageId)
  }

  /** The last card does not take up deltas of this block. */
  predicate StartsAnew(messages: seq<Message>, block: int) {
    messages == [] || !ShowsDelta(messages[|messages| - 1]) || messages[|messages| - 1].event.blockIndex != block
  }

  lemma {:induction false} JoinSnoc(parts: seq<string>, last: string, sep: string)
    ensures Join(parts + [last], sep) == if parts == [] then last else Join(parts, sep) + sep + last
  {
    if |parts| == 0 {
      assert parts + [last] == [last];
    } else {
      assert (parts + [last])[1..] == parts[1..] + [last];
      JoinSnoc(parts[1..], last, sep);
      if |parts| > 1 {
        assert Join(parts + [last], sep) == parts[0] + sep + (Join(parts[1..], sep) + sep + last);
        assert parts[0] + sep + (Join(parts[1..], sep) + sep + last) == Join(parts, sep) + sep + last;
      } else {
        assert parts[0] + sep + last == Join(parts, sep) + sep + last;
      }
    }
  }

  lemma {:induction false} NonEmptyIsNone(parts: seq<string>)
    ensures NonEmpty(parts) == [] <==> Together(parts) == ""
    ensures forall p :: p in NonEmpty(parts) ==> p != ""
  {
    if parts != [] {
      var init, last := parts[..|parts| - 1], parts[|parts| - 1];
      NonEmptyIsNone(init);
      if last == "" { assert NonEmpty(init) + [] == NonEmpty(init); } else { JoinSnoc(NonEmpty(init), last, "\n\n"); }
    }
  }

  lemma TogetherSnoc(parts: seq<string>, last: string)
    ensures Together(parts + [last]) == Together([Together(parts), last])
  {
    hide Join;
    assert (parts + [last])[..|parts|] == parts;
    TogetherTwo(Together(parts), last);
    NonEmptyIsNone(parts);
    if last == "" {
      assert NonEmpty(parts) + [] == NonEmpty(parts);
    } else {
      JoinSnoc(NonEmpty(parts), last, "\n\n");
    }
  }

  /** Exchanging the last card of a list that has been cut. */
  lemma CutAndChange(messages: seq<Message>, a: Message, b: Message)
    ensures var cut := LastN(messages + [a], MAX_MESSAGES);
            && cut != [] && cut[|cut| - 1] == a
            && LastN(cut[..|cut| - 1] + [b], MAX_MESSAGES) == LastN(messages + [b], MAX_MESSAGES)
  {
    var cut := LastN(messages + [a], MAX_MESSAGES);
    assert cut[..|cut| - 1] + [b] == LastN(messages + [b], MAX_MESSAGES);
  }

  lemma NotShownAfterCut(messages: seq<Message>, card: Event, id: string)
    requires FreshId(messages, id, card.messageId)
    ensures !OnDisplay(LastN(messages + [Shown(card, Unresolved)], MAX_MESSAGES), id)
  {
    var all := messages + [Shown(card, Unresolved)];
    var cut := LastN(all, MAX_MESSAGES);
    if id != "" {
      forall i | 0 <= i < |cut| ensures Id(cut[i]) != id {
        assert cut[i] == all[|all| - |cut| + i];
      }
    }
  }

  /** The deltas of a turn make one card: their words one after the other, their thinkings one below the
      other, under the id of the first. */
  lemma {:induction false} DeltasMakeOneCard(env: Env, s: State, from: string, evs: seq<Event>, block: int)
    requires evs != [] && DeltasOf(evs, block) && Fresh(s.messages, evs)
    requires StartsAnew(s.messages, block) && !Stopped(s, from)
    ensures var t := Deliver(env, s, from, evs);
            var card := evs[0].(text := Words(evs), thinking := Together(Thoughts(evs)));
            t.messages == LastN(s.messages + [Shown(card, Unresolved)], MAX_MESSAGES) && !Stopped(t, from)
  {
    hide Receive, LastN, Together, OnDisplay;
    var init, last := evs[..|evs| - 1], evs[|evs| - 1];
    assert evs == init + [last] && last in evs;
    if init == [] {
      OnlyOne(last);
      FirstDelta(env, s, from, last, block);
    } else {
      assert forall e :: e in init ==> e in evs;
      FreshInit(s.messages, evs);
      DeltasMakeOneCard(env, s, from, init, block);
      var card := evs[0].(text := Words(init), thinking := Together(Thoughts(init)));
      assert Thoughts(evs) == Thoughts(init) + [last.thinking];
      TogetherSnoc(Thoughts(init), last.thinking);
      assert FreshId(s.messages, last.messageId, card.messageId);
      assert evs[0] in evs;
      NextDelta(env, Deliver(env, s, from, init), from, s.messages, card, last);
    }
  }

  lemma OnlyOne(e: Event)
    ensures Words([e]) == e.text && Together(Thoughts([e])) == e.thinking
  {
    assert [e][..0] == [];
    assert Thoughts([e]) == [e.thinking];
    TogetherTwo(e.thinking, "");
  }

  lemma FreshInit(messages: seq<Message>, evs: seq<Event>)
    requires |evs| > 1 && Fresh(messages, evs)
    ensures Fresh(messages, evs[..|evs| - 1])
    ensures FreshId(messages, evs[|evs| - 1].messageId, evs[0].messageId)
  {
    hide FreshId;
    var init := evs[..|evs| - 1];
    assert forall i :: 0 <= i < |init| ==> init[i] == evs[i];
  }

  lemma FirstDelta(env: Env, s: State, from: string, ev: Event, block: int)
    requires ev.kind.TextDelta? && ev.blockIndex == block && FreshId(s.messages, ev.messageId, "")
    requires StartsAnew(s.messages, block) && !Stopped(s, from)
    ensures var t := Deliver(env, s, from, [ev]);
            t.messages == LastN(s.messages + [Shown(ev, Unresolved)], MAX_MESSAGES) && !Stopped(t, from)
  {
    hide LastN, Together;
    assert [ev][..0] == [] && Deliver(env, s, from, []) == s;
    assert !Ignored(s, ev, from);
    StoppedStays(env, s, from, ev);
    ShownLast(env, s, ev, from);
    var t := Receive(env, s, ev, from).messages;
    assert t[|t| - 1] == Shown(ev, Unresolved);
  }

  lemma StoppedStays(env: Env, s: State, from: string, ev: Event)
    ensures Stopped(Receive(env, s, ev, from), from) <==> Stopped(s, from)
  {
    hide Place, LastN, OnDisplay, NextAgent, NextPrompt;
  }

  lemma NextDelta(env: Env, t: State, from: string, messages: seq<Message>, card: Event, ev: Event)
    requires t.messages == LastN(messages + [Shown(card, Unresolved)], MAX_MESSAGES) && !Stopped(t, from)
    requires card.kind.TextDelta? && ev.kind.TextDelta? && ev.blockIndex == card.blockIndex
    requires FreshId(messages, ev.messageId, card.messageId)
    ensures var grown := card.(text := card.text + ev.text, thinking := Together([card.thinking, ev.thinking]));
            var u := Receive(env, t, ev, from);
            u.messages == LastN(messages + [Shown(grown, Unresolved)], MAX_MESSAGES) && !Stopped(u, from)
  {
    hide LastN, Together, OnDisplay, Receive;
    NotShownAfterCut(messages, card, ev.messageId);
    StoppedStays(env, t, from, ev);
    var grown := card.(text := card.text + ev.text, thinking := Together([card.thinking, ev.thinking]));
    CutAndChange(messages, Shown(card, Unresolved), Shown(grown, Unresolved));
    ShownLast(env, t, ev, from);
    var u := Receive(env, t, ev, from).messages;
    assert u[|u| - 1] == Shown(grown, Unresolved);
  }

  lemma CompleteText(env: Env, t: State, from: string, messages: seq<Message>, card: Event, final: Event)
    requires t.messages == LastN(messages + [Shown(card, Unresolved)], MAX_MESSAGES) && !Stopped(t, from)
    requires card.kind.TextDelta? && final.kind.Text? && FreshId(messages, final.messageId, card.messageId)
    ensures var whole := final.(thinking := if final.thinking != "" then final.thinking else card.thinking);
            Receive(env, t, final, from).messages == LastN(messages + [Shown(whole, Unresolved)], MAX_MESSAGES)
  {
    hide LastN, Together, OnDisplay, Receive;
    NotShownAfterCut(messages, card, final.messageId);
    var whole := final.(thinking := if final.thinking != "" then final.thinking else card.thinking);
    CutAndChange(messages, Shown(card, Unresolved), Shown(whole, Unresolved));
    ShownLast(env, t, final, from);
    var u := Receive(env, t, final, from).messages;
    assert u[|u| - 1] == Shown(whole, Unresolved);
  }

  /** A turn of deltas that a complete text ends leaves one card, with the words and the id of that text. Its
      thinking is that of the text, or, if that has none, all that the deltas have thought. */
  lemma {:induction false} TurnLeavesTheText(
    env: Env, s: State, from: string, evs: seq<Event>, block: int, final: Event)
    requires evs != [] && DeltasOf(evs, block) && Fresh(s.messages, evs)
    requires StartsAnew(s.messages, block) && !Stopped(s, from)
    requires final.kind.Text? && FreshId(s.messages, final.messageId, evs[0].messageId)
    ensures var t := Receive(env, Deliver(env, s, from, evs), final, from);
            var thinking := if final.thinking != "" then final.thinking else Together(Thoughts(evs));
            t.messages == LastN(s.messages + [Shown(final.(thinking := thinking), Unresolved)], MAX_MESSAGES)
  {
    hide LastN, Together, OnDisplay, Receive, Words, Fresh;
    DeltasMakeOneCard(env, s, from, evs, block);
    assert evs[0] in evs;
    var card := evs[0].(text := Words(evs), thinking := Together(Thoughts(evs)));
    CompleteText(env, Deliver(env, s, from, evs), from, s.messages, card, final);
  }

  // ----- An answer -----

  /** The answer to a permission question marks the last card with a question, and nothing else. */
  lemma {:induction false} AnswerMarksTheLatest(messages: seq<Message>, r: Resolution, i: int)
    requires -1 <= i < |messages| && (i >= 0 ==> ShowsPermission(messages[i]))
    requires forall j :: i < j < |messages| ==> !ShowsPermission(messages[j])
    ensures MarkAnswer(messages, r) == if i >= 0 then messages[i := messages[i].(resolved := r)] else messages
  {
    if messages != [] {
      var n := |messages| - 1;
      if i < n { AnswerMarksTheLatest(messages[..n], r, i); }
    }
  }
}
