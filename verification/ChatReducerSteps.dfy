/** The reducer branches that the source writes as statements: copying, splicing and assigning
    fields of a new state (web/src/core/state/ChatContext.tsx:222-396). */
module ChatReducerSteps {
  import opened Options
  import opened Text
  import opened ChatEvents
  import opened ChatReducer

  /** messages.splice(0, messages.length - max) when the list is too long. */
  method Splice(messages: seq<Message>, max: nat) returns (r: seq<Message>)
    ensures r == LastN(messages, max)
  {
    r := messages;
    if |r| > max {
      r := r[|r| - max..];
    }
  }

  method PlaceMessage(messages: seq<Message>, ev: Event) returns (r: seq<Message>)
    ensures r == Place(messages, ev)
  {
    hide MergeThinking;
    r := messages + [Shown(ev, Unresolved)];
    if messages == [] { return; }
    var init, last := messages[..|messages| - 1], messages[|messages| - 1];
    if Permission(ev.kind) {
      if ShowsPermission(last) && last.event.toolName == ev.toolName {
        r := init + [Shown(ev, Unresolved)];
      }
    } else if ev.kind.TextDelta? {
      if ShowsDelta(last) && last.event.blockIndex == ev.blockIndex {
        var merged := last.event;
        merged := merged.(text := merged.text + ev.text);
        merged := merged.(thinking := MergeThinking(last.event.thinking, ev.thinking));
        r := init + [Shown(merged, Unresolved)];
      }
    } else if ev.kind.Text? {
      if ShowsDelta(last) {
        var final := ev;
        if last.event.thinking != "" && ev.thinking == "" {
          final := final.(thinking := last.event.thinking);
        }
        r := init + [Shown(final, Unresolved)];
      }
    }
  }

  /** A permission question, asked directly or found in a refused tool result. */
  method NotePermission(env: Env, state: State, ev: Event) returns (next: State)
    ensures next == state.(
      prompt := NextPrompt(env, state, ev), requestId := NextRequestId(state, ev),
      turnActive := state.turnActive || (Permission(ev.kind) && !state.stopping))
  {
    hide RefusalPrompt, Refused;
    next := state;
    if Permission(ev.kind) {
      next := next.(prompt := Some(ev));
      next := next.(requestId := if ev.kind.PermissionAsk? then ev.messageId else "");
      if !state.stopping {
        next := next.(turnActive := true);
      }
    }
    if next.prompt.None? && Refused(ev) {
      next := next.(prompt := Some(RefusalPrompt(env, state, ev)));
    }
  }

  /** The end of a turn, and the lifecycle message that repeats it when nothing is going on. */
  method NoteTurn(state: State, ev: Event) returns (next: State)
    ensures next == if ev.kind.TurnEnd? then state.(turnActive := false, thinking := false, allowAllTurn := false) else state
  {
    next := state;
    if ev.kind.TurnEnd? {
      next := next.(turnActive := false);
      next := next.(thinking := false);
      next := next.(allowAllTurn := false);
    }
    if ev.kind.Lifecycle? && HasPrefix(ev.message, "turn_end") {
      if !next.thinking && !next.turnActive && next.agent.activity.Resting? {
        next := next.(turnActive := false, thinking := false);
      }
    }
  }

  method NoteActivity(env: Env, state: State, ev: Event) returns (next: State)
    ensures next == state.(
      contextWindow := if ev.kind.ContextWindow? && ev.tokens.max > 0 then Some(ev.tokens) else state.contextWindow,
      agent := NextAgent(env, state, ev))
  {
    next := state;
    if ev.kind.ContextWindow? && ev.tokens.max > 0 {
      next := next.(contextWindow := Some(ev.tokens));
    }
    var update := ActivityOf(env, ev);
    if update.Some? {
      var toolName := if update.value.toolName.Some? then update.value.toolName else state.agent.toolName;
      next := next.(agent := AgentState(update.value.activity, toolName));
    }
  }

  /** What the statements after the message list do to the other fields. */
  method NoteFields(env: Env, state: State, ev: Event, from: string) returns (next: State)
    ensures next == Fields(env, state, ev, from)
  {
    hide NextPrompt, ActivityOf, NextAgent;
    next := NotePermission(env, state, ev);
    next := NoteTurn(next, ev);
    AgentIsIndependent(env, state, next, ev);
    next := NoteActivity(env, next, ev);
    next := next.(sessionId := NextSession(state, from));
    if ev.seq_ != 0 && ev.seq_ > state.lastSeq {
      next := next.(lastSeq := ev.seq_);
    }
  }

  /** EVENT_RECEIVED, statement by statement. */
  method ReceiveEvent(env: Env, state: State, ev: Event, from: string) returns (next: State)
    ensures next == Receive(env, state, ev, from)
  {
    hide Place, OnDisplay, Fields;
    if from != "" && state.stoppedSessionId == Some(from) { return state; }
    if !Permission(ev.kind) && OnDisplay(state.messages, ev.messageId) { return state; }
    var messages := PlaceMessage(state.messages, ev);
    messages := Splice(messages, MAX_MESSAGES);
    next := NoteFields(env, state, ev, from);
    next := next.(messages := messages);
  }

  lemma AgentIsIndependent(env: Env, s: State, t: State, ev: Event)
    ensures s.agent == t.agent ==> NextAgent(env, s, ev) == NextAgent(env, t, ev)
  {
  }

  method SendUserMessage(env: Env, state: State, text: string, session: string) returns (next: State)
    ensures next == Reduce(env, state, UserMessageSent(text, session))
  {
    hide Receive;
    var messages := state.messages + [User(text, session)];
    messages := Splice(messages, MAX_MESSAGES);
    next := state.(messages := messages, thinking := true, turnActive := true);
  }

  /** One step of the backward loop: at a permission card it is done, at any other message the
      answer goes further to the front. */
  lemma MarkStep(messages: seq<Message>, i: nat, r: Resolution)
    requires i < |messages|
    ensures MarkAnswer(messages[..i + 1], r) + messages[i + 1..] ==
            if ShowsPermission(messages[i]) then messages[i := messages[i].(resolved := r)]
            else MarkAnswer(messages[..i], r) + messages[i..]
  {
    assert messages[..i + 1][..i] == messages[..i];
    if !ShowsPermission(messages[i]) {
      assert messages[i..] == [messages[i]] + messages[i + 1..];
    }
  }

  lemma MarkEnds(messages: seq<Message>, r: Resolution)
    ensures MarkAnswer(messages[..|messages|], r) + messages[|messages|..] == MarkAnswer(messages, r)
    ensures MarkAnswer(messages[..0], r) + messages[0..] == messages
  {
    assert messages[..|messages|] == messages;
  }

  /** The backward loop over a copy of the list; it stops at the first permission card. */
  method MarkLatestPermission(messages: seq<Message>, r: Resolution) returns (msgs: seq<Message>)
    ensures msgs == MarkAnswer(messages, r)
  {
    hide MarkAnswer;
    MarkEnds(messages, r);
    msgs := messages;
    var i := |msgs| - 1;
    while i >= 0
      invariant -1 <= i < |msgs| && msgs == messages
      invariant MarkAnswer(messages[..i + 1], r) + messages[i + 1..] == MarkAnswer(messages, r)
      decreases i
    {
      MarkStep(messages, i, r);
      if ShowsPermission(msgs[i]) {
        msgs := msgs[i := msgs[i].(resolved := r)];
        return;
      }
      i := i - 1;
    }
  }

  method AnswerPermission(env: Env, state: State, allowed: bool) returns (next: State)
    ensures next == Reduce(env, state, PermissionAnswered(allowed))
  {
    hide Receive, MarkAnswer;
    var msgs := MarkLatestPermission(state.messages, if allowed then Allowed else Denied);
    next := state.(messages := msgs, prompt := None, requestId := "");
  }
}
