/** What the phone shows for an event, and its other fields, told by what has happened
    (mobile/src/stores/useMessageStore.ts). */
module MobileHistory {
  import opened Options
  import ChatEvents
  import opened MobileMessages
  import Json

  /** The event makes or changes a card; the others only change other fields. */
  predicate Displayed(ev: Event) {
    && !ev.kind.ThinkingStart? && !ev.kind.ThinkingEnd? && !ev.kind.TurnEnd? && !ev.kind.Lifecycle?
    && !ev.kind.AgentStatus? && !ev.kind.ContextWindow? && !ev.kind.PlanMode? && !ev.kind.Session?
  }

  /** A card like the last one: a delta of its block, the text that completes it, the same question again. */
  predicate TakenUp(messages: seq<Message>, ev: Event) {
    && messages != [] && messages[|messages| - 1].Shown?
    && var last := messages[|messages| - 1].event;
       || (ev.kind.TextDelta? && last.kind.TextDelta? && last.blockIndex == ev.blockIndex)
       || (ev.kind.Text? && last.kind.TextDelta?)
       || (ChatEvents.Permission(ev.kind) && ChatEvents.Permission(last.kind) && last.toolName == ev.toolName)
  }

  /** For every event that is displayed, what the last card then says, and that everything before it stays;
      every other event leaves the list alone. */
  lemma ShownLast(env: Env, s: State, ev: Event, payload: Json.Value)
    ensures !Displayed(ev) ==> Handle(env, s, ev, payload).messages == s.messages
    ensures Displayed(ev) ==>
              var t, taken := Handle(env, s, ev, payload).messages, TakenUp(s.messages, ev);
              && t != [] && t[|t| - 1].Shown?
              && t == (if taken then s.messages[..|s.messages| - 1] else s.messages) + [t[|t| - 1]]
              && var card := t[|t| - 1].event;
                 if taken && ev.kind.TextDelta? then
                   var last := s.messages[|s.messages| - 1].event;
                   && card == last.(text := card.text, thinking := card.thinking)
                   && card.text == Some((if last.text.Some? then last.text.value else "") +
                                        (if ev.text.Some? then ev.text.value else "undefined"))
                   && card.thinking == (if last.thinking != "" then last.thinking else ev.thinking)
                 else if taken && ev.kind.Text? then
                   && card == ev.(thinking := card.thinking)
                   && card.thinking == (if ev.thinking != "" then ev.thinking
                                        else s.messages[|s.messages| - 1].event.thinking)
                 else card == ev
  {
  }

  /** The user's own messages are added as they are; only a reset takes anything away. */
  lemma OwnMessagesAreAdded(env: Env, s: State, op: Op)
    requires !op.HandleEvent?
    ensures Apply(env, s, op).messages ==
            match op
            case AddUserMessage(text, session) => s.messages + [User(text, session)]
            case ResetMessages => []
            case _ => s.messages
  {
  }

  // ----- The other fields -----

  predicate Delivers(op: Op) {
    op.HandleEvent? && !op.event.kind.ContextWindow? && !op.event.kind.PlanMode? && !op.event.kind.Session?
  }

  predicate Ends(op: Op) {
    op.ResetMessages? || (op.HandleEvent? && op.event.kind.TurnEnd?)
  }

  /** The last thing that has happened was not the end of a turn. */
  predicate InTurn(ops: seq<Op>) {
    ops != [] && !Ends(ops[|ops| - 1]) &&
    (Delivers(ops[|ops| - 1]) || ops[|ops| - 1].AddUserMessage? || InTurn(ops[..|ops| - 1]))
  }

  /** A message has been sent, or thinking has started, in this turn. */
  predicate Thinks(ops: seq<Op>) {
    ops != [] && !Ends(ops[|ops| - 1]) &&
    (|| ops[|ops| - 1].AddUserMessage?
     || (ops[|ops| - 1].HandleEvent? && ops[|ops| - 1].event.kind.ThinkingStart?)
     || Thinks(ops[..|ops| - 1]))
  }

  function GreatestSeq(ops: seq<Op>): int {
    if ops == [] || ops[|ops| - 1].ResetMessages? then 0
    else
      var before, op := GreatestSeq(ops[..|ops| - 1]), ops[|ops| - 1];
      if Delivers(op) && op.event.seq_ > before then op.event.seq_ else before
  }

  /** The last question that has neither been answered nor put away. */
  function Question(ops: seq<Op>): Option<Event> {
    if ops == [] then None
    else
      match ops[|ops| - 1]
      case HandleEvent(ev, _) => if ChatEvents.Permission(ev.kind) then Some(ev) else Question(ops[..|ops| - 1])
      case AddUserMessage(_, _) => Question(ops[..|ops| - 1])
      case _ => None
  }

  /** The last usage that was sent, None if what was sent was no object. */
  function LastUsage(env: Env, ops: seq<Op>): Option<Usage> {
    if ops == [] then None
    else
      match ops[|ops| - 1]
      case HandleEvent(ev, payload) =>
        if ev.kind.ContextWindow? then ParseContextWindow(env, payload) else LastUsage(env, ops[..|ops| - 1])
      case ResetMessages => None
      case _ => LastUsage(env, ops[..|ops| - 1])
  }

  ghost predicate Follows(env: Env, s: State, ops: seq<Op>) {
    && (s.turnActive <==> InTurn(ops)) && (s.thinking <==> Thinks(ops))
    && s.lastSeq == GreatestSeq(ops) >= 0
    && s.prompt == Question(ops)
    && s.requestId == (if Question(ops).Some? then Question(ops).value.messageId else "")
    && s.contextWindow == LastUsage(env, ops)
  }

  lemma StepFollows(env: Env, s: State, ops: seq<Op>, op: Op)
    requires Follows(env, s, ops)
    ensures Follows(env, Apply(env, s, op), ops + [op])
  {
    hide Place, ParseContextWindow;
    assert (ops + [op])[..|ops|] == ops;
  }

  /** Over every run: the flags, the greatest seq, the question on screen with the id under which to answer it,
      and the usage are what the operations so far say. */
  lemma {:induction false} FieldsAreFollowed(env: Env, ops: seq<Op>)
    ensures Follows(env, Run(env, ops), ops)
  {
    hide Apply, Follows;
    if ops == [] {
      NothingFollows(env);
    } else {
      var init, last := ops[..|ops| - 1], ops[|ops| - 1];
      FieldsAreFollowed(env, init);
      StepFollows(env, Run(env, init), init, last);
      assert ops == init + [last];
    }
  }

  lemma NothingFollows(env: Env)
    ensures Follows(env, EMPTY, [])
  {
  }

  /** The first of the names that is there, and not null, counts. */
  lemma {:induction false} FieldIsFirst(o: Json.Object, names: seq<string>, k: nat)
    requires k <= |names| && (k < |names| ==> names[k] in o && !o[names[k]].Null?)
    requires forall j :: 0 <= j < k ==> names[j] !in o || o[names[j]].Null?
    ensures FirstField(o, names) == if k < |names| then Some(o[names[k]]) else None
  {
    if k > 0 {
      assert names[0] !in o || o[names[0]].Null?;
      assert forall j :: 0 <= j < |names| - 1 ==> names[1..][j] == names[j + 1];
      FieldIsFirst(o, names[1..], k - 1);
    }
  }

  /** Of an object's usage the first field counts that is there under one of the five names for what is used,
      and the first under one of those for the total; numbers are taken as they are. */
  lemma UsageIsRead(env: Env, o: Json.Object, u: nat, t: nat)
    requires u < 5 && USED_NAMES[u] in o && o[USED_NAMES[u]].Number?
    requires forall j :: 0 <= j < u ==> USED_NAMES[j] !in o || o[USED_NAMES[j]].Null?
    requires t < 5 && TOTAL_NAMES[t] in o && o[TOTAL_NAMES[t]].Number?
    requires forall j :: 0 <= j < t ==> TOTAL_NAMES[j] !in o || o[TOTAL_NAMES[j]].Null?
    ensures ParseContextWindow(env, Json.Obj(o)) ==
            Some(Usage(Some(o[USED_NAMES[u]].n), Some(o[TOTAL_NAMES[t]].n), Json.Obj(o)))
  {
    hide FirstField;
    FieldIsFirst(o, USED_NAMES, u);
    FieldIsFirst(o, TOTAL_NAMES, t);
  }
}
