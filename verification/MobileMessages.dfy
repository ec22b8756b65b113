/** The message store of the mobile client (mobile/src/stores/useMessageStore.ts) and the grouping
    of its list into cards (mobile/src/components/terminal/groupMessages.ts). */
module MobileMessages {
  import opened Options
  import opened ChatEvents
  import Json

  /** An event as the phone reads it. Everywhere but in `text` the source treats an absent field like an
      empty one, and "" stands for both. */
  datatype Event = Event(
    kind: Kind, messageId: string, sessionId: string, seq_: int,
    text: Option<string>, thinking: string, blockIndex: int,
    toolName: string, message: string, toolResult: string)

  /** The server leaves an empty text out (internal/projection/event.go:44). */
  function Sent(text: string): Option<string> {
    if text == "" then None else Some(text)
  }

  /** What a context_window payload says, as far as it can be recognised. */
  datatype Usage = Usage(used: Option<real>, total: Option<real>, raw: Json.Value)

  /** `Number(x) || undefined`, for values that are no numbers. */
  datatype Env = Env(toNumber: Json.Value -> Option<real>)

  datatype Message = Shown(event: Event) | User(text: string, sessionId: string)

  datatype State = State(
    messages: seq<Message>, prompt: Option<Event>, requestId: string,
    thinking: bool, turnActive: bool, lastSeq: int, contextWindow: Option<Usage>)

  datatype Op =
    | HandleEvent(event: Event, payload: Json.Value)  // the payload of a context_window event
    | AddUserMessage(text: string, session: string)
    | ClearPermission
    | AnswerPermission(allow: bool)
    | ResetMessages

  const EMPTY := State([], None, "", false, false, 0, None)

  predicate ShowsPermission(m: Message) {
    m.Shown? && Permission(m.event.kind)
  }

  predicate ShowsDelta(m: Message) {
    m.Shown? && m.event.kind.TextDelta?
  }

  /** Protocol events that only change flags. */
  predicate Internal(k: Kind) {
    k.ThinkingStart? || k.ThinkingEnd? || k.TurnEnd? || k.Lifecycle? || k.AgentStatus?
  }

  predicate Hidden(k: Kind) {
    k.PlanMode? || k.Session?
  }

  function Or(a: string, b: string): string {
    if a != "" then a else b
  }

  /** `text || ''`, which is also how a card looks. */
  function Shows(text: Option<string>): string {
    if text.Some? then text.value else ""
  }

  /** What `+` appends to a string for a text: for none the word "undefined". */
  function Appended(text: Option<string>): string {
    if text.Some? then text.value else "undefined"
  }

  function MergeDelta(last: Event, ev: Event): Event {
    last.(text := Some(Shows(last.text) + Appended(ev.text)), thinking := Or(last.thinking, ev.thinking))
  }

  predicate SameBlock(last: Message, ev: Event) {
    ShowsDelta(last) && ev.kind.TextDelta? && last.event.blockIndex == ev.blockIndex
  }

  predicate SameQuestion(last: Message, ev: Event) {
    ShowsPermission(last) && Permission(ev.kind) && last.event.toolName == ev.toolName
  }

  function Place(messages: seq<Message>, ev: Event): seq<Message> {
    if messages == [] then [Shown(ev)]
    else
      var init, last := messages[..|messages| - 1], messages[|messages| - 1];
      if SameBlock(last, ev) then init + [Shown(MergeDelta(last.event, ev))]
      else if ShowsDelta(last) && ev.kind.Text? then
        init + [Shown(ev.(thinking := Or(ev.thinking, last.event.thinking)))]
      else if SameQuestion(last, ev) then init + [Shown(ev)]
      else messages + [Shown(ev)]
  }

  function NextSeq(lastSeq: int, ev: Event): int {
    if ev.seq_ != 0 && ev.seq_ > lastSeq then ev.seq_ else lastSeq
  }

  const USED_NAMES := ["used_tokens", "usedTokens", "tokens_used", "used", "context_used"]
  const TOTAL_NAMES := ["total_tokens", "totalTokens", "tokens_total", "total", "context_total"]

  /** `a ?? b ?? ...` over the fields of these names. */
  function FirstField(o: Json.Object, names: seq<string>): Option<Json.Value> {
    if names == [] then None
    else if names[0] in o && !o[names[0]].Null? then Some(o[names[0]])
    else FirstField(o, names[1..])
  }

  function ToNumber(env: Env, v: Option<Json.Value>): Option<real> {
    if v.None? then None else if v.value.Number? then Some(v.value.n) else env.toNumber(v.value)
  }

  /** Only objects, arrays included, are looked at; anything else is no usage at all. */
  function ParseContextWindow(env: Env, payload: Json.Value): Option<Usage> {
    match payload
    case Obj(o) =>
      Some(Usage(ToNumber(env, FirstField(o, USED_NAMES)), ToNumber(env, FirstField(o, TOTAL_NAMES)), payload))
    case Array(_) => Some(Usage(None, None, payload))
    case _ => None
  }

  function Handle(env: Env, s: State, ev: Event, payload: Json.Value): State {
    if Internal(ev.kind) then
      s.(thinking := if ev.kind.ThinkingStart? then true else if ev.kind.TurnEnd? then false else s.thinking,
         turnActive := !ev.kind.TurnEnd?,
         lastSeq := NextSeq(s.lastSeq, ev))
    else if ev.kind.ContextWindow? then s.(contextWindow := ParseContextWindow(env, payload))
    else if Hidden(ev.kind) then s
    else s.(
      messages := Place(s.messages, ev),
      prompt := if Permission(ev.kind) then Some(ev) else s.prompt,
      requestId := if Permission(ev.kind) then ev.messageId else s.requestId,
      lastSeq := NextSeq(s.lastSeq, ev),
      turnActive := true)
  }

  function Apply(env: Env, s: State, op: Op): State {
    match op
    case HandleEvent(ev, payload) => Handle(env, s, ev, payload)
    case AddUserMessage(text, session) =>
      s.(messages := s.messages + [User(text, session)], thinking := true, turnActive := true)
    case ClearPermission => s.(prompt := None, requestId := "")
    case AnswerPermission(_) => s.(prompt := None, requestId := "")
    case ResetMessages => EMPTY
  }

  function Run(env: Env, ops: seq<Op>): State {
    if ops == [] then EMPTY else Apply(env, Run(env, ops[..|ops| - 1]), ops[|ops| - 1])
  }

  // ----- The store object -----

  class MessageStore {
    var messages: seq<Message>
    var prompt: Option<Event>
    var requestId: string
    var thinking: bool
    var turnActive: bool
    var lastSeq: int
    var contextWindow: Option<Usage>
    const env: Env

    function Value(): State
      reads this
    {
      State(messages, prompt, requestId, thinking, turnActive, lastSeq, contextWindow)
    }

    constructor (env: Env)
      ensures Value() == EMPTY && this.env == env
    {
      this.env := env;
      messages, prompt, requestId := [], None, "";
      thinking, turnActive, lastSeq, contextWindow := false, false, 0, None;
    }

    method NoteSeq(ev: Event)
      modifies this`lastSeq
      ensures lastSeq == NextSeq(old(lastSeq), ev)
    {
      if ev.seq_ != 0 && ev.seq_ > lastSeq { lastSeq := ev.seq_; }
    }

    method HandleEvent(ev: Event, payload: Json.Value)
      modifies this
      ensures Value() == Handle(env, old(Value()), ev, payload)
    {
      if Internal(ev.kind) {
        if ev.kind.ThinkingStart? { thinking := true; }
        if ev.kind.TurnEnd? { thinking := false; }
        turnActive := !ev.kind.TurnEnd?;
        NoteSeq(ev);
        return;
      }
      if ev.kind.ContextWindow? {
        contextWindow := ParseContextWindow(env, payload);
        return;
      }
      if Hidden(ev.kind) { return; }
      PlaceEvent(ev);
      if Permission(ev.kind) {
        prompt, requestId := Some(ev), ev.messageId;
      }
      NoteSeq(ev);
      turnActive := true;
    }

    method PlaceEvent(ev: Event)
      modifies this`messages
      ensures messages == Place(old(messages), ev)
    {
      var list := messages;
      if ev.kind.TextDelta? && list != [] && SameBlock(list[|list| - 1], ev) {
        var last := list[|list| - 1].event;
        var text := if last.text.Some? then last.text.value else "";
        text := text + if ev.text.Some? then ev.text.value else "undefined";
        var merged := last.(text := Some(text), thinking := Or(last.thinking, ev.thinking));
        list := list[..|list| - 1] + [Shown(merged)];
      } else if ev.kind.Text? && list != [] && ShowsDelta(list[|list| - 1]) {
        var thinking := list[|list| - 1].event.thinking;
        list := list[..|list| - 1] + [Shown(ev.(thinking := Or(ev.thinking, thinking)))];
      } else if Permission(ev.kind) && list != [] && SameQuestion(list[|list| - 1], ev) {
        list := list[..|list| - 1] + [Shown(ev)];
      } else {
        list := list + [Shown(ev)];
      }
      messages := list;
    }

    method AddUserMessage(text: string, session: string)
      modifies this
      ensures Value() == Apply(env, old(Value()), Op.AddUserMessage(text, session))
    {
      messages := messages + [User(text, session)];
      thinking, turnActive := true, true;
    }

    method ClearPermission()
      modifies this
      ensures Value() == Apply(env, old(Value()), Op.ClearPermission)
    {
      prompt, requestId := None, "";
    }

    method AnswerPermission(allow: bool)
      modifies this
      ensures Value() == Apply(env, old(Value()), Op.AnswerPermission(allow))
    {
      prompt, requestId := None, "";
    }

    method ResetMessages()
      modifies this
      ensures Value() == EMPTY
    {
      messages, prompt, requestId := [], None, "";
      thinking, turnActive, lastSeq, contextWindow := false, false, 0, None;
    }
  }

  // ----- The list is canonical -----

  /** Two neighbours that the store would have made one. */
  predicate Mergeable(a: Message, b: Message) {
    b.Shown? && (SameBlock(a, b.event) || SameQuestion(a, b.event))
  }

  predicate Canonical(messages: seq<Message>) {
    forall i :: 0 < i < |messages| ==> !Mergeable(messages[i - 1], messages[i])
  }

  lemma PlaceIsCanonical(messages: seq<Message>, ev: Event)
    requires Canonical(messages)
    ensures Canonical(Place(messages, ev))
  {
    hide Or;
    var placed := Place(messages, ev);
    forall i | 0 < i < |placed| ensures !Mergeable(placed[i - 1], placed[i]) {
      if i < |messages| { assert !Mergeable(messages[i - 1], messages[i]); }
    }
  }

  /** From an empty store, no reachable list has two adjacent deltas of one block, or two adjacent
      permission cards for one tool. */
  lemma {:induction false} ReachableIsCanonical(env: Env, ops: seq<Op>)
    ensures Canonical(Run(env, ops).messages)
  {
    hide Place;
    if ops != [] {
      var s, op := Run(env, ops[..|ops| - 1]), ops[|ops| - 1];
      ReachableIsCanonical(env, ops[..|ops| - 1]);
      if op.HandleEvent? { PlaceIsCanonical(s.messages, op.event); }
    }
  }

  // ----- Splitting a text into deltas -----

  predicate Pieces(evs: seq<Event>, block: int) {
    forall e :: e in evs ==> e.kind.TextDelta? && e.blockIndex == block
  }

  function PlaceAll(messages: seq<Message>, evs: seq<Event>): seq<Message> {
    if evs == [] then messages else Place(PlaceAll(messages, evs[..|evs| - 1]), evs[|evs| - 1])
  }

  /** The text that the pieces say. */
  function AllText(evs: seq<Event>): string {
    if evs == [] then "" else AllText(evs[..|evs| - 1]) + Shows(evs[|evs| - 1].text)
  }

  /** The text that is appended to a card when the pieces fall on it. */
  function AllAppended(evs: seq<Event>): string {
    if evs == [] then "" else AllAppended(evs[..|evs| - 1]) + Appended(evs[|evs| - 1].text)
  }

  function FirstThinking(evs: seq<Event>): string {
    if evs == [] then "" else Or(FirstThinking(evs[..|evs| - 1]), evs[|evs| - 1].thinking)
  }

  /** The one delta that says what the pieces say, under the first one's id. */
  function Whole(evs: seq<Event>): Event
    requires evs != []
  {
    evs[0].(text := Some(AllText(evs)), thinking := FirstThinking(evs))
  }

  /** Every one of the pieces has a text. */
  predicate AllHaveText(evs: seq<Event>) {
    forall i :: 0 <= i < |evs| ==> evs[i].text.Some?
  }

  /** The last card takes up deltas of the block. */
  predicate EndsInBlock(messages: seq<Message>, block: int) {
    && messages != [] && ShowsDelta(messages[|messages| - 1])
    && messages[|messages| - 1].event.blockIndex == block
  }

  /** The pieces that fall on a card: all if the last card is of their block, else all but the first,
      which makes a card. */
  function Falling(messages: seq<Message>, evs: seq<Event>, block: int): seq<Event>
    requires evs != []
  {
    if EndsInBlock(messages, block) then evs else evs[1..]
  }

  /** How a message looks: an absent text is an empty one. */
  function Look(m: Message): Message {
    if m.Shown? then m.(event := m.event.(text := Some(Shows(m.event.text)))) else m
  }

  ghost predicate LookAlike(a: seq<Message>, b: seq<Message>) {
    |a| == |b| && forall i :: 0 <= i < |a| ==> Look(a[i]) == Look(b[i])
  }

  /** A card after the pieces have fallen on it. */
  function Grown(card: Event, evs: seq<Event>): Event {
    if evs == [] then card
    else card.(text := Some(Shows(card.text) + AllAppended(evs)), thinking := Or(card.thinking, FirstThinking(evs)))
  }

  lemma {:induction false} GrowOn(messages: seq<Message>, evs: seq<Event>, block: int)
    requires EndsInBlock(messages, block) && Pieces(evs, block)
    ensures PlaceAll(messages, evs) ==
            messages[..|messages| - 1] + [Shown(Grown(messages[|messages| - 1].event, evs))]
  {
    var card := messages[|messages| - 1].event;
    if evs == [] {
      assert messages == messages[..|messages| - 1] + [Shown(card)];
    } else {
      var init, last := evs[..|evs| - 1], evs[|evs| - 1];
      assert evs == init + [last] && last in evs && forall e :: e in init ==> e in evs;
      GrowOn(messages, init, block);
      GrowOne(card, init, last);
    }
  }

  lemma GrowOne(card: Event, init: seq<Event>, last: Event)
    ensures MergeDelta(Grown(card, init), last) == Grown(card, init + [last])
  {
    assert (init + [last])[..|init|] == init;
    if init == [] {
      assert "" + Appended(last.text) == Appended(last.text);
      assert AllAppended(init + [last]) == AllAppended([]) + Appended(last.text) == Appended(last.text);
      assert FirstThinking(init + [last]) == Or(FirstThinking([]), last.thinking) == last.thinking;
    } else {
      assert Shows(card.text) + AllAppended(init) + Appended(last.text) ==
             Shows(card.text) + (AllAppended(init) + Appended(last.text));
    }
  }

  lemma {:induction false} PlaceAllFrom(messages: seq<Message>, first: Event, rest: seq<Event>)
    ensures PlaceAll(messages, [first] + rest) == PlaceAll(Place(messages, first), rest)
  {
    hide Place;
    if rest == [] {
      assert [first] + rest == [first] && [first][..0] == [];
    } else {
      var n := |rest| - 1;
      assert ([first] + rest)[..|rest|] == [first] + rest[..n];
      PlaceAllFrom(messages, first, rest[..n]);
    }
  }

  /** The list after the pieces. */
  lemma PlacedPieces(messages: seq<Message>, evs: seq<Event>, block: int)
    requires evs != [] && Pieces(evs, block)
    ensures PlaceAll(messages, evs) ==
            if EndsInBlock(messages, block)
            then messages[..|messages| - 1] + [Shown(Grown(messages[|messages| - 1].event, evs))]
            else messages + [Shown(Grown(evs[0], evs[1..]))]
  {
    hide Grown;
    if EndsInBlock(messages, block) {
      GrowOn(messages, evs, block);
    } else {
      var first, rest := evs[0], evs[1..];
      assert first in evs && forall e :: e in rest ==> e in evs;
      assert evs == [first] + rest;
      PlaceAllFrom(messages, first, rest);
      assert Place(messages, first) == messages + [Shown(first)];
      GrowOn(messages + [Shown(first)], rest, block);
    }
  }

  lemma {:induction false} TextsFrom(first: Event, rest: seq<Event>)
    ensures AllText([first] + rest) == Shows(first.text) + AllText(rest)
    ensures FirstThinking([first] + rest) == Or(first.thinking, FirstThinking(rest))
  {
    if rest == [] {
      assert [first] + rest == [first] && [first][..0] == [];
      assert "" + Shows(first.text) == Shows(first.text) + "";
    } else {
      var n := |rest| - 1;
      assert ([first] + rest)[..|rest|] == [first] + rest[..n];
      TextsFrom(first, rest[..n]);
      assert Shows(first.text) + AllText(rest[..n]) + Shows(rest[n].text) ==
             Shows(first.text) + (AllText(rest[..n]) + Shows(rest[n].text));
    }
  }

  /** What is appended is what is said exactly if every piece has a text. */
  lemma {:induction false} AppendedIsText(evs: seq<Event>)
    ensures |AllAppended(evs)| >= |AllText(evs)|
    ensures AllAppended(evs) == AllText(evs) <==> AllHaveText(evs)
    ensures !AllHaveText(evs) ==> |AllAppended(evs)| > |AllText(evs)|
  {
    if evs != [] {
      var init, last := evs[..|evs| - 1], evs[|evs| - 1];
      AppendedIsText(init);
      assert AllHaveText(evs) <==> AllHaveText(init) && last.text.Some? by {
        assert forall i :: 0 <= i < |init| ==> evs[i] == init[i];
      }
    }
  }

  lemma SameText(card: string, a: string, b: string)
    ensures card + a == card + b <==> a == b
  {
    if card + a == card + b {
      assert a == (card + a)[|card|..] == (card + b)[|card|..] == b;
    }
  }

  lemma LastLooks(init: seq<Message>, a: Message, b: Message)
    ensures LookAlike(init + [a], init + [b]) <==> Look(a) == Look(b)
  {
    if LookAlike(init + [a], init + [b]) {
      assert (init + [a])[|init|] == a && (init + [b])[|init|] == b;
    }
  }

  /** However a text is split into deltas of one block, the list looks like the one a single delta with
      the whole text makes, if and only if every piece that falls on a card has a text. */
  lemma {:induction false} SplittingIsInvisible(messages: seq<Message>, evs: seq<Event>, block: int)
    requires evs != [] && Pieces(evs, block)
    ensures LookAlike(PlaceAll(messages, evs), Place(messages, Whole(evs))) <==>
            AllHaveText(Falling(messages, evs, block))
  {
    hide LookAlike, PlaceAll, AllText, AllAppended, FirstThinking, AllHaveText;
    var first, rest, whole := evs[0], evs[1..], Whole(evs);
    assert first in evs && evs == [first] + rest;
    PlacedPieces(messages, evs, block);
    TextsFrom(first, rest);
    AppendedIsText(Falling(messages, evs, block));
    if EndsInBlock(messages, block) {
      var init, card := messages[..|messages| - 1], messages[|messages| - 1].event;
      LastLooks(init, Shown(Grown(card, evs)), Shown(MergeDelta(card, whole)));
      SameText(Shows(card.text), AllAppended(evs), AllText(evs));
    } else {
      LastLooks(messages, Shown(Grown(first, rest)), Shown(whole));
      FirstLooks(first, rest);
      assert Place(messages, whole) == messages + [Shown(whole)];
    }
  }

  lemma FirstLooks(first: Event, rest: seq<Event>)
    ensures var whole := first.(text := Some(Shows(first.text) + AllText(rest)),
                                thinking := Or(first.thinking, FirstThinking(rest)));
            Look(Shown(Grown(first, rest))) == Look(Shown(whole)) <==> AllAppended(rest) == AllText(rest)
  {
    hide AllText, AllAppended, FirstThinking;
    SameText(Shows(first.text), AllAppended(rest), AllText(rest));
    if rest == [] { NoPieces(first); }
  }

  lemma NoPieces(first: Event)
    ensures AllText([]) == "" && AllAppended([]) == "" && FirstThinking([]) == ""
    ensures Shows(first.text) + "" == Shows(first.text) && Or(first.thinking, "") == first.thinking
  {
  }

  /** Two splits of one text, with the same first id and the same thinking. If one of them has a text in
      every piece that falls on a card, they look alike exactly if the other one has, too. */
  lemma {:induction false} SplitsAgree(messages: seq<Message>, a: seq<Event>, b: seq<Event>, block: int)
    requires a != [] && b != [] && Pieces(a, block) && Pieces(b, block)
    requires a[0].(text := None, thinking := "") == b[0].(text := None, thinking := "")
    requires AllText(a) == AllText(b) && FirstThinking(a) == FirstThinking(b)
    requires AllHaveText(Falling(messages, a, block))
    ensures LookAlike(PlaceAll(messages, a), PlaceAll(messages, b)) <==> AllHaveText(Falling(messages, b, block))
  {
    hide Place, PlaceAll, AllHaveText, Falling, AllText, FirstThinking;
    SplittingIsInvisible(messages, a, block);
    SplittingIsInvisible(messages, b, block);
    assert Whole(a) == Whole(b);
  }

  /** A thinking delta as the server sends it: built with an empty text (internal/projection/raw.go:400, 459). */
  function ThinkingDelta(id: string, thinking: string, block: int): Event {
    Event.Event(TextDelta, id, "", 0, Sent(""), thinking, block, "", "", "")
  }

  /** The first of these makes a card. The second falls on it, and the card reads "undefined"; the third
      makes it "undefinedundefined". */
  lemma ThinkingReadsUndefined(ids: seq<string>, thinking: string, block: int)
    requires |ids| == 3
    ensures var evs := seq(3, i requires 0 <= i < 3 => ThinkingDelta(ids[i], thinking, block));
            && AllText(evs) == ""
            && PlaceAll([], evs[..1]) == [Shown(evs[0])]
            && PlaceAll([], evs[..2]) == [Shown(evs[0].(text := Some("undefined")))]
            && PlaceAll([], evs) == [Shown(evs[0].(text := Some("undefinedundefined")))]
  {
    var evs := seq(3, i requires 0 <= i < 3 => ThinkingDelta(ids[i], thinking, block));
    assert evs[..2][..1] == evs[..1] && evs[..1][..0] == [] && evs[..3] == evs;
    assert evs[..1] == [evs[0]];
    assert PlaceAll([], evs[..1]) == Place(PlaceAll([], evs[..1][..0]), evs[0]) == [Shown(evs[0])];
    var second := Shown(evs[0].(text := Some("undefined")));
    assert "" + "undefined" == "undefined";
    assert MergeDelta(evs[0], evs[1]) == second.event;
    assert PlaceAll([], evs[..2]) == Place([Shown(evs[0])], evs[1]) == [second];
    assert PlaceAll([], evs) == Place([second], evs[2]);
    assert "undefined" + "undefined" == "undefinedundefined";
    assert AllText(evs[..1]) == AllText([]) + "";
    assert AllText(evs[..2]) == AllText(evs[..1]) + "";
  }

  // ----- Grouping -----

  datatype Group = UserGroup(message: Message) | Assistant(items: seq<Message>) | Standalone(message: Message)

  /** Messages that are collected in an assistant card. */
  predicate Ordinary(m: Message) {
    !m.User? && !ShowsPermission(m)
  }

  function Items(g: Group): seq<Message> {
    if g.Assistant? then g.items else [g.message]
  }

  function Flatten(groups: seq<Group>): seq<Message> {
    if groups == [] then [] else Items(groups[0]) + Flatten(groups[1..])
  }

  predicate GroupOk(g: Group) {
    match g
    case UserGroup(m) => m.User?
    case Standalone(m) => ShowsPermission(m)
    case Assistant(items) => items != [] && forall m :: m in items ==> Ordinary(m)
  }

  /** Groups hold what they are for, assistant groups are not empty and no two of them adjoin. */
  predicate WellGrouped(groups: seq<Group>) {
    && (forall i :: 0 <= i < |groups| ==> GroupOk(groups[i]))
    && (forall i :: 0 < i < |groups| ==> !(groups[i - 1].Assistant? && groups[i].Assistant?))
  }

  lemma {:induction false} FlattenAppend(a: seq<Group>, b: seq<Group>)
    ensures Flatten(a + b) == Flatten(a) + Flatten(b)
  {
    if a == [] {
      assert a + b == b;
    } else {
      assert (a + b)[1..] == a[1..] + b;
      FlattenAppend(a[1..], b);
    }
  }

  lemma FlattenOne(g: Group)
    ensures Flatten([g]) == Items(g)
  {
    assert [g][1..] == [];
  }

  method Push(groups: seq<Group>, g: Group) returns (r: seq<Group>)
    requires WellGrouped(groups) && GroupOk(g)
    requires g.Assistant? && groups != [] ==> !groups[|groups| - 1].Assistant?
    ensures r == groups + [g] && WellGrouped(r) && Flatten(r) == Flatten(groups) + Items(g)
  {
    r := groups + [g];
    FlattenAppend(groups, [g]);
    FlattenOne(g);
  }

  /** Pushes the current assistant items as a group, if there are any. */
  method FlushAssistant(groups: seq<Group>, current: seq<Message>) returns (r: seq<Group>)
    requires WellGrouped(groups) && forall m :: m in current ==> Ordinary(m)
    requires current != [] && groups != [] ==> !groups[|groups| - 1].Assistant?
    ensures WellGrouped(r) && Flatten(r) == Flatten(groups) + current
    ensures current == [] ==> r == groups
  {
    r := groups;
    if current != [] {
      r := Push(groups, Assistant(current));
    }
  }

  /** The grouping keeps every message in place, and is well formed; by GroupingIsUnique nothing
      else is. */
  method GroupMessages(messages: seq<Message>) returns (groups: seq<Group>)
    ensures Flatten(groups) == messages && WellGrouped(groups)
  {
    hide Flatten;
    groups := [];
    FlattenNone();
    var current: seq<Message> := [];
    for k := 0 to |messages|
      invariant WellGrouped(groups) && forall m :: m in current ==> Ordinary(m)
      invariant groups != [] ==> !groups[|groups| - 1].Assistant?
      invariant Flatten(groups) + current == messages[..k]
    {
      var m := messages[k];
      assert messages[..k + 1] == messages[..k] + [m];
      if m.User? {
        groups := FlushAssistant(groups, current);
        current := [];
        groups := Push(groups, UserGroup(m));
      } else if ShowsPermission(m) {
        groups := FlushAssistant(groups, current);
        current := [];
        groups := Push(groups, Standalone(m));
      } else {
        current := current + [m];
      }
    }
    assert messages[..|messages|] == messages;
    groups := FlushAssistant(groups, current);
  }

  lemma FlattenNone()
    ensures Flatten([]) == []
  {
  }

  lemma WellGroupedTail(groups: seq<Group>)
    requires groups != [] && WellGrouped(groups)
    ensures GroupOk(groups[0]) && WellGrouped(groups[1..])
    ensures Flatten(groups) == Items(groups[0]) + Flatten(groups[1..])
    ensures groups[0].Assistant? && |groups| > 1 ==> !groups[1].Assistant?
  {
    var rest := groups[1..];
    forall i | 0 <= i < |rest| ensures GroupOk(rest[i]) {
      assert rest[i] == groups[i + 1];
    }
    forall i | 0 < i < |rest| ensures !(rest[i - 1].Assistant? && rest[i].Assistant?) {
      assert rest[i] == groups[i + 1] && rest[i - 1] == groups[i];
    }
  }

  /** After an assistant group comes nothing, or a message that is not ordinary. */
  lemma WhatFollows(groups: seq<Group>)
    requires WellGrouped(groups) && groups != [] && groups[0].Assistant?
    ensures var rest := Flatten(groups[1..]); rest == [] || !Ordinary(rest[0])
  {
    if |groups| > 1 {
      WellGroupedTail(groups);
      WellGroupedTail(groups[1..]);
    }
  }

  lemma InsideRun(a: seq<Message>, x: seq<Message>, i: nat)
    requires forall m :: m in a ==> Ordinary(m)
    ensures i < |a| ==> Ordinary((a + x)[i])
  {
    if i < |a| { assert (a + x)[i] in a; }
  }

  lemma AfterRun(a: seq<Message>, x: seq<Message>)
    requires x == [] || !Ordinary(x[0])
    ensures |a| < |a + x| ==> !Ordinary((a + x)[|a|])
  {
  }

  lemma FlattenSome(g: seq<Group>)
    requires WellGrouped(g) && g != []
    ensures Flatten(g) != []
  {
    hide Flatten, WellGrouped;
    WellGroupedTail(g);
  }

  /** A run of ordinary messages in front can only be cut in one way. */
  lemma SameRun(a: seq<Message>, x: seq<Message>, b: seq<Message>, y: seq<Message>)
    requires a + x == b + y
    requires (forall m :: m in a ==> Ordinary(m)) && (forall m :: m in b ==> Ordinary(m))
    requires (x == [] || !Ordinary(x[0])) && (y == [] || !Ordinary(y[0]))
    ensures a == b && x == y
  {
    InsideRun(b, y, |a|);
    AfterRun(a, x);
    InsideRun(a, x, |b|);
    AfterRun(b, y);
    assert |a| == |b|;
    assert a == (a + x)[..|a|] == (b + y)[..|b|] == b;
    assert x == (a + x)[|a|..] == (b + y)[|b|..] == y;
  }

  /** The grouping of a list is the only one there is. */
  lemma {:induction false} GroupingIsUnique(g: seq<Group>, h: seq<Group>)
    requires WellGrouped(g) && WellGrouped(h) && Flatten(g) == Flatten(h)
    ensures g == h
  {
    hide Flatten, WellGrouped;
    FlattenNone();
    if g == [] || h == [] {
      if g != [] { FlattenSome(g); }
      if h != [] { FlattenSome(h); }
    } else {
      WellGroupedTail(g);
      WellGroupedTail(h);
      var a, x, b, y := Items(g[0]), Flatten(g[1..]), Items(h[0]), Flatten(h[1..]);
      assert a[0] == (a + x)[0] == (b + y)[0] == b[0];
      assert a[0] in a && b[0] in b;
      if g[0].Assistant? {
        WhatFollows(g);
        WhatFollows(h);
        SameRun(a, x, b, y);
      } else {
        assert x == (a + x)[1..] == (b + y)[1..] == y;
      }
      GroupingIsUnique(g[1..], h[1..]);
      assert g == [g[0]] + g[1..] && h == [h[0]] + h[1..];
    }
  }
}
