/** The broadcast hub with replay and back-pressure (internal/ws/hub.go).

    The state carries history that the source does not store: the log of all broadcasts, where it
    was last cleared, and for each subscriber the log positions of what was put in its channel. */
module Hub {
  import opened Options

  const REPLAY_SIZE := 200
  const DEFAULT_QUEUE := 128

  /** A subscriber's channel. `at` lists the log positions of everything put into it so far, the
      first `replayed` of them at subscription; `base` is the position of the oldest envelope in
      the replay buffer at that time, `joined` the length of the log, `lost` counts its drops. */
  datatype Sub<E> = Sub(
    capacity: nat, queue: seq<E>, consumed: seq<E>, open: bool,
    at: seq<nat>, base: nat, joined: nat, replayed: nat, lost: nat)

  datatype State<E> = State(
    subs: seq<Sub<E>>, replay: seq<E>, drops: nat,
    log: seq<E>, cleared: nat, offered: nat)

  datatype Op<E> =
    | Subscribe(size: nat)  // 0 for the default size
    | Unsubscribe(id: nat)
    | Broadcast(env: E)
    | Consume(id: nat)
    | ClearReplay

  function New<E>(): State<E> {
    State([], [], 0, [], 0, 0)
  }

  function Min(a: nat, b: nat): nat {
    if a <= b then a else b
  }

  function LastN<E>(s: seq<E>, n: nat): seq<E> {
    if |s| > n then s[|s| - n..] else s
  }

  function Positions(from: nat, n: nat): seq<nat> {
    seq(n, i requires 0 <= i < n => from + i)
  }

  /** Puts an envelope in the channel if there is room. */
  function Offer<E>(s: Sub<E>, env: E, position: nat): Sub<E> {
    if |s.queue| < s.capacity then s.(queue := s.queue + [env], at := s.at + [position])
    else s.(lost := s.lost + 1)
  }

  /** A new subscriber gets the oldest envelopes of the replay buffer, as many as fit its channel. */
  function NewSub<E>(s: State<E>, size: nat): Sub<E> {
    var capacity := if size > 0 then size else DEFAULT_QUEUE;
    var n := Min(capacity, |s.replay|);
    var base: nat := if |s.log| >= |s.replay| then |s.log| - |s.replay| else 0;
    Sub(capacity, s.replay[..n], [], true, Positions(base, n), base, |s.log|, n, 0)
  }

  function Close<E>(s: Sub<E>): Sub<E> {
    s.(open := false)
  }

  function Take<E>(s: Sub<E>): Sub<E> {
    if s.queue == [] then s else s.(consumed := s.consumed + [s.queue[0]], queue := s.queue[1..])
  }

  function OfferTo<E>(s: Sub<E>, env: E, position: nat): Sub<E> {
    if s.open then Offer(s, env, position) else s
  }

  function OfferAll<E>(subs: seq<Sub<E>>, env: E, position: nat): seq<Sub<E>> {
    seq(|subs|, i requires 0 <= i < |subs| => OfferTo(subs[i], env, position))
  }

  /** How many open channels there are, and how many of them are full. */
  function OpenCount<E>(subs: seq<Sub<E>>): nat {
    if subs == [] then 0 else OpenCount(subs[..|subs| - 1]) + if subs[|subs| - 1].open then 1 else 0
  }

  function FullCount<E>(subs: seq<Sub<E>>): nat {
    if subs == [] then 0
    else
      var s := subs[|subs| - 1];
      FullCount(subs[..|subs| - 1]) + if s.open && |s.queue| >= s.capacity then 1 else 0
  }

  function Apply<E>(s: State<E>, op: Op<E>): State<E> {
    match op
    case Subscribe(size) => s.(subs := s.subs + [NewSub(s, size)])
    case Unsubscribe(id) =>
      if id < |s.subs| then s.(subs := s.subs[id := Close(s.subs[id])]) else s
    case Broadcast(env) =>
      s.(replay := LastN(s.replay + [env], REPLAY_SIZE),
         subs := OfferAll(s.subs, env, |s.log|),
         drops := s.drops + FullCount(s.subs),
         log := s.log + [env],
         offered := s.offered + OpenCount(s.subs))
    case Consume(id) =>
      if id < |s.subs| then s.(subs := s.subs[id := Take(s.subs[id])]) else s
    case ClearReplay => s.(replay := [], cleared := |s.log|)
  }

  function Run<E>(ops: seq<Op<E>>): State<E> {
    if ops == [] then New() else Apply(Run(ops[..|ops| - 1]), ops[|ops| - 1])
  }

  // ----- Invariants -----

  function Received<E>(s: Sub<E>): seq<E> {
    s.consumed + s.queue
  }

  /** The envelopes received are those of the log at increasing positions: first a prefix of the
      replay buffer, then broadcasts made after joining, all of which are received or counted lost
      while the channel is open. */
  ghost predicate SubOk<E>(s: Sub<E>, log: seq<E>) {
    && |s.queue| <= s.capacity
    && |s.at| == |Received(s)|
    && s.base <= s.joined <= |log|
    && s.replayed == Min(s.capacity, s.joined - s.base) <= |s.at|
    && (forall k :: 0 <= k < |s.at| ==> s.at[k] < |log| && Received(s)[k] == log[s.at[k]])
    && (forall k :: 0 <= k < s.replayed ==> s.at[k] == s.base + k)
    && (forall k :: s.replayed <= k < |s.at| ==> s.joined <= s.at[k])
    && (forall j, k :: 0 <= j < k < |s.at| ==> s.at[j] < s.at[k])
    && |s.at| - s.replayed + s.lost <= |log| - s.joined
    && (s.open ==> |s.at| - s.replayed + s.lost == |log| - s.joined)
  }

  function Live<E>(subs: seq<Sub<E>>): int {
    if subs == [] then 0 else Live(subs[..|subs| - 1]) + |subs[|subs| - 1].at| - subs[|subs| - 1].replayed
  }

  function Lost<E>(subs: seq<Sub<E>>): nat {
    if subs == [] then 0 else Lost(subs[..|subs| - 1]) + subs[|subs| - 1].lost
  }

  ghost predicate Inv<E>(s: State<E>) {
    && s.cleared <= |s.log|
    && s.replay == LastN(s.log[s.cleared..], REPLAY_SIZE)
    && (forall i :: 0 <= i < |s.subs| ==> SubOk(s.subs[i], s.log))
    && s.drops == Lost(s.subs)
    && s.offered == Live(s.subs) + s.drops
  }

  lemma NewSubOk<E>(s: State<E>, size: nat)
    requires Inv(s)
    ensures SubOk(NewSub(s, size), s.log)
  {
    var n := NewSub(s, size);
    forall k | 0 <= k < |n.at| ensures Received(n)[k] == s.log[n.at[k]] {
      assert s.replay[k] == s.log[|s.log| - |s.replay| + k];
    }
  }

  lemma QueuedOk<E>(s: Sub<E>, log: seq<E>, env: E)
    requires SubOk(s, log) && s.open && |s.queue| < s.capacity
    ensures SubOk(Offer(s, env, |log|), log + [env])
  {
    var r := Offer(s, env, |log|);
    assert Received(r) == Received(s) + [env];
    forall k | 0 <= k < |r.at| ensures r.at[k] < |log + [env]| && Received(r)[k] == (log + [env])[r.at[k]] {
      if k < |s.at| { assert Received(s)[k] == log[s.at[k]]; }
    }
  }

  lemma PassedByOk<E>(s: Sub<E>, log: seq<E>, env: E)
    requires SubOk(s, log) && (!s.open || |s.queue| >= s.capacity)
    ensures SubOk(OfferTo(s, env, |log|), log + [env])
  {
    assert Received(OfferTo(s, env, |log|)) == Received(s);
  }

  lemma OfferOk<E>(s: Sub<E>, log: seq<E>, env: E)
    requires SubOk(s, log)
    ensures SubOk(OfferTo(s, env, |log|), log + [env])
  {
    hide SubOk;
    if s.open && |s.queue| < s.capacity {
      QueuedOk(s, log, env);
    } else {
      PassedByOk(s, log, env);
    }
  }

  lemma TakeOk<E>(s: Sub<E>, log: seq<E>)
    requires SubOk(s, log)
    ensures SubOk(Take(s), log)
  {
    assert Received(Take(s)) == Received(s);
  }

  /** A broadcast is received by, or lost to, every open subscriber. */
  lemma {:induction false} OfferAllCounts<E>(subs: seq<Sub<E>>, env: E, position: nat)
    ensures Lost(OfferAll(subs, env, position)) == Lost(subs) + FullCount(subs)
    ensures Live(OfferAll(subs, env, position)) == Live(subs) + OpenCount(subs) - FullCount(subs)
  {
    if subs != [] {
      var n := |subs| - 1;
      OfferAllCounts(subs[..n], env, position);
      assert OfferAll(subs, env, position)[..n] == OfferAll(subs[..n], env, position);
    }
  }

  /** Replacing one subscriber by one with the same counters leaves the sums alone. */
  lemma {:induction false} SumsKept<E>(subs: seq<Sub<E>>, id: nat, s: Sub<E>)
    requires id < |subs| && s.at == subs[id].at && s.replayed == subs[id].replayed && s.lost == subs[id].lost
    ensures Lost(subs[id := s]) == Lost(subs) && Live(subs[id := s]) == Live(subs)
  {
    var n := |subs| - 1;
    if id < n {
      SumsKept(subs[..n], id, s);
      assert subs[id := s][..n] == subs[..n][id := s];
    } else {
      assert subs[id := s][..n] == subs[..n];
    }
  }

  lemma WindowSlides<E>(log: seq<E>, cleared: nat, env: E, n: nat)
    requires cleared <= |log| && n > 0
    ensures LastN(LastN(log[cleared..], n) + [env], n) == LastN((log + [env])[cleared..], n)
  {
    assert (log + [env])[cleared..] == log[cleared..] + [env];
  }

  lemma ApplyKeepsInv<E>(s: State<E>, op: Op<E>)
    requires Inv(s)
    ensures Inv(Apply(s, op))
  {
    hide SubOk;
    match op {
      case Subscribe(size) =>
        NewSubOk(s, size);
        assert (s.subs + [NewSub(s, size)])[..|s.subs|] == s.subs;
      case Unsubscribe(id) =>
        if id < |s.subs| {
          CloseOk(s.subs[id], s.log);
          SumsKept(s.subs, id, Close(s.subs[id]));
        }
      case Broadcast(env) =>
        WindowSlides(s.log, s.cleared, env, REPLAY_SIZE);
        forall i | 0 <= i < |s.subs| ensures SubOk(OfferTo(s.subs[i], env, |s.log|), s.log + [env]) {
          OfferOk(s.subs[i], s.log, env);
        }
        OfferAllCounts(s.subs, env, |s.log|);
      case Consume(id) =>
        if id < |s.subs| {
          TakeOk(s.subs[id], s.log);
          SumsKept(s.subs, id, Take(s.subs[id]));
        }
      case ClearReplay =>
        assert s.log[|s.log|..] == [];
    }
  }

  lemma CloseOk<E>(s: Sub<E>, log: seq<E>)
    requires SubOk(s, log)
    ensures SubOk(Close(s), log)
  {
    assert Received(Close(s)) == Received(s);
  }

  lemma {:induction false} Reachable<E>(ops: seq<Op<E>>)
    ensures Inv(Run(ops))
  {
    hide Inv;
    if ops == [] {
      EmptyIsOk<E>();
    } else {
      Reachable(ops[..|ops| - 1]);
      ApplyKeepsInv(Run(ops[..|ops| - 1]), ops[|ops| - 1]);
    }
  }

  lemma EmptyIsOk<E>()
    ensures Inv(New<E>())
  {
  }

  // ----- The log is what was broadcast -----

  /** The envelopes that are broadcast, in order. */
  function Sent<E>(ops: seq<Op<E>>): seq<E> {
    if ops == [] then []
    else Sent(ops[..|ops| - 1]) + match ops[|ops| - 1] case Broadcast(env) => [env] case _ => []
  }

  /** The operations after the last clearing of the buffer. */
  function SinceClear<E>(ops: seq<Op<E>>): seq<Op<E>> {
    if ops == [] || ops[|ops| - 1].ClearReplay? then []
    else SinceClear(ops[..|ops| - 1]) + [ops[|ops| - 1]]
  }

  lemma {:induction false} LogIsSent<E>(ops: seq<Op<E>>)
    ensures Run(ops).log == Sent(ops)
    ensures Run(ops).cleared <= |Run(ops).log|
  {
    hide OfferAll, NewSub, OpenCount, FullCount;
    if ops != [] { LogIsSent(ops[..|ops| - 1]); }
  }

  lemma SentSnoc<E>(ops: seq<Op<E>>, op: Op<E>)
    ensures Sent(ops + [op]) == Sent(ops) + match op case Broadcast(env) => [env] case _ => []
  {
    assert (ops + [op])[..|ops|] == ops;
  }

  lemma StepLogs<E>(s: State<E>, op: Op<E>)
    requires s.cleared <= |s.log|
    ensures var t := Apply(s, op);
            t.cleared <= |t.log| &&
            t.log[t.cleared..] ==
              if op.ClearReplay? then []
              else s.log[s.cleared..] + match op case Broadcast(env) => [env] case _ => []
  {
    hide OfferAll, NewSub, OpenCount, FullCount;
    if op.Broadcast? { assert (s.log + [op.env])[s.cleared..] == s.log[s.cleared..] + [op.env]; }
  }

  lemma {:induction false} LogSinceClear<E>(ops: seq<Op<E>>)
    ensures Run(ops).cleared <= |Run(ops).log| && Run(ops).log[Run(ops).cleared..] == Sent(SinceClear(ops))
  {
    hide Apply, Sent;
    if ops == [] {
      SinceNothing<E>();
    } else {
      var init, last := ops[..|ops| - 1], ops[|ops| - 1];
      LogSinceClear(init);
      StepLogs(Run(init), last);
      if last.ClearReplay? { SinceNothing<E>(); } else { SentSnoc(SinceClear(init), last); }
    }
  }

  lemma SinceNothing<E>()
    ensures Sent<E>([]) == []
  {
  }

  // ----- What holds in every reachable state -----

  /** The replay buffer is the last 200 broadcasts since the last clear, and every envelope offered
      to a subscriber was either put into its channel or counted as dropped. */
  lemma WindowAndConservation<E>(ops: seq<Op<E>>)
    ensures Run(ops).log == Sent(ops) && Run(ops).cleared <= |Sent(ops)|
    ensures Run(ops).replay == LastN(Sent(SinceClear(ops)), REPLAY_SIZE)
    ensures Sent(SinceClear(ops)) == Sent(ops)[Run(ops).cleared..]
    ensures Run(ops).offered == Live(Run(ops).subs) + Run(ops).drops
    ensures Run(ops).drops == Lost(Run(ops).subs)
  {
    hide Run, Sent, SinceClear;
    Reachable(ops);
    LogIsSent(ops);
    LogSinceClear(ops);
  }

  /** `part` is what a reader of `log` sees who looks at the positions `at`, in order, once each. */
  ghost predicate Embedded<E>(part: seq<E>, log: seq<E>, at: seq<nat>) {
    && |at| == |part|
    && (forall k :: 0 <= k < |part| ==> at[k] < |log| && part[k] == log[at[k]])
    && (forall j, k :: 0 <= j < k < |part| ==> at[j] < at[k])
  }

  /** Whatever a subscriber receives has been broadcast, in that order, each envelope once. */
  lemma SubscriberSeesTheLog<E>(ops: seq<Op<E>>, id: nat)
    requires id < |Run(ops).subs|
    ensures exists at :: Embedded(Received(Run(ops).subs[id]), Sent(ops), at)
  {
    hide Run, Sent;
    Reachable(ops);
    LogIsSent(ops);
    assert Embedded(Received(Run(ops).subs[id]), Run(ops).log, Run(ops).subs[id].at);
  }

  /** The parts of a subscriber that no step changes, and the part that only grows. */
  ghost predicate Later<E>(a: Sub<E>, b: Sub<E>) {
    && b.capacity == a.capacity && b.base == a.base && b.joined == a.joined && b.replayed == a.replayed
    && a.at <= b.at && Received(a) <= Received(b)
    && (b.open ==> a.open)
    && (!a.open ==> Received(b) == Received(a) && b.lost == a.lost)
  }

  lemma ApplyIsLater<E>(s: State<E>, op: Op<E>, id: nat)
    requires id < |s.subs|
    ensures id < |Apply(s, op).subs| && Later(s.subs[id], Apply(s, op).subs[id])
  {
    var sub := s.subs[id];
    assert Received(Take(sub)) == Received(sub);
    if op.Broadcast? {
      assert Received(OfferTo(sub, op.env, |s.log|)) == Received(sub) ||
             Received(OfferTo(sub, op.env, |s.log|)) == Received(sub) + [op.env];
    }
  }

  lemma {:induction false} RunIsLater<E>(ops: seq<Op<E>>, rest: seq<Op<E>>, id: nat)
    requires id < |Run(ops).subs|
    ensures id < |Run(ops + rest).subs| && Later(Run(ops).subs[id], Run(ops + rest).subs[id])
    decreases |rest|
  {
    hide Apply;
    if rest == [] {
      assert ops + rest == ops;
    } else {
      var n := |rest| - 1;
      RunIsLater(ops, rest[..n], id);
      assert (ops + rest)[..|ops + rest| - 1] == ops + rest[..n];
      ApplyIsLater(Run(ops + rest[..n]), rest[n], id);
    }
  }

  /** Nothing is sent on a closed channel: what its reader will ever see is fixed. */
  lemma {:induction false} ClosedStaysClosed<E>(ops: seq<Op<E>>, rest: seq<Op<E>>, id: nat)
    requires id < |Run(ops).subs| && !Run(ops).subs[id].open
    ensures id < |Run(ops + rest).subs| && !Run(ops + rest).subs[id].open
    ensures Received(Run(ops + rest).subs[id]) == Received(Run(ops).subs[id])
  {
    hide Run;
    RunIsLater(ops, rest, id);
  }

  /** A newcomer first sees the OLDEST envelopes of the replay buffer, up to the size of its queue,
      and then only broadcasts made after it joined. It gets the whole buffer exactly if it fits. */
  lemma NewcomerSeesReplayFirst<E>(before: seq<Op<E>>, size: nat, after: seq<Op<E>>)
    ensures var s := Run(before);
            var id := |s.subs|;
            var t := Run(before + [Subscribe(size)] + after);
            && id < |t.subs|
            && var sub := t.subs[id];
            && sub.capacity == (if size > 0 then size else DEFAULT_QUEUE)
            && sub.replayed == Min(sub.capacity, |s.replay|) <= |Received(sub)| == |sub.at|
            && Received(sub)[..sub.replayed] == s.replay[..sub.replayed]
            && Embedded(Received(sub)[sub.replayed..], t.log, sub.at[sub.replayed..])
            && (forall k :: sub.replayed <= k < |sub.at| ==> sub.at[k] >= |s.log|)
            && (sub.replayed == |s.replay| <==> |s.replay| <= sub.capacity)
  {
    hide Run;
    var s := Run(before);
    var ops := before + [Subscribe(size)];
    RunLast(before, Subscribe(size));
    RunIsLater(ops, after, |s.subs|);
    Reachable(before);
    Reachable(ops + after);
    NewSubOk(s, size);
  }

  lemma RunLast<E>(ops: seq<Op<E>>, op: Op<E>)
    ensures Run(ops + [op]) == Apply(Run(ops), op)
  {
    assert (ops + [op])[..|ops|] == ops;
  }

  /** An open subscriber has the log without a gap, from the replay buffer on, exactly when the
      buffer fitted its queue and its queue was never full at a broadcast. */
  lemma GaplessExactly<E>(ops: seq<Op<E>>, id: nat)
    requires id < |Run(ops).subs| && Run(ops).subs[id].open
    ensures var s, sub := Run(ops), Run(ops).subs[id];
            && sub.base <= |s.log|
            && (Received(sub) == s.log[sub.base..] <==> sub.joined - sub.base <= sub.capacity && sub.lost == 0)
  {
    hide Run;
    Reachable(ops);
    var s, sub := Run(ops), Run(ops).subs[id];
    if sub.joined - sub.base <= sub.capacity && sub.lost == 0 {
      NoRoomForGaps(sub.at, sub.base, |s.log|);
    }
  }

  /** Increasing positions below `end` that number `end - start`, the first not below `start`. */
  lemma {:induction false} NoRoomForGaps(at: seq<nat>, start: nat, end: nat)
    requires start <= end && |at| == end - start
    requires forall j, k :: 0 <= j < k < |at| ==> at[j] < at[k]
    requires forall k :: 0 <= k < |at| ==> start <= at[k] < end
    ensures forall k :: 0 <= k < |at| ==> at[k] == start + k
  {
    if at != [] {
      var n := |at| - 1;
      if at[n] < end - 1 {
        TooMany(at, start, end - 1);
      }
      NoRoomForGaps(at[..n], start, end - 1);
    }
  }

  lemma {:induction false} TooMany(at: seq<nat>, start: nat, end: nat)
    requires forall j, k :: 0 <= j < k < |at| ==> at[j] < at[k]
    requires forall k :: 0 <= k < |at| ==> start <= at[k] < end
    ensures at != [] ==> |at| <= end - start
    decreases |at|
  {
    if |at| > 1 {
      var n := |at| - 1;
      TooMany(at[..n], start, at[n]);
    } else if |at| == 1 {
      assert start <= at[0] < end;
    }
  }

  // ----- The hub itself -----

  datatype Channel<E> = Channel(capacity: nat, queue: seq<E>, open: bool)

  function ChannelOf<E>(s: Sub<E>): Channel<E> {
    Channel(s.capacity, s.queue, s.open)
  }

  /** Puts an envelope in the channel if there is room. */
  function Push<E>(c: Channel<E>, env: E): Channel<E> {
    if |c.queue| < c.capacity then c.(queue := c.queue + [env]) else c
  }

  /** The open channels without room. */
  ghost function Full<E>(channels: seq<Channel<E>>): set<nat> {
    set i | 0 <= i < |channels| && channels[i].open && |channels[i].queue| >= channels[i].capacity
  }

  lemma FullMember<E>(channels: seq<Channel<E>>, open: set<nat>, i: nat)
    requires forall i :: i in open <==> 0 <= i < |channels| && channels[i].open
    ensures Full(channels) <= open
    ensures i in open ==> (i in Full(channels) <==> |channels[i].queue| >= channels[i].capacity)
  {
  }

  /** `now` is `was` after a push to each of the channels in `done`. */
  ghost predicate Pushed<E>(was: seq<Channel<E>>, now: seq<Channel<E>>, done: set<nat>, env: E) {
    && |now| == |was|
    && forall i :: 0 <= i < |was| ==> now[i] == if i in done then Push(was[i], env) else was[i]
  }

  lemma NonePushed<E>(was: seq<Channel<E>>, env: E)
    ensures Pushed(was, was, {}, env)
  {
  }

  lemma OnePushed<E>(was: seq<Channel<E>>, now: seq<Channel<E>>, done: set<nat>, i: nat, env: E)
    requires Pushed(was, now, done, env) && i !in done && i < |was|
    ensures i < |now| && now[i] == was[i]
    ensures Pushed(was, now[i := Push(now[i], env)], done + {i}, env)
  {
  }

  lemma NoneCounted(full: set<nat>)
    ensures |full * {}| == 0
  {
  }

  lemma OneCounted(full: set<nat>, done: set<nat>, i: nat)
    requires i !in done
    ensures |full * (done + {i})| == |full * done| + if i in full then 1 else 0
  {
    assert full * (done + {i}) == if i in full then (full * done) + {i} else full * done;
  }

  lemma AllCounted(full: set<nat>, done: set<nat>)
    requires full <= done
    ensures |full * done| == |full|
  {
    assert full * done == full;
  }

  lemma {:induction false} FullCountIsSize<E>(subs: seq<Sub<E>>, channels: seq<Channel<E>>)
    requires |channels| == |subs| && forall i :: 0 <= i < |subs| ==> channels[i] == ChannelOf(subs[i])
    ensures FullCount(subs) == |Full(channels)|
  {
    if subs != [] {
      var n := |subs| - 1;
      FullCountIsSize(subs[..n], channels[..n]);
      var last := subs[n].open && |subs[n].queue| >= subs[n].capacity;
      assert Full(channels) == if last then Full(channels[..n]) + {n} else Full(channels[..n]);
    }
  }

  class EventHub<E> {
    var subscribers: set<nat>
    var channels: seq<Channel<E>>  // every channel ever made, by number
    var dropCount: nat
    var replayBuf: seq<E>
    ghost var now: State<E>

    /** The channels are those of the subscribers in `s`. */
    ghost predicate Mirrors(s: State<E>)
      reads this`channels, this`subscribers
    {
      && |channels| == |s.subs|
      && (forall i :: 0 <= i < |channels| ==> channels[i] == ChannelOf(s.subs[i]))
      && (forall i :: i in subscribers <==> 0 <= i < |channels| && channels[i].open)
    }

    ghost predicate Valid()
      reads this
    {
      Inv(now) && Mirrors(now) && dropCount == now.drops && replayBuf == now.replay
    }

    constructor ()
      ensures Valid() && now == New()
    {
      hide Inv;
      EmptyIsOk<E>();
      subscribers, channels, dropCount, replayBuf := {}, [], 0, [];
      now := New();
    }

    method Subscribe(size: nat) returns (id: nat)
      requires Valid()
      modifies this
      ensures Valid() && now == Apply(old(now), Op.Subscribe(size))
      ensures id == old(|channels|) && channels[id].open
    {
      hide Inv;
      var capacity := if size > 0 then size else DEFAULT_QUEUE;
      var queue: seq<E> := [];
      for k := 0 to |replayBuf|
        invariant queue == replayBuf[..Min(capacity, k)]
      {
        if |queue| < capacity {
          queue := queue + [replayBuf[k]];
        }
      }
      id := |channels|;
      channels := channels + [Channel(capacity, queue, true)];
      subscribers := subscribers + {id};
      ApplyKeepsInv(now, Op.Subscribe(size));
      now := Apply(now, Op.Subscribe(size));
    }

    method Unsubscribe(id: nat)
      requires Valid()
      modifies this
      ensures Valid() && now == Apply(old(now), Op.Unsubscribe(id))
    {
      hide Inv;
      ApplyKeepsInv(now, Op.Unsubscribe(id));
      now := Apply(now, Op.Unsubscribe(id));
      if id in subscribers {
        subscribers := subscribers - {id};
        channels := channels[id := channels[id].(open := false)];
      }
    }

    /** The non-blocking send: without room, the envelope is counted as dropped. */
    method TrySend(i: nat, env: E)
      requires i < |channels|
      modifies this`channels, this`dropCount
      ensures channels == old(channels)[i := Push(old(channels[i]), env)]
      ensures dropCount == old(dropCount) + if |old(channels[i]).queue| >= old(channels[i]).capacity then 1 else 0
    {
      if |channels[i].queue| < channels[i].capacity {
        channels := channels[i := channels[i].(queue := channels[i].queue + [env])];
      } else {
        dropCount := dropCount + 1;
      }
    }

    /** Offers the envelope to all subscribers, in whatever order the set is walked. */
    method OfferToAll(env: E)
      requires forall i :: i in subscribers <==> 0 <= i < |channels| && channels[i].open
      modifies this`channels, this`dropCount
      ensures Pushed(old(channels), channels, subscribers, env)
      ensures dropCount == old(dropCount) + |Full(old(channels))|
    {
      hide Full, Push, Pushed;
      ghost var was, full := channels, Full(channels);
      ghost var done: set<nat> := {};
      NonePushed(was, env);
      NoneCounted(full);
      var todo := subscribers;
      while todo != {}
        invariant forall i :: i in subscribers <==> i in todo || i in done
        invariant todo !! done
        invariant Pushed(was, channels, done, env)
        invariant dropCount == old(dropCount) + |full * done|
        decreases todo
      {
        var i :| i in todo;
        FullMember(was, subscribers, i);
        OneCounted(full, done, i);
        OnePushed(was, channels, done, i, env);
        TrySend(i, env);
        todo, done := todo - {i}, done + {i};
      }
      assert done == subscribers;
      FullMember(was, subscribers, 0);
      AllCounted(full, done);
    }

    method Broadcast(env: E)
      requires Valid()
      modifies this
      ensures Valid() && now == Apply(old(now), Op.Broadcast(env))
    {
      hide Inv, Full, FullCount;
      ApplyKeepsInv(now, Op.Broadcast(env));
      FullCountIsSize(now.subs, channels);
      replayBuf := replayBuf + [env];
      if |replayBuf| > REPLAY_SIZE {
        replayBuf := replayBuf[|replayBuf| - REPLAY_SIZE..];
      }
      OfferToAll(env);
      now := Apply(now, Op.Broadcast(env));
    }

    /** The receiving end: takes the oldest envelope, also from a channel that is closed by now. */
    method Receive(id: nat) returns (env: Option<E>)
      requires Valid() && id < |channels|
      modifies this
      ensures Valid() && now == Apply(old(now), Op.Consume(id))
      ensures env == if old(channels)[id].queue == [] then None else Some(old(channels)[id].queue[0])
    {
      hide Inv;
      ApplyKeepsInv(now, Op.Consume(id));
      now := Apply(now, Op.Consume(id));
      env := None;
      if channels[id].queue != [] {
        env := Some(channels[id].queue[0]);
        channels := channels[id := channels[id].(queue := channels[id].queue[1..])];
      }
    }

    method ClearReplay()
      requires Valid()
      modifies this
      ensures Valid() && now == Apply(old(now), Op.ClearReplay)
    {
      hide Inv;
      ApplyKeepsInv(now, Op<E>.ClearReplay);
      now := Apply(now, Op.ClearReplay);
      replayBuf := [];
    }

    method SubscriberCount() returns (n: nat)
      requires Valid()
      ensures n == OpenCount(now.subs)
    {
      n := |subscribers|;
      OpenCountIsSize(now.subs, subscribers);
    }
  }

  lemma {:induction false} OpenCountIsSize<E>(subs: seq<Sub<E>>, open: set<nat>)
    requires forall i :: i in open <==> 0 <= i < |subs| && subs[i].open
    ensures OpenCount(subs) == |open|
  {
    if subs == [] {
      assert open == {};
    } else {
      var n := |subs| - 1;
      OpenCountIsSize(subs[..n], open - {n});
    }
  }
}
