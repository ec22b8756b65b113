/** Who gets what from the hub, told by the operations alone (internal/ws/hub.go:41-91). */
module HubDelivery {
  import opened Hub

  /** How many subscriptions there have been. */
  function Joined<E>(ops: seq<Op<E>>): nat {
    if ops == [] then 0
    else Joined(ops[..|ops| - 1]) + if ops[|ops| - 1].Subscribe? then 1 else 0
  }

  /** The subscription numbered `id` has been made and not been taken back. */
  ghost predicate Subscribed<E>(ops: seq<Op<E>>, id: nat) {
    ops != [] &&
    var init, last := ops[..|ops| - 1], ops[|ops| - 1];
    if last.Subscribe? && Joined(init) == id then true
    else Subscribed(init, id) && last != Unsubscribe(id)
  }

  /** A channel is open exactly from its subscription until it is taken back. */
  lemma {:induction false} OpenExactly<E>(ops: seq<Op<E>>)
    ensures |Run(ops).subs| == Joined(ops)
    ensures forall id :: 0 <= id < Joined(ops) ==> (Run(ops).subs[id].open <==> Subscribed(ops, id))
    ensures forall id :: Joined(ops) <= id ==> !Subscribed(ops, id)
  {
    hide LastN, OpenCount, FullCount;
    if ops != [] { OpenExactly(ops[..|ops| - 1]); }
  }

  /** How many envelopes wait in the channel, if `n` did before and none is lost. */
  function Waiting<E>(n: nat, ops: seq<Op<E>>, id: nat): nat {
    if ops == [] then n
    else
      var w := Waiting(n, ops[..|ops| - 1], id);
      match ops[|ops| - 1]
      case Broadcast(_) => w + 1
      case Consume(i) => if i == id && w > 0 then w - 1 else w
      case _ => w
  }

  /** Every broadcast finds room for one more. */
  predicate RoomForAll<E>(n: nat, ops: seq<Op<E>>, id: nat, capacity: nat) {
    ops == [] ||
    (RoomForAll(n, ops[..|ops| - 1], id, capacity) &&
     (ops[|ops| - 1].Broadcast? ==> Waiting(n, ops[..|ops| - 1], id) < capacity))
  }

  /** The subscriber has all of `got`, has lost some of it, or has lost none of it. */
  ghost predicate HasAll<E>(sub: Sub<E>, got: seq<E>, waiting: nat) {
    Received(sub) == got && |sub.queue| == waiting
  }

  predicate HasLost<E>(sub: Sub<E>, got: seq<E>) {
    |Received(sub)| < |got|
  }

  lemma OfferShows<E>(sub: Sub<E>, env: E, position: nat, got: seq<E>, waiting: nat)
    requires sub.open && |sub.queue| <= sub.capacity
    ensures HasAll(sub, got, waiting) && waiting < sub.capacity ==>
              HasAll(OfferTo(sub, env, position), got + [env], waiting + 1)
    ensures HasAll(sub, got, waiting) && waiting >= sub.capacity ==> HasLost(OfferTo(sub, env, position), got + [env])
    ensures HasLost(sub, got) ==> HasLost(OfferTo(sub, env, position), got + [env])
  {
    var r := OfferTo(sub, env, position);
    assert |sub.queue| < sub.capacity ==> Received(r) == Received(sub) + [env];
  }

  lemma TakeShows<E>(sub: Sub<E>, got: seq<E>, waiting: nat)
    ensures HasAll(sub, got, waiting) ==> HasAll(Take(sub), got, if waiting > 0 then waiting - 1 else waiting)
    ensures HasLost(sub, got) ==> HasLost(Take(sub), got)
  {
    assert Received(Take(sub)) == Received(sub);
  }

  lemma StepShows<E>(s: State<E>, op: Op<E>, id: nat, got: seq<E>, waiting: nat)
    requires id < |s.subs| && s.subs[id].open && |s.subs[id].queue| <= s.subs[id].capacity && op != Unsubscribe(id)
    ensures id < |Apply(s, op).subs|
    ensures var sub, next := s.subs[id], Apply(s, op).subs[id];
            var more := got + (match op case Broadcast(env) => [env] case _ => []);
            && next.open && next.capacity == sub.capacity
            && (HasLost(sub, got) ==> HasLost(next, more))
            && (HasAll(sub, got, waiting) ==>
                  if op.Broadcast? && waiting >= sub.capacity then HasLost(next, more)
                  else HasAll(next, more, if op.Broadcast? then waiting + 1
                                          else if op == Consume(id) && waiting > 0 then waiting - 1 else waiting))
  {
    hide HasAll, HasLost, LastN, OpenCount, FullCount;
    assert got + [] == got;
    match op {
      case Broadcast(env) => OfferShows(s.subs[id], env, |s.log|, got, waiting);
      case Consume(i) => if i == id { TakeShows(s.subs[id], got, waiting); }
      case _ =>
    }
  }

  lemma Newcomer<E>(before: seq<Op<E>>, size: nat, capacity: nat)
    requires capacity == if size > 0 then size else DEFAULT_QUEUE
    ensures var s, t := Run(before), Run(before + [Subscribe(size)]);
            && |t.subs| == |s.subs| + 1
            && var sub, start := t.subs[|s.subs|], First(s.replay, capacity);
               sub.open && sub.capacity == capacity && HasAll(sub, start, |start|)
  {
    hide Run;
    RunLast(before, Subscribe(size));
  }

  function First<E>(s: seq<E>, n: nat): seq<E> {
    if |s| <= n then s else s[..n]
  }

  /** A subscriber that stays receives what its queue took of the replay buffer and then every later
      broadcast, if and only if each broadcast finds fewer envelopes waiting than its queue holds: as many
      as it started with, one more for each broadcast, one less for each that it takes. */
  lemma {:induction false} ReceivesAllExactly<E>(before: seq<Op<E>>, size: nat, after: seq<Op<E>>, capacity: nat)
    requires capacity == if size > 0 then size else DEFAULT_QUEUE
    requires Unsubscribe(|Run(before).subs|) !in after
    ensures var id, start := |Run(before).subs|, First(LastN(Sent(SinceClear(before)), REPLAY_SIZE), capacity);
            var t := Run(before + [Subscribe(size)] + after);
            && id < |t.subs|
            && (Received(t.subs[id]) == start + Sent(after) <==> RoomForAll(|start|, after, id, capacity))
            && (RoomForAll(|start|, after, id, capacity) ==> |t.subs[id].queue| == Waiting(|start|, after, id))
  {
    hide Run, Sent, SinceClear, RoomForAll, Waiting;
    WindowAndConservation(before);
    StaysInformed(before, size, after, capacity, Run(before).replay);
  }

  lemma {:induction false} StaysInformed<E>(
    before: seq<Op<E>>, size: nat, after: seq<Op<E>>, capacity: nat, replay: seq<E>)
    requires capacity == if size > 0 then size else DEFAULT_QUEUE
    requires Unsubscribe(|Run(before).subs|) !in after && replay == Run(before).replay
    ensures var id, start := |Run(before).subs|, First(replay, capacity);
            var t := Run(before + [Subscribe(size)] + after);
            && id < |t.subs| && t.subs[id].open && t.subs[id].capacity == capacity
            && (if RoomForAll(|start|, after, id, capacity)
                then HasAll(t.subs[id], start + Sent(after), Waiting(|start|, after, id))
                else HasLost(t.subs[id], start + Sent(after)))
    decreases |after|
  {
    hide Run, Apply, HasAll, HasLost;
    var id, start, joined := |Run(before).subs|, First(replay, capacity), before + [Subscribe(size)];
    if after == [] {
      Newcomer(before, size, capacity);
      assert joined + after == joined && start + [] == start;
    } else {
      var init, last := after[..|after| - 1], after[|after| - 1];
      assert last in after && forall op :: op in init ==> op in after;
      StaysInformed(before, size, init, capacity, replay);
      assert joined + after == (joined + init) + [last];
      RunLast(joined + init, last);
      Reachable(joined + init);
      QueueFits(joined + init, id);
      StepShows(Run(joined + init), last, id, start + Sent(init), Waiting(|start|, init, id));
      var more := match last case Broadcast(env) => [env] case _ => [];
      assert start + Sent(init) + more == start + (Sent(init) + more);
    }
  }

  lemma QueueFits<E>(ops: seq<Op<E>>, id: nat)
    requires id < |Run(ops).subs|
    ensures |Run(ops).subs[id].queue| <= Run(ops).subs[id].capacity
  {
    hide Run;
    Reachable(ops);
  }
}
