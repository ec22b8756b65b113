/** The session manager as the source runs it: an object with fields
    (internal/session/manager.go). Each method is proved against steps of module SessionManager. */
module SessionManagerObject {
  import opened Options
  import opened SessionManager
  import opened SessionOutput

  /** The fields of the source. A method that calls into a runner is told how that call went; with
      no interleaving, it makes the steps of its call one after the other. */
  class Manager<E> {
    var active: Option<RunnerId>
    var sid: Option<SessionId>
    var out: seq<(RunnerId, E)>
    ghost var now: State<E>

    ghost predicate Valid()
      reads this
    {
      && Control(now) && Output(now)
      && active == now.active && sid == now.sid
      && out == now.delivered[now.consumed..]
    }

    constructor ()
      ensures Valid() && now == New()
    {
      hide Control, Output;
      NewIsControlled<E>();
      NewIsQuiet<E>();
      active, sid, out, now := None, None, [], New();
    }

    ghost method Advance(op: Op<E>)
      requires Control(now) && Output(now)
      modifies this`now
      ensures now == Step(old(now), op) && Control(now) && Output(now)
    {
      hide Control, Output, Step;
      StepKeepsControl(now, op);
      StepKeepsOutput(now, op);
      now := Step(now, op);
    }

    /** The steps after a runner has been started: with `ends`, its events end and its forwarder exits
        before the call returns. */
    ghost function AfterStart(s: State<E>, run: RunnerId, ends: bool): State<E> {
      Step(if ends then Step(Step(s, EndEvents(run)), Exit(run)) else s, Return)
    }

    /** The forwarder may find the end of the events at once. */
    method MayEnd(run: RunnerId, ends: bool)
      requires Valid() && run < |now.runners|
      requires now.runners[run].forwarding && now.runners[run].taken == |now.runners[run].emitted|
      modifies this
      ensures Valid() && now == if ends then Step(Step(old(now), EndEvents(run)), Exit(run)) else old(now)
    {
      hide Control, Output;
      if ends {
        Advance(EndEvents(run));
        ForwarderExits(run);
      }
    }

    /** The last part of Start: the runner has been claimed. */
    method Launch(run: RunnerId, starts: bool, ends: bool) returns (result: Outcome)
      requires Valid() && now.call == Starting(run)
      requires run < |now.runners| && now.runners[run] == NewRunner()
      modifies this
      ensures Valid() && result == now.outcome
      ensures now == var s := Step(old(now), RunnerStarted(starts));
                     if starts then AfterStart(s, run, ends) else s
    {
      hide Output;
      Advance(RunnerStarted(starts));
      if !starts {
        active, sid := None, None;
        return Failed;
      }
      MayEnd(run, ends);
      Advance(Return);
      return Succeeded(sid);
    }

    method Start(run: RunnerId, newSid: SessionId, starts: bool, ends: bool) returns (result: Outcome)
      requires Valid() && now.call.NoCall? && run == |now.runners| && newSid == now.nextSid
      modifies this
      ensures Valid() && result == now.outcome
      ensures old(active).Some? ==> now == Step(old(now), Op.Start)
      ensures old(active).None? ==>
                now == var s := Step(Step(old(now), Op.Start), RunnerStarted(starts));
                       if starts then AfterStart(s, run, ends) else s
    {
      hide Output, AfterStart;
      Advance(Op.Start);
      if active.Some? { return Failed; }
      active, sid := Some(run), Some(newSid);
      result := Launch(run, starts, ends);
    }

    /** The last part of Restart: the new runner has been claimed. */
    method Relaunch(run: RunnerId, kept: Option<SessionId>, starts: bool, ends: bool) returns (result: Outcome)
      requires Valid() && now.call == Restarting(run, kept)
      requires run < |now.runners| && now.runners[run] == NewRunner()
      modifies this
      ensures Valid() && result == now.outcome
      ensures now == var t := Step(old(now), RunnerStarted(starts));
                     if starts then AfterStart(t, run, ends) else t
    {
      hide Output;
      Advance(RunnerStarted(starts));
      if !starts {
        if active == Some(run) { active := None; }
        return Failed;
      }
      MayEnd(run, ends);
      Advance(Return);
      return Succeeded(kept);
    }

    /** With no active runner it is Start; otherwise the active one is replaced. */
    method Restart(run: RunnerId, newSid: SessionId, closes: bool, starts: bool, ends: bool) returns (result: Outcome)
      requires Valid() && now.call.NoCall? && run == |now.runners| && newSid == now.nextSid
      modifies this
      ensures Valid() && result == now.outcome
      ensures old(active).None? ==>
                now == var s := Step(Step(old(now), Op.Restart), RunnerStarted(starts));
                       if starts then AfterStart(s, run, ends) else s
      ensures old(active).Some? ==>
                now == var s := Step(Step(old(now), Op.Restart), OldClosed(closes));
                       if !closes then s
                       else
                         var t := Step(s, RunnerStarted(starts));
                         if starts then AfterStart(t, run, ends) else t
    {
      hide Output, AfterStart;
      if active.None? {
        result := Start(run, newSid, starts, ends);
        return;
      }
      var kept := sid;
      active := None;
      Advance(Op.Restart);
      Advance(OldClosed(closes));
      if !closes { return Failed; }
      active := Some(run);
      result := Relaunch(run, kept, starts, ends);
    }

    /** `closes` is what the runner's Close returns; without a runner there is nothing to close. */
    method Stop(closes: bool) returns (result: Outcome)
      requires Valid() && now.call.NoCall?
      modifies this
      ensures Valid() && now == Step(old(now), Op.Stop(closes)) && result == now.outcome
    {
      hide Output;
      var run := active;
      Advance(Op.Stop(closes));
      active, sid := None, None;
      if run.None? { return Succeeded(None); }
      return if closes then Succeeded(None) else Failed;
    }

    /** One round of the forwarder: an event, or the end of events. */
    method ForwardOne(run: RunnerId, ev: E) returns (sent: bool)
      requires Valid() && Enabled(now, Forward(run)) && ev == now.runners[run].emitted[now.runners[run].taken]
      modifies this
      ensures Valid() && now == Step(old(now), Forward(run))
      ensures sent == (Queued(old(now)) < CAPACITY)
    {
      hide Control, RunnerOk, OfRunner;
      sent := |out| < CAPACITY;
      Advance(Forward(run));
      if sent {
        out := out + [(run, ev)];
      }
    }

    method ForwarderExits(run: RunnerId)
      requires Valid() && Enabled(now, Exit(run))
      modifies this
      ensures Valid() && now == Step(old(now), Exit(run))
    {
      hide Control, Output;
      Advance(Exit(run));
      if active == Some(run) {
        active, sid := None, None;
      }
    }
  }
}
