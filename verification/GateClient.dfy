/** The gate's own methods: one client's bounded retry loop, with other clients acting between any
    two of its wire commands. */
module GateClient {
  import opened Wrappers
  import opened GateTypes
  import opened RedisStore
  import opened GateHistory
  import opened GateProtocol
  import opened GateServer
  import opened GateRefinement
  import opened GateRuns
  import opened GateProgress

  /** Steps of anyone but this client: other calls, successes recorded, time passing. */
  predicate Foreign(step: Step, me: nat) {
    match step
    case Tick(_) => true
    case Succeed(_) => true
    case Begin(c, _) => c != me
    case Watch(c) => c != me
    case Time(c) => c != me
    case ReadNext(c) => c != me
    case Exec(c) => c != me
  }

  lemma StepLeavesMe(cfg: Settings, m: Machine, step: Step, me: nat)
    requires me in m.clients && Foreign(step, me)
    ensures var m' := Next(cfg, m, step);
            me in m'.clients && m'.clients[me] == m.clients[me] && m.server.history <= m'.server.history
  {
  }

  lemma {:induction false} OthersLeaveMe(cfg: Settings, m: Machine, steps: seq<Step>, me: nat)
    requires me in m.clients && forall i :: 0 <= i < |steps| ==> Foreign(steps[i], me)
    ensures var m' := RunSteps(cfg, m, steps);
            me in m'.clients && m'.clients[me] == m.clients[me] && m.server.history <= m'.server.history
    decreases |steps|
  {
    if steps != [] {
      StepLeavesMe(cfg, m, steps[0], me);
      OthersLeaveMe(cfg, Next(cfg, m, steps[0]), steps[1..], me);
    }
  }

  lemma {:induction false} HistoryGrows(cfg: Settings, m: Machine, steps: seq<Step>)
    ensures m.server.history <= RunSteps(cfg, m, steps).server.history
    decreases |steps|
  {
    if steps != [] {
      StepGrows(cfg, m, steps[0]);
      HistoryGrows(cfg, Next(cfg, m, steps[0]), steps[1..]);
    }
  }

  lemma {:induction false} StepGrows(cfg: Settings, m: Machine, step: Step)
    ensures m.server.history <= Next(cfg, m, step).server.history
  {
  }

  lemma FreshWhileRunning(cfg: Settings, m: Machine, me: nat)
    requires Inv(cfg, m) && me in m.clients && !m.clients[me].phase.Finished?
    requires FreshId(m.clients[me].call).Some?
    ensures FreshId(m.clients[me].call).value !in Ids(m.server.history)
  {
  }

  lemma UsedCovers(cfg: Settings, m: Machine)
    requires Inv(cfg, m)
    ensures Ids(m.server.history) <= m.used
  {
  }

  /** The permit has been granted and not given back. */
  ghost predicate HeldIn(cfg: Settings, h: seq<Event>, p: Permit) {
    p.id in Held(cfg, h) && Held(cfg, h)[p.id].permit == p
  }

  /** The newest operation gave this permit back, or there is no such live permit. */
  ghost predicate GivenBack(cfg: Settings, s: Server, p: Permit) {
    var h := s.history;
    || (h != [] && h[|h| - 1] == Released(p, s.clock) && HeldIn(cfg, h[..|h| - 1], p))
    || !(HeldIn(cfg, h, p) && s.clock < Held(cfg, h)[p.id].expiry)
  }

  /** The call was refused for a reason the history shows: at some time the call read, up to now. */
  ghost predicate RefusedRightly(cfg: Settings, s: Server, p: Permit, fault: Fault, started: int) {
    Admissible(p) && exists now :: started <= now <= s.clock && Justifies(cfg, s.history, p, fault, now, s.clock)
  }

  /** A call has ended: its operation is the newest in the history, or is not there at all and there is a reason; a
      release has just been committed or had nothing to give back. The gate is unavailable only after eight aborts. */
  ghost predicate Recorded(cfg: Settings, s: Server, c: Client)
    requires c.phase.Finished?
  {
    var h, outcome := s.history, c.phase.outcome;
    && (outcome == Raised(GateUnavailable) ==> |c.aborts| == TRANSACTION_ATTEMPTS)
    && match c.call
       case Acquire(p) =>
         if outcome.Returned? then h != [] && h[|h| - 1].Admitted? && h[|h| - 1].permit == p
         else
           && p.id !in Ids(h)
           && (outcome.fault != GateUnavailable ==> RefusedRightly(cfg, s, p, outcome.fault, c.started))
       case Failure(target, id) =>
         if outcome.Returned? then h != [] && h[|h| - 1].Failed? && h[|h| - 1].id == id && h[|h| - 1].target == target
         else outcome == Raised(GateUnavailable) && id !in Ids(h)
       case Release(p) =>
         if outcome.Returned? then GivenBack(cfg, s, p) else outcome == Raised(GateUnavailable)
  }

  lemma {:induction false} ReadShape(cfg: Settings, m: Machine, me: nat)
    requires Inv(cfg, m) && me in m.clients && WellFormed(m.clients[me].call) && m.clients[me].phase.Reading?
    requires |m.clients[me].phase.replies| < |Reads(cfg, m.clients[me].call, m.clients[me].phase.now)|
    requires FreshId(m.clients[me].call).Some? ==> FreshId(m.clients[me].call).value !in Ids(m.server.history)
    ensures var m' := ReadStep(cfg, m, me);
            && me in m'.clients && m'.server == m.server
            && var c, c' := m.clients[me], m'.clients[me];
               && c'.call == c.call && c'.aborts == c.aborts && c'.started == c.started
               && if c'.phase.Finished? then Recorded(cfg, m'.server, c')
                  else c'.phase.Reading? && c'.phase.now == c.phase.now
                       && |c'.phase.replies| == |c.phase.replies| + 1
  {
    hide Inv, GivenBack, Reads, Justifies, Evaluate;
    if ReadStep(cfg, m, me).clients[me].phase.Finished? {
      RefusedRead(cfg, m, me);
      RaisesNoOutage(m.clients[me].call.permit, m.server, cfg, m.clients[me].phase.now);
    }
  }

  lemma {:induction false} RaisesNoOutage(p: Permit, s: Server, cfg: Settings, now: int)
    requires Admissible(p)
    ensures !Justifies(cfg, s.history, p, GateUnavailable, now, s.clock)
  {
  }

  /** At a clean EXEC a release has read the truth: what it queues, if anything, gives the permit back. */
  lemma {:induction false} ReleaseEnds(cfg: Settings, m: Machine, me: nat)
    requires Inv(cfg, m) && me in m.clients && WellFormed(m.clients[me].call) && m.clients[me].call.Release?
    requires m.clients[me].phase.Reading? && |m.clients[me].phase.replies| == 1
    requires !Dirty(m.server, WatchedKeys(m.clients[me].call), m.clients[me].phase.since, m.clients[me].phase.from)
    ensures var s, p, replies := m.server, m.clients[me].call.permit, m.clients[me].phase.replies;
            if NothingToDo(Release(p), replies) then GivenBack(cfg, s, p) else HeldIn(cfg, s.history, p)
  {
    hide Dirty, WatchedKeys, SerialStore, TouchesAreReal, TouchesAreOrdered, AbortsOk, Settled;
    var c, s := m.clients[me], m.server;
    var p, replies := c.call.permit, c.phase.replies;
    assert ClientInv(cfg, s, c);
    assert replies[0] == Evaluate(Reads(cfg, c.call, c.phase.now)[0], s.store, s.clock);
    assert RelPermit(cfg, s, p.id);
    IdsCover(cfg, s.history, GlobalActive);
  }

  lemma {:induction false} ExecShape(cfg: Settings, m: Machine, me: nat)
    requires Inv(cfg, m) && me in m.clients && WellFormed(m.clients[me].call) && m.clients[me].phase.Reading?
    requires |m.clients[me].phase.replies| == |Reads(cfg, m.clients[me].call, m.clients[me].phase.now)|
    requires FreshId(m.clients[me].call).Some? ==> FreshId(m.clients[me].call).value !in Ids(m.server.history)
    ensures var m' := ExecStep(cfg, m, me);
            && me in m'.clients && m.server.history <= m'.server.history
            && var c, c' := m.clients[me], m'.clients[me];
               && c'.call == c.call && c'.started == c.started
               && if c'.phase.Finished? then Recorded(cfg, m'.server, c')
                  else c'.phase.Ready? && |c'.aborts| == |c.aborts| + 1 < TRANSACTION_ATTEMPTS
  {
    hide Inv, GivenBack, HeldIn, Dirty, WatchedKeys, Commands, Run, TouchedKeys, RefusedRightly;
    var c, s := m.clients[me], m.server;
    if Dirty(s, WatchedKeys(c.call), c.phase.since, c.phase.from) {
      AttemptsLeft(cfg, m, me);
      AbortedShape(cfg, m, me);
    } else if c.call.Release? {
      ReleaseEnds(cfg, m, me);
      if !NothingToDo(c.call, c.phase.replies) {
        JustReleased(cfg, ExecStep(cfg, m, me).server, s.history, c.call.permit);
      }
    }
  }

  lemma AttemptsLeft(cfg: Settings, m: Machine, me: nat)
    requires Inv(cfg, m) && me in m.clients && !m.clients[me].phase.Finished?
    ensures |m.clients[me].aborts| < TRANSACTION_ATTEMPTS
  {
  }

  /** An aborted attempt that was not the last goes back to WATCH; the last one raises. */
  lemma {:induction false} AbortedShape(cfg: Settings, m: Machine, me: nat)
    requires me in m.clients && WellFormed(m.clients[me].call) && m.clients[me].phase.Reading?
    requires |m.clients[me].phase.replies| == |Reads(cfg, m.clients[me].call, m.clients[me].phase.now)|
    requires Dirty(m.server, WatchedKeys(m.clients[me].call), m.clients[me].phase.since, m.clients[me].phase.from)
    requires |m.clients[me].aborts| < TRANSACTION_ATTEMPTS
    requires FreshId(m.clients[me].call).Some? ==> FreshId(m.clients[me].call).value !in Ids(m.server.history)
    ensures var m' := ExecStep(cfg, m, me);
            && me in m'.clients && m'.server == m.server
            && var c, c' := m.clients[me], m'.clients[me];
               && c'.call == c.call && c'.started == c.started && |c'.aborts| == |c.aborts| + 1
               && (if c'.phase.Finished? then Recorded(cfg, m'.server, c')
                   else c'.phase.Ready? && |c'.aborts| < TRANSACTION_ATTEMPTS)
  {
    hide Dirty, WatchedKeys, Reads, GivenBack, RefusedRightly;
  }

  lemma {:induction false} JustReleased(cfg: Settings, s: Server, before: seq<Event>, p: Permit)
    requires s.history == before + [Released(p, s.clock)] && HeldIn(cfg, before, p)
    ensures GivenBack(cfg, s, p)
  {
    assert s.history[..|s.history| - 1] == before;
  }

  class RedisConnectionGate {
    const cfg: Settings
    const me: nat
    /** What the other clients do before this client's n-th wire command. */
    const others: nat -> seq<Step>
    var machine: Machine
    var turn: nat

    constructor (cfg: Settings, me: nat, others: nat -> seq<Step>, machine: Machine)
      ensures this.cfg == cfg && this.me == me && this.others == others && this.machine == machine
    {
      this.cfg, this.me, this.others, this.machine, this.turn := cfg, me, others, machine, 0;
    }

    ghost predicate Valid()
      reads this
    {
      && Inv(cfg, machine)
      && forall n: nat, i :: 0 <= i < |others(n)| ==> Foreign(others(n)[i], me)
    }

    /** A call of this client is in progress. */
    ghost predicate Running(call: Call)
      reads this
    {
      Valid() && me in machine.clients && machine.clients[me].call == call && WellFormed(call)
    }

    /** One wire command, after whatever the others did in the meantime. */
    method Wire(step: Step) returns (ghost m: Machine)
      requires Valid() && me in machine.clients
      requires step == Watch(me) || step == Time(me) || step == ReadNext(me) || step == Exec(me)
      modifies this`machine, this`turn
      ensures Valid() && Inv(cfg, m) && machine == Next(cfg, m, step)
      ensures me in m.clients && m.clients[me] == old(machine.clients[me])
      ensures old(machine.server.history) <= m.server.history
    {
      OthersLeaveMe(cfg, machine, others(turn), me);
      RunKeeps(cfg, machine, others(turn));
      m := RunSteps(cfg, machine, others(turn));
      StepKeeps(cfg, m, step);
      machine := Next(cfg, RunSteps(cfg, machine, others(turn)), step);
      turn := turn + 1;
    }

    method SendWatch(ghost call: Call)
      requires Running(call) && machine.clients[me].phase.Ready?
      modifies this`machine, this`turn
      ensures Running(call) && old(machine.server.history) <= machine.server.history
      ensures machine.clients[me].aborts == old(machine.clients[me].aborts)
      ensures machine.clients[me].started == old(machine.clients[me].started)
      ensures if call.Release? then machine.clients[me].phase.Reading? && machine.clients[me].phase.replies == []
              else machine.clients[me].phase.Watching?
    {
      ghost var m := Wire(Watch(me));
    }

    method SendTime(ghost call: Call)
      requires Running(call) && machine.clients[me].phase.Watching?
      modifies this`machine, this`turn
      ensures Running(call) && old(machine.server.history) <= machine.server.history
      ensures machine.clients[me].aborts == old(machine.clients[me].aborts)
      ensures machine.clients[me].started == old(machine.clients[me].started)
      ensures machine.clients[me].phase.Reading? && machine.clients[me].phase.replies == []
    {
      ghost var m := Wire(Time(me));
    }

    method SendRead(ghost call: Call)
      requires Running(call) && machine.clients[me].phase.Reading?
      requires |machine.clients[me].phase.replies| < |Reads(cfg, call, machine.clients[me].phase.now)|
      modifies this`machine, this`turn
      ensures Running(call) && old(machine.server.history) <= machine.server.history
      ensures machine.clients[me].aborts == old(machine.clients[me].aborts)
      ensures machine.clients[me].started == old(machine.clients[me].started)
      ensures var phase := machine.clients[me].phase;
              if phase.Finished? then Recorded(cfg, machine.server, machine.clients[me])
              else phase.Reading? && phase.now == old(machine.clients[me].phase.now)
                   && |phase.replies| == old(|machine.clients[me].phase.replies|) + 1
    {
      hide Inv, Recorded, Reads, Evaluate;
      ghost var m := Wire(ReadNext(me));
      if FreshId(call).Some? { FreshWhileRunning(cfg, m, me); }
      ReadShape(cfg, m, me);
    }

    method SendExec(ghost call: Call)
      requires Running(call) && machine.clients[me].phase.Reading?
      requires |machine.clients[me].phase.replies| == |Reads(cfg, call, machine.clients[me].phase.now)|
      modifies this`machine, this`turn
      ensures Running(call) && old(machine.server.history) <= machine.server.history
      ensures machine.clients[me].started == old(machine.clients[me].started)
      ensures var c := machine.clients[me];
              if c.phase.Finished? then Recorded(cfg, machine.server, c)
              else c.phase.Ready? && |c.aborts| == old(|machine.clients[me].aborts|) + 1 < TRANSACTION_ATTEMPTS
    {
      hide Inv, Recorded, Reads;
      ghost var m := Wire(Exec(me));
      if FreshId(call).Some? { FreshWhileRunning(cfg, m, me); }
      ExecShape(cfg, m, me);
    }

    /** The attempts of one call, at most eight of them. The call always ends, and its end is recorded. */
    method Transaction(call: Call) returns (outcome: Outcome)
      requires Running(call) && machine.clients[me].phase.Ready? && machine.clients[me].aborts == []
      modifies this`machine, this`turn
      ensures Running(call) && machine.clients[me].phase == Finished(outcome)
      ensures machine.clients[me].started == old(machine.clients[me].started)
      ensures Recorded(cfg, machine.server, machine.clients[me])
      ensures old(machine.server.history) <= machine.server.history
    {
      hide Inv, Recorded, Reads;
      for attempt := 0 to TRANSACTION_ATTEMPTS
        invariant Running(call) && old(machine.server.history) <= machine.server.history
        invariant machine.clients[me].started == old(machine.clients[me].started)
        invariant machine.clients[me].phase.Ready? && |machine.clients[me].aborts| == attempt < TRANSACTION_ATTEMPTS
      {
        SendWatch(call);
        if !call.Release? {
          SendTime(call);
        }
        var now := machine.clients[me].phase.now;
        for asked := 0 to |Reads(cfg, call, now)|
          invariant Running(call) && old(machine.server.history) <= machine.server.history
          invariant machine.clients[me].started == old(machine.clients[me].started)
          invariant |machine.clients[me].aborts| == attempt
          invariant machine.clients[me].phase.Reading? && machine.clients[me].phase.now == now
          invariant |machine.clients[me].phase.replies| == asked
        {
          SendRead(call);
          if machine.clients[me].phase.Finished? {
            return machine.clients[me].phase.outcome;
          }
        }
        SendExec(call);
        if machine.clients[me].phase.Finished? {
          return machine.clients[me].phase.outcome;
        }
      }
      assert false;
    }

    /** Grants a permit exactly when its admission is the newest committed operation, and on a refusal leaves no trace
        of it; a cooldown or a full limit the refusal names is there in the history. `id` is the identifier uuid4
        invents. */
    method Acquire(operation: Operation, target: Target, id: Id) returns (result: Result<Permit, Fault>)
      requires Valid() && (me in machine.clients ==> machine.clients[me].phase.Finished?) && id !in machine.used
      modifies this`machine, this`turn
      ensures Valid() && old(machine.server.history) <= machine.server.history
      ensures match result
              case Ok(p) =>
                && p == Permit(id, operation, target)
                && machine.server.history != []
                && var e := machine.server.history[|machine.server.history| - 1]; e.Admitted? && e.permit == p
              case Err(fault) =>
                && id !in Ids(machine.server.history)
                && (operation.Terminal? && target.device.None? ==> fault == GateUnavailable)
                && (fault != GateUnavailable ==>
                      RefusedRightly(cfg, machine.server, Permit(id, operation, target), fault,
                                     old(machine.server.clock)))
    {
      hide Inv, Ids;
      var permit := Permit(id, operation, target);
      var call := Call.Acquire(permit);
      BeginKeeps(cfg, machine, me, call);
      UsedCovers(cfg, machine);
      machine := BeginStep(machine, me, call);
      if !Admissible(permit) {
        return Err(GateUnavailable);
      }
      var outcome := Transaction(call);
      match outcome
      case Returned => return Ok(permit);
      case Raised(fault) => return Err(fault);
    }

    /** Gives a permit back. Without a fault it has just been given back, or there was no such live permit: it was
        released before, has expired, or was granted for something else. */
    method Release(permit: Permit) returns (fault: Option<Fault>)
      requires Valid() && (me in machine.clients ==> machine.clients[me].phase.Finished?)
      modifies this`machine, this`turn
      ensures Valid() && old(machine.server.history) <= machine.server.history
      ensures fault.None? ==> Admissible(permit) && GivenBack(cfg, machine.server, permit)
      ensures fault.Some? ==> fault.value == GateUnavailable
    {
      hide Inv, GivenBack;
      var call := Call.Release(permit);
      BeginKeeps(cfg, machine, me, call);
      machine := BeginStep(machine, me, call);
      if !Admissible(permit) {
        return Some(GateUnavailable);
      }
      var outcome := Transaction(call);
      fault := match outcome case Returned => None case Raised(f) => Some(f);
    }

    /** Records a failed login; `id` is the identifier uuid4 invents. */
    method AuthenticationFailed(target: Target, id: Id) returns (fault: Option<Fault>)
      requires Valid() && (me in machine.clients ==> machine.clients[me].phase.Finished?) && id !in machine.used
      modifies this`machine, this`turn
      ensures Valid() && old(machine.server.history) <= machine.server.history
      ensures fault.None? ==>
                && machine.server.history != []
                && var e := machine.server.history[|machine.server.history| - 1];
                   e.Failed? && e.target == target && e.id == id
      ensures fault.Some? ==> fault.value == GateUnavailable && id !in Ids(machine.server.history)
    {
      hide Inv, Ids;
      var call := Call.Failure(target, id);
      BeginKeeps(cfg, machine, me, call);
      machine := BeginStep(machine, me, call);
      var outcome := Transaction(call);
      fault := match outcome case Returned => None case Raised(f) => Some(f);
    }

    /** Records a login that succeeded: no failure counts any more. */
    method AuthenticationSucceeded(target: Target)
      requires Valid()
      modifies this`machine, this`turn
      ensures Valid() && old(machine.server.history) < machine.server.history
      ensures FailuresSince(machine.server.history, FailuresKey(target)) == map[]
    {
      hide Inv;
      HistoryGrows(cfg, machine, others(turn));
      RunKeeps(cfg, machine, others(turn));
      ghost var m := RunSteps(cfg, machine, others(turn));
      StepKeeps(cfg, m, Succeed(target));
      machine := Next(cfg, RunSteps(cfg, machine, others(turn)), Succeed(target));
      turn := turn + 1;
      Snoc(m.server.history, Succeeded(target, m.server.clock));
    }
  }
}
