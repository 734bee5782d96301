/** The other half of admission: a client nobody interferes with is admitted exactly when the
    specification allows it, so the gate refuses nothing it should grant. */
module GateProgress {
  import opened Wrappers
  import opened GateTypes
  import opened RedisStore
  import opened GateHistory
  import opened GateProtocol
  import opened GateServer
  import opened GateRefinement
  import opened GateRuns
  import opened GatePromises

  /** What the settings promise a caller at time `t`: no cooldown, and room under every limit. */
  ghost predicate ShouldAdmit(cfg: Settings, h: seq<Event>, p: Permit, t: int)
    requires Admissible(p)
  {
    !CoolingDown(cfg, h, p.target, t) && forall key :: key in Occupied(p) ==> HasRoom(cfg, h, key, t)
  }

  function ReadTimes(client: nat, n: nat): seq<Step> {
    if n == 0 then [] else ReadTimes(client, n - 1) + [ReadNext(client)]
  }

  /** One undisturbed attempt at an admission. */
  function SoloAttempt(cfg: Settings, client: nat, p: Permit, t: int): seq<Step>
    requires Admissible(p)
  {
    [Begin(client, Acquire(p)), Watch(client), Time(client)]
    + ReadTimes(client, |Reads(cfg, Acquire(p), t)|)
    + [Exec(client)]
  }

  lemma {:induction false} RunAppend(cfg: Settings, m: Machine, a: seq<Step>, b: seq<Step>)
    ensures RunSteps(cfg, m, a + b) == RunSteps(cfg, RunSteps(cfg, m, a), b)
    decreases |a|
  {
    if a == [] {
      assert a + b == b;
    } else {
      assert (a + b)[1..] == a[1..] + b;
      RunAppend(cfg, Next(cfg, m, a[0]), a[1..], b);
    }
  }

  /** Whether the read at position `i`, asked of this server at its own clock, refuses the admission. */
  ghost predicate Refused(cfg: Settings, s: Server, p: Permit, i: nat)
    requires Admissible(p) && i < |Reads(cfg, Acquire(p), s.clock)|
  {
    var query := Reads(cfg, Acquire(p), s.clock)[i];
    Refusal(cfg, Acquire(p), query, Evaluate(query, s.store, s.clock)).Some?
  }

  /** What that read raises. */
  ghost function FaultOf(cfg: Settings, s: Server, p: Permit, i: nat): Fault
    requires Admissible(p) && i < |Reads(cfg, Acquire(p), s.clock)| && Refused(cfg, s, p, i)
  {
    var query := Reads(cfg, Acquire(p), s.clock)[i];
    Refusal(cfg, Acquire(p), query, Evaluate(query, s.store, s.clock)).value
  }

  /** The first of the first n reads that refuses. */
  ghost predicate RefusesFirst(cfg: Settings, s: Server, p: Permit, i: nat, n: nat)
    requires Admissible(p) && n <= |Reads(cfg, Acquire(p), s.clock)|
  {
    i < n && Refused(cfg, s, p, i) && forall j: nat :: j < i ==> !Refused(cfg, s, p, j)
  }

  /** After `n` undisturbed reads the client is still reading, or the first of them that refuses has refused it. */
  lemma {:induction false} ReadsRun(cfg: Settings, m: Machine, client: nat, p: Permit, n: nat)
    requires Admissible(p) && n <= |Reads(cfg, Acquire(p), m.server.clock)|
    requires client in m.clients && m.clients[client].call == Acquire(p)
    requires m.clients[client].phase == Reading(|m.server.history|, m.server.clock, m.server.clock, [])
    ensures var m' := RunSteps(cfg, m, ReadTimes(client, n));
            && m'.server == m.server && client in m'.clients && m'.clients[client].call == Acquire(p)
            && if exists i: nat :: i < n && Refused(cfg, m.server, p, i)
               then m'.clients[client].phase.Finished?
                    && exists i: nat :: RefusesFirst(cfg, m.server, p, i, n)
                                        && m'.clients[client].phase.outcome == Raised(FaultOf(cfg, m.server, p, i))
               else m'.clients[client].phase.Reading? && |m'.clients[client].phase.replies| == n
                    && m'.clients[client].phase.since == |m.server.history|
                    && m'.clients[client].phase.from == m'.clients[client].phase.now == m.server.clock
  {
    hide Reads;
    if n > 0 {
      ReadsRun(cfg, m, client, p, n - 1);
      RunAppend(cfg, m, ReadTimes(client, n - 1), [ReadNext(client)]);
      var before := RunSteps(cfg, m, ReadTimes(client, n - 1));
      assert RunSteps(cfg, before, [ReadNext(client)]) == ReadStep(cfg, before, client);
      if i: nat :| RefusesFirst(cfg, m.server, p, i, n - 1)
                   && before.clients[client].phase == Finished(Raised(FaultOf(cfg, m.server, p, i)))
      {
        assert RefusesFirst(cfg, m.server, p, i, n);
      } else if Refused(cfg, m.server, p, n - 1) {
        assert RefusesFirst(cfg, m.server, p, n - 1, n);
      }
    }
  }

  lemma RightAfterWatchIsClean(cfg: Settings, s: Server, keys: seq<Key>)
    requires StateInv(cfg, s)
    ensures !Dirty(s, keys, |s.history|, s.clock)
  {
  }

  lemma GetIsCooldown(cfg: Settings, p: Permit, now: int, i: nat)
    requires Admissible(p) && i < |Reads(cfg, Acquire(p), now)| && Reads(cfg, Acquire(p), now)[i].Get?
    ensures Reads(cfg, Acquire(p), now)[i].key == CooldownKey(p.target)
  {
  }

  lemma RefusalMeansFull(cfg: Settings, s: Server, p: Permit, i: nat)
    requires StateInv(cfg, s) && Admissible(p) && i < |Reads(cfg, Acquire(p), s.clock)|
    ensures var query := Reads(cfg, Acquire(p), s.clock)[i];
            Refused(cfg, s, p, i) <==>
            match query
            case Get(_) => CoolingDown(cfg, s.history, p.target, s.clock)
            case Count(key, _) => key in Occupied(p) && !HasRoom(cfg, s.history, key, s.clock)
  {
    var query := Reads(cfg, Acquire(p), s.clock)[i];
    match query
    case Get(key) =>
      GetIsCooldown(cfg, p, s.clock, i);
      assert RelCooldown(cfg, s, CooldownKey(p.target));
      hide StateInv, Reads, Occupied, ActiveKeys;
    case Count(key, bound) =>
      CountRefusalMeansFull(cfg, s, p, i);
  }

  lemma CountRefusalMeansFull(cfg: Settings, s: Server, p: Permit, i: nat)
    requires StateInv(cfg, s) && Admissible(p) && i < |Reads(cfg, Acquire(p), s.clock)|
    requires Reads(cfg, Acquire(p), s.clock)[i].Count?
    ensures var key := Reads(cfg, Acquire(p), s.clock)[i].key;
            && key in Occupied(p)
            && (Refused(cfg, s, p, i) <==> !HasRoom(cfg, s.history, key, s.clock))
  {
    hide StateInv, Reads, Occupied, ActiveKeys, Members, Live, Above;
    var key := Reads(cfg, Acquire(p), s.clock)[i].key;
    CountedIsOccupied(cfg, p, s.clock, i);
    OccupiedKinds(p, key);
    CountIsExact(cfg, s, key);
  }

  /** At one instant a count is the number of members that matter. */
  lemma {:induction false} CountIsExact(cfg: Settings, s: Server, key: Key)
    requires StateInv(cfg, s) && IsIndex(key)
    ensures var bound := s.clock - Horizon(cfg, key);
            ZCount(Live(s.store, key, s.clock), bound) == |Above(Members(cfg, s.history, key), bound)|
  {
    hide Members, TouchesAreOrdered, TouchesAreReal, EntriesStay, SerialStore, Live, Legal;
    RightAfterWatchIsClean(cfg, s, [key]);
    assert !DirtyKey(s, [key][0], |s.history|, s.clock);
    CleanCount(cfg, s, key, |s.history|, s.clock, s.clock);
  }

  lemma CountedIsOccupied(cfg: Settings, p: Permit, now: int, i: nat)
    requires Admissible(p) && i < |Reads(cfg, Acquire(p), now)| && Reads(cfg, Acquire(p), now)[i].Count?
    ensures var query := Reads(cfg, Acquire(p), now)[i];
            query.key in Occupied(p) && query.bound == now - Horizon(cfg, query.key)
  {
  }

  lemma SomeReadRefuses(cfg: Settings, s: Server, p: Permit)
    requires StateInv(cfg, s) && Admissible(p)
    ensures ShouldAdmit(cfg, s.history, p, s.clock)
       <==> !(exists i: nat :: i < |Reads(cfg, Acquire(p), s.clock)| && Refused(cfg, s, p, i))
  {
    var queries := Reads(cfg, Acquire(p), s.clock);
    if ShouldAdmit(cfg, s.history, p, s.clock) {
      forall i: nat | i < |queries| ensures !Refused(cfg, s, p, i) {
        RefusalMeansFull(cfg, s, p, i);
      }
    } else if CoolingDown(cfg, s.history, p.target, s.clock) {
      assert queries[0] == Get(CooldownKey(p.target));
      RefusalMeansFull(cfg, s, p, 0);
    } else {
      var key :| key in Occupied(p) && !HasRoom(cfg, s.history, key, s.clock);
      var i := OccupiedIsCounted(cfg, p, s.clock, key);
      RefusalMeansFull(cfg, s, p, i);
    }
  }

  lemma {:induction false} SoloStart(cfg: Settings, m: Machine, client: nat, p: Permit)
    requires Admissible(p) && p.id !in m.used
    requires client in m.clients ==> m.clients[client].phase.Finished?
    ensures var m' := RunSteps(cfg, m, [Begin(client, Acquire(p)), Watch(client), Time(client)]);
            && m'.server == m.server && client in m'.clients && m'.clients[client].call == Acquire(p)
            && m'.clients[client].phase == Reading(|m.server.history|, m.server.clock, m.server.clock, [])
  {
    var call := Acquire(p);
    var m1 := Next(cfg, m, Begin(client, call));
    var m2 := Next(cfg, m1, Watch(client));
    var m3 := Next(cfg, m2, Time(client));
    assert [Begin(client, call), Watch(client), Time(client)][1..] == [Watch(client), Time(client)];
    assert [Watch(client), Time(client)][1..] == [Time(client)];
    assert RunSteps(cfg, m2, [Time(client)]) == m3;
    assert RunSteps(cfg, m1, [Watch(client), Time(client)]) == m3;
  }

  /** Completeness: from any reachable state an undisturbed client is admitted if and only if there is
      no cooldown and every limit has room at that moment. */
  lemma {:induction false} AdmitsExactlyWhenItShould(cfg: Settings, clock: int, steps: seq<Step>, client: nat,
                                                     p: Permit)
    requires var m := RunSteps(cfg, Initial(clock), steps);
             && Admissible(p) && p.id !in m.used
             && (client in m.clients ==> m.clients[client].phase.Finished?)
    ensures var m := RunSteps(cfg, Initial(clock), steps);
            var m' := RunSteps(cfg, m, SoloAttempt(cfg, client, p, m.server.clock));
            if ShouldAdmit(cfg, m.server.history, p, m.server.clock)
            then m'.server.history == m.server.history + [Admitted(p, m.server.clock, m.server.clock)]
            else
              && m'.server == m.server && client in m'.clients && m'.clients[client].phase.Finished?
              && exists i: nat ::
                   && RefusesFirst(cfg, m.server, p, i, |Reads(cfg, Acquire(p), m.server.clock)|)
                   && m'.clients[client].phase.outcome == Raised(FaultOf(cfg, m.server, p, i))
  {
    var m := RunSteps(cfg, Initial(clock), steps);
    EveryRunIsSerial(cfg, clock, steps);
    SoloAttemptOutcome(cfg, m, client, p);
  }

  lemma {:induction false} SoloExec(cfg: Settings, m: Machine, client: nat, p: Permit)
    requires Admissible(p) && client in m.clients && m.clients[client].call == Acquire(p)
    requires m.clients[client].phase.Reading?
    requires var phase := m.clients[client].phase;
             && |phase.replies| == |Reads(cfg, Acquire(p), phase.now)| && phase.now == m.server.clock
             && !Dirty(m.server, WatchedKeys(Acquire(p)), phase.since, phase.from)
    ensures RunSteps(cfg, m, [Exec(client)]).server.history
         == m.server.history + [Admitted(p, m.server.clock, m.server.clock)]
  {
    hide Reads, Dirty, WatchedKeys, Commands;
    assert RunSteps(cfg, m, [Exec(client)]) == ExecStep(cfg, m, client);
  }

  lemma {:induction false} FinishedIdles(cfg: Settings, m: Machine, client: nat)
    requires client in m.clients && m.clients[client].phase.Finished?
    ensures RunSteps(cfg, m, [Exec(client)]) == m
  {
    assert RunSteps(cfg, m, [Exec(client)]) == ExecStep(cfg, m, client);
  }

  lemma {:induction false} SoloAttemptOutcome(cfg: Settings, m: Machine, client: nat, p: Permit)
    requires Inv(cfg, m) && Admissible(p) && p.id !in m.used
    requires client in m.clients ==> m.clients[client].phase.Finished?
    ensures var m' := RunSteps(cfg, m, SoloAttempt(cfg, client, p, m.server.clock));
            if ShouldAdmit(cfg, m.server.history, p, m.server.clock)
            then m'.server.history == m.server.history + [Admitted(p, m.server.clock, m.server.clock)]
            else
              && m'.server == m.server && client in m'.clients && m'.clients[client].phase.Finished?
              && exists i: nat ::
                   && RefusesFirst(cfg, m.server, p, i, |Reads(cfg, Acquire(p), m.server.clock)|)
                   && m'.clients[client].phase.outcome == Raised(FaultOf(cfg, m.server, p, i))
  {
    SomeReadRefuses(cfg, m.server, p);
    RightAfterWatchIsClean(cfg, m.server, WatchedKeys(Acquire(p)));
    hide Inv, Reads, ShouldAdmit, Refused, Dirty, WatchedKeys, ReadTimes, Commands, RunSteps, RefusesFirst, FaultOf;
    var n := |Reads(cfg, Acquire(p), m.server.clock)|;
    var start := [Begin(client, Acquire(p)), Watch(client), Time(client)];
    SoloStart(cfg, m, client, p);
    var m3 := RunSteps(cfg, m, start);
    RunAppend(cfg, m, start + ReadTimes(client, n), [Exec(client)]);
    RunAppend(cfg, m, start, ReadTimes(client, n));
    ReadsRun(cfg, m3, client, p, n);
    var read := RunSteps(cfg, m3, ReadTimes(client, n));
    if read.clients[client].phase.Reading? {
      SoloExec(cfg, read, client, p);
    } else {
      FinishedIdles(cfg, read, client);
    }
  }

  // ---- Refusals among other clients ----

  ghost predicate IsFull(cfg: Settings, h: seq<Event>, keys: seq<Key>, now: int) {
    exists key :: key in keys && !HasRoom(cfg, h, key, now)
  }

  /** The cooldown is on at `t`, or the limit this fault is about has no room at `now`, the time the client read. */
  ghost predicate Justifies(cfg: Settings, h: seq<Event>, p: Permit, fault: Fault, now: int, t: int)
    requires Admissible(p)
  {
    match fault
    case AuthenticationRateLimited => CoolingDown(cfg, h, p.target, t)
    case ConnectionRateLimited => RateKey(p).Some? && !HasRoom(cfg, h, RateKey(p).value, now)
    case TerminalLimitReached =>
      p.operation.Terminal? && IsFull(cfg, h, [TerminalActive, TerminalDeviceActive(p.target.device.value)], now)
    case ConnectionLimitReached =>
      IsFull(cfg, h, [GlobalActive] + (if p.target.device.Some? then [DeviceActive(p.target.device.value)] else []), now)
    case GateUnavailable => false
  }

  /** A count never exceeds the members that matter: whatever was committed or expired since WATCH, what is visible is
      genuine. */
  lemma {:induction false} CountIsGenuine(cfg: Settings, s: Server, key: Key, bound: int)
    requires ServerInv(cfg, s) && IsIndex(key)
    ensures ZCount(Live(s.store, key, s.clock), bound) <= |Above(Members(cfg, s.history, key), bound)|
  {
    assert RelIndex(cfg, s, key);
    var live := Live(s.store, key, s.clock);
    if live.Some? {
      SubsetSize(Above(Scores(live.value.value), bound), Above(Members(cfg, s.history, key), bound));
    }
  }

  /** The fault a count raises is the one its key is about. */
  lemma {:induction false} RefusalNamesKey(cfg: Settings, p: Permit, now: int, i: nat, reply: Reply)
    requires Admissible(p) && i < |Reads(cfg, Acquire(p), now)| && Reads(cfg, Acquire(p), now)[i].Count?
    requires Refusal(cfg, Acquire(p), Reads(cfg, Acquire(p), now)[i], reply).Some?
    ensures var key, fault := Reads(cfg, Acquire(p), now)[i].key,
                              Refusal(cfg, Acquire(p), Reads(cfg, Acquire(p), now)[i], reply).value;
            || (fault == ConnectionRateLimited && RateKey(p) == Some(key))
            || (fault == TerminalLimitReached && p.operation.Terminal?
                && (key == TerminalActive || key == TerminalDeviceActive(p.target.device.value)))
            || (fault == ConnectionLimitReached
                && (key == GlobalActive || (p.target.device.Some? && key == DeviceActive(p.target.device.value))))
  {
  }

  /** Whatever else is going on, a read that refuses an admission is right at that instant. */
  lemma {:induction false} ReadRefusesRightly(cfg: Settings, s: Server, p: Permit, now: int, i: nat)
    requires ServerInv(cfg, s) && Admissible(p) && i < |Reads(cfg, Acquire(p), now)|
    requires var query := Reads(cfg, Acquire(p), now)[i];
             Refusal(cfg, Acquire(p), query, Evaluate(query, s.store, s.clock)).Some?
    ensures var query := Reads(cfg, Acquire(p), now)[i];
            Justifies(cfg, s.history, p, Refusal(cfg, Acquire(p), query, Evaluate(query, s.store, s.clock)).value,
                      now, s.clock)
  {
    var query := Reads(cfg, Acquire(p), now)[i];
    match query
    case Get(key) =>
      GetIsCooldown(cfg, p, now, i);
      assert RelCooldown(cfg, s, CooldownKey(p.target));
      hide ServerInv, Reads;
    case Count(key, bound) =>
      CountedIsOccupied(cfg, p, now, i);
      OccupiedKinds(p, key);
      RefusalNamesKey(cfg, p, now, i, Evaluate(query, s.store, s.clock));
      CountIsGenuine(cfg, s, key, bound);
      hide ServerInv, Reads, Occupied, ActiveKeys, Members;
      assert !HasRoom(cfg, s.history, key, now);
  }

  /** For every run: a call that ends by a refusal is refused rightly. The history at the instant of the read that
      refuses it shows the cooldown on, or the limit its error names full at the time the call had read, which lies
      between its beginning and that instant. */
  lemma {:induction false} RefusalIsJustified(cfg: Settings, clock: int, steps: seq<Step>, id: nat)
    requires var m := RunSteps(cfg, Initial(clock), steps);
             && id in m.clients && m.clients[id].phase.Reading?
             && ReadStep(cfg, m, id).clients[id].phase.Finished?
    ensures var m := RunSteps(cfg, Initial(clock), steps);
            var c, end := m.clients[id], ReadStep(cfg, m, id).clients[id].phase.outcome;
            && c.call.Acquire? && Admissible(c.call.permit) && end.Raised?
            && c.started <= c.phase.now <= m.server.clock
            && Justifies(cfg, m.server.history, c.call.permit, end.fault, c.phase.now, m.server.clock)
  {
    EveryRunIsSerial(cfg, clock, steps);
    RefusedRead(cfg, RunSteps(cfg, Initial(clock), steps), id);
  }

  lemma {:induction false} RefusedRead(cfg: Settings, m: Machine, id: nat)
    requires Inv(cfg, m) && id in m.clients && m.clients[id].phase.Reading?
    requires ReadStep(cfg, m, id).clients[id].phase.Finished?
    ensures var c, end := m.clients[id], ReadStep(cfg, m, id).clients[id].phase.outcome;
            && c.call.Acquire? && Admissible(c.call.permit) && end.Raised?
            && c.started <= c.phase.now <= m.server.clock
            && Justifies(cfg, m.server.history, c.call.permit, end.fault, c.phase.now, m.server.clock)
  {
    var c, s := m.clients[id], m.server;
    assert ClientInv(cfg, s, c);
    hide ServerInv, SerialStore, TouchesAreReal, TouchesAreOrdered, EntriesStay, RepliesOk, Justifies, Reads, Evaluate;
    ReadRefusesRightly(cfg, s, c.call.permit, c.phase.now, |c.phase.replies|);
  }
}
