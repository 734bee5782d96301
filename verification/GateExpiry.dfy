/** Why EXEC has to fail on a watched key that has expired: a run that would break the rate limit if it did not. */
module GateExpiry {
  import opened Wrappers
  import opened GateTypes
  import opened RedisStore
  import opened GateHistory
  import opened GateProtocol
  import opened GateServer
  import opened GateCommits
  import opened GateRefinement
  import opened GateRuns
  import opened GatePromises
  import opened GateProgress

  predicate IsBareTest(p: Permit) {
    p.operation.ConnectionTest? && p.target.device.None?
  }

  /** One client is admitted. Another reads the time at once, but counts only when the rate key has expired. */
  function ExpiryRun(cfg: Settings, p: Permit, q: Permit): seq<Step>
    requires Admissible(p)
  {
    SoloAttempt(cfg, 0, p, 0) + LateReads(cfg, q)
  }

  function LateReads(cfg: Settings, q: Permit): seq<Step> {
    [Begin(1, Acquire(q)), Watch(1), Time(1)] + ([Tick(cfg.rateWindow + 1)] + ReadTimes(1, 3))
  }

  /** What dirties a key if expiry does not count. */
  predicate Modified(s: Server, key: Key, since: nat) {
    key in s.touched && s.touched[key].order > since
  }

  // ---- Steps of one client ----

  predicate OwnStep(step: Step, p: Permit) {
    || step == Begin(0, Acquire(p)) || step == Watch(0) || step == Time(0) || step == ReadNext(0) || step == Exec(0)
  }

  lemma {:induction false} OwnStepIsLocal(cfg: Settings, m: Machine, step: Step, p: Permit)
    requires OwnStep(step, p)
    ensures var m' := Next(cfg, m, step);
            && m'.server.clock == m.server.clock && m'.used <= m.used + {p.id}
            && forall c :: c in m'.clients && c != 0 ==> c in m.clients
  {
    hide Reads, Dirty, WatchedKeys, Commands, Evaluate, Refusal, BlameFor, Run, TouchedKeys;
  }

  lemma {:induction false} OwnStepsAreLocal(cfg: Settings, m: Machine, steps: seq<Step>, p: Permit)
    requires forall i :: 0 <= i < |steps| ==> OwnStep(steps[i], p)
    ensures var m' := RunSteps(cfg, m, steps);
            && m'.server.clock == m.server.clock && m'.used <= m.used + {p.id}
            && forall c :: c in m'.clients && c != 0 ==> c in m.clients
    decreases |steps|
  {
    hide Next, OwnStep;
    if steps != [] {
      OwnStepIsLocal(cfg, m, steps[0], p);
      OwnStepsAreLocal(cfg, Next(cfg, m, steps[0]), steps[1..], p);
    }
  }

  lemma {:induction false} ReadTimesAre(client: nat, n: nat)
    ensures forall i :: 0 <= i < |ReadTimes(client, n)| ==> ReadTimes(client, n)[i] == ReadNext(client)
  {
    if n > 0 {
      ReadTimesAre(client, n - 1);
    }
  }

  /** The first client is admitted at time 0 and nothing else happens. */
  lemma {:induction false} FirstIsAdmitted(cfg: Settings, p: Permit)
    requires IsBareTest(p) && cfg.testLimit >= 1 && cfg.maxConnections >= 1
    ensures var m := RunSteps(cfg, Initial(0), SoloAttempt(cfg, 0, p, 0));
            && m.server.history == [Admitted(p, 0, 0)] && m.server.clock == 0 && m.used <= {p.id} && 1 !in m.clients
  {
    NothingHappened(cfg, p);
    assert RunSteps(cfg, Initial(0), []) == Initial(0);
    AdmitsExactlyWhenItShould(cfg, 0, [], 0, p);
    var n := |Reads(cfg, Acquire(p), 0)|;
    ReadTimesAre(0, n);
    var steps := SoloAttempt(cfg, 0, p, 0);
    forall i | 0 <= i < |steps| ensures OwnStep(steps[i], p) {
    }
    hide ReadTimes, Reads, ShouldAdmit, OwnStep;
    OwnStepsAreLocal(cfg, Initial(0), steps, p);
    var m := RunSteps(cfg, Initial(0), steps);
    assert [] + [Admitted(p, 0, 0)] == [Admitted(p, 0, 0)];
  }

  lemma {:induction false} NothingHappened(cfg: Settings, p: Permit)
    requires IsBareTest(p) && cfg.testLimit >= 1 && cfg.maxConnections >= 1
    ensures Admissible(p) && ShouldAdmit(cfg, [], p, 0)
  {
    forall key | key in Occupied(p) ensures HasRoom(cfg, [], key, 0) {
      assert Above(Members(cfg, [], key), 0 - Horizon(cfg, key)) == {};
    }
  }

  // ---- The second client ----

  /** Reads that refuse nothing are all taken. */
  lemma {:induction false} ReadsPass(cfg: Settings, m: Machine, client: nat, n: nat)
    requires client in m.clients && WellFormed(m.clients[client].call)
    requires m.clients[client].phase.Reading? && m.clients[client].phase.replies == []
    requires var c := m.clients[client];
             var queries := Reads(cfg, c.call, c.phase.now);
             && n <= |queries|
             && forall i :: 0 <= i < n ==>
                  Refusal(cfg, c.call, queries[i], Evaluate(queries[i], m.server.store, m.server.clock)).None?
    ensures var m' := RunSteps(cfg, m, ReadTimes(client, n));
            && m'.server == m.server && client in m'.clients
            && m'.clients[client] == m.clients[client].(phase := m'.clients[client].phase)
            && m'.clients[client].phase.Reading? && |m'.clients[client].phase.replies| == n
            && m'.clients[client].phase == m.clients[client].phase.(replies := m'.clients[client].phase.replies)
  {
    hide Reads, Refusal, Evaluate;
    if n > 0 {
      ReadsPass(cfg, m, client, n - 1);
      RunAppend(cfg, m, ReadTimes(client, n - 1), [ReadNext(client)]);
      var before := RunSteps(cfg, m, ReadTimes(client, n - 1));
      assert RunSteps(cfg, before, [ReadNext(client)]) == ReadStep(cfg, before, client);
    }
  }

  /** After one admission, at any time behind the window, the rate key has gone. */
  lemma {:induction false} RateKeyIsGone(cfg: Settings, store: Store, p: Permit, key: Key, t: int)
    requires IsBareTest(p) && store == SerialStore(cfg, [Admitted(p, 0, 0)]) && t > cfg.rateWindow
    ensures RateKey(p) == Some(key) ==> Live(store, key, t).None? && Live(store, key, 0).Some?
    ensures key.GlobalActive? ==> forall bound :: ZCount(Live(store, key, t), bound) <= 1
    ensures key.Cooldown? ==> Live(store, key, t).None?
  {
    var h := [Admitted(p, 0, 0)];
    var cmds := Commands(cfg, Acquire(p), 0, []);
    assert h[..0] == [] && SerialStore(cfg, []) == map[];
    assert store == Run(cmds, map[], 0);
    RunLookup(cmds, map[], key, 0);
    AcquireEffect(cfg, p, 0, key, None, 0);
    hide Commands, RunKey, Run, TouchesKey;
    if key.GlobalActive? {
      forall bound ensures ZCount(Live(store, key, t), bound) <= 1 {
        SubsetSize(Above(map[p.id := cfg.permitTtl], bound), {p.id});
      }
    }
  }

  lemma {:induction false} NoneRefuses(cfg: Settings, s: Server, p: Permit, q: Permit)
    requires cfg.testLimit == 1 && cfg.maxConnections >= 2
    requires IsBareTest(p) && IsBareTest(q) && p.target == q.target
    requires s.store == SerialStore(cfg, [Admitted(p, 0, 0)]) && s.clock == cfg.rateWindow + 1
    ensures var queries := Reads(cfg, Acquire(q), 0);
            && |queries| == 3
            && forall i :: 0 <= i < 3 ==>
                 Refusal(cfg, Acquire(q), queries[i], Evaluate(queries[i], s.store, s.clock)).None?
    ensures var key := RateKey(q).value; Live(s.store, key, 0).Some? && Live(s.store, key, s.clock).None?
  {
    RateKeyIsGone(cfg, s.store, p, CooldownKey(q.target), s.clock);
    RateKeyIsGone(cfg, s.store, p, RateKey(q).value, s.clock);
    RateKeyIsGone(cfg, s.store, p, GlobalActive, s.clock);
    assert Reads(cfg, Acquire(q), 0)
        == [Get(CooldownKey(q.target)), Count(RateKey(q).value, 0 - cfg.rateWindow), Count(GlobalActive, 0)];
    hide SerialStore, Live;
  }

  lemma {:induction false} TwoInOneWindow(p: Permit, q: Permit, t: int, width: nat)
    requires IsBareTest(p) && IsBareTest(q) && p.target == q.target && p.id != q.id && width >= 1
    ensures |Within(Stamps([Admitted(p, 0, 0)] + [Admitted(q, 0, t)], RateKey(q).value), -1, width)| == 2
  {
    var key, h := RateKey(q).value, [Admitted(p, 0, 0)];
    Snoc([], Admitted(p, 0, 0));
    Snoc(h, Admitted(q, 0, t));
    assert Stamps(h, key) == map[p.id := 0];
    assert Within(Stamps(h + [Admitted(q, 0, t)], key), -1, width) == {p.id, q.id};
  }

  /** The second client reads everything, and reads nothing that refuses it. */
  lemma {:induction false} SecondIsLet(cfg: Settings, m: Machine, p: Permit, q: Permit)
    requires cfg.testLimit == 1 && cfg.maxConnections >= 2
    requires IsBareTest(p) && IsBareTest(q) && p.target == q.target
    requires m.server.store == SerialStore(cfg, [Admitted(p, 0, 0)]) && m.server.clock == 0
    requires 1 !in m.clients && q.id !in m.used && |m.server.history| == 1
    ensures var late := RunSteps(cfg, m, LateReads(cfg, q));
            && late.server == m.server.(clock := cfg.rateWindow + 1)
            && 1 in late.clients && late.clients[1].call == Acquire(q) && late.clients[1].phase.Reading?
            && var c := late.clients[1].phase;
               c.since == 1 && c.from == 0 && c.now == 0 && |c.replies| == |Reads(cfg, Acquire(q), 0)|
    ensures var key := RateKey(q).value;
            Live(m.server.store, key, 0).Some? && Live(m.server.store, key, cfg.rateWindow + 1).None?
  {
    hide SerialStore, Reads, Evaluate, Refusal, Live;
    var second, wait := [Begin(1, Acquire(q)), Watch(1), Time(1)], Tick(cfg.rateWindow + 1);
    SoloStart(cfg, m, 1, q);
    var m2 := RunSteps(cfg, m, second);
    var m3 := Next(cfg, m2, wait);
    RunAppend(cfg, m, second, [wait] + ReadTimes(1, 3));
    assert ([wait] + ReadTimes(1, 3))[1..] == ReadTimes(1, 3);
    NoneRefuses(cfg, m3.server, p, q);
    ReadsPass(cfg, m3, 1, 3);
  }

  lemma {:induction false} RateKeyIsWatched(q: Permit)
    requires IsBareTest(q)
    ensures RateKey(q).Some? && RateKey(q).value in WatchedKeys(Acquire(q))
  {
  }

  /** Without the expiry clause the rate limit fails: here is a run after which an EXEC would be let through, no watched
      key having been modified since WATCH, and would put two admissions into one window with room for one. The key they
      are counted in has expired meanwhile, so that the EXEC is aborted as things are. */
  lemma {:induction false} ExpiryHasToAbort(cfg: Settings, p: Permit, q: Permit)
    requires cfg.testLimit == 1 && cfg.rateWindow >= 1 && cfg.maxConnections >= 2
    requires IsBareTest(p) && IsBareTest(q) && p.target == q.target && p.id != q.id
    ensures var m := RunSteps(cfg, Initial(0), ExpiryRun(cfg, p, q));
            && 1 in m.clients && m.clients[1].call == Acquire(q) && m.clients[1].phase.Reading?
            && var c := m.clients[1].phase;
               var after := CommitAll(m.server, Commands(cfg, Acquire(q), c.now, c.replies),
                                      EventOf(cfg, Acquire(q), c.now, m.server.clock, c.replies));
               && |c.replies| == |Reads(cfg, Acquire(q), c.now)|
               && (forall key :: key in WatchedKeys(Acquire(q)) ==> !Modified(m.server, key, c.since))
               && |Within(Stamps(after.history, RateKey(q).value), -1, cfg.rateWindow)| == 2 > cfg.testLimit
               && Dirty(m.server, WatchedKeys(Acquire(q)), c.since, c.from)
  {
    var start := SoloAttempt(cfg, 0, p, 0);
    FirstIsAdmitted(cfg, p);
    EveryRunIsSerial(cfg, 0, start);
    RunAppend(cfg, Initial(0), start, LateReads(cfg, q));
    var m := RunSteps(cfg, Initial(0), start);
    hide RunSteps, SoloAttempt, LateReads, Reads, Commands, WatchedKeys, SerialStore, Members, Run, TouchedKeys, Within;
    hide Stamps, Live;
    SecondIsLet(cfg, m, p, q);
    var late := RunSteps(cfg, m, LateReads(cfg, q));
    TwoInOneWindow(p, q, late.server.clock, cfg.rateWindow);
    RateKeyIsWatched(q);
    hide Legal;
  }
}
