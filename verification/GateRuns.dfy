/** The invariant over whole runs, and the promises that follow from it. */
module GateRuns {
  import opened Wrappers
  import opened GateTypes
  import opened RedisStore
  import opened GateHistory
  import opened GateProtocol
  import opened GateServer
  import opened GateCommits
  import opened GateRefinement

  /** One committed operation of an attempt: legal, and with the effect its event alone describes. */
  lemma CommitIsAtomic(cfg: Settings, s: Server, c: Client)
    requires ServerInv(cfg, s) && TouchesAreOrdered(s) && ClientInv(cfg, s, c) && c.phase.Reading?
    requires |c.phase.replies| == |Reads(cfg, c.call, c.phase.now)| && !NothingToDo(c.call, c.phase.replies)
    requires !Dirty(s, WatchedKeys(c.call), c.phase.since, c.phase.from)
    requires FreshId(c.call).Some? ==> FreshId(c.call).value !in Ids(s.history)
    ensures var e := EventOf(cfg, c.call, c.phase.now, s.clock, c.phase.replies);
            var cmds := Commands(cfg, c.call, c.phase.now, c.phase.replies);
            && LegalEvent(cfg, s.history, e) && e.at == s.clock
            && cmds == CommandsOf(cfg, e)
            && ServerInv(cfg, CommitAll(s, cmds, e))
  {
    var p := c.phase;
    match c.call
    case Acquire(permit) =>
      AcquireIsLegal(cfg, s, permit, p.since, p.from, p.now, p.replies);
      AdmitKeeps(cfg, s, permit, p.now);
    case Release(permit) =>
      ReleaseIsLegal(cfg, s, permit, p.since, p.from, p.now, p.replies);
      ReleaseKeeps(cfg, s, permit, p.now, p.replies);
    case Failure(target, id) =>
      FailureIsLegal(cfg, s, target, id, p.since, p.from, p.now, p.replies);
      FailureKeeps(cfg, s, target, id, p.now, p.replies);
  }

  /** An operation that adds a member to a sorted set modifies it. */
  lemma {:induction false} AddingTouches(cfg: Settings, e: Event, key: Key, entry: Option<Entry>, t: int)
    ensures AddsTo(e, key) ==> TouchesKey(CommandsOf(cfg, e), key, entry, t)
  {
    hide RunKey, Occupied, ActiveKeys, RateKey;
    match e
    case Admitted(p, now, _) =>
      if Admissible(p) { AcquireEffect(cfg, p, now, key, entry, t); }
    case Released(p, _) =>
      if Admissible(p) { ReleaseEffect(cfg, p, key, entry, t, 0, []); }
    case Failed(target, id, now, _, tripped) =>
      FailureEffect(cfg, target, id, now, if tripped then [Number(cfg.failureLimit)] else [], key, entry, t);
    case Succeeded(target, _) => SuccessEffect(target, key, entry, t);
  }

  /** A commit is recorded at the keys it modifies, and at no others. */
  lemma {:induction false} CommitStaysReal(cfg: Settings, s: Server, e: Event)
    requires TouchesAreReal(cfg, s) && s.store == SerialStore(cfg, s.history) && e.at == s.clock
    ensures TouchesAreReal(cfg, CommitAll(s, CommandsOf(cfg, e), e))
  {
    hide CommandsOf, RunKey, TouchesKey, Run, TouchedKeys, SerialStore;
    var cmds := CommandsOf(cfg, e);
    var s' := CommitAll(s, cmds, e);
    forall key | key in s'.touched ensures Modifies(cfg, s'.history, s'.touched[key].order, key) {
      AfterCommit(s, cmds, e, key);
      RunLookup(cmds, s.store, key, s.clock);
      if TouchesKey(cmds, key, Live(s.store, key, s.clock), s.clock) {
        assert s'.history[..|s.history|] == s.history;
      } else {
        ModifiesStays(cfg, s.history, s'.history, s.touched[key].order, key);
      }
    }
  }

  lemma {:induction false} CommitKeepsEntries(cfg: Settings, s: Server, e: Event)
    requires EntriesStay(cfg, s) && s.store == SerialStore(cfg, s.history) && e.at == s.clock
    ensures EntriesStay(cfg, CommitAll(s, CommandsOf(cfg, e), e))
  {
    hide CommandsOf, RunKey, TouchesKey, Run, TouchedKeys, SerialStore;
    var cmds := CommandsOf(cfg, e);
    var s' := CommitAll(s, cmds, e);
    SerialStep(cfg, s, e);
    forall key, n: nat | n <= |s'.history| && (key in s'.touched ==> s'.touched[key].order <= n)
      ensures Raw(SerialStore(cfg, s'.history[..n]), key) == Raw(s'.store, key)
    {
      AfterCommit(s, cmds, e, key);
      if n == |s'.history| {
        assert s'.history[..n] == s.history + [e];
      } else {
        assert s'.history[..n] == s.history[..n];
      }
    }
  }

  lemma TouchedInPast(cfg: Settings, s: Server)
    requires ServerInv(cfg, s)
    ensures forall key :: key in s.touched ==> s.touched[key].at <= s.clock
  {
  }

  lemma CommitStaysOrdered(cfg: Settings, s: Server, e: Event)
    requires TouchesAreOrdered(s) && e.at == s.clock
    requires forall key :: key in s.touched ==> s.touched[key].at <= s.clock
    ensures TouchesAreOrdered(CommitAll(s, CommandsOf(cfg, e), e))
  {
    hide CommandsOf, AddsTo, RunKey, TouchesKey, Run, TouchedKeys;
    var cmds := CommandsOf(cfg, e);
    var s' := CommitAll(s, cmds, e);
    forall i, key | 0 <= i < |s'.history| && AddsTo(s'.history[i], key)
      ensures key in s'.touched && s'.history[i].at <= s'.touched[key].at
    {
      AfterCommit(s, cmds, e, key);
      AddingTouches(cfg, e, key, Live(s.store, key, s.clock), s.clock);
      if i < |s.history| {
        assert AddsTo(s.history[i], key);
      }
    }
  }

  lemma {:induction false} SerialStep(cfg: Settings, s: Server, e: Event)
    requires s.store == SerialStore(cfg, s.history) && e.at == s.clock
    ensures CommitAll(s, CommandsOf(cfg, e), e).store == SerialStore(cfg, s.history + [e])
  {
    Snoc(s.history, e);
  }

  lemma OthersStay(cfg: Settings, s: Server, clients: map<nat, Client>, s': Server)
    requires ClientsInv(cfg, s, clients) && Advance(s, s')
    ensures ClientsInv(cfg, s', clients)
  {
    forall c | c in clients ensures ClientInv(cfg, s', clients[c]) {
      ClientStays(cfg, s, s', clients[c]);
    }
  }

  lemma TickKeepsIndex(cfg: Settings, s: Server, delta: nat, key: Key)
    requires IsIndex(key) && RelIndex(cfg, s, key)
    ensures RelIndex(cfg, s.(clock := s.clock + delta), key)
  {
  }

  lemma TickKeepsServer(cfg: Settings, s: Server, delta: nat)
    requires ServerInv(cfg, s)
    ensures ServerInv(cfg, s.(clock := s.clock + delta))
  {
    var s' := s.(clock := s.clock + delta);
    forall key | IsIndex(key) ensures RelIndex(cfg, s', key) {
      TickKeepsIndex(cfg, s, delta, key);
    }
    forall id ensures RelPermit(cfg, s', id) {
      assert RelPermit(cfg, s, id);
    }
    forall key: Key | key.Cooldown? ensures RelCooldown(cfg, s', key) {
      assert RelCooldown(cfg, s, key);
    }
  }

  lemma TickKeepsClients(cfg: Settings, s: Server, clients: map<nat, Client>, delta: nat)
    requires ClientsInv(cfg, s, clients)
    ensures ClientsInv(cfg, s.(clock := s.clock + delta), clients)
  {
    OthersStay(cfg, s, clients, s.(clock := s.clock + delta));
  }

  lemma TickKeepsIds(m: Machine, delta: nat)
    requires IdsInv(m)
    ensures IdsInv(m.(server := m.server.(clock := m.server.clock + delta)))
  {
  }

  lemma TickKeeps(cfg: Settings, m: Machine, delta: nat)
    requires Inv(cfg, m)
    ensures Inv(cfg, Next(cfg, m, Tick(delta)))
  {
    hide ServerInv, IdsInv, ClientsInv, SerialStore;
    TickKeepsServer(cfg, m.server, delta);
    TickKeepsIds(m, delta);
    TickKeepsClients(cfg, m.server, m.clients, delta);
  }

  /** A step that changes only one client keeps the invariant if that client is in order. */
  lemma ClientStepKeeps(cfg: Settings, m: Machine, id: nat, c: Client)
    requires Inv(cfg, m) && id in m.clients && c.call == m.clients[id].call && !m.clients[id].phase.Finished?
    requires ClientInv(cfg, m.server, c)
    ensures Inv(cfg, Update(m, id, c))
  {
  }

  lemma BeginKeeps(cfg: Settings, m: Machine, id: nat, call: Call)
    requires Inv(cfg, m)
    ensures Inv(cfg, BeginStep(m, id, call))
  {
    hide ServerInv, SerialStore, TouchesAreReal, TouchesAreOrdered;
    var m' := BeginStep(m, id, call);
    if m' != m {
      assert ClientInv(cfg, m.server, m'.clients[id]);
      assert forall c :: c in m'.clients && c != id ==> c in m.clients && m'.clients[c] == m.clients[c];
    }
  }

  lemma WatchKeeps(cfg: Settings, m: Machine, id: nat)
    requires Inv(cfg, m)
    ensures Inv(cfg, WatchStep(m, id))
  {
    if id in m.clients && m.clients[id].phase.Ready? {
      ClientStepKeeps(cfg, m, id, WatchStep(m, id).clients[id]);
    }
  }

  lemma TimeKeeps(cfg: Settings, m: Machine, id: nat)
    requires Inv(cfg, m)
    ensures Inv(cfg, TimeStep(m, id))
  {
    if id in m.clients && m.clients[id].phase.Watching? {
      assert ClientInv(cfg, m.server, m.clients[id]);
      ClientStepKeeps(cfg, m, id, TimeStep(m, id).clients[id]);
    }
  }

  /** What a reading client comes to by one more reply is in order as well. */
  lemma {:induction false} ReadKeepsClient(cfg: Settings, s: Server, c: Client, reply: Reply)
    requires ClientInv(cfg, s, c) && c.phase.Reading?
    requires |c.phase.replies| < |Reads(cfg, c.call, c.phase.now)|
    requires var query := Reads(cfg, c.call, c.phase.now)[|c.phase.replies|];
             reply == Evaluate(query, s.store, s.clock) && Refusal(cfg, c.call, query, reply).None?
    ensures ClientInv(cfg, s, c.(phase := c.phase.(replies := c.phase.replies + [reply])))
  {
    hide Reads, Settled, AbortOk, Dirty, Evaluate, Refusal, WatchedKeys;
  }

  lemma {:induction false} RefusedKeepsClient(cfg: Settings, s: Server, c: Client, fault: Fault)
    requires ClientInv(cfg, s, c) && c.phase.Reading? && fault != GateUnavailable
    ensures ClientInv(cfg, s, c.(phase := Finished(Raised(fault))))
  {
    hide Reads, RepliesOk, AbortOk;
    AbortsStay(cfg, s, s, c, c.phase.since, c.phase.from, |s.history|, s.clock);
    assert AbortsOk(cfg, s, c.(phase := Finished(Raised(fault))), |s.history|, s.clock);
  }

  lemma {:induction false} ReadKeeps(cfg: Settings, m: Machine, id: nat)
    requires Inv(cfg, m)
    ensures Inv(cfg, ReadStep(cfg, m, id))
  {
    hide StateInv, IdsInv, Reads, ClientInv, Evaluate;
    var m' := ReadStep(cfg, m, id);
    if m' != m {
      var c, s := m.clients[id], m.server;
      assert ClientInv(cfg, s, c);
      var query := Reads(cfg, c.call, c.phase.now)[|c.phase.replies|];
      var reply := Evaluate(query, s.store, s.clock);
      if m'.clients[id].phase.Finished? {
        RefusedKeepsClient(cfg, s, c, Refusal(cfg, c.call, query, reply).value);
      } else {
        ReadKeepsClient(cfg, s, c, reply);
      }
      ClientStepKeeps(cfg, m, id, m'.clients[id]);
    }
  }

  /** The blame names something that happened to a watched key after WATCH. */
  ghost predicate Genuine(cfg: Settings, s: Server, keys: seq<Key>, since: nat, from: int, b: Blame)
    requires since <= |s.history|
  {
    match b
    case Commit(o) =>
      since < o <= |s.history| && exists i :: 0 <= i < |keys| && Modifies(cfg, s.history, o, keys[i])
    case Expiry(key, at) =>
      && key in keys && from <= at < s.clock
      && ExpiresAt(SerialStore(cfg, s.history[..since]), key, at) && ExpiresAt(s.store, key, at)
  }

  lemma {:induction false} GenuineInTail(cfg: Settings, s: Server, keys: seq<Key>, since: nat, from: int, b: Blame)
    requires since <= |s.history| && keys != [] && Genuine(cfg, s, keys[1..], since, from, b)
    ensures Genuine(cfg, s, keys, since, from, b)
  {
    hide Modifies, SerialStore;
    if b.Commit? {
      var i :| 0 <= i < |keys[1..]| && Modifies(cfg, s.history, b.order, keys[1..][i]);
      assert Modifies(cfg, s.history, b.order, keys[i + 1]);
    }
  }

  lemma {:induction false} HeadBlameIsGenuine(cfg: Settings, s: Server, keys: seq<Key>, since: nat, from: int)
    requires keys != [] && DirtyKey(s, keys[0], since, from) && since <= |s.history|
    requires TouchesAreReal(cfg, s) && EntriesStay(cfg, s)
    ensures Dirty(s, keys, since, from) && Genuine(cfg, s, keys, since, from, BlameFor(s, keys, since, from))
  {
    hide TouchedKeys, CommandsOf, SerialStore;
    assert keys[0] in keys;
    if keys[0] in s.touched && s.touched[keys[0]].order > since {
      assert Modifies(cfg, s.history, s.touched[keys[0]].order, keys[0]);
    } else {
      assert Raw(SerialStore(cfg, s.history[..since]), keys[0]) == Raw(s.store, keys[0]);
    }
  }

  lemma {:induction false} BlameIsGenuine(cfg: Settings, s: Server, keys: seq<Key>, since: nat, from: int)
    requires Dirty(s, keys, since, from) && since <= |s.history| && TouchesAreReal(cfg, s) && EntriesStay(cfg, s)
    ensures Genuine(cfg, s, keys, since, from, BlameFor(s, keys, since, from))
    decreases |keys|
  {
    hide DirtyKey, TouchesAreReal, EntriesStay, Genuine;
    if DirtyKey(s, keys[0], since, from) {
      HeadBlameIsGenuine(cfg, s, keys, since, from);
    } else {
      var i :| 0 <= i < |keys| && DirtyKey(s, keys[i], since, from);
      assert keys[1..][i - 1] == keys[i];
      BlameIsGenuine(cfg, s, keys[1..], since, from);
      GenuineInTail(cfg, s, keys, since, from, BlameFor(s, keys[1..], since, from));
    }
  }

  lemma {:induction false} AbortsGrow(cfg: Settings, s: Server, c: Client, since: nat, from: int, b: Blame)
    requires WellFormed(c.call) && AbortsOk(cfg, s, c, since, from) && since <= |s.history| && from <= s.clock
    requires Genuine(cfg, s, WatchedKeys(c.call), since, from, b) && s.store == SerialStore(cfg, s.history)
    ensures AbortsOk(cfg, s, c.(aborts := c.aborts + [Abort(since, from, |s.history|, s.clock, b)]), |s.history|, s.clock)
  {
    hide Modifies, SerialStore, WatchedKeys, ExpiresAt;
    var a := Abort(since, from, |s.history|, s.clock, b);
    var c' := c.(aborts := c.aborts + [a]);
    assert s.history[..|s.history|] == s.history;
    assert AbortOk(cfg, s, c.call, a);
    hide AbortOk;
    forall i | 0 <= i < |c'.aborts| ensures AbortOk(cfg, s, c.call, c'.aborts[i]) {
      if i < |c.aborts| {
        assert AbortOk(cfg, s, c.call, c.aborts[i]);
      }
    }
  }

  lemma {:induction false} AbortedIsInOrder(cfg: Settings, s: Server, c: Client)
    requires StateInv(cfg, s) && ClientInv(cfg, s, c) && c.phase.Reading?
    requires Dirty(s, WatchedKeys(c.call), c.phase.since, c.phase.from)
    ensures ClientInv(cfg, s, Aborted(s, c))
  {
    hide ServerInv, SerialStore, TouchesAreReal, EntriesStay, TouchesAreOrdered, RepliesOk, Reads, Dirty, WatchedKeys;
    hide Genuine, AbortOk;
    var p, keys := c.phase, WatchedKeys(c.call);
    BlameIsGenuine(cfg, s, keys, p.since, p.from);
    AbortsGrow(cfg, s, c, p.since, p.from, BlameFor(s, keys, p.since, p.from));
    assert AbortsOk(cfg, s, Aborted(s, c), |s.history|, s.clock);
  }

  lemma {:induction false} AbortKeeps(cfg: Settings, m: Machine, id: nat)
    requires Inv(cfg, m) && id in m.clients && m.clients[id].phase.Reading?
    requires var c := m.clients[id];
             && WellFormed(c.call) && Dirty(m.server, WatchedKeys(c.call), c.phase.since, c.phase.from)
             && |c.phase.replies| >= |Reads(cfg, c.call, c.phase.now)|
    ensures Inv(cfg, ExecStep(cfg, m, id))
  {
    hide StateInv, IdsInv, Dirty, WatchedKeys, Reads;
    var c, s := m.clients[id], m.server;
    assert ClientInv(cfg, s, c);
    hide ClientInv;
    AbortedIsInOrder(cfg, s, c);
    ClientStepKeeps(cfg, m, id, Aborted(s, c));
  }

  lemma CommitKeepsIds(cfg: Settings, m: Machine, id: nat, e: Event, s': Server)
    requires IdsInv(m) && id in m.clients && !m.clients[id].phase.Finished?
    requires s'.history == m.server.history + [e] && !e.Succeeded?
    requires match e
             case Admitted(p, _, _) => FreshId(m.clients[id].call) == Some(p.id)
             case Failed(_, x, _, _, _) => FreshId(m.clients[id].call) == Some(x)
             case _ => true
    ensures IdsInv(Update(m.(server := s'), id, m.clients[id].(phase := Finished(Returned))))
  {
    Snoc(m.server.history, e);
  }

  lemma CommitKeepsState(cfg: Settings, s: Server, e: Event)
    requires StateInv(cfg, s) && e.at == s.clock && ServerInv(cfg, CommitAll(s, CommandsOf(cfg, e), e))
    ensures StateInv(cfg, CommitAll(s, CommandsOf(cfg, e), e)) && Advance(s, CommitAll(s, CommandsOf(cfg, e), e))
  {
    TouchedInPast(cfg, s);
    hide ServerInv, TouchesAreReal, TouchesAreOrdered, EntriesStay, Advance, Run, TouchedKeys, CommandsOf, SerialStore;
    CommitAdvances(s, CommandsOf(cfg, e), e);
    CommitStaysReal(cfg, s, e);
    CommitKeepsEntries(cfg, s, e);
    CommitStaysOrdered(cfg, s, e);
    SerialStep(cfg, s, e);
  }

  lemma CommitKeepsClients(cfg: Settings, s: Server, clients: map<nat, Client>, s': Server, id: nat)
    requires ClientsInv(cfg, s, clients) && Advance(s, s') && id in clients && clients[id].phase.Reading?
    ensures ClientsInv(cfg, s', clients[id := clients[id].(phase := Finished(Returned))])
  {
    OthersStay(cfg, s, clients, s');
    var c := clients[id];
    assert ClientInv(cfg, s', c);
    AbortsStay(cfg, s', s', c, c.phase.since, c.phase.from, |s'.history|, s'.clock);
  }

  lemma CommitKeeps(cfg: Settings, m: Machine, id: nat)
    requires Inv(cfg, m) && id in m.clients && m.clients[id].phase.Reading?
    requires var c := m.clients[id];
             && WellFormed(c.call)
             && |c.phase.replies| >= |Reads(cfg, c.call, c.phase.now)|
             && !NothingToDo(c.call, c.phase.replies)
             && !Dirty(m.server, WatchedKeys(c.call), c.phase.since, c.phase.from)
    ensures Inv(cfg, ExecStep(cfg, m, id))
  {
    var c, s := m.clients[id], m.server;
    var p := c.phase;
    assert ClientInv(cfg, s, c);
    assert |p.replies| == |Reads(cfg, c.call, p.now)|;
    var e := EventOf(cfg, c.call, p.now, s.clock, p.replies);
    hide ServerInv, ClientInv, SerialStore, TouchesAreReal, TouchesAreOrdered, EntriesStay, Advance, CommitAll,
         RepliesOk, LegalEvent, Dirty, Commands, CommandsOf, Reads;
    CommitIsAtomic(cfg, s, c);
    var s' := CommitAll(s, CommandsOf(cfg, e), e);
    CommitKeepsState(cfg, s, e);
    CommitKeepsClients(cfg, s, m.clients, s', id);
    CommitHistory(s, CommandsOf(cfg, e), e);
    CommitKeepsIds(cfg, m, id, e, s');
  }

  lemma CommitHistory(s: Server, cmds: seq<Command>, e: Event)
    ensures CommitAll(s, cmds, e).history == s.history + [e]
  {
  }

  lemma ExecKeeps(cfg: Settings, m: Machine, id: nat)
    requires Inv(cfg, m)
    ensures Inv(cfg, ExecStep(cfg, m, id))
  {
    var m' := ExecStep(cfg, m, id);
    if m' == m { return; }
    var c, s := m.clients[id], m.server;
    var p := c.phase;
    assert ClientInv(cfg, s, c);
    if Dirty(s, WatchedKeys(c.call), p.since, p.from) {
      AbortKeeps(cfg, m, id);
    } else if NothingToDo(c.call, p.replies) {
      AbortsStay(cfg, s, s, c, p.since, p.from, |s.history|, s.clock);
      ClientStepKeeps(cfg, m, id, m'.clients[id]);
    } else {
      CommitKeeps(cfg, m, id);
    }
  }

  lemma SucceedKeeps(cfg: Settings, m: Machine, target: Target)
    requires Inv(cfg, m)
    ensures Inv(cfg, Next(cfg, m, Succeed(target)))
  {
    var e, s := Succeeded(target, m.server.clock), m.server;
    SuccessKeeps(cfg, s, target);
    hide ServerInv, ClientsInv, SerialStore, TouchesAreReal, TouchesAreOrdered, EntriesStay, Advance, CommitAll, Run;
    assert SucceedServer(s, target) == CommitAll(s, CommandsOf(cfg, e), e);
    CommitKeepsState(cfg, s, e);
    OthersStay(cfg, s, m.clients, SucceedServer(s, target));
    CommitHistory(s, CommandsOf(cfg, e), e);
    Snoc(s.history, e);
  }

  /** Every step of every client keeps the invariant. */
  lemma StepKeeps(cfg: Settings, m: Machine, step: Step)
    requires Inv(cfg, m)
    ensures Inv(cfg, Next(cfg, m, step))
  {
    match step
    case Tick(delta) => TickKeeps(cfg, m, delta);
    case Begin(id, call) => BeginKeeps(cfg, m, id, call);
    case Watch(id) => WatchKeeps(cfg, m, id);
    case Time(id) => TimeKeeps(cfg, m, id);
    case ReadNext(id) => ReadKeeps(cfg, m, id);
    case Exec(id) => ExecKeeps(cfg, m, id);
    case Succeed(target) => SucceedKeeps(cfg, m, target);
  }

  lemma {:induction false} RunKeeps(cfg: Settings, m: Machine, steps: seq<Step>)
    requires Inv(cfg, m)
    ensures Inv(cfg, RunSteps(cfg, m, steps))
    decreases |steps|
  {
    if steps != [] {
      StepKeeps(cfg, m, steps[0]);
      RunKeeps(cfg, Next(cfg, m, steps[0]), steps[1..]);
    }
  }

  /** Serializability: after any interleaving, what committed was legal one operation at a time, and
      Redis holds exactly what running those operations one by one in commit order leaves. */
  lemma {:induction false} EveryRunIsSerial(cfg: Settings, clock: int, steps: seq<Step>)
    ensures var s := RunSteps(cfg, Initial(clock), steps).server;
            && Legal(cfg, s.history)
            && s.store == SerialStore(cfg, s.history)
            && Inv(cfg, RunSteps(cfg, Initial(clock), steps))
  {
    RunKeeps(cfg, Initial(clock), steps);
  }
}
