/** Each kind of commit keeps the Redis state meaning what the history says. */
module GateCommits {
  import opened Wrappers
  import opened GateTypes
  import opened RedisStore
  import opened GateHistory
  import opened GateProtocol
  import opened GateServer

  ghost function AddedEntry(cfg: Settings, entry: Option<Entry>, key: Key, id: Id, now: int, t: int): Entry {
    var hz, span := Horizon(cfg, key), Span(cfg, key);
    Entry(ZSet(Pruned(entry, now - hz)[id := now + span - hz]), Some(t + span))
  }

  lemma {:induction false} RateEffect(cfg: Settings, p: Permit, now: int, key: Key, entry: Option<Entry>, t: int)
    requires Admissible(p)
    ensures var cmds := RateCommands(cfg, p, now);
            && RunKey(cmds, key, entry, t)
               == (if RateKey(p) == Some(key) then Some(AddedEntry(cfg, entry, key, p.id, now, t)) else entry)
            && (TouchesKey(cmds, key, entry, t) <==> RateKey(p) == Some(key))
  {
    OccupiedKinds(p, key);
    if RateKey(p).Some? {
      RunIndexCommands(RateKey(p).value, now - cfg.rateWindow, p.id, now, cfg.rateWindow, key, entry, t);
    }
  }

  lemma ActiveKeysDistinct(p: Permit)
    requires Admissible(p)
    ensures Distinct(ActiveKeys(p))
    ensures forall key :: key in ActiveKeys(p) ==> IsActive(key)
  {
  }

  lemma {:induction false} ActiveEffect(cfg: Settings, p: Permit, now: int, key: Key, entry: Option<Entry>, t: int)
    requires Admissible(p)
    ensures var cmds := ActiveCommands(cfg, ActiveKeys(p), p.id, now);
            && RunKey(cmds, key, entry, t)
               == (if key in ActiveKeys(p) then Some(AddedEntry(cfg, entry, key, p.id, now, t)) else entry)
            && (TouchesKey(cmds, key, entry, t) <==> key in ActiveKeys(p))
  {
    ActiveKeysDistinct(p);
    RunActiveCommands(cfg, ActiveKeys(p), p.id, now, key, entry, t);
  }

  lemma {:induction false} AcquireEffect(cfg: Settings, p: Permit, now: int, key: Key, entry: Option<Entry>, t: int)
    requires Admissible(p)
    ensures var cmds := Commands(cfg, Acquire(p), now, []);
            && RunKey(cmds, key, entry, t)
               == (if key in Occupied(p) then Some(AddedEntry(cfg, entry, key, p.id, now, t))
                   else if key == PermitKey(p.id) then Some(Entry(Str(FingerprintOf(p)), Some(t + cfg.permitTtl)))
                   else entry)
            && (TouchesKey(cmds, key, entry, t) <==> key in Occupied(p) || key == PermitKey(p.id))
  {
    OccupiedKinds(p, key);
    var a, c := RateCommands(cfg, p, now), ActiveCommands(cfg, ActiveKeys(p), p.id, now);
    var b := [SetEx(PermitKey(p.id), FingerprintOf(p), cfg.permitTtl)];
    var afterA := RunKey(a, key, entry, t);
    RateEffect(cfg, p, now, key, entry, t);
    var afterB := RunKey(b, key, afterA, t);
    assert b[1..] == [];
    RunKeyAppend(a + b, c, key, entry, t);
    RunKeyAppend(a, b, key, entry, t);
    ActiveEffect(cfg, p, now, key, afterB, t);
  }

  lemma {:induction false} ReleaseEffect(cfg: Settings, p: Permit, key: Key, entry: Option<Entry>, t: int, now: int,
                                         replies: seq<Reply>)
    requires Admissible(p)
    ensures var cmds := Commands(cfg, Release(p), now, replies);
            && RunKey(cmds, key, entry, t)
               == (if key in ActiveKeys(p) then ApplyEntry(ZRem(key, p.id), entry, t)
                   else if key == PermitKey(p.id) then None
                   else entry)
            && (TouchesKey(cmds, key, entry, t) <==>
                || (key in ActiveKeys(p) && Touches(ZRem(key, p.id), entry))
                || (key == PermitKey(p.id) && entry.Some?))
  {
    OccupiedKinds(p, key);
    var b := [Del(PermitKey(p.id))];
    assert b[1..] == [];
    var afterB := RunKey(b, key, entry, t);
    RunKeyAppend(b, ZRemAll(ActiveKeys(p), p.id), key, entry, t);
    RunZRemAll(ActiveKeys(p), p.id, key, afterB, t);
  }

  lemma {:induction false} FailureEffect(cfg: Settings, target: Target, id: Id, now: int, replies: seq<Reply>,
                                         key: Key, entry: Option<Entry>, t: int)
    ensures var cmds := Commands(cfg, Failure(target, id), now, replies);
            && RunKey(cmds, key, entry, t)
               == (if key == FailuresKey(target) then Some(AddedEntry(cfg, entry, key, id, now, t))
                   else if key == CooldownKey(target) && Trips(cfg, replies)
                     then Some(Entry(Str(Flag), Some(t + cfg.cooldown)))
                   else entry)
            && (TouchesKey(cmds, key, entry, t) <==>
                key == FailuresKey(target) || (key == CooldownKey(target) && Trips(cfg, replies)))
  {
    var failures := FailuresKey(target);
    var a := IndexCommands(failures, now - cfg.failureWindow, id, now, cfg.failureWindow);
    var b := if Trips(cfg, replies) then [SetEx(CooldownKey(target), Flag, cfg.cooldown)] else [];
    RunIndexCommands(failures, now - cfg.failureWindow, id, now, cfg.failureWindow, key, entry, t);
    RunKeyAppend(a, b, key, entry, t);
    assert b != [] ==> b[1..] == [];
  }

  /** The parts of the invariant that mention no key. */
  lemma {:induction false} LedgerStep(cfg: Settings, s: Server, cmds: seq<Command>, e: Event)
    requires ServerInv(cfg, s) && LegalEvent(cfg, s.history, e) && e.at == s.clock
    ensures var s' := CommitAll(s, cmds, e);
            && Legal(cfg, s'.history)
            && s'.history[|s'.history| - 1].at <= s'.clock
            && (forall key :: key in s'.touched ==>
                  s'.touched[key].order <= |s'.history| && s'.touched[key].at <= s'.clock)
  {
    Snoc(s.history, e);
  }

  lemma {:induction false} TripStep(h: seq<Event>, e: Event, key: Key)
    ensures LastTrip(h + [e], key)
         == if e.Failed? && e.tripped && CooldownKey(e.target) == key then Some(e.at) else LastTrip(h, key)
  {
    Snoc(h, e);
  }

  lemma {:induction false} FreshIsNoMember(cfg: Settings, h: seq<Event>, key: Key, id: Id)
    requires id !in Ids(h)
    ensures id !in Members(cfg, h, key) && id !in Held(cfg, h)
  {
    IdsCover(cfg, h, key);
  }

  ghost predicate TouchedBefore(s: Server, key: Key) {
    key in s.touched ==> s.touched[key].at <= s.clock
  }

  /** A key the queue leaves alone, whose members the event leaves alone, keeps its meaning. */
  lemma {:induction false} UntouchedKeeps(cfg: Settings, s: Server, cmds: seq<Command>, e: Event, key: Key)
    requires IsIndex(key) && RelIndex(cfg, s, key) && Members(cfg, s.history + [e], key) == Members(cfg, s.history, key)
    requires !TouchesKey(cmds, key, Live(s.store, key, s.clock), s.clock)
    ensures RelIndex(cfg, CommitAll(s, cmds, e), key)
  {
    AfterCommit(s, cmds, e, key);
  }

  /** A key that is pruned and given one new member keeps its meaning. */
  lemma {:induction false} AddedKeeps(cfg: Settings, s: Server, cmds: seq<Command>, e: Event, key: Key, id: Id,
                                      now: int)
    requires IsIndex(key) && RelIndex(cfg, s, key) && TouchedBefore(s, key) && now <= s.clock
    requires id !in Members(cfg, s.history, key)
    requires Members(cfg, s.history + [e], key)
          == Members(cfg, s.history, key)[id := now + Span(cfg, key) - Horizon(cfg, key)]
    requires TouchesKey(cmds, key, Live(s.store, key, s.clock), s.clock)
    requires RunKey(cmds, key, Live(s.store, key, s.clock), s.clock)
          == Some(AddedEntry(cfg, Live(s.store, key, s.clock), key, id, now, s.clock))
    ensures RelIndex(cfg, CommitAll(s, cmds, e), key)
  {
    hide Members, IndexOk, RunKey, TouchesKey, Pruned, Run, TouchedKeys;
    AfterCommit(s, cmds, e, key);
    AddKeepsIndex(Raw(s.store, key), s.clock, TouchedAt(s, key), Members(cfg, s.history, key),
                  Horizon(cfg, key), Span(cfg, key), Live(s.store, key, s.clock),
                  now, id, now + Span(cfg, key) - Horizon(cfg, key));
  }

  lemma {:induction false} AdmitIndex(cfg: Settings, s: Server, p: Permit, now: int, key: Key)
    requires IsIndex(key) && RelIndex(cfg, s, key) && TouchedBefore(s, key) && now <= s.clock
    requires Coherent(Held(cfg, s.history), Admitted(p, now, s.clock)) && p.id !in Members(cfg, s.history, key)
    ensures RelIndex(cfg, CommitAll(s, Commands(cfg, Acquire(p), now, []), Admitted(p, now, s.clock)), key)
  {
    hide RunKey, TouchesKey, Members, IndexOk, Occupied, ActiveKeys, RateKey, Run, TouchedKeys, AddedEntry;
    var e, cmds := Admitted(p, now, s.clock), Commands(cfg, Acquire(p), now, []);
    AcquireEffect(cfg, p, now, key, Live(s.store, key, s.clock), s.clock);
    MembersStep(cfg, s.history, e, key);
    if key in Occupied(p) {
      AddedKeeps(cfg, s, cmds, e, key, p.id, now);
    } else {
      UntouchedKeeps(cfg, s, cmds, e, key);
    }
  }

  lemma AdmitPermit(cfg: Settings, s: Server, p: Permit, now: int, id: Id)
    requires Admissible(p) && now <= s.clock && RelPermit(cfg, s, id)
    ensures RelPermit(cfg, CommitAll(s, Commands(cfg, Acquire(p), now, []), Admitted(p, now, s.clock)), id)
  {
    var e, cmds := Admitted(p, now, s.clock), Commands(cfg, Acquire(p), now, []);
    var key := PermitKey(id);
    AcquireEffect(cfg, p, now, key, Live(s.store, key, s.clock), s.clock);
    AfterCommit(s, cmds, e, key);
    OccupiedKinds(p, key);
    RecordsStep(cfg, s.history, e, key);
  }

  lemma AdmitCooldown(cfg: Settings, s: Server, p: Permit, now: int, key: Key)
    requires Admissible(p) && key.Cooldown? && RelCooldown(cfg, s, key)
    ensures RelCooldown(cfg, CommitAll(s, Commands(cfg, Acquire(p), now, []), Admitted(p, now, s.clock)), key)
  {
    var e, cmds := Admitted(p, now, s.clock), Commands(cfg, Acquire(p), now, []);
    AcquireEffect(cfg, p, now, key, Live(s.store, key, s.clock), s.clock);
    AfterCommit(s, cmds, e, key);
    OccupiedKinds(p, key);
    TripStep(s.history, e, key);
  }

  lemma AdmitKeeps(cfg: Settings, s: Server, p: Permit, now: int)
    requires ServerInv(cfg, s) && LegalEvent(cfg, s.history, Admitted(p, now, s.clock))
    ensures ServerInv(cfg, CommitAll(s, Commands(cfg, Acquire(p), now, []), Admitted(p, now, s.clock)))
  {
    var e, cmds := Admitted(p, now, s.clock), Commands(cfg, Acquire(p), now, []);
    var s' := CommitAll(s, cmds, e);
    LedgerStep(cfg, s, cmds, e);
    LegalIsCoherent(cfg, s.history, e);
    forall key | IsIndex(key) ensures RelIndex(cfg, s', key) {
      FreshIsNoMember(cfg, s.history, key, p.id);
      AdmitIndex(cfg, s, p, now, key);
    }
    forall id ensures RelPermit(cfg, s', id) {
      AdmitPermit(cfg, s, p, now, id);
    }
    forall key: Key | key.Cooldown? ensures RelCooldown(cfg, s', key) {
      AdmitCooldown(cfg, s, p, now, key);
    }
  }

  lemma {:induction false} ReleaseIndex(cfg: Settings, s: Server, p: Permit, now: int, replies: seq<Reply>, key: Key)
    requires IsIndex(key) && RelIndex(cfg, s, key) && TouchedBefore(s, key)
    requires Coherent(Held(cfg, s.history), Released(p, s.clock))
    ensures RelIndex(cfg, CommitAll(s, Commands(cfg, Release(p), now, replies), Released(p, s.clock)), key)
  {
    hide RunKey, TouchesKey, Members, IndexOk, Occupied, ActiveKeys, RateKey, Run, TouchedKeys;
    var e, cmds := Released(p, s.clock), Commands(cfg, Release(p), now, replies);
    var live := Live(s.store, key, s.clock);
    ReleaseEffect(cfg, p, key, live, s.clock, now, replies);
    MembersStep(cfg, s.history, e, key);
    var m, hz, span := Members(cfg, s.history, key), Horizon(cfg, key), Span(cfg, key);
    if key !in ActiveKeys(p) {
      UntouchedKeeps(cfg, s, cmds, e, key);
    } else {
      AfterCommit(s, cmds, e, key);
      if Touches(ZRem(key, p.id), live) {
        RemoveKeepsIndex(Raw(s.store, key), s.clock, TouchedAt(s, key), m, hz, span, live.value, p.id);
      } else {
        ForgetKeepsIndex(Raw(s.store, key), s.clock, TouchedAt(s, key), m, hz, span, p.id);
      }
    }
  }

  lemma ReleasePermit(cfg: Settings, s: Server, p: Permit, now: int, replies: seq<Reply>, id: Id)
    requires Admissible(p) && RelPermit(cfg, s, id) && Live(s.store, PermitKey(p.id), s.clock).Some?
    ensures RelPermit(cfg, CommitAll(s, Commands(cfg, Release(p), now, replies), Released(p, s.clock)), id)
  {
    var e, cmds := Released(p, s.clock), Commands(cfg, Release(p), now, replies);
    var key := PermitKey(id);
    ReleaseEffect(cfg, p, key, Live(s.store, key, s.clock), s.clock, now, replies);
    AfterCommit(s, cmds, e, key);
    OccupiedKinds(p, key);
    RecordsStep(cfg, s.history, e, key);
  }

  lemma ReleaseCooldown(cfg: Settings, s: Server, p: Permit, now: int, replies: seq<Reply>, key: Key)
    requires Admissible(p) && key.Cooldown? && RelCooldown(cfg, s, key)
    ensures RelCooldown(cfg, CommitAll(s, Commands(cfg, Release(p), now, replies), Released(p, s.clock)), key)
  {
    var e, cmds := Released(p, s.clock), Commands(cfg, Release(p), now, replies);
    ReleaseEffect(cfg, p, key, Live(s.store, key, s.clock), s.clock, now, replies);
    AfterCommit(s, cmds, e, key);
    OccupiedKinds(p, key);
    TripStep(s.history, e, key);
  }

  lemma ReleaseKeeps(cfg: Settings, s: Server, p: Permit, now: int, replies: seq<Reply>)
    requires ServerInv(cfg, s) && LegalEvent(cfg, s.history, Released(p, s.clock))
    requires Live(s.store, PermitKey(p.id), s.clock).Some?
    ensures Admissible(p)
    ensures ServerInv(cfg, CommitAll(s, Commands(cfg, Release(p), now, replies), Released(p, s.clock)))
  {
    var e := Released(p, s.clock);
    LegalIsCoherent(cfg, s.history, e);
    var cmds := Commands(cfg, Release(p), now, replies);
    var s' := CommitAll(s, cmds, e);
    LedgerStep(cfg, s, cmds, e);
    forall key | IsIndex(key) ensures RelIndex(cfg, s', key) {
      ReleaseIndex(cfg, s, p, now, replies, key);
    }
    forall id ensures RelPermit(cfg, s', id) {
      ReleasePermit(cfg, s, p, now, replies, id);
    }
    forall key: Key | key.Cooldown? ensures RelCooldown(cfg, s', key) {
      ReleaseCooldown(cfg, s, p, now, replies, key);
    }
  }

  lemma FailureIndex(cfg: Settings, s: Server, target: Target, id: Id, now: int, replies: seq<Reply>, key: Key)
    requires IsIndex(key) && RelIndex(cfg, s, key) && TouchedBefore(s, key) && now <= s.clock
    requires id !in Members(cfg, s.history, key)
    ensures RelIndex(cfg, CommitAll(s, Commands(cfg, Failure(target, id), now, replies),
                                    EventOf(cfg, Failure(target, id), now, s.clock, replies)), key)
  {
    var e := EventOf(cfg, Failure(target, id), now, s.clock, replies);
    var cmds := Commands(cfg, Failure(target, id), now, replies);
    FailureEffect(cfg, target, id, now, replies, key, Live(s.store, key, s.clock), s.clock);
    MembersStep(cfg, s.history, e, key);
    if key == FailuresKey(target) {
      AddedKeeps(cfg, s, cmds, e, key, id, now);
    } else {
      UntouchedKeeps(cfg, s, cmds, e, key);
    }
  }

  lemma FailurePermit(cfg: Settings, s: Server, target: Target, id: Id, now: int, replies: seq<Reply>, other: Id)
    requires RelPermit(cfg, s, other)
    ensures RelPermit(cfg, CommitAll(s, Commands(cfg, Failure(target, id), now, replies),
                                     EventOf(cfg, Failure(target, id), now, s.clock, replies)), other)
  {
    var e := EventOf(cfg, Failure(target, id), now, s.clock, replies);
    var key := PermitKey(other);
    FailureEffect(cfg, target, id, now, replies, key, Live(s.store, key, s.clock), s.clock);
    AfterCommit(s, Commands(cfg, Failure(target, id), now, replies), e, key);
    RecordsStep(cfg, s.history, e, key);
  }

  lemma FailureCooldown(cfg: Settings, s: Server, target: Target, id: Id, now: int, replies: seq<Reply>, key: Key)
    requires key.Cooldown? && RelCooldown(cfg, s, key)
    ensures RelCooldown(cfg, CommitAll(s, Commands(cfg, Failure(target, id), now, replies),
                                       EventOf(cfg, Failure(target, id), now, s.clock, replies)), key)
  {
    var e := EventOf(cfg, Failure(target, id), now, s.clock, replies);
    FailureEffect(cfg, target, id, now, replies, key, Live(s.store, key, s.clock), s.clock);
    AfterCommit(s, Commands(cfg, Failure(target, id), now, replies), e, key);
    TripStep(s.history, e, key);
  }

  lemma FailureKeeps(cfg: Settings, s: Server, target: Target, id: Id, now: int, replies: seq<Reply>)
    requires ServerInv(cfg, s)
    requires LegalEvent(cfg, s.history, EventOf(cfg, Failure(target, id), now, s.clock, replies))
    ensures ServerInv(cfg, CommitAll(s, Commands(cfg, Failure(target, id), now, replies),
                                     EventOf(cfg, Failure(target, id), now, s.clock, replies)))
  {
    var e := EventOf(cfg, Failure(target, id), now, s.clock, replies);
    var cmds := Commands(cfg, Failure(target, id), now, replies);
    var s' := CommitAll(s, cmds, e);
    LedgerStep(cfg, s, cmds, e);
    forall key | IsIndex(key) ensures RelIndex(cfg, s', key) {
      FreshIsNoMember(cfg, s.history, key, id);
      FailureIndex(cfg, s, target, id, now, replies, key);
    }
    forall other ensures RelPermit(cfg, s', other) {
      FailurePermit(cfg, s, target, id, now, replies, other);
    }
    forall key: Key | key.Cooldown? ensures RelCooldown(cfg, s', key) {
      FailureCooldown(cfg, s, target, id, now, replies, key);
    }
  }

  lemma {:induction false} SuccessEffect(target: Target, key: Key, entry: Option<Entry>, t: int)
    ensures var cmds := [Del(FailuresKey(target))];
            && RunKey(cmds, key, entry, t) == (if key == FailuresKey(target) then None else entry)
            && (TouchesKey(cmds, key, entry, t) <==> key == FailuresKey(target) && entry.Some?)
  {
    var cmds := [Del(FailuresKey(target))];
    assert cmds[1..] == [];
  }

  lemma SuccessIndex(cfg: Settings, s: Server, target: Target, key: Key)
    requires IsIndex(key) && RelIndex(cfg, s, key)
    ensures RelIndex(cfg, SucceedServer(s, target), key)
  {
    var e, cmds := Succeeded(target, s.clock), [Del(FailuresKey(target))];
    SuccessEffect(target, key, Live(s.store, key, s.clock), s.clock);
    MembersStep(cfg, s.history, e, key);
    AfterCommit(s, cmds, e, key);
  }

  lemma SuccessKeeps(cfg: Settings, s: Server, target: Target)
    requires ServerInv(cfg, s)
    ensures ServerInv(cfg, SucceedServer(s, target))
  {
    var e, cmds := Succeeded(target, s.clock), [Del(FailuresKey(target))];
    var s' := CommitAll(s, cmds, e);
    LedgerStep(cfg, s, cmds, e);
    RecordsStep(cfg, s.history, e, GlobalActive);
    forall key | IsIndex(key) ensures RelIndex(cfg, s', key) {
      SuccessIndex(cfg, s, target, key);
    }
    forall id ensures RelPermit(cfg, s', id) {
      SuccessEffect(target, PermitKey(id), Live(s.store, PermitKey(id), s.clock), s.clock);
      AfterCommit(s, cmds, e, PermitKey(id));
      assert RelPermit(cfg, s, id);
    }
    forall key: Key | key.Cooldown? ensures RelCooldown(cfg, s', key) {
      SuccessEffect(target, key, Live(s.store, key, s.clock), s.clock);
      AfterCommit(s, cmds, e, key);
      TripStep(s.history, e, key);
      assert RelCooldown(cfg, s, key);
    }
  }
}
