/** Every interleaving of the protocol refines the reference specification: whatever the clients do,
    the history stays legal, and Redis holds what running the committed operations one by one leaves. */
module GateRefinement {
  import opened Wrappers
  import opened GateTypes
  import opened RedisStore
  import opened GateHistory
  import opened GateProtocol
  import opened GateServer
  import opened GateCommits

  /** The queue a committed operation runs, read off the event alone. */
  function CommandsOf(cfg: Settings, e: Event): seq<Command> {
    match e
    case Admitted(p, now, _) => if Admissible(p) then Commands(cfg, Acquire(p), now, []) else []
    case Released(p, _) => if Admissible(p) then Commands(cfg, Release(p), 0, []) else []
    case Failed(target, id, now, _, tripped) =>
      Commands(cfg, Failure(target, id), now, if tripped then [Number(cfg.failureLimit)] else [])
    case Succeeded(target, _) => [Del(FailuresKey(target))]
  }

  /** The Redis state after running the committed operations one at a time, in commit order. */
  ghost function SerialStore(cfg: Settings, h: seq<Event>): Store {
    if h == [] then map[]
    else Run(CommandsOf(cfg, h[|h| - 1]), SerialStore(cfg, h[..|h| - 1]), h[|h| - 1].at)
  }

  /** Running the operations one by one, the o-th of them modifies the key. */
  ghost predicate Modifies(cfg: Settings, h: seq<Event>, o: nat, key: Key) {
    && 1 <= o <= |h|
    && key in TouchedKeys(CommandsOf(cfg, h[o - 1]), SerialStore(cfg, h[..o - 1]), h[o - 1].at)
  }

  ghost predicate TouchesAreReal(cfg: Settings, s: Server) {
    forall key :: key in s.touched ==> Modifies(cfg, s.history, s.touched[key].order, key)
  }

  /** Since its last modification a key has held the same entry. */
  ghost predicate EntriesStay(cfg: Settings, s: Server) {
    forall key, n: nat :: n <= |s.history| && (key in s.touched ==> s.touched[key].order <= n) ==>
      Raw(SerialStore(cfg, s.history[..n]), key) == Raw(s.store, key)
  }

  /** A key is never older than the last operation that added to it. */
  ghost predicate TouchesAreOrdered(s: Server) {
    forall i, key :: 0 <= i < |s.history| && AddsTo(s.history[i], key) ==>
      key in s.touched && s.history[i].at <= s.touched[key].at
  }

  // ---- What a transaction watches ----

  function KeyRead(read: Read): Key {
    match read
    case Get(key) => key
    case Count(key, _) => key
  }

  ghost predicate IsRead(cfg: Settings, call: Call, now: int, key: Key)
    requires WellFormed(call)
  {
    exists i :: 0 <= i < |Reads(cfg, call, now)| && KeyRead(Reads(cfg, call, now)[i]) == key
  }

  /** Whatever the replies, some command of the queue may be about the key. */
  ghost predicate IsQueued(cfg: Settings, call: Call, now: int, key: Key)
    requires WellFormed(call)
  {
    exists replies :: key in KeysOf(Commands(cfg, call, now, replies))
  }

  /** A transaction watches exactly the keys it reads and those it may modify. */
  lemma {:induction false} WatchesWhatItUses(cfg: Settings, call: Call, now: int, key: Key)
    requires WellFormed(call)
    ensures key in WatchedKeys(call) <==> IsRead(cfg, call, now, key) || IsQueued(cfg, call, now, key)
  {
    match call
    case Acquire(p) => AcquireUses(cfg, p, now, key);
    case Release(p) => ReleaseUses(cfg, p, now, key);
    case Failure(target, id) => FailureUses(cfg, target, id, now, key);
  }

  lemma {:induction false} KeysAppend(a: seq<Command>, b: seq<Command>)
    ensures KeysOf(a + b) == KeysOf(a) + KeysOf(b)
  {
    forall i | 0 <= i < |a| ensures a[i].key in KeysOf(a + b) {
      assert (a + b)[i] == a[i];
    }
    forall i | 0 <= i < |b| ensures b[i].key in KeysOf(a + b) {
      assert (a + b)[|a| + i] == b[i];
    }
  }

  lemma {:induction false} ActiveCommandKeys(cfg: Settings, keys: seq<Key>, id: Id, now: int)
    ensures forall key :: key in KeysOf(ActiveCommands(cfg, keys, id, now)) <==> key in keys
    ensures forall key :: key in KeysOf(ZRemAll(keys, id)) <==> key in keys
  {
    if keys != [] {
      var first, span := IndexCommands(keys[0], now, id, now + cfg.permitTtl, cfg.permitTtl), cfg.permitTtl;
      ActiveCommandKeys(cfg, keys[1..], id, now);
      KeysAppend(first, ActiveCommands(cfg, keys[1..], id, now));
      KeysAppend([ZRem(keys[0], id)], ZRemAll(keys[1..], id));
      IndexCommandKeys(keys[0], now, id, now + span, span);
      OneKey(ZRem(keys[0], id));
    }
  }

  lemma {:induction false} OneKey(cmd: Command)
    ensures KeysOf([cmd]) == {cmd.key}
  {
    assert [cmd][0] == cmd;
  }

  lemma {:induction false} IndexCommandKeys(key: Key, upTo: int, id: Id, score: int, span: nat)
    ensures KeysOf(IndexCommands(key, upTo, id, score, span)) == {key}
  {
    var cmds := IndexCommands(key, upTo, id, score, span);
    assert cmds[0].key == key;
  }

  lemma {:induction false} AcquireUses(cfg: Settings, p: Permit, now: int, key: Key)
    requires Admissible(p)
    ensures key in WatchedKeys(Acquire(p)) <==> IsRead(cfg, Acquire(p), now, key) || IsQueued(cfg, Acquire(p), now, key)
  {
    var queries := Reads(cfg, Acquire(p), now);
    AcquireQueues(cfg, p, now);
    assert forall replies :: Commands(cfg, Acquire(p), now, replies) == Commands(cfg, Acquire(p), now, []);
    if key == CooldownKey(p.target) {
      assert KeyRead(queries[0]) == key;
    }
    if i :| 0 <= i < |queries| && KeyRead(queries[i]) == key {
      if queries[i].Count? {
        assert key in Occupied(p);
      }
    }
  }

  lemma {:induction false} AcquireQueues(cfg: Settings, p: Permit, now: int)
    requires Admissible(p)
    ensures forall key ::
              key in KeysOf(Commands(cfg, Acquire(p), now, [])) <==> key == PermitKey(p.id) || key in Occupied(p)
  {
    var rate, permit := RateCommands(cfg, p, now), [SetEx(PermitKey(p.id), FingerprintOf(p), cfg.permitTtl)];
    var active := ActiveCommands(cfg, ActiveKeys(p), p.id, now);
    KeysAppend(rate + permit, active);
    KeysAppend(rate, permit);
    OneKey(permit[0]);
    ActiveCommandKeys(cfg, ActiveKeys(p), p.id, now);
    if RateKey(p).Some? {
      IndexCommandKeys(RateKey(p).value, now - cfg.rateWindow, p.id, now, cfg.rateWindow);
    }
  }

  lemma {:induction false} ReleaseUses(cfg: Settings, p: Permit, now: int, key: Key)
    requires Admissible(p)
    ensures key in WatchedKeys(Release(p)) <==> IsRead(cfg, Release(p), now, key) || IsQueued(cfg, Release(p), now, key)
  {
    var cmds := Commands(cfg, Release(p), now, []);
    assert forall replies :: Commands(cfg, Release(p), now, replies) == cmds;
    KeysAppend([Del(PermitKey(p.id))], ZRemAll(ActiveKeys(p), p.id));
    OneKey(Del(PermitKey(p.id)));
    ActiveCommandKeys(cfg, ActiveKeys(p), p.id, now);
    assert Reads(cfg, Release(p), now) == [Get(PermitKey(p.id))];
  }

  lemma {:induction false} FailureUses(cfg: Settings, target: Target, id: Id, now: int, key: Key)
    ensures var call := Failure(target, id);
            key in WatchedKeys(call) <==> IsRead(cfg, call, now, key) || IsQueued(cfg, call, now, key)
  {
    var call := Failure(target, id);
    var index := IndexCommands(FailuresKey(target), now - cfg.failureWindow, id, now, cfg.failureWindow);
    var trip := [SetEx(CooldownKey(target), Flag, cfg.cooldown)];
    IndexCommandKeys(FailuresKey(target), now - cfg.failureWindow, id, now, cfg.failureWindow);
    OneKey(trip[0]);
    KeysAppend(index, trip);
    KeysAppend(index, []);
    assert index + [] == index;
    var tripping := [Number(cfg.failureLimit)];
    assert Commands(cfg, call, now, tripping) == index + trip;
    assert forall replies ::
        Commands(cfg, call, now, replies) == index + trip || Commands(cfg, call, now, replies) == index;
    assert KeyRead(Reads(cfg, call, now)[0]) == FailuresKey(target);
  }

  // ---- What one client knows ----

  ghost predicate Settled(s: Server, since: nat, from: int) {
    && since <= |s.history| && from <= s.clock
    && forall key :: key in s.touched && s.touched[key].order <= since ==> s.touched[key].at <= from
  }

  predicate ExpiresAt(store: Store, key: Key, at: int) {
    key in store && store[key].expireAt == Some(at)
  }

  /** An abort is charged to something that happened to a watched key between its own WATCH and EXEC: a commit that
      modified the key, or the expiry of a key that was alive at WATCH and stayed unmodified until EXEC. */
  ghost predicate AbortOk(cfg: Settings, s: Server, call: Call, a: Abort) {
    && WellFormed(call) && a.since <= a.until <= |s.history|
    && match a.blame
       case Commit(o) =>
         && a.since < o <= a.until
         && exists i :: 0 <= i < |WatchedKeys(call)| && Modifies(cfg, s.history, o, WatchedKeys(call)[i])
       case Expiry(key, at) =>
         && key in WatchedKeys(call) && a.from <= at < a.end
         && ExpiresAt(SerialStore(cfg, s.history[..a.since]), key, at)
         && ExpiresAt(SerialStore(cfg, s.history[..a.until]), key, at)
  }

  /** The attempts of a call follow one another, from its beginning up to now. */
  ghost predicate AbortsOk(cfg: Settings, s: Server, c: Client, order: nat, time: int) {
    && c.begun <= order && c.started <= time
    && (forall i :: 0 <= i < |c.aborts| ==>
          && AbortOk(cfg, s, c.call, c.aborts[i])
          && c.begun <= c.aborts[i].since && c.started <= c.aborts[i].from
          && c.aborts[i].until <= order && c.aborts[i].end <= time)
    && (forall i, j :: 0 <= i < j < |c.aborts| ==>
          c.aborts[i].until <= c.aborts[j].since && c.aborts[i].end <= c.aborts[j].from)
  }

  ghost predicate RepliesOk(cfg: Settings, s: Server, call: Call, since: nat, from: int, now: int, replies: seq<Reply>)
    requires WellFormed(call)
  {
    var queries := Reads(cfg, call, now);
    && |replies| <= |queries|
    && (forall i :: 0 <= i < |replies| ==> Refusal(cfg, call, queries[i], replies[i]).None?)
    && (!Dirty(s, WatchedKeys(call), since, from) ==>
          forall i :: 0 <= i < |replies| ==> replies[i] == Evaluate(queries[i], s.store, s.clock))
  }

  ghost predicate ClientInv(cfg: Settings, s: Server, c: Client) {
    match c.phase
    case Ready => WellFormed(c.call) && |c.aborts| < TRANSACTION_ATTEMPTS && AbortsOk(cfg, s, c, |s.history|, s.clock)
    case Watching(since, from) =>
      && WellFormed(c.call) && |c.aborts| < TRANSACTION_ATTEMPTS && AbortsOk(cfg, s, c, since, from)
      && Settled(s, since, from)
    case Reading(since, from, now, replies) =>
      && WellFormed(c.call) && |c.aborts| < TRANSACTION_ATTEMPTS && AbortsOk(cfg, s, c, since, from)
      && Settled(s, since, from) && from <= now <= s.clock
      && RepliesOk(cfg, s, c.call, since, from, now, replies)
    case Finished(outcome) =>
      && AbortsOk(cfg, s, c, |s.history|, s.clock) && |c.aborts| <= TRANSACTION_ATTEMPTS
      && (outcome == Raised(GateUnavailable) && WellFormed(c.call) ==> |c.aborts| == TRANSACTION_ATTEMPTS)
  }

  ghost predicate IdsInv(m: Machine) {
    && Ids(m.server.history) <= m.used
    && (forall c :: c in m.clients && !m.clients[c].phase.Finished? && FreshId(m.clients[c].call).Some? ==>
          FreshId(m.clients[c].call).value in m.used
          && FreshId(m.clients[c].call).value !in Ids(m.server.history))
    && (forall c, d :: c in m.clients && d in m.clients && c != d
                       && !m.clients[c].phase.Finished? && !m.clients[d].phase.Finished?
                       && FreshId(m.clients[c].call).Some? ==>
          FreshId(m.clients[c].call) != FreshId(m.clients[d].call))
  }

  ghost predicate ClientsInv(cfg: Settings, s: Server, clients: map<nat, Client>) {
    forall c :: c in clients ==> ClientInv(cfg, s, clients[c])
  }

  ghost predicate StateInv(cfg: Settings, s: Server) {
    && ServerInv(cfg, s) && TouchesAreReal(cfg, s) && TouchesAreOrdered(s) && EntriesStay(cfg, s)
    && s.store == SerialStore(cfg, s.history)
  }

  ghost predicate Inv(cfg: Settings, m: Machine) {
    && StateInv(cfg, m.server)
    && ClientsInv(cfg, m.server, m.clients)
    && IdsInv(m)
  }

  // ---- The server moving on never invalidates what a client knows ----

  /** What any other client or the passage of time can do to the server. */
  ghost predicate Advance(s: Server, s': Server) {
    && s.clock <= s'.clock
    && s.history <= s'.history
    && forall key ::
         || (key in s'.touched && s'.touched[key].order > |s.history| && s'.touched[key].at >= s.clock)
         || (&& Raw(s'.store, key) == Raw(s.store, key)
             && (key in s'.touched <==> key in s.touched)
             && (key in s.touched ==> s'.touched[key] == s.touched[key]))
  }

  lemma CleanStaysClean(s: Server, s': Server, key: Key, since: nat, from: int)
    requires Advance(s, s') && since <= |s.history| && from <= s.clock
    requires !DirtyKey(s', key, since, from)
    ensures !DirtyKey(s, key, since, from)
    ensures Live(s'.store, key, s'.clock) == Live(s.store, key, s.clock)
  {
    assert Raw(s'.store, key) == Raw(s.store, key);
  }

  lemma ReadsAreWatched(cfg: Settings, call: Call, now: int, i: nat)
    requires WellFormed(call) && i < |Reads(cfg, call, now)|
    ensures Reads(cfg, call, now)[i].key in WatchedKeys(call)
  {
  }

  lemma RepliesStay(cfg: Settings, s: Server, s': Server, call: Call, since: nat, from: int, now: int,
                    replies: seq<Reply>)
    requires WellFormed(call) && Advance(s, s') && since <= |s.history| && from <= s.clock
    requires RepliesOk(cfg, s, call, since, from, now, replies)
    ensures RepliesOk(cfg, s', call, since, from, now, replies)
  {
    var keys, queries := WatchedKeys(call), Reads(cfg, call, now);
    if !Dirty(s', keys, since, from) {
      forall i | 0 <= i < |keys|
        ensures !DirtyKey(s, keys[i], since, from)
                && Live(s'.store, keys[i], s'.clock) == Live(s.store, keys[i], s.clock)
      {
        CleanStaysClean(s, s', keys[i], since, from);
      }
      forall i | 0 <= i < |replies| ensures replies[i] == Evaluate(queries[i], s'.store, s'.clock) {
        ReadsAreWatched(cfg, call, now, i);
      }
    }
  }

  lemma {:induction false} ModifiesStays(cfg: Settings, h: seq<Event>, h': seq<Event>, o: nat, key: Key)
    requires Modifies(cfg, h, o, key) && h <= h'
    ensures Modifies(cfg, h', o, key)
  {
    hide CommandsOf, SerialStore, TouchedKeys;
    assert h'[..o - 1] == h[..o - 1];
  }

  lemma {:induction false} AbortStays(cfg: Settings, s: Server, s': Server, call: Call, a: Abort)
    requires AbortOk(cfg, s, call, a) && s.history <= s'.history
    ensures AbortOk(cfg, s', call, a)
  {
    hide Modifies, ExpiresAt, WatchedKeys, SerialStore;
    match a.blame
    case Commit(o) =>
      var i :| 0 <= i < |WatchedKeys(call)| && Modifies(cfg, s.history, o, WatchedKeys(call)[i]);
      ModifiesStays(cfg, s.history, s'.history, o, WatchedKeys(call)[i]);
    case Expiry(_, _) =>
      assert s'.history[..a.since] == s.history[..a.since] && s'.history[..a.until] == s.history[..a.until];
  }

  lemma {:induction false} AbortsStay(cfg: Settings, s: Server, s': Server, c: Client, order: nat, time: int,
                                      order': nat, time': int)
    requires AbortsOk(cfg, s, c, order, time) && s.history <= s'.history
    requires order <= order' <= |s'.history| && time <= time'
    ensures AbortsOk(cfg, s', c, order', time')
  {
    hide AbortOk;
    forall i | 0 <= i < |c.aborts| ensures AbortOk(cfg, s', c.call, c.aborts[i]) {
      AbortStays(cfg, s, s', c.call, c.aborts[i]);
    }
  }

  lemma SettledStays(s: Server, s': Server, since: nat, from: int)
    requires Advance(s, s') && Settled(s, since, from)
    ensures Settled(s', since, from)
  {
  }

  lemma ClientStays(cfg: Settings, s: Server, s': Server, c: Client)
    requires ClientInv(cfg, s, c) && Advance(s, s')
    ensures ClientInv(cfg, s', c)
  {
    match c.phase
    case Ready => AbortsStay(cfg, s, s', c, |s.history|, s.clock, |s'.history|, s'.clock);
    case Finished(_) => AbortsStay(cfg, s, s', c, |s.history|, s.clock, |s'.history|, s'.clock);
    case Watching(since, from) =>
      AbortsStay(cfg, s, s', c, since, from, since, from);
      SettledStays(s, s', since, from);
    case Reading(since, from, now, replies) =>
      AbortsStay(cfg, s, s', c, since, from, since, from);
      SettledStays(s, s', since, from);
      RepliesStay(cfg, s, s', c.call, since, from, now, replies);
  }

  lemma CommitAdvances(s: Server, cmds: seq<Command>, e: Event)
    ensures Advance(s, CommitAll(s, cmds, e))
  {
    forall key
      ensures var s' := CommitAll(s, cmds, e);
              || (key in s'.touched && s'.touched[key].order > |s.history| && s'.touched[key].at >= s.clock)
              || (&& Raw(s'.store, key) == Raw(s.store, key)
                  && (key in s'.touched <==> key in s.touched)
                  && (key in s.touched ==> s'.touched[key] == s.touched[key]))
    {
      AfterCommit(s, cmds, e, key);
    }
  }

  // ---- What a clean EXEC establishes ----

  lemma CleanOrder(cfg: Settings, s: Server, key: Key, since: nat, from: int, now: int)
    requires ServerInv(cfg, s) && TouchesAreOrdered(s) && IsIndex(key)
    requires Settled(s, since, from) && from <= now <= s.clock && !DirtyKey(s, key, since, from)
    ensures NoneLater(cfg, s.history, key, now) && InOrder(s.history, key, now)
  {
    hide Members, Horizon, Span, Legal, RelPermit, RelCooldown, Live;
    assert RelIndex(cfg, s, key);
  }

  /** A watched sorted set that is clean at EXEC counts exactly the members that matter at `now`. */
  lemma CleanCount(cfg: Settings, s: Server, key: Key, since: nat, from: int, now: int)
    requires ServerInv(cfg, s) && TouchesAreOrdered(s) && IsIndex(key)
    requires Settled(s, since, from) && from <= now <= s.clock && !DirtyKey(s, key, since, from)
    ensures var m, bound := Members(cfg, s.history, key), now - Horizon(cfg, key);
            ZCount(Live(s.store, key, s.clock), bound) == |Above(m, bound)|
    ensures NoneLater(cfg, s.history, key, now) && InOrder(s.history, key, now)
  {
    hide Members, Horizon, Span, Legal, RelPermit, RelCooldown;
    CleanOrder(cfg, s, key, since, from, now);
    assert RelIndex(cfg, s, key);
    var m, bound := Members(cfg, s.history, key), now - Horizon(cfg, key);
    var live := Live(s.store, key, s.clock);
    if live.None? {
      assert Above(m, bound) == {};
    } else {
      assert Above(Scores(live.value.value), bound) == Above(m, bound);
    }
  }

  lemma OccupiedIsCounted(cfg: Settings, p: Permit, now: int, key: Key) returns (i: nat)
    requires Admissible(p) && key in Occupied(p)
    ensures i < |Reads(cfg, Acquire(p), now)|
    ensures Reads(cfg, Acquire(p), now)[i] == Count(key, now - Horizon(cfg, key))
  {
    var queries := Reads(cfg, Acquire(p), now);
    var want := Count(key, now - Horizon(cfg, key));
    assert want in queries;
    i :| 0 <= i < |queries| && queries[i] == want;
  }

  lemma AcquireIsLegal(cfg: Settings, s: Server, p: Permit, since: nat, from: int, now: int, replies: seq<Reply>)
    requires ServerInv(cfg, s) && TouchesAreOrdered(s) && Admissible(p) && p.id !in Ids(s.history)
    requires Settled(s, since, from) && from <= now <= s.clock
    requires RepliesOk(cfg, s, Acquire(p), since, from, now, replies)
    requires |replies| == |Reads(cfg, Acquire(p), now)|
    requires !Dirty(s, WatchedKeys(Acquire(p)), since, from)
    ensures LegalEvent(cfg, s.history, Admitted(p, now, s.clock))
  {
    hide NoneLater, InOrder, Ids, RateKey, ActiveKeys, Legal, Members, RelPermit, RelIndex, Span, LastTrip;
    var call, keys := Acquire(p), WatchedKeys(Acquire(p));
    assert Reads(cfg, call, now)[0] == Get(CooldownKey(p.target));
    assert Refusal(cfg, call, Reads(cfg, call, now)[0], replies[0]).None?;
    assert RelCooldown(cfg, s, CooldownKey(p.target));
    forall key | key in Occupied(p)
      ensures HasRoom(cfg, s.history, key, now) && NoneLater(cfg, s.history, key, now) && InOrder(s.history, key, now)
    {
      OccupiedKinds(p, key);
      var i := OccupiedIsCounted(cfg, p, now, key);
      assert Refusal(cfg, call, Reads(cfg, call, now)[i], replies[i]).None?;
      assert key in keys;
      var j :| 0 <= j < |keys| && keys[j] == key;
      assert !DirtyKey(s, keys[j], since, from);
      CleanCount(cfg, s, key, since, from, now);
    }
  }

  lemma ReleaseIsLegal(cfg: Settings, s: Server, p: Permit, since: nat, from: int, now: int, replies: seq<Reply>)
    requires ServerInv(cfg, s) && Admissible(p)
    requires RepliesOk(cfg, s, Release(p), since, from, now, replies)
    requires |replies| == 1 && !NothingToDo(Release(p), replies)
    requires !Dirty(s, WatchedKeys(Release(p)), since, from)
    ensures LegalEvent(cfg, s.history, Released(p, s.clock))
    ensures Live(s.store, PermitKey(p.id), s.clock).Some?
  {
    assert replies[0] == Evaluate(Reads(cfg, Release(p), now)[0], s.store, s.clock);
    assert RelPermit(cfg, s, p.id);
    IdsCover(cfg, s.history, GlobalActive);
  }

  lemma FailureIsLegal(cfg: Settings, s: Server, target: Target, id: Id, since: nat, from: int, now: int,
                       replies: seq<Reply>)
    requires ServerInv(cfg, s) && TouchesAreOrdered(s) && id !in Ids(s.history)
    requires Settled(s, since, from) && from <= now <= s.clock
    requires RepliesOk(cfg, s, Failure(target, id), since, from, now, replies) && |replies| == 1
    requires !Dirty(s, WatchedKeys(Failure(target, id)), since, from)
    ensures LegalEvent(cfg, s.history, EventOf(cfg, Failure(target, id), now, s.clock, replies))
  {
    var keys := WatchedKeys(Failure(target, id));
    assert !DirtyKey(s, keys[0], since, from);
    CleanCount(cfg, s, FailuresKey(target), since, from, now);
    assert replies[0] == Evaluate(Reads(cfg, Failure(target, id), now)[0], s.store, s.clock);
  }
}
