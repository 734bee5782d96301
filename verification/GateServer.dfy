/** The relation between the Redis state and the committed history, and how each kind of commit keeps it. */
module GateServer {
  import opened Wrappers
  import opened GateTypes
  import opened RedisStore
  import opened GateHistory
  import opened GateProtocol

  /** A stored sorted set stands for the members `m`: what is visible is genuine, and a member that
      is missing had stopped mattering by the last time the key was modified. */
  ghost predicate IndexOk(raw: Option<Entry>, clock: int, touched: Option<int>, m: map<Id, int>, hz: nat, span: nat) {
    && (m != map[] ==> touched.Some?)
    && (forall id :: id in m ==> m[id] + hz <= touched.value + span)
    && (raw.Some? && (raw.value.expireAt.None? || clock <= raw.value.expireAt.value) ==>
          && raw.value.value.ZSet? && raw.value.expireAt.Some?
          && forall id :: id in raw.value.value.scores ==> id in m && raw.value.value.scores[id] == m[id])
    && (forall id :: id in m ==>
          || m[id] + hz <= touched.value
          || (&& raw.Some? && raw.value.value.ZSet? && raw.value.expireAt.Some?
              && id in raw.value.value.scores && raw.value.value.scores[id] == m[id]
              && m[id] + hz <= raw.value.expireAt.value))
  }

  function TouchedAt(s: Server, key: Key): Option<int> {
    if key in s.touched then Some(s.touched[key].at) else None
  }

  ghost predicate RelIndex(cfg: Settings, s: Server, key: Key) {
    IndexOk(Raw(s.store, key), s.clock, TouchedAt(s, key),
            Members(cfg, s.history, key), Horizon(cfg, key), Span(cfg, key))
  }

  /** A permit key exists exactly while its permit is held, carries its fingerprint, and outlives its lease. */
  ghost predicate RelPermit(cfg: Settings, s: Server, id: Id) {
    var raw := Raw(s.store, PermitKey(id));
    var held := Held(cfg, s.history);
    && (raw.Some? <==> id in held)
    && (id in held ==>
          && raw.value.value == Str(FingerprintOf(held[id].permit))
          && raw.value.expireAt.Some? && held[id].expiry <= raw.value.expireAt.value)
  }

  ghost predicate RelCooldown(cfg: Settings, s: Server, key: Key) {
    Raw(s.store, key) == match LastTrip(s.history, key)
                         case Some(at) => Some(Entry(Str(Flag), Some(at + cfg.cooldown)))
                         case None => None
  }

  /** Everything the gate keeps in Redis means what the history says. */
  ghost predicate ServerInv(cfg: Settings, s: Server) {
    && Legal(cfg, s.history)
    && (s.history != [] ==> s.history[|s.history| - 1].at <= s.clock)
    && (forall key :: key in s.touched ==> s.touched[key].order <= |s.history| && s.touched[key].at <= s.clock)
    && (forall key :: IsIndex(key) ==> RelIndex(cfg, s, key))
    && (forall id :: RelPermit(cfg, s, id))
    && (forall key: Key :: key.Cooldown? ==> RelCooldown(cfg, s, key))
  }

  // ---- What a queue does to one key ----

  function Pruned(entry: Option<Entry>, upTo: int): map<Id, int> {
    if entry.None? then map[]
    else
      var z := Scores(entry.value.value);
      map id | id in z && z[id] > upTo :: z[id]
  }

  lemma {:induction false} RunOne(cmd: Command, key: Key, entry: Option<Entry>, t: int)
    ensures RunKey([cmd], key, entry, t) == if cmd.key == key then ApplyEntry(cmd, entry, t) else entry
    ensures TouchesKey([cmd], key, entry, t) <==> cmd.key == key && Touches(cmd, entry)
  {
    assert [cmd][1..] == [];
  }

  lemma PruneEntry(key: Key, entry: Option<Entry>, upTo: int, t: int)
    ensures var e := ApplyEntry(ZRemRange(key, upTo), entry, t);
            Pruned(entry, upTo) == if e.None? then map[] else Scores(e.value.value)
  {
    if entry.Some? {
      var z := Scores(entry.value.value);
      if !(exists other :: other in z && z[other] <= upTo) {
        assert Pruned(entry, upTo) == z;
      }
    }
  }

  lemma {:induction false} RunIndexCommands(at: Key, upTo: int, id: Id, score: int, span: nat, key: Key,
                                            entry: Option<Entry>, t: int)
    ensures RunKey(IndexCommands(at, upTo, id, score, span), key, entry, t)
         == if key == at then Some(Entry(ZSet(Pruned(entry, upTo)[id := score]), Some(t + span))) else entry
    ensures TouchesKey(IndexCommands(at, upTo, id, score, span), key, entry, t) <==> key == at
  {
    var prune, add, push := ZRemRange(at, upTo), ZAdd(at, id, score), Expire(at, span);
    assert IndexCommands(at, upTo, id, score, span) == [prune] + ([add] + [push]);
    RunKeyAppend([prune], [add] + [push], key, entry, t);
    var e1 := RunKey([prune], key, entry, t);
    RunKeyAppend([add], [push], key, e1, t);
    RunOne(prune, key, entry, t);
    RunOne(add, key, e1, t);
    RunOne(push, key, RunKey([add], key, e1, t), t);
    PruneEntry(at, entry, upTo, t);
  }

  ghost predicate Distinct(keys: seq<Key>) {
    forall i, j :: 0 <= i < j < |keys| ==> keys[i] != keys[j]
  }

  lemma {:induction false} RunActiveCommands(cfg: Settings, keys: seq<Key>, id: Id, now: int, key: Key,
                                             entry: Option<Entry>, t: int)
    requires Distinct(keys)
    ensures RunKey(ActiveCommands(cfg, keys, id, now), key, entry, t)
         == if key in keys
            then Some(Entry(ZSet(Pruned(entry, now)[id := now + cfg.permitTtl]), Some(t + cfg.permitTtl)))
            else entry
    ensures TouchesKey(ActiveCommands(cfg, keys, id, now), key, entry, t) <==> key in keys
  {
    if keys != [] {
      var first := IndexCommands(keys[0], now, id, now + cfg.permitTtl, cfg.permitTtl);
      RunIndexCommands(keys[0], now, id, now + cfg.permitTtl, cfg.permitTtl, key, entry, t);
      var mid := RunKey(first, key, entry, t);
      RunKeyAppend(first, ActiveCommands(cfg, keys[1..], id, now), key, entry, t);
      RunActiveCommands(cfg, keys[1..], id, now, key, mid, t);
      assert key in keys <==> key == keys[0] || key in keys[1..];
    }
  }

  lemma {:induction false} RunZRemAll(keys: seq<Key>, id: Id, key: Key, entry: Option<Entry>, t: int)
    requires Distinct(keys)
    ensures RunKey(ZRemAll(keys, id), key, entry, t)
         == if key in keys then ApplyEntry(ZRem(key, id), entry, t) else entry
    ensures TouchesKey(ZRemAll(keys, id), key, entry, t) <==> key in keys && Touches(ZRem(key, id), entry)
  {
    if keys != [] {
      var mid := if keys[0] == key then ApplyEntry(ZRem(key, id), entry, t) else entry;
      assert ZRemAll(keys, id)[1..] == ZRemAll(keys[1..], id);
      RunZRemAll(keys[1..], id, key, mid, t);
      assert key in keys <==> key == keys[0] || key in keys[1..];
    }
  }

  /** What a commit leaves under one key, read off its queue. */
  lemma {:induction false} AfterCommit(s: Server, cmds: seq<Command>, e: Event, key: Key)
    ensures var live, s' := Live(s.store, key, s.clock), CommitAll(s, cmds, e);
            if TouchesKey(cmds, key, live, s.clock) then
              && key in s'.touched && s'.touched[key] == Touch(|s.history| + 1, s.clock)
              && (RunKey(cmds, key, live, s.clock).Some? ==> Raw(s'.store, key) == RunKey(cmds, key, live, s.clock))
              && (RunKey(cmds, key, live, s.clock).None? && live.Some? ==> Raw(s'.store, key) == None)
            else
              && Raw(s'.store, key) == Raw(s.store, key)
              && (key in s'.touched <==> key in s.touched)
              && (key in s.touched ==> s'.touched[key] == s.touched[key])
  {
    RunLookup(cmds, s.store, key, s.clock);
  }

  // ---- How each effect keeps the meaning of one sorted set ----

  lemma AddKeepsIndex(raw: Option<Entry>, clock: int, touched: Option<int>, m: map<Id, int>, hz: nat, span: nat,
                      live: Option<Entry>, now: int, id: Id, score: int)
    requires IndexOk(raw, clock, touched, m, hz, span)
    requires live == if raw.Some? && (raw.value.expireAt.None? || clock <= raw.value.expireAt.value) then raw else None
    requires now <= clock && id !in m && score + hz == now + span && (touched.Some? ==> touched.value <= clock)
    ensures IndexOk(Some(Entry(ZSet(Pruned(live, now - hz)[id := score]), Some(clock + span))),
                    clock, Some(clock), m[id := score], hz, span)
  {
  }

  lemma RemoveKeepsIndex(raw: Option<Entry>, clock: int, touched: Option<int>, m: map<Id, int>, hz: nat, span: nat,
                         entry: Entry, id: Id)
    requires IndexOk(raw, clock, touched, m, hz, span)
    requires raw == Some(entry) && (entry.expireAt.None? || clock <= entry.expireAt.value)
    requires id in Scores(entry.value) && (touched.Some? ==> touched.value <= clock)
    ensures IndexOk(KeepScores(entry, Scores(entry.value) - {id}), clock, Some(clock), m - {id}, hz, span)
  {
    var left := Scores(entry.value) - {id};
    assert forall other :: other in Scores(entry.value) && other != id ==> other in left;
  }

  lemma ForgetKeepsIndex(raw: Option<Entry>, clock: int, touched: Option<int>, m: map<Id, int>, hz: nat, span: nat,
                         id: Id)
    requires IndexOk(raw, clock, touched, m, hz, span)
    requires raw.Some? && (raw.value.expireAt.None? || clock <= raw.value.expireAt.value) ==> id !in Scores(raw.value.value)
    ensures IndexOk(raw, clock, touched, m - {id}, hz, span)
  {
  }
}
