/** The part of Redis the gate uses: keys with expiry, sorted sets, and queued commands.
    Expiry is a view that depends on the time of the lookup and is never a write. */
module RedisStore {
  import opened Wrappers
  import opened GateTypes

  datatype Text = Flag | Fingerprint(operation: Operation, target: Target)

  datatype Value = Str(text: Text) | ZSet(scores: map<Id, int>)

  datatype Entry = Entry(value: Value, expireAt: Option<int>)

  type Store = map<Key, Entry>

  datatype Command =
    | ZRemRange(key: Key, upTo: int)
    | ZAdd(key: Key, id: Id, score: int)
    | Expire(key: Key, seconds: nat)
    | SetEx(key: Key, text: Text, seconds: nat)
    | Del(key: Key)
    | ZRem(key: Key, id: Id)

  function Scores(value: Value): map<Id, int> {
    if value.ZSet? then value.scores else map[]
  }

  /** What a lookup at time `t` sees: a key is gone once `t` is past its expiry. */
  function Live(store: Store, key: Key, t: int): Option<Entry> {
    if key in store && (store[key].expireAt.None? || t <= store[key].expireAt.value)
    then Some(store[key]) else None
  }

  /** What is physically stored, expired or not. */
  function Raw(store: Store, key: Key): Option<Entry> {
    if key in store then Some(store[key]) else None
  }

  function Above(members: map<Id, int>, bound: int): set<Id> {
    set id | id in members && members[id] > bound
  }

  /** ZCOUNT key (bound +inf. */
  function ZCount(entry: Option<Entry>, bound: int): nat {
    if entry.None? then 0 else |Above(Scores(entry.value.value), bound)|
  }

  /** An emptied sorted set no longer exists as a key. */
  function KeepScores(entry: Entry, scores: map<Id, int>): Option<Entry> {
    if scores == map[] then None else Some(Entry(ZSet(scores), entry.expireAt))
  }

  function ApplyEntry(cmd: Command, entry: Option<Entry>, t: int): Option<Entry> {
    match cmd
    case ZRemRange(_, upTo) =>
      if entry.None? then None
      else
        var z := Scores(entry.value.value);
        if exists id :: id in z && z[id] <= upTo
        then KeepScores(entry.value, map id | id in z && z[id] > upTo :: z[id])
        else entry
    case ZAdd(_, id, score) =>
      if entry.None? then Some(Entry(ZSet(map[id := score]), None))
      else Some(Entry(ZSet(Scores(entry.value.value)[id := score]), entry.value.expireAt))
    case Expire(_, seconds) =>
      if entry.None? then None else Some(entry.value.(expireAt := Some(t + seconds)))
    case SetEx(_, text, seconds) => Some(Entry(Str(text), Some(t + seconds)))
    case Del(_) => None
    case ZRem(_, id) =>
      if entry.None? then None
      else if id in Scores(entry.value.value) then
        KeepScores(entry.value, Scores(entry.value.value) - {id})
      else entry
  }

  /** Whether Redis signals the key as modified, which is what dirties its watchers. */
  predicate Touches(cmd: Command, entry: Option<Entry>) {
    match cmd
    case ZRemRange(_, upTo) =>
      entry.Some? && exists id :: id in Scores(entry.value.value) && Scores(entry.value.value)[id] <= upTo
    case ZAdd(_, _, _) => true
    case Expire(_, _) => entry.Some?
    case SetEx(_, _, _) => true
    case Del(_) => entry.Some?
    case ZRem(_, id) => entry.Some? && id in Scores(entry.value.value)
  }

  function Apply(cmd: Command, store: Store, t: int): Store {
    var before := Live(store, cmd.key, t);
    match ApplyEntry(cmd, before, t)
    case Some(e) => store[cmd.key := e]
    case None => if before.None? then store else store - {cmd.key}
  }

  /** The queued commands of one EXEC, run in order at one instant. */
  function Run(cmds: seq<Command>, store: Store, t: int): Store {
    if cmds == [] then store else Run(cmds[1..], Apply(cmds[0], store, t), t)
  }

  /** The effect of a queue on one key, in terms of what a lookup of that key sees. */
  function RunKey(cmds: seq<Command>, key: Key, entry: Option<Entry>, t: int): Option<Entry> {
    if cmds == [] then entry
    else RunKey(cmds[1..], key, if cmds[0].key == key then ApplyEntry(cmds[0], entry, t) else entry, t)
  }

  predicate TouchesKey(cmds: seq<Command>, key: Key, entry: Option<Entry>, t: int) {
    cmds != [] &&
    if cmds[0].key == key
    then Touches(cmds[0], entry) || TouchesKey(cmds[1..], key, ApplyEntry(cmds[0], entry, t), t)
    else TouchesKey(cmds[1..], key, entry, t)
  }

  function KeysOf(cmds: seq<Command>): set<Key> {
    set i | 0 <= i < |cmds| :: cmds[i].key
  }

  /** The keys an EXEC marks as modified. */
  function TouchedKeys(cmds: seq<Command>, store: Store, t: int): set<Key> {
    set key | key in KeysOf(cmds) && TouchesKey(cmds, key, Live(store, key, t), t)
  }

  lemma ApplyLookup(cmd: Command, store: Store, key: Key, t: int)
    ensures Live(Apply(cmd, store, t), key, t)
         == if cmd.key == key then ApplyEntry(cmd, Live(store, key, t), t) else Live(store, key, t)
    ensures cmd.key != key || !Touches(cmd, Live(store, key, t)) ==>
              Raw(Apply(cmd, store, t), key) == Raw(store, key)
    ensures Live(Apply(cmd, store, t), key, t).None? && Raw(Apply(cmd, store, t), key).Some? ==>
              Live(store, key, t).None? && Raw(store, key).Some?
    ensures cmd.key == key && !Touches(cmd, Live(store, key, t)) ==>
              ApplyEntry(cmd, Live(store, key, t), t) == Live(store, key, t)
  {
  }

  /** Running a queue acts on every key separately, leaves an untouched key exactly as stored,
      and never leaves a key it emptied behind. */
  lemma {:induction false} RunLookup(cmds: seq<Command>, store: Store, key: Key, t: int)
    ensures Live(Run(cmds, store, t), key, t) == RunKey(cmds, key, Live(store, key, t), t)
    ensures !TouchesKey(cmds, key, Live(store, key, t), t) ==> Raw(Run(cmds, store, t), key) == Raw(store, key)
    ensures Live(Run(cmds, store, t), key, t).None? && Raw(Run(cmds, store, t), key).Some? ==>
              Live(store, key, t).None? && Raw(store, key).Some?
    ensures key in TouchedKeys(cmds, store, t) <==> TouchesKey(cmds, key, Live(store, key, t), t)
  {
    TouchNeedsKey(cmds, key, Live(store, key, t), t);
    if cmds != [] {
      var next := Apply(cmds[0], store, t);
      ApplyLookup(cmds[0], store, key, t);
      RunLookup(cmds[1..], next, key, t);
    }
  }

  lemma {:induction false} TouchNeedsKey(cmds: seq<Command>, key: Key, entry: Option<Entry>, t: int)
    ensures TouchesKey(cmds, key, entry, t) ==> key in KeysOf(cmds)
  {
    if cmds != [] {
      TouchNeedsKey(cmds[1..], key, entry, t);
      TouchNeedsKey(cmds[1..], key, ApplyEntry(cmds[0], entry, t), t);
      if key in KeysOf(cmds[1..]) {
        var i :| 0 <= i < |cmds[1..]| && cmds[1..][i].key == key;
        assert cmds[i + 1].key == key;
      }
      assert cmds[0].key in KeysOf(cmds);
    }
  }

  lemma {:induction false} RunKeyAppend(a: seq<Command>, b: seq<Command>, key: Key, entry: Option<Entry>, t: int)
    ensures RunKey(a + b, key, entry, t) == RunKey(b, key, RunKey(a, key, entry, t), t)
    ensures TouchesKey(a + b, key, entry, t)
        <==> TouchesKey(a, key, entry, t) || TouchesKey(b, key, RunKey(a, key, entry, t), t)
  {
    if a == [] {
      assert a + b == b;
    } else {
      assert (a + b)[1..] == a[1..] + b;
      RunKeyAppend(a[1..], b, key, entry, t);
      RunKeyAppend(a[1..], b, key, ApplyEntry(a[0], entry, t), t);
    }
  }
}
