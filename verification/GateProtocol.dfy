/** The protocol as the clients run it: WATCH, TIME, reads, MULTI/EXEC, at most eight attempts,
    one wire command per step, any interleaving of any number of clients, and a clock that advances. */
module GateProtocol {
  import opened Wrappers
  import opened GateTypes
  import opened RedisStore
  import opened GateHistory

  const TRANSACTION_ATTEMPTS: nat := 8

  /** The calls that go through the optimistic transaction. */
  datatype Call =
    | Acquire(permit: Permit)
    | Release(permit: Permit)
    | Failure(target: Target, id: Id)

  datatype Read = Get(key: Key) | Count(key: Key, bound: int)

  datatype Reply = Nil | TextReply(text: Text) | Number(n: nat)

  /** The last commit that modified a key: its position in the history and its instant. */
  datatype Touch = Touch(order: nat, at: int)

  datatype Server = Server(clock: int, store: Store, touched: map<Key, Touch>, history: seq<Event>)

  datatype Outcome = Returned | Raised(fault: Fault)

  /** What an aborted attempt is charged to: a commit of another client, or a watched key expiring. */
  datatype Blame = Commit(order: nat) | Expiry(key: Key, expireAt: int)

  /** An aborted attempt: how long the history was and what time it was at its WATCH and at its EXEC, and what it is
      charged to. */
  datatype Abort = Abort(since: nat, from: int, until: nat, end: int, blame: Blame)

  datatype Phase =
    | Ready
    | Watching(since: nat, from: int)
    | Reading(since: nat, from: int, now: int, replies: seq<Reply>)
    | Finished(outcome: Outcome)

  /** A client and its latest call, which began at this length of the history and this time. */
  datatype Client = Client(call: Call, begun: nat, started: int, aborts: seq<Abort>, phase: Phase)

  datatype Machine = Machine(server: Server, clients: map<nat, Client>, used: set<Id>)

  datatype Step =
    | Tick(delta: nat)
    | Begin(client: nat, call: Call)
    | Watch(client: nat)
    | Time(client: nat)
    | ReadNext(client: nat)
    | Exec(client: nat)
    | Succeed(target: Target)

  /** Calls the source refuses before it reaches Redis, for want of a device. */
  predicate WellFormed(call: Call) {
    call.Failure? || Admissible(call.permit)
  }

  /** The identifier a call invents with uuid4. */
  function FreshId(call: Call): Option<Id> {
    match call
    case Acquire(p) => Some(p.id)
    case Release(_) => None
    case Failure(_, id) => Some(id)
  }

  function WatchedKeys(call: Call): seq<Key>
    requires WellFormed(call)
  {
    match call
    case Acquire(p) => [CooldownKey(p.target), PermitKey(p.id)] + Occupied(p)
    case Release(p) => [PermitKey(p.id)] + ActiveKeys(p)
    case Failure(target, _) => [FailuresKey(target), CooldownKey(target)]
  }

  /** The reads of one attempt, in the order the source issues them. */
  function Reads(cfg: Settings, call: Call, now: int): seq<Read>
    requires WellFormed(call)
  {
    match call
    case Acquire(p) =>
      var device := p.target.device;
      [Get(CooldownKey(p.target))]
      + (if RateKey(p).Some? then [Count(RateKey(p).value, now - cfg.rateWindow)] else [])
      + [Count(GlobalActive, now)]
      + (if p.operation.Terminal? then
           [Count(TerminalActive, now), Count(TerminalDeviceActive(device.value), now)]
         else [])
      + (if device.Some? then [Count(DeviceActive(device.value), now)] else [])
    case Release(p) => [Get(PermitKey(p.id))]
    case Failure(target, _) => [Count(FailuresKey(target), now - cfg.failureWindow)]
  }

  function Evaluate(read: Read, store: Store, t: int): Reply {
    match read
    case Get(key) =>
      var e := Live(store, key, t);
      if e.Some? && e.value.value.Str? then TextReply(e.value.value.text) else Nil
    case Count(key, bound) => Number(ZCount(Live(store, key, t), bound))
  }

  /** The fault an admission raises on one reply, if any. */
  function Refusal(cfg: Settings, call: Call, read: Read, reply: Reply): Option<Fault> {
    if !call.Acquire? then None
    else match read
      case Get(_) => if reply != Nil then Some(AuthenticationRateLimited) else None
      case Count(key, _) =>
        if reply.Number? && reply.n >= Limit(cfg, key) then
          Some(if IsRate(key) then ConnectionRateLimited
               else if key.TerminalActive? || key.TerminalDeviceActive? then TerminalLimitReached
               else ConnectionLimitReached)
        else None
  }

  function FingerprintOf(p: Permit): Text {
    Fingerprint(p.operation, p.target)
  }

  /** Prune, add, and push out the expiry of one sorted set. */
  function IndexCommands(key: Key, upTo: int, id: Id, score: int, span: nat): seq<Command> {
    [ZRemRange(key, upTo), ZAdd(key, id, score), Expire(key, span)]
  }

  function RateCommands(cfg: Settings, p: Permit, now: int): seq<Command>
    requires Admissible(p)
  {
    if RateKey(p).None? then []
    else IndexCommands(RateKey(p).value, now - cfg.rateWindow, p.id, now, cfg.rateWindow)
  }

  function ActiveCommands(cfg: Settings, keys: seq<Key>, id: Id, now: int): seq<Command> {
    if keys == [] then []
    else IndexCommands(keys[0], now, id, now + cfg.permitTtl, cfg.permitTtl)
         + ActiveCommands(cfg, keys[1..], id, now)
  }

  function ZRemAll(keys: seq<Key>, id: Id): seq<Command> {
    if keys == [] then [] else [ZRem(keys[0], id)] + ZRemAll(keys[1..], id)
  }

  predicate Trips(cfg: Settings, replies: seq<Reply>) {
    |replies| == 1 && replies[0].Number? && replies[0].n + 1 >= cfg.failureLimit
  }

  /** What an attempt queues after MULTI once its reads are in. */
  function Commands(cfg: Settings, call: Call, now: int, replies: seq<Reply>): seq<Command>
    requires WellFormed(call)
  {
    match call
    case Acquire(p) =>
      RateCommands(cfg, p, now)
      + [SetEx(PermitKey(p.id), FingerprintOf(p), cfg.permitTtl)]
      + ActiveCommands(cfg, ActiveKeys(p), p.id, now)
    case Release(p) => [Del(PermitKey(p.id))] + ZRemAll(ActiveKeys(p), p.id)
    case Failure(target, id) =>
      IndexCommands(FailuresKey(target), now - cfg.failureWindow, id, now, cfg.failureWindow)
      + (if Trips(cfg, replies) then [SetEx(CooldownKey(target), Flag, cfg.cooldown)] else [])
  }

  function EventOf(cfg: Settings, call: Call, now: int, at: int, replies: seq<Reply>): Event {
    match call
    case Acquire(p) => Admitted(p, now, at)
    case Release(p) => Released(p, at)
    case Failure(target, id) => Failed(target, id, now, at, Trips(cfg, replies))
  }

  /** A release whose stored fingerprint differs returns without queueing anything. */
  predicate NothingToDo(call: Call, replies: seq<Reply>) {
    call.Release? && (replies == [] || replies[0] != TextReply(FingerprintOf(call.permit)))
  }

  /** EXEC aborts when a watched key was modified since WATCH, or was alive then and has expired. */
  predicate DirtyKey(s: Server, key: Key, since: nat, from: int) {
    || (key in s.touched && s.touched[key].order > since)
    || (Live(s.store, key, from).Some? && Live(s.store, key, s.clock).None?)
  }

  predicate Dirty(s: Server, keys: seq<Key>, since: nat, from: int) {
    exists i :: 0 <= i < |keys| && DirtyKey(s, keys[i], since, from)
  }

  function BlameFor(s: Server, keys: seq<Key>, since: nat, from: int): (b: Blame)
    requires Dirty(s, keys, since, from)
    decreases |keys|
  {
    if DirtyKey(s, keys[0], since, from) then
      if keys[0] in s.touched && s.touched[keys[0]].order > since then Commit(s.touched[keys[0]].order)
      else Expiry(keys[0], s.store[keys[0]].expireAt.value)
    else
      assert exists i :: 0 <= i < |keys[1..]| && DirtyKey(s, keys[1..][i], since, from) by {
        var i :| 0 <= i < |keys| && DirtyKey(s, keys[i], since, from);
        assert keys[1..][i - 1] == keys[i];
      }
      BlameFor(s, keys[1..], since, from)
  }

  /** One EXEC: run the queue at this instant and remember which keys it modified. */
  function CommitAll(s: Server, cmds: seq<Command>, e: Event): Server {
    var order := |s.history| + 1;
    Server(s.clock, Run(cmds, s.store, s.clock),
           s.touched + (map key | key in TouchedKeys(cmds, s.store, s.clock) :: Touch(order, s.clock)),
           s.history + [e])
  }

  function Update(m: Machine, client: nat, c: Client): Machine {
    m.(clients := m.clients[client := c])
  }

  function WatchStep(m: Machine, id: nat): Machine {
    if id !in m.clients || !m.clients[id].phase.Ready? then m
    else
      var c, s := m.clients[id], m.server;
      var phase :=
        // Only a release goes to its read without asking for the time.
        if c.call.Release? then Reading(|s.history|, s.clock, s.clock, [])
        else Watching(|s.history|, s.clock);
      Update(m, id, c.(phase := phase))
  }

  function TimeStep(m: Machine, id: nat): Machine {
    if id !in m.clients || !m.clients[id].phase.Watching? then m
    else
      var c := m.clients[id];
      Update(m, id, c.(phase := Reading(c.phase.since, c.phase.from, m.server.clock, [])))
  }

  function ReadStep(cfg: Settings, m: Machine, id: nat): Machine {
    if id !in m.clients || !m.clients[id].phase.Reading? || !WellFormed(m.clients[id].call) then m
    else
      var c := m.clients[id];
      var p := c.phase;
      var queries := Reads(cfg, c.call, p.now);
      if |p.replies| >= |queries| then m
      else
        var read := queries[|p.replies|];
        var reply := Evaluate(read, m.server.store, m.server.clock);
        var refusal := Refusal(cfg, c.call, read, reply);
        if refusal.Some? then Update(m, id, c.(phase := Finished(Raised(refusal.value))))
        else Update(m, id, c.(phase := p.(replies := p.replies + [reply])))
  }

  /** What an aborted attempt leaves of a client: back to WATCH, or out of attempts. */
  function Aborted(s: Server, c: Client): Client
    requires c.phase.Reading? && WellFormed(c.call) && Dirty(s, WatchedKeys(c.call), c.phase.since, c.phase.from)
  {
    var p := c.phase;
    var aborts := c.aborts
                  + [Abort(p.since, p.from, |s.history|, s.clock, BlameFor(s, WatchedKeys(c.call), p.since, p.from))];
    c.(aborts := aborts,
       phase := if |aborts| < TRANSACTION_ATTEMPTS then Ready else Finished(Raised(GateUnavailable)))
  }

  function ExecStep(cfg: Settings, m: Machine, id: nat): Machine {
    if id !in m.clients || !m.clients[id].phase.Reading? || !WellFormed(m.clients[id].call) then m
    else
      var c, s := m.clients[id], m.server;
      var p := c.phase;
      if |p.replies| < |Reads(cfg, c.call, p.now)| then m
      else if Dirty(s, WatchedKeys(c.call), p.since, p.from) then
        Update(m, id, Aborted(s, c))
      // With nothing queued EXEC is still sent, and does nothing.
      else if NothingToDo(c.call, p.replies) then Update(m, id, c.(phase := Finished(Returned)))
      else
        var server := CommitAll(s, Commands(cfg, c.call, p.now, p.replies),
                                EventOf(cfg, c.call, p.now, s.clock, p.replies));
        Update(m.(server := server), id, c.(phase := Finished(Returned)))
  }

  function BeginStep(m: Machine, id: nat, call: Call): Machine {
    var newId := FreshId(call);
    if (id in m.clients && !m.clients[id].phase.Finished?) || (newId.Some? && newId.value in m.used) then m
    else
      var phase := if WellFormed(call) then Ready else Finished(Raised(GateUnavailable));
      Update(m.(used := m.used + (if newId.Some? then {newId.value} else {})), id,
             Client(call, |m.server.history|, m.server.clock, [], phase))
  }

  /** Recording a success is one DEL outside any transaction. */
  function SucceedServer(s: Server, target: Target): Server {
    CommitAll(s, [Del(FailuresKey(target))], Succeeded(target, s.clock))
  }

  function Next(cfg: Settings, m: Machine, step: Step): Machine {
    match step
    case Tick(delta) => m.(server := m.server.(clock := m.server.clock + delta))
    case Begin(id, call) => BeginStep(m, id, call)
    case Watch(id) => WatchStep(m, id)
    case Time(id) => TimeStep(m, id)
    case ReadNext(id) => ReadStep(cfg, m, id)
    case Exec(id) => ExecStep(cfg, m, id)
    case Succeed(target) => m.(server := SucceedServer(m.server, target))
  }

  function Initial(clock: int): Machine {
    Machine(Server(clock, map[], map[], []), map[], {})
  }

  /** The machine after any interleaving, given as the list of steps taken. */
  function RunSteps(cfg: Settings, m: Machine, steps: seq<Step>): Machine
    decreases |steps|
  {
    if steps == [] then m else RunSteps(cfg, Next(cfg, m, steps[0]), steps[1..])
  }
}
