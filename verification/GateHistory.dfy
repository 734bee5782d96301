/** The reference specification: what the gate should do, said about the list of committed
    operations alone. Nothing here mentions Redis, watching, pruning or key expiry. */
module GateHistory {
  import opened Wrappers
  import opened GateTypes
  import opened RedisStore

  /** One committed operation. `now` is the clock value the client read, `at` the commit instant. */
  datatype Event =
    | Admitted(permit: Permit, now: int, at: int)
    | Released(permit: Permit, at: int)
    | Failed(target: Target, id: Id, now: int, at: int, tripped: bool)
    | Succeeded(target: Target, at: int)

  datatype Lease = Lease(permit: Permit, expiry: int)

  ghost function NextHeld(cfg: Settings, held: map<Id, Lease>, e: Event): map<Id, Lease> {
    match e
    case Admitted(p, now, _) => held[p.id := Lease(p, now + cfg.permitTtl)]
    case Released(p, _) => held - {p.id}
    case _ => held
  }

  /** The plain set of permits: granted and not yet given back. */
  ghost function Held(cfg: Settings, h: seq<Event>): map<Id, Lease> {
    if h == [] then map[] else NextHeld(cfg, Held(cfg, h[..|h| - 1]), h[|h| - 1])
  }

  ghost function NextStamps(stamps: map<Id, int>, key: Key, e: Event): map<Id, int> {
    if e.Admitted? && Admissible(e.permit) && RateKey(e.permit) == Some(key)
    then stamps[e.permit.id := e.now] else stamps
  }

  /** Every admission charged to a rate key, with its timestamp; nothing is ever forgotten. */
  ghost function Stamps(h: seq<Event>, key: Key): map<Id, int> {
    if h == [] then map[] else NextStamps(Stamps(h[..|h| - 1], key), key, h[|h| - 1])
  }

  ghost function NextFailures(failures: map<Id, int>, key: Key, e: Event): map<Id, int> {
    match e
    case Failed(target, id, now, _, _) => if FailuresKey(target) == key then failures[id := now] else failures
    case Succeeded(target, _) => if FailuresKey(target) == key then map[] else failures
    case _ => failures
  }

  /** The failures recorded for an endpoint and profile since its last recorded success. */
  ghost function FailuresSince(h: seq<Event>, key: Key): map<Id, int> {
    if h == [] then map[] else NextFailures(FailuresSince(h[..|h| - 1], key), key, h[|h| - 1])
  }

  /** When the most recent tripping failure under this cooldown key committed. */
  ghost function LastTrip(h: seq<Event>, key: Key): Option<int> {
    if h == [] then None
    else
      match h[|h| - 1]
      case Failed(target, _, _, at, tripped) =>
        if tripped && CooldownKey(target) == key then Some(at) else LastTrip(h[..|h| - 1], key)
      case _ => LastTrip(h[..|h| - 1], key)
  }

  /** The held permits that occupy one of the four kinds of active set, with their expiries. */
  ghost function Occupants(held: map<Id, Lease>, key: Key): map<Id, int> {
    map id | id in held && Admissible(held[id].permit) && key in ActiveKeys(held[id].permit) :: held[id].expiry
  }

  /** The members one sorted set stands for, with the score each carries. */
  ghost function Members(cfg: Settings, h: seq<Event>, key: Key): map<Id, int> {
    if IsActive(key) then Occupants(Held(cfg, h), key)
    else if IsRate(key) then Stamps(h, key)
    else FailuresSince(h, key)
  }

  ghost function Ids(h: seq<Event>): set<Id> {
    if h == [] then {}
    else
      var before := Ids(h[..|h| - 1]);
      match h[|h| - 1]
      case Admitted(p, _, _) => before + {p.id}
      case Failed(_, id, _, _, _) => before + {id}
      case _ => before
  }

  ghost predicate CoolingDown(cfg: Settings, h: seq<Event>, target: Target, t: int) {
    var last := LastTrip(h, CooldownKey(target));
    last.Some? && t <= last.value + cfg.cooldown
  }

  /** No member of the set was stamped after `now`. */
  ghost predicate NoneLater(cfg: Settings, h: seq<Event>, key: Key, now: int) {
    var m := Members(cfg, h, key);
    forall id :: id in m ==> m[id] + Horizon(cfg, key) <= now + Span(cfg, key)
  }

  /** Whether an operation adds a member to this sorted set. */
  predicate AddsTo(e: Event, key: Key) {
    match e
    case Admitted(p, _, _) => Admissible(p) && key in Occupied(p)
    case Failed(target, _, _, _, _) => key == FailuresKey(target)
    case _ => false
  }

  /** Everything added to this sorted set so far had committed by `now`. */
  ghost predicate InOrder(h: seq<Event>, key: Key, now: int) {
    forall i :: 0 <= i < |h| && AddsTo(h[i], key) ==> h[i].at <= now
  }

  /** Fewer members matter at `now` than the limit of this key. */
  ghost predicate HasRoom(cfg: Settings, h: seq<Event>, key: Key, now: int) {
    |Above(Members(cfg, h, key), now - Horizon(cfg, key))| < Limit(cfg, key)
  }

  /** The keys a granted permit occupies: its active sets and its rate set, if it has one. */
  function Occupied(p: Permit): seq<Key>
    requires Admissible(p)
  {
    ActiveKeys(p) + (if RateKey(p).Some? then [RateKey(p).value] else [])
  }

  /** Whether the specification allows `e` as the next committed operation after `h`. */
  ghost predicate LegalEvent(cfg: Settings, h: seq<Event>, e: Event) {
    && (h != [] ==> h[|h| - 1].at <= e.at)
    && match e
       case Admitted(p, now, at) =>
         && now <= at
         && Admissible(p)
         && p.id !in Ids(h)
         && !CoolingDown(cfg, h, p.target, at)
         && (forall key :: key in Occupied(p) ==> 
               HasRoom(cfg, h, key, now) && NoneLater(cfg, h, key, now) && InOrder(h, key, now))
       case Released(p, at) => p.id in Held(cfg, h) && Held(cfg, h)[p.id].permit == p
       case Failed(target, id, now, at, tripped) =>
         && now <= at
         && id !in Ids(h)
         && NoneLater(cfg, h, FailuresKey(target), now) && InOrder(h, FailuresKey(target), now)
         && (tripped <==>
             |Above(FailuresSince(h, FailuresKey(target)), now - cfg.failureWindow)| + 1 >= cfg.failureLimit)
       case Succeeded(_, _) => true
  }

  ghost predicate Legal(cfg: Settings, h: seq<Event>) {
    h != [] ==> Legal(cfg, h[..|h| - 1]) && LegalEvent(cfg, h[..|h| - 1], h[|h| - 1])
  }

  lemma Snoc<T>(h: seq<T>, e: T)
    ensures (h + [e])[..|h + [e]| - 1] == h && (h + [e])[|h + [e]| - 1] == e
  {
  }

  lemma {:induction false} IdsCover(cfg: Settings, h: seq<Event>, key: Key)
    ensures forall id :: id in Held(cfg, h) ==> id in Ids(h) && Held(cfg, h)[id].permit.id == id
    ensures forall id :: id in Stamps(h, key) ==> id in Ids(h)
    ensures forall id :: id in FailuresSince(h, key) ==> id in Ids(h)
  {
    if h != [] {
      IdsCover(cfg, h[..|h| - 1], key);
    }
  }

  lemma {:induction false} HeldIsAdmissible(cfg: Settings, h: seq<Event>)
    requires Legal(cfg, h)
    ensures forall id :: id in Held(cfg, h) ==> Admissible(Held(cfg, h)[id].permit)
  {
    if h != [] {
      HeldIsAdmissible(cfg, h[..|h| - 1]);
    }
  }

  /** How one legal event changes the members of one sorted set. */
  ghost function NextMembers(cfg: Settings, m: map<Id, int>, key: Key, e: Event): map<Id, int> {
    match e
    case Admitted(p, now, _) =>
      if Admissible(p) && key in Occupied(p)
      then m[p.id := now + Span(cfg, key) - Horizon(cfg, key)] else m
    case Released(p, _) => if Admissible(p) && key in ActiveKeys(p) then m - {p.id} else m
    case Failed(target, id, now, _, _) => if key == FailuresKey(target) then m[id := now] else m
    case Succeeded(target, _) => if key == FailuresKey(target) then map[] else m
  }

  lemma OccupantsAfterGrant(held: map<Id, Lease>, p: Permit, expiry: int, key: Key)
    requires Admissible(p) && p.id !in held
    ensures Occupants(held[p.id := Lease(p, expiry)], key)
         == if key in ActiveKeys(p) then Occupants(held, key)[p.id := expiry] else Occupants(held, key)
  {
  }

  lemma OccupantsAfterReturn(held: map<Id, Lease>, p: Permit, key: Key)
    requires Admissible(p) && p.id in held && held[p.id].permit == p
    ensures Occupants(held - {p.id}, key)
         == if key in ActiveKeys(p) then Occupants(held, key) - {p.id} else Occupants(held, key)
  {
  }

  lemma {:induction false} RecordsStep(cfg: Settings, h: seq<Event>, e: Event, key: Key)
    ensures Held(cfg, h + [e]) == NextHeld(cfg, Held(cfg, h), e)
    ensures Stamps(h + [e], key) == NextStamps(Stamps(h, key), key, e)
    ensures FailuresSince(h + [e], key) == NextFailures(FailuresSince(h, key), key, e)
  {
    Snoc(h, e);
  }

  lemma OccupiedKinds(p: Permit, key: Key)
    requires Admissible(p)
    ensures key in Occupied(p) <==> key in ActiveKeys(p) || RateKey(p) == Some(key)
    ensures key in ActiveKeys(p) ==> IsActive(key)
    ensures RateKey(p) == Some(key) ==> IsRate(key)
  {
  }

  /** The part of legality that the bookkeeping of members rests on. */
  ghost predicate Coherent(held: map<Id, Lease>, e: Event) {
    match e
    case Admitted(p, _, _) => Admissible(p) && p.id !in held
    case Released(p, _) => Admissible(p) && p.id in held && held[p.id].permit == p
    case _ => true
  }

  lemma {:induction false} LegalIsCoherent(cfg: Settings, h: seq<Event>, e: Event)
    requires Legal(cfg, h) && LegalEvent(cfg, h, e)
    ensures Coherent(Held(cfg, h), e)
  {
    IdsCover(cfg, h, GlobalActive);
    HeldIsAdmissible(cfg, h);
  }

  lemma OccupantsStep(cfg: Settings, held: map<Id, Lease>, e: Event, key: Key)
    requires Coherent(held, e) && IsActive(key)
    ensures Occupants(NextHeld(cfg, held, e), key) == NextMembers(cfg, Occupants(held, key), key, e)
  {
    hide Occupants, ActiveKeys, Occupied, RateKey;
    match e
    case Admitted(p, now, _) =>
      OccupiedKinds(p, key);
      OccupantsAfterGrant(held, p, now + cfg.permitTtl, key);
    case Released(p, _) =>
      OccupantsAfterReturn(held, p, key);
    case _ =>
  }

  lemma StampsStep(cfg: Settings, stamps: map<Id, int>, e: Event, key: Key)
    requires IsRate(key)
    ensures NextStamps(stamps, key, e) == NextMembers(cfg, stamps, key, e)
  {
    if (e.Admitted? || e.Released?) && Admissible(e.permit) {
      OccupiedKinds(e.permit, key);
    }
  }

  lemma {:induction false} MembersStep(cfg: Settings, h: seq<Event>, e: Event, key: Key)
    requires Coherent(Held(cfg, h), e) && IsIndex(key)
    ensures Members(cfg, h + [e], key) == NextMembers(cfg, Members(cfg, h, key), key, e)
  {
    RecordsStep(cfg, h, e, key);
    if IsActive(key) {
      OccupantsStep(cfg, Held(cfg, h), e, key);
    } else if IsRate(key) {
      StampsStep(cfg, Stamps(h, key), e, key);
    } else if (e.Admitted? || e.Released?) && Admissible(e.permit) {
      OccupiedKinds(e.permit, key);
    }
  }
}
