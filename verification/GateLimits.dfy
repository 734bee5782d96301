/** The limits of the gate said of the committed operations alone, in the words and with the fields of the settings: no
    key, no sorted set and no record of the reference specification is mentioned in what is promised. */
module GateLimits {
  import opened Wrappers
  import opened GateTypes
  import opened RedisStore
  import opened GateHistory
  import opened GateProtocol
  import opened GateServer
  import opened GateRefinement
  import opened GateRuns
  import opened GatePromises
  import opened GateProgress

  // ---- Positions in the history ----

  /** The admissions of connection tests for this endpoint and profile, with a timestamp in the window. */
  ghost function TestsBetween(h: seq<Event>, endpoint: nat, profile: nat, from: int, to: int): set<nat> {
    set i: nat | i < |h| && h[i].Admitted? && h[i].permit.operation == ConnectionTest
                 && h[i].permit.target.endpoint == endpoint && h[i].permit.target.profile == profile
                 && from < h[i].now <= to
  }

  /** The admissions of terminals on this device, with a timestamp in the window. */
  ghost function TerminalsBetween(h: seq<Event>, device: nat, from: int, to: int): set<nat> {
    set i: nat | i < |h| && h[i].Admitted? && h[i].permit.operation == Terminal
                 && h[i].permit.target.device == Some(device) && from < h[i].now <= to
  }

  datatype Kind = Anything | OfDevice(device: nat) | Terminals | TerminalsOf(device: nat)

  predicate IsOf(p: Permit, kind: Kind) {
    match kind
    case Anything => true
    case OfDevice(device) => p.target.device == Some(device)
    case Terminals => p.operation == Terminal
    case TerminalsOf(device) => p.operation == Terminal && p.target.device == Some(device)
  }

  ghost predicate GivenBackSince(h: seq<Event>, i: nat)
    requires i < |h| && h[i].Admitted?
  {
    exists j :: i < j < |h| && h[j].Released? && h[j].permit.id == h[i].permit.id
  }

  /** The admissions of this kind that are neither given back nor run out at `t`. */
  ghost function OpenAt(cfg: Settings, h: seq<Event>, kind: Kind, t: int): set<nat> {
    set i: nat | i < |h| && h[i].Admitted? && IsOf(h[i].permit, kind)
                 && h[i].now + cfg.permitTtl > t && !GivenBackSince(h, i)
  }

  predicate SameAccess(a: Target, b: Target) {
    a.endpoint == b.endpoint && a.profile == b.profile
  }

  ghost predicate SucceededBetween(h: seq<Event>, i: nat, n: nat, target: Target)
    requires n <= |h|
  {
    exists j :: i < j < n && h[j].Succeeded? && SameAccess(h[j].target, target)
  }

  /** Of the first n operations, the failures of this endpoint and profile later than `from`, with no success since. */
  ghost function FailuresBefore(h: seq<Event>, n: nat, target: Target, from: int): set<nat>
    requires n <= |h|
  {
    set i: nat | i < n && h[i].Failed? && SameAccess(h[i].target, target) && h[i].now > from
                 && !SucceededBetween(h, i, n, target)
  }

  /** A failure that tripped was committed at most the cooldown ago. */
  ghost predicate CooldownOn(cfg: Settings, h: seq<Event>, target: Target, t: int) {
    exists i :: 0 <= i < |h| && h[i].Failed? && h[i].tripped && SameAccess(h[i].target, target)
                && t <= h[i].at + cfg.cooldown
  }

  /** Why an admission asked for at `t` has to be refused, if it has to: the reasons in their order. */
  ghost function DueFault(cfg: Settings, h: seq<Event>, p: Permit, t: int): Option<Fault>
    requires Admissible(p)
  {
    if CooldownOn(cfg, h, p.target, t) then Some(AuthenticationRateLimited)
    else if p.operation == ConnectionTest
            && |TestsBetween(h, p.target.endpoint, p.target.profile, t - cfg.rateWindow, t)| >= cfg.testLimit
    then Some(ConnectionRateLimited)
    else if p.operation == Terminal
            && |TerminalsBetween(h, p.target.device.value, t - cfg.rateWindow, t)| >= cfg.terminalLimit
    then Some(ConnectionRateLimited)
    else if |OpenAt(cfg, h, Anything, t)| >= cfg.maxConnections then Some(ConnectionLimitReached)
    else if p.operation == Terminal && |OpenAt(cfg, h, Terminals, t)| >= cfg.maxTerminals
    then Some(TerminalLimitReached)
    else if p.operation == Terminal
            && |OpenAt(cfg, h, TerminalsOf(p.target.device.value), t)| >= cfg.maxTerminalsPerDevice
    then Some(TerminalLimitReached)
    else if p.target.device.Some? && |OpenAt(cfg, h, OfDevice(p.target.device.value), t)| >= cfg.maxPerDevice
    then Some(ConnectionLimitReached)
    else None
  }

  // ---- Counting positions is counting identifiers ----

  lemma {:induction false} DistinctIds(cfg: Settings, h: seq<Event>, i: nat, j: nat)
    requires Legal(cfg, h) && i < j < |h| && IdOf(h[i]).Some?
    ensures IdOf(h[i]) != IdOf(h[j])
  {
    LegalPrefix(cfg, h, j);
    assert h[..j][i] == h[i];
    IdsAreRecorded(h[..j], i);
  }

  lemma {:induction false} CountByIds(cfg: Settings, h: seq<Event>, ps: set<nat>, ids: set<Id>)
    requires Legal(cfg, h) && forall i :: i in ps ==> i < |h| && IdOf(h[i]).Some? && IdOf(h[i]).value in ids
    requires forall id :: id in ids ==> exists i :: i in ps && IdOf(h[i]) == Some(id)
    ensures |ps| == |ids|
    decreases |ps|
  {
    hide Legal;
    if ps == {} {
      assert ids == {};
    } else {
      var i :| i in ps;
      var id := IdOf(h[i]).value;
      forall j | j in ps - {i} ensures IdOf(h[j]).value in ids - {id} {
        DistinctIds(cfg, h, if i < j then i else j, if i < j then j else i);
      }
      forall other | other in ids - {id} ensures exists j :: j in ps - {i} && IdOf(h[j]) == Some(other) {
        var j :| j in ps && IdOf(h[j]) == Some(other);
      }
      CountByIds(cfg, h, ps - {i}, ids - {id});
    }
  }

  // ---- Rates ----

  predicate Charged(e: Event, key: Key) {
    match key
    case TestRate(endpoint, profile) =>
      && e.Admitted? && e.permit.operation == ConnectionTest
      && e.permit.target.endpoint == endpoint && e.permit.target.profile == profile
    case TerminalRate(device) => e.Admitted? && e.permit.operation == Terminal && e.permit.target.device == Some(device)
    case _ => false
  }

  lemma {:induction false} ChargedIs(e: Event, key: Key)
    requires e.Admitted? ==> Admissible(e.permit)
    ensures Charged(e, key) <==> e.Admitted? && RateKey(e.permit) == Some(key)
  {
  }

  lemma {:induction false} ChargedIsAdmission(e: Event, key: Key)
    requires Charged(e, key)
    ensures e.Admitted?
  {
  }

  ghost predicate StampedAt(h: seq<Event>, key: Key, id: Id, now: int, i: int) {
    0 <= i < |h| && Charged(h[i], key) && h[i].permit.id == id && h[i].now == now
  }

  lemma {:induction false} LastIsLegal(cfg: Settings, h: seq<Event>)
    requires Legal(cfg, h) && h != []
    ensures var before, e := h[..|h| - 1], h[|h| - 1];
            && Legal(cfg, before) && h == before + [e] && (e.Admitted? ==> Admissible(e.permit))
            && (IdOf(e).Some? ==> IdOf(e).value !in Ids(before))
            && e.at >= (match e case Admitted(_, now, _) => now case Failed(_, _, now, _, _) => now case _ => e.at)
            && (before != [] ==> before[|before| - 1].at <= e.at)
            && (e.Released? ==> e.permit.id in Held(cfg, before) && Held(cfg, before)[e.permit.id].permit == e.permit)
  {
    assert h == h[..|h| - 1] + [h[|h| - 1]];
  }

  lemma {:induction false} StampsByPosition(cfg: Settings, h: seq<Event>, key: Key, id: Id, now: int)
    requires Legal(cfg, h) && IsRate(key)
    ensures id in Stamps(h, key) && Stamps(h, key)[id] == now <==> exists i :: StampedAt(h, key, id, now, i)
  {
    hide Legal, Charged, RateKey, Admissible, Held;
    if h != [] {
      var before, e := h[..|h| - 1], h[|h| - 1];
      LastIsLegal(cfg, h);
      StampsByPosition(cfg, before, key, id, now);
      IdsCover(cfg, before, key);
      ChargedIs(e, key);
      if i :| StampedAt(before, key, id, now, i) {
        assert StampedAt(h, key, id, now, i);
      }
      if Charged(e, key) && e.permit.id == id && e.now == now {
        assert StampedAt(h, key, id, now, |h| - 1);
      }
      if i :| StampedAt(h, key, id, now, i) {
        if i < |before| {
          assert StampedAt(before, key, id, now, i);
          ChargedIsAdmission(before[i], key);
          IdsAreRecorded(before, i);
        }
      }
    }
  }

  ghost function ChargedBetween(h: seq<Event>, key: Key, from: int, to: int): set<nat> {
    set i: nat | i < |h| && Charged(h[i], key) && from < h[i].now <= to
  }

  ghost function StampsBetween(stamps: map<Id, int>, from: int, to: int): set<Id> {
    set id | id in stamps && from < stamps[id] <= to
  }

  lemma {:induction false} CountCharged(cfg: Settings, h: seq<Event>, key: Key, from: int, to: int)
    requires Legal(cfg, h) && IsRate(key)
    ensures |ChargedBetween(h, key, from, to)| == |StampsBetween(Stamps(h, key), from, to)|
  {
    hide Legal, Charged, Stamps;
    var ps, ids := ChargedBetween(h, key, from, to), StampsBetween(Stamps(h, key), from, to);
    forall i | i in ps ensures IdOf(h[i]).Some? && IdOf(h[i]).value in ids {
      ChargedIsAdmission(h[i], key);
      assert StampedAt(h, key, h[i].permit.id, h[i].now, i);
      StampsByPosition(cfg, h, key, h[i].permit.id, h[i].now);
    }
    forall id | id in ids ensures exists i :: i in ps && IdOf(h[i]) == Some(id) {
      StampsByPosition(cfg, h, key, id, Stamps(h, key)[id]);
      var i :| StampedAt(h, key, id, Stamps(h, key)[id], i);
      ChargedIsAdmission(h[i], key);
      assert i in ps;
    }
    CountByIds(cfg, h, ps, ids);
  }

  lemma {:induction false} TestsAreCharged(h: seq<Event>, endpoint: nat, profile: nat, from: int, to: int)
    ensures TestsBetween(h, endpoint, profile, from, to) == ChargedBetween(h, TestRate(endpoint, profile), from, to)
  {
  }

  lemma {:induction false} TerminalsAreCharged(h: seq<Event>, device: nat, from: int, to: int)
    ensures TerminalsBetween(h, device, from, to) == ChargedBetween(h, TerminalRate(device), from, to)
  {
  }

  /** The rate limits, over whole runs and for every placement of the window: of connection tests for one endpoint and
      profile, and of terminals on one device. */
  lemma {:induction false} RatesHold(cfg: Settings, clock: int, steps: seq<Step>, endpoint: nat, profile: nat,
                                     device: nat, from: int)
    ensures var h := RunSteps(cfg, Initial(clock), steps).server.history;
            && |TestsBetween(h, endpoint, profile, from, from + cfg.rateWindow)| <= cfg.testLimit
            && |TerminalsBetween(h, device, from, from + cfg.rateWindow)| <= cfg.terminalLimit
  {
    EveryRunIsSerial(cfg, clock, steps);
    var h := RunSteps(cfg, Initial(clock), steps).server.history;
    hide RunSteps, Legal, TestsBetween, TerminalsBetween, ChargedBetween, Inv, SerialStore, Stamps;
    TestsAreCharged(h, endpoint, profile, from, from + cfg.rateWindow);
    ChargedWithin(cfg, clock, steps, TestRate(endpoint, profile), from);
    TerminalsAreCharged(h, device, from, from + cfg.rateWindow);
    ChargedWithin(cfg, clock, steps, TerminalRate(device), from);
  }

  lemma {:induction false} ChargedWithin(cfg: Settings, clock: int, steps: seq<Step>, key: Key, from: int)
    requires IsRate(key)
    ensures |ChargedBetween(RunSteps(cfg, Initial(clock), steps).server.history, key, from, from + cfg.rateWindow)|
         <= if key.TestRate? then cfg.testLimit else cfg.terminalLimit
  {
    EveryRunIsSerial(cfg, clock, steps);
    var h := RunSteps(cfg, Initial(clock), steps).server.history;
    hide RunSteps, Legal, ChargedBetween, Stamps, Inv, SerialStore;
    CountCharged(cfg, h, key, from, from + cfg.rateWindow);
    RateLimitHolds(cfg, clock, steps, key, from);
    assert StampsBetween(Stamps(h, key), from, from + cfg.rateWindow) == Within(Stamps(h, key), from, cfg.rateWindow);
  }

  // ---- Capacities ----

  function KeyOf(kind: Kind): Key {
    match kind
    case Anything => GlobalActive
    case OfDevice(device) => DeviceActive(device)
    case Terminals => TerminalActive
    case TerminalsOf(device) => TerminalDeviceActive(device)
  }

  ghost predicate GrantedAt(cfg: Settings, h: seq<Event>, id: Id, lease: Lease, i: int) {
    && 0 <= i < |h| && h[i].Admitted? && h[i].permit.id == id && !GivenBackSince(h, i)
    && lease == Lease(h[i].permit, h[i].now + cfg.permitTtl)
  }

  lemma {:induction false} HeldByPosition(cfg: Settings, h: seq<Event>, id: Id, lease: Lease)
    requires Legal(cfg, h)
    ensures id in Held(cfg, h) && Held(cfg, h)[id] == lease <==> exists i :: GrantedAt(cfg, h, id, lease, i)
  {
    hide Legal, Admissible;
    if h != [] {
      var before, e := h[..|h| - 1], h[|h| - 1];
      LastIsLegal(cfg, h);
      HeldByPosition(cfg, before, id, lease);
      IdsCover(cfg, before, GlobalActive);
      hide Held;
      RecordsStep(cfg, before, e, GlobalActive);
      if i :| GrantedAt(cfg, before, id, lease, i) {
        GivenBackStep(before, e, i);
        if !(e.Released? && e.permit.id == id) {
          assert GrantedAt(cfg, h, id, lease, i);
        }
      }
      if e.Admitted? && e.permit.id == id && lease == Lease(e.permit, e.now + cfg.permitTtl) {
        assert GrantedAt(cfg, h, id, lease, |h| - 1);
      }
      if i :| GrantedAt(cfg, h, id, lease, i) {
        if i < |before| {
          GivenBackStep(before, e, i);
          assert GrantedAt(cfg, before, id, lease, i);
          IdsAreRecorded(before, i);
        }
      }
    }
  }

  lemma {:induction false} GivenBackStep(before: seq<Event>, e: Event, i: nat)
    requires i < |before| && before[i].Admitted?
    ensures GivenBackSince(before + [e], i)
       <==> GivenBackSince(before, i) || (e.Released? && e.permit.id == before[i].permit.id)
  {
    var h := before + [e];
    if GivenBackSince(before, i) {
      var j :| i < j < |before| && before[j].Released? && before[j].permit.id == before[i].permit.id;
      assert h[j] == before[j];
    }
    if e.Released? && e.permit.id == before[i].permit.id {
      assert h[|before|] == e;
    }
  }

  lemma {:induction false} CountOpen(cfg: Settings, h: seq<Event>, kind: Kind, t: int)
    requires Legal(cfg, h)
    ensures |OpenAt(cfg, h, kind, t)| == |LivePermits(cfg, h, KeyOf(kind), t)|
  {
    hide Legal, Held;
    var ps, ids := OpenAt(cfg, h, kind, t), LivePermits(cfg, h, KeyOf(kind), t);
    forall i | i in ps ensures IdOf(h[i]).Some? && IdOf(h[i]).value in ids {
      var lease := Lease(h[i].permit, h[i].now + cfg.permitTtl);
      assert GrantedAt(cfg, h, h[i].permit.id, lease, i);
      HeldByPosition(cfg, h, h[i].permit.id, lease);
    }
    forall id | id in ids ensures exists i :: i in ps && IdOf(h[i]) == Some(id) {
      HeldByPosition(cfg, h, id, Held(cfg, h)[id]);
      var i :| GrantedAt(cfg, h, id, Held(cfg, h)[id], i);
      assert i in ps;
    }
    CountByIds(cfg, h, ps, ids);
  }

  /** The capacity limits, at any time of any run. */
  lemma {:induction false} CapacitiesHold(cfg: Settings, clock: int, steps: seq<Step>, t: int)
    requires t >= RunSteps(cfg, Initial(clock), steps).server.clock
    ensures var h := RunSteps(cfg, Initial(clock), steps).server.history;
            && |OpenAt(cfg, h, Anything, t)| <= cfg.maxConnections
            && (forall device :: |OpenAt(cfg, h, OfDevice(device), t)| <= cfg.maxPerDevice)
            && |OpenAt(cfg, h, Terminals, t)| <= cfg.maxTerminals
            && (forall device :: |OpenAt(cfg, h, TerminalsOf(device), t)| <= cfg.maxTerminalsPerDevice)
  {
    var h := RunSteps(cfg, Initial(clock), steps).server.history;
    EveryRunIsSerial(cfg, clock, steps);
    hide RunSteps, Legal, OpenAt, LivePermits, Inv, SerialStore;
    forall kind: Kind ensures |OpenAt(cfg, h, kind, t)| <= Limit(cfg, KeyOf(kind)) {
      CountOpen(cfg, h, kind, t);
      CapacityHolds(cfg, clock, steps, KeyOf(kind), t);
    }
    assert |OpenAt(cfg, h, Anything, t)| <= Limit(cfg, KeyOf(Anything));
    assert |OpenAt(cfg, h, Terminals, t)| <= Limit(cfg, KeyOf(Terminals));
    assert forall device :: |OpenAt(cfg, h, OfDevice(device), t)| <= Limit(cfg, KeyOf(OfDevice(device)));
    assert forall device :: |OpenAt(cfg, h, TerminalsOf(device), t)| <= Limit(cfg, KeyOf(TerminalsOf(device)));
  }

  // ---- Failures and cooldowns ----

  lemma {:induction false} SameAccessIsSameKey(a: Target, b: Target)
    ensures FailuresKey(a) == FailuresKey(b) <==> SameAccess(a, b)
    ensures CooldownKey(a) == CooldownKey(b) <==> SameAccess(a, b)
  {
  }

  lemma {:induction false} OutstandingIs(h: seq<Event>, target: Target, id: Id, now: int, i: nat)
    requires i < |h|
    ensures Outstanding(h, FailuresKey(target), id, now, i)
       <==> h[i].Failed? && h[i].id == id && h[i].now == now && SameAccess(h[i].target, target)
            && !SucceededBetween(h, i, |h|, target)
  {
    forall j | 0 <= j < |h| && (h[j].Failed? || h[j].Succeeded?)
      ensures FailuresKey(h[j].target) == FailuresKey(target) <==> SameAccess(h[j].target, target)
    {
      SameAccessIsSameKey(h[j].target, target);
    }
  }

  lemma {:induction false} CountFailures(cfg: Settings, h: seq<Event>, target: Target, from: int)
    requires Legal(cfg, h)
    ensures |FailuresBefore(h, |h|, target, from)| == |Above(FailuresSince(h, FailuresKey(target)), from)|
  {
    hide Legal, FailuresSince, SucceededBetween, Outstanding, SameAccess;
    var key := FailuresKey(target);
    var ps, ids := FailuresBefore(h, |h|, target, from), Above(FailuresSince(h, key), from);
    forall i | i in ps ensures IdOf(h[i]).Some? && IdOf(h[i]).value in ids {
      OutstandingIs(h, target, h[i].id, h[i].now, i);
      FailureRecord(cfg, h, key, h[i].id, h[i].now);
    }
    forall id | id in ids ensures exists i :: i in ps && IdOf(h[i]) == Some(id) {
      var now := FailuresSince(h, key)[id];
      FailureRecord(cfg, h, key, id, now);
      var i :| Outstanding(h, key, id, now, i);
      assert 0 <= i < |h| by { OutstandingInRange(h, key, id, now, i); }
      OutstandingIs(h, target, id, now, i);
      assert i in ps;
    }
    CountByIds(cfg, h, ps, ids);
  }

  lemma {:induction false} OutstandingInRange(h: seq<Event>, key: Key, id: Id, now: int, i: int)
    requires Outstanding(h, key, id, now, i)
    ensures 0 <= i < |h|
  {
  }

  lemma {:induction false} FailuresOfPrefix(h: seq<Event>, n: nat, target: Target, from: int)
    requires n <= |h|
    ensures FailuresBefore(h[..n], n, target, from) == FailuresBefore(h, n, target, from)
  {
    forall i: nat | i < n ensures SucceededBetween(h[..n], i, n, target) <==> SucceededBetween(h, i, n, target) {
      if SucceededBetween(h, i, n, target) {
        var j :| i < j < n && h[j].Succeeded? && SameAccess(h[j].target, target);
        assert h[..n][j] == h[j];
      }
    }
  }

  /** In any run: a failure trips the cooldown of its endpoint and profile if and only if it is at least the limit-th
      there within the window, counted from the last success there. */
  lemma {:induction false} FailuresTripAtLimit(cfg: Settings, clock: int, steps: seq<Step>, i: nat)
    requires var h := RunSteps(cfg, Initial(clock), steps).server.history; i < |h| && h[i].Failed?
    ensures var h := RunSteps(cfg, Initial(clock), steps).server.history;
            h[i].tripped <==>
            |FailuresBefore(h, i, h[i].target, h[i].now - cfg.failureWindow)| + 1 >= cfg.failureLimit
  {
    hide RunSteps, Legal, FailuresBefore, FailuresSince, Inv, SerialStore, LegalEvent;
    var h := RunSteps(cfg, Initial(clock), steps).server.history;
    TripsExactlyAtLimit(cfg, clock, steps, i);
    EveryRunIsSerial(cfg, clock, steps);
    LegalPrefix(cfg, h, i);
    CountFailures(cfg, h[..i], h[i].target, h[i].now - cfg.failureWindow);
    FailuresOfPrefix(h, i, h[i].target, h[i].now - cfg.failureWindow);
  }

  /** In any run: once a failure has tripped, nobody is admitted to its endpoint and profile for the cooldown. */
  lemma {:induction false} CooldownsHold(cfg: Settings, clock: int, steps: seq<Step>, i: nat, j: nat)
    requires var h := RunSteps(cfg, Initial(clock), steps).server.history;
             && i < j < |h| && h[i].Failed? && h[i].tripped
             && h[j].Admitted? && h[j].permit.target.endpoint == h[i].target.endpoint
             && h[j].permit.target.profile == h[i].target.profile
    ensures var h := RunSteps(cfg, Initial(clock), steps).server.history; h[j].at > h[i].at + cfg.cooldown
  {
    hide RunSteps;
    var h := RunSteps(cfg, Initial(clock), steps).server.history;
    SameAccessIsSameKey(h[j].permit.target, h[i].target);
    CooldownHolds(cfg, clock, steps, i, j);
  }

  lemma {:induction false} CooldownByPosition(cfg: Settings, h: seq<Event>, target: Target, t: int)
    requires Legal(cfg, h)
    ensures CoolingDown(cfg, h, target, t) <==> CooldownOn(cfg, h, target, t)
  {
    hide Legal, SameAccess;
    if h != [] {
      var before, e := h[..|h| - 1], h[|h| - 1];
      LastIsLegal(cfg, h);
      CooldownByPosition(cfg, before, target, t);
      if e.Failed? {
        SameAccessIsSameKey(e.target, target);
      }
      TripsInPast(cfg, h);
      if i :| 0 <= i < |before| && before[i].Failed? && before[i].tripped && SameAccess(before[i].target, target)
              && t <= before[i].at + cfg.cooldown
      {
        assert h[i] == before[i];
      }
      if i :| 0 <= i < |h| && h[i].Failed? && h[i].tripped && SameAccess(h[i].target, target)
              && t <= h[i].at + cfg.cooldown
      {
        if i < |before| {
          assert before[i] == h[i];
        }
      }
    }
  }

  lemma {:induction false} TripsInPast(cfg: Settings, h: seq<Event>)
    requires Legal(cfg, h)
    ensures forall i :: 0 <= i < |h| ==> h[i].at <= h[|h| - 1].at
  {
    hide LegalEvent;
    if h != [] {
      LastIsLegal(cfg, h);
      TripsInPast(cfg, h[..|h| - 1]);
    }
  }

  // ---- Admission ----

  lemma {:induction false} StampsInPast(cfg: Settings, h: seq<Event>, key: Key, t: int)
    requires Legal(cfg, h) && IsRate(key) && (h != [] ==> h[|h| - 1].at <= t)
    ensures forall id :: id in Stamps(h, key) ==> Stamps(h, key)[id] <= t
  {
    hide Legal, Admissible, RateKey, Held, Stamps, Ids;
    if h != [] {
      var before, e := h[..|h| - 1], h[|h| - 1];
      LastIsLegal(cfg, h);
      StampsInPast(cfg, before, key, t);
      RecordsStep(cfg, before, e, key);
    } else {
      NoStamps(key);
    }
  }

  lemma {:induction false} NoStamps(key: Key)
    ensures Stamps([], key) == map[]
  {
  }

  /** The room seen by a client that read the time a while ago. */
  lemma {:induction false} RateRoom(cfg: Settings, h: seq<Event>, key: Key, now: int, t: int)
    requires Legal(cfg, h) && IsRate(key) && (h != [] ==> h[|h| - 1].at <= t)
    ensures HasRoom(cfg, h, key, now)
       <==> |ChargedBetween(h, key, now - cfg.rateWindow, t)|
            < if key.TestRate? then cfg.testLimit else cfg.terminalLimit
  {
    hide Legal, Stamps, ChargedBetween;
    StampsInPast(cfg, h, key, t);
    CountCharged(cfg, h, key, now - cfg.rateWindow, t);
    assert StampsBetween(Stamps(h, key), now - cfg.rateWindow, t) == Above(Stamps(h, key), now - cfg.rateWindow);
  }

  lemma {:induction false} KindRoom(cfg: Settings, h: seq<Event>, kind: Kind, t: int)
    requires Legal(cfg, h)
    ensures HasRoom(cfg, h, KeyOf(kind), t) <==> |OpenAt(cfg, h, kind, t)| < Limit(cfg, KeyOf(kind))
  {
    hide Legal, Members, OpenAt, LivePermits;
    LivePermitsAreMembers(cfg, h, KeyOf(kind), t);
    CountOpen(cfg, h, kind, t);
  }

  /** What each check of the settings comes to. */
  lemma {:induction false} RoomIs(cfg: Settings, h: seq<Event>, p: Permit, t: int)
    requires Legal(cfg, h) && Admissible(p) && (h != [] ==> h[|h| - 1].at <= t)
    ensures CoolingDown(cfg, h, p.target, t) <==> CooldownOn(cfg, h, p.target, t)
    ensures HasRoom(cfg, h, TestRate(p.target.endpoint, p.target.profile), t)
       <==> |TestsBetween(h, p.target.endpoint, p.target.profile, t - cfg.rateWindow, t)| < cfg.testLimit
    ensures HasRoom(cfg, h, GlobalActive, t) <==> |OpenAt(cfg, h, Anything, t)| < cfg.maxConnections
    ensures HasRoom(cfg, h, TerminalActive, t) <==> |OpenAt(cfg, h, Terminals, t)| < cfg.maxTerminals
    ensures p.target.device.Some? ==>
              var d := p.target.device.value;
              && (HasRoom(cfg, h, TerminalRate(d), t)
                  <==> |TerminalsBetween(h, d, t - cfg.rateWindow, t)| < cfg.terminalLimit)
              && (HasRoom(cfg, h, DeviceActive(d), t) <==> |OpenAt(cfg, h, OfDevice(d), t)| < cfg.maxPerDevice)
              && (HasRoom(cfg, h, TerminalDeviceActive(d), t)
                  <==> |OpenAt(cfg, h, TerminalsOf(d), t)| < cfg.maxTerminalsPerDevice)
  {
    hide Legal, HasRoom, CoolingDown, CooldownOn, TestsBetween, TerminalsBetween, ChargedBetween, OpenAt;
    CooldownByPosition(cfg, h, p.target, t);
    RateRoom(cfg, h, TestRate(p.target.endpoint, p.target.profile), t, t);
    TestsAreCharged(h, p.target.endpoint, p.target.profile, t - cfg.rateWindow, t);
    KindRoom(cfg, h, Anything, t);
    KindRoom(cfg, h, Terminals, t);
    if p.target.device.Some? {
      var d := p.target.device.value;
      RateRoom(cfg, h, TerminalRate(d), t, t);
      TerminalsAreCharged(h, d, t - cfg.rateWindow, t);
      KindRoom(cfg, h, OfDevice(d), t);
      KindRoom(cfg, h, TerminalsOf(d), t);
    }
  }

  lemma {:induction false} ShouldAdmitIs(cfg: Settings, h: seq<Event>, p: Permit, t: int)
    requires Admissible(p)
    ensures ShouldAdmit(cfg, h, p, t) <==>
              && !CoolingDown(cfg, h, p.target, t) && HasRoom(cfg, h, GlobalActive, t)
              && (p.operation == ConnectionTest ==> HasRoom(cfg, h, TestRate(p.target.endpoint, p.target.profile), t))
              && (p.operation == Terminal ==>
                    && HasRoom(cfg, h, TerminalRate(p.target.device.value), t) && HasRoom(cfg, h, TerminalActive, t)
                    && HasRoom(cfg, h, TerminalDeviceActive(p.target.device.value), t))
              && (p.target.device.Some? ==> HasRoom(cfg, h, DeviceActive(p.target.device.value), t))
  {
    OccupiedAre(p);
    hide HasRoom, CoolingDown, Occupied;
  }

  lemma {:induction false} NothingIsDue(cfg: Settings, h: seq<Event>, p: Permit, t: int)
    requires Legal(cfg, h) && Admissible(p) && (h != [] ==> h[|h| - 1].at <= t)
    ensures ShouldAdmit(cfg, h, p, t) <==> DueFault(cfg, h, p, t) == None
  {
    hide Legal, HasRoom, CoolingDown, CooldownOn, TestsBetween, TerminalsBetween, OpenAt, Occupied, ShouldAdmit;
    RoomIs(cfg, h, p, t);
    ShouldAdmitIs(cfg, h, p, t);
  }

  lemma {:induction false} OccupiedAre(p: Permit)
    requires Admissible(p)
    ensures forall key :: key in Occupied(p) <==>
              || key == GlobalActive
              || (p.target.device.Some? && key == DeviceActive(p.target.device.value))
              || (p.operation == Terminal
                  && (key == TerminalActive || key == TerminalDeviceActive(p.target.device.value)))
              || (p.operation == ConnectionTest && key == TestRate(p.target.endpoint, p.target.profile))
              || (p.operation == Terminal && key == TerminalRate(p.target.device.value))
  {
  }

  /** The reads of an admission, in their order. */
  lemma {:induction false} ReadsAre(cfg: Settings, p: Permit, now: int)
    requires Admissible(p)
    ensures var qs, t := Reads(cfg, Acquire(p), now), p.target;
            && |qs| >= 2 && qs[0] == Get(Cooldown(t.endpoint, t.profile))
            && match p.operation
               case ConnectionTest =>
                 && qs[1] == Count(TestRate(t.endpoint, t.profile), now - cfg.rateWindow)
                 && |qs| >= 3 && qs[2] == Count(GlobalActive, now)
                 && |qs| == (if t.device.Some? then 4 else 3)
                 && (t.device.Some? ==> qs[3] == Count(DeviceActive(t.device.value), now))
               case Terminal =>
                 && |qs| == 6 && qs[1] == Count(TerminalRate(t.device.value), now - cfg.rateWindow)
                 && qs[2] == Count(GlobalActive, now) && qs[3] == Count(TerminalActive, now)
                 && qs[4] == Count(TerminalDeviceActive(t.device.value), now)
                 && qs[5] == Count(DeviceActive(t.device.value), now)
               case _ =>
                 && qs[1] == Count(GlobalActive, now)
                 && |qs| == (if t.device.Some? then 3 else 2)
                 && (t.device.Some? ==> qs[2] == Count(DeviceActive(t.device.value), now))
  {
  }

  /** What a read finds when it refuses, and what it raises. */
  ghost predicate Finds(cfg: Settings, h: seq<Event>, p: Permit, t: int, query: Read)
    requires Admissible(p)
  {
    match query
    case Get(_) => CooldownOn(cfg, h, p.target, t)
    case Count(key, _) =>
      match key
      case TestRate(_, _) =>
        |TestsBetween(h, p.target.endpoint, p.target.profile, t - cfg.rateWindow, t)| >= cfg.testLimit
      case TerminalRate(device) => |TerminalsBetween(h, device, t - cfg.rateWindow, t)| >= cfg.terminalLimit
      case GlobalActive => |OpenAt(cfg, h, Anything, t)| >= cfg.maxConnections
      case TerminalActive => |OpenAt(cfg, h, Terminals, t)| >= cfg.maxTerminals
      case TerminalDeviceActive(device) => |OpenAt(cfg, h, TerminalsOf(device), t)| >= cfg.maxTerminalsPerDevice
      case DeviceActive(device) => |OpenAt(cfg, h, OfDevice(device), t)| >= cfg.maxPerDevice
      case _ => false
  }

  function Raises(query: Read): Fault {
    match query
    case Get(_) => AuthenticationRateLimited
    case Count(key, _) =>
      if key.TestRate? || key.TerminalRate? then ConnectionRateLimited
      else if key.TerminalActive? || key.TerminalDeviceActive? then TerminalLimitReached
      else ConnectionLimitReached
  }

  /** The first of the reads that finds something gives the fault that is due. */
  lemma {:induction false} FirstFindIsDue(cfg: Settings, h: seq<Event>, p: Permit, t: int, i: nat)
    requires Admissible(p)
    requires var qs := Reads(cfg, Acquire(p), t);
             i < |qs| && Finds(cfg, h, p, t, qs[i]) && forall j: nat :: j < i ==> !Finds(cfg, h, p, t, qs[j])
    ensures DueFault(cfg, h, p, t) == Some(Raises(Reads(cfg, Acquire(p), t)[i]))
  {
    hide CooldownOn, TestsBetween, TerminalsBetween, OpenAt, Reads;
    ReadsAre(cfg, p, t);
    var qs := Reads(cfg, Acquire(p), t);
    assert forall j: nat :: j < i ==> !Finds(cfg, h, p, t, qs[j]);
    assert i > 0 ==> !Finds(cfg, h, p, t, qs[0]);
    assert i > 1 ==> !Finds(cfg, h, p, t, qs[1]);
    assert i > 2 ==> !Finds(cfg, h, p, t, qs[2]);
    assert i > 3 ==> !Finds(cfg, h, p, t, qs[3]);
    assert i > 4 ==> !Finds(cfg, h, p, t, qs[4]);
  }

  /** The keys an admission counts. */
  predicate IsCounted(p: Permit, key: Key) {
    || key == GlobalActive || key == TestRate(p.target.endpoint, p.target.profile)
    || (p.operation == Terminal && key == TerminalActive)
    || (p.target.device.Some? && (key == DeviceActive(p.target.device.value)
                                  || key == TerminalRate(p.target.device.value)
                                  || key == TerminalDeviceActive(p.target.device.value)))
  }

  lemma {:induction false} FindsWhenFull(cfg: Settings, h: seq<Event>, p: Permit, t: int, query: Read)
    requires Legal(cfg, h) && Admissible(p) && (h != [] ==> h[|h| - 1].at <= t)
    requires query.Count? ==> IsCounted(p, query.key)
    ensures Finds(cfg, h, p, t, query)
       <==> match query case Get(_) => CoolingDown(cfg, h, p.target, t) case Count(key, _) => !HasRoom(cfg, h, key, t)
  {
    hide Legal, HasRoom, CoolingDown, CooldownOn, TestsBetween, TerminalsBetween, OpenAt;
    RoomIs(cfg, h, p, t);
  }

  lemma {:induction false} ReadFinds(cfg: Settings, s: Server, p: Permit, i: nat)
    requires StateInv(cfg, s) && Admissible(p) && i < |Reads(cfg, Acquire(p), s.clock)|
    ensures Refused(cfg, s, p, i) <==> Finds(cfg, s.history, p, s.clock, Reads(cfg, Acquire(p), s.clock)[i])
  {
    hide StateInv, Legal, HasRoom, CoolingDown, Finds, Reads, Refused, Occupied, IsCounted;
    LegalNow(cfg, s);
    CountsAre(cfg, p, s.clock, i);
    FindsWhenFull(cfg, s.history, p, s.clock, Reads(cfg, Acquire(p), s.clock)[i]);
    RefusalMeansFull(cfg, s, p, i);
    if Reads(cfg, Acquire(p), s.clock)[i].Count? {
      CountRefusalMeansFull(cfg, s, p, i);
    }
  }

  lemma {:induction false} CountsAre(cfg: Settings, p: Permit, now: int, i: nat)
    requires Admissible(p) && i < |Reads(cfg, Acquire(p), now)|
    ensures Reads(cfg, Acquire(p), now)[i].Count? ==> IsCounted(p, Reads(cfg, Acquire(p), now)[i].key)
  {
    hide Reads;
    ReadsAre(cfg, p, now);
  }

  /** The first read that refuses raises the fault that is due. */
  lemma {:induction false} FirstFaultIsDue(cfg: Settings, s: Server, p: Permit, i: nat)
    requires StateInv(cfg, s) && Admissible(p)
    requires RefusesFirst(cfg, s, p, i, |Reads(cfg, Acquire(p), s.clock)|)
    ensures DueFault(cfg, s.history, p, s.clock) == Some(FaultOf(cfg, s, p, i))
  {
    hide StateInv, Reads, Refused, Finds, FaultOf, DueFault, Raises;
    forall j: nat | j <= i
      ensures Refused(cfg, s, p, j) <==> Finds(cfg, s.history, p, s.clock, Reads(cfg, Acquire(p), s.clock)[j])
    {
      ReadFinds(cfg, s, p, j);
    }
    FirstFindIsDue(cfg, s.history, p, s.clock, i);
    FaultIs(cfg, s, p, i);
  }

  lemma {:induction false} LegalNow(cfg: Settings, s: Server)
    requires StateInv(cfg, s)
    ensures Legal(cfg, s.history) && (s.history != [] ==> s.history[|s.history| - 1].at <= s.clock)
  {
  }

  lemma {:induction false} FaultIs(cfg: Settings, s: Server, p: Permit, i: nat)
    requires Admissible(p) && i < |Reads(cfg, Acquire(p), s.clock)| && Refused(cfg, s, p, i)
    ensures FaultOf(cfg, s, p, i) == Raises(Reads(cfg, Acquire(p), s.clock)[i])
  {
    hide Reads, Evaluate;
  }

  /** From every reachable state an undisturbed client is admitted if and only if no fault is due, and otherwise gets the
      fault that is due. */
  lemma {:induction false} AdmitsUnlessDue(cfg: Settings, clock: int, steps: seq<Step>, client: nat, p: Permit)
    requires var m := RunSteps(cfg, Initial(clock), steps);
             && Admissible(p) && p.id !in m.used
             && (client in m.clients ==> m.clients[client].phase.Finished?)
    ensures var m := RunSteps(cfg, Initial(clock), steps);
            var m' := RunSteps(cfg, m, SoloAttempt(cfg, client, p, m.server.clock));
            match DueFault(cfg, m.server.history, p, m.server.clock)
            case None => m'.server.history == m.server.history + [Admitted(p, m.server.clock, m.server.clock)]
            case Some(fault) =>
              m'.server == m.server && client in m'.clients && m'.clients[client].phase == Finished(Raised(fault))
  {
    hide RunSteps, SoloAttempt, StateInv, Legal, DueFault, FaultOf, ShouldAdmit, Reads, Refused;
    var m := RunSteps(cfg, Initial(clock), steps);
    EveryRunIsSerial(cfg, clock, steps);
    AdmitsExactlyWhenItShould(cfg, clock, steps, client, p);
    LegalNow(cfg, m.server);
    NothingIsDue(cfg, m.server.history, p, m.server.clock);
    if !ShouldAdmit(cfg, m.server.history, p, m.server.clock) {
      var m' := RunSteps(cfg, m, SoloAttempt(cfg, client, p, m.server.clock));
      var i: nat :| RefusesFirst(cfg, m.server, p, i, |Reads(cfg, Acquire(p), m.server.clock)|)
                    && m'.clients[client].phase.outcome == Raised(FaultOf(cfg, m.server, p, i));
      FirstFaultIsDue(cfg, m.server, p, i);
    }
  }

  // ---- Refusals among other clients ----

  /** At `t`, a client that read the time `now` is refused rightly by this fault. */
  ghost predicate IsDue(cfg: Settings, h: seq<Event>, p: Permit, fault: Fault, now: int, t: int)
    requires Admissible(p)
  {
    var d := p.target.device;
    match fault
    case AuthenticationRateLimited => CooldownOn(cfg, h, p.target, t)
    case ConnectionRateLimited =>
      || (p.operation == ConnectionTest
          && |TestsBetween(h, p.target.endpoint, p.target.profile, now - cfg.rateWindow, t)| >= cfg.testLimit)
      || (p.operation == Terminal && |TerminalsBetween(h, d.value, now - cfg.rateWindow, t)| >= cfg.terminalLimit)
    case TerminalLimitReached =>
      && p.operation == Terminal
      && (|OpenAt(cfg, h, Terminals, now)| >= cfg.maxTerminals
          || |OpenAt(cfg, h, TerminalsOf(d.value), now)| >= cfg.maxTerminalsPerDevice)
    case ConnectionLimitReached =>
      || |OpenAt(cfg, h, Anything, now)| >= cfg.maxConnections
      || (d.Some? && |OpenAt(cfg, h, OfDevice(d.value), now)| >= cfg.maxPerDevice)
    case GateUnavailable => false
  }

  lemma {:induction false} JustifiedIsDue(cfg: Settings, h: seq<Event>, p: Permit, fault: Fault, now: int, t: int)
    requires Legal(cfg, h) && Admissible(p) && (h != [] ==> h[|h| - 1].at <= t)
    requires Justifies(cfg, h, p, fault, now, t)
    ensures IsDue(cfg, h, p, fault, now, t)
  {
    hide Legal, HasRoom, CoolingDown, CooldownOn, TestsBetween, TerminalsBetween, OpenAt, ChargedBetween;
    match fault
    case AuthenticationRateLimited => CooldownByPosition(cfg, h, p.target, t);
    case ConnectionRateLimited =>
      RateRoom(cfg, h, RateKey(p).value, now, t);
      TestsAreCharged(h, p.target.endpoint, p.target.profile, now - cfg.rateWindow, t);
      if p.operation == Terminal {
        TerminalsAreCharged(h, p.target.device.value, now - cfg.rateWindow, t);
      }
    case TerminalLimitReached =>
      KindRoom(cfg, h, Terminals, now);
      KindRoom(cfg, h, TerminalsOf(p.target.device.value), now);
    case ConnectionLimitReached =>
      KindRoom(cfg, h, Anything, now);
      if p.target.device.Some? {
        KindRoom(cfg, h, OfDevice(p.target.device.value), now);
      }
    case GateUnavailable =>
  }

  /** For every run: a call that ends by a refusal is refused rightly at the instant of the read that refuses it, by the
      time the call had read. */
  lemma {:induction false} RefusalIsDue(cfg: Settings, clock: int, steps: seq<Step>, id: nat)
    requires var m := RunSteps(cfg, Initial(clock), steps);
             && id in m.clients && m.clients[id].phase.Reading?
             && ReadStep(cfg, m, id).clients[id].phase.Finished?
    ensures var m := RunSteps(cfg, Initial(clock), steps);
            var c, end := m.clients[id], ReadStep(cfg, m, id).clients[id].phase.outcome;
            && c.call.Acquire? && Admissible(c.call.permit) && end.Raised?
            && c.started <= c.phase.now <= m.server.clock
            && IsDue(cfg, m.server.history, c.call.permit, end.fault, c.phase.now, m.server.clock)
  {
    hide RunSteps, Reads, Evaluate, Refusal, Legal, StateInv, Justifies, IsDue;
    var m := RunSteps(cfg, Initial(clock), steps);
    RefusalIsJustified(cfg, clock, steps, id);
    EveryRunIsSerial(cfg, clock, steps);
    LegalNow(cfg, m.server);
    var c, end := m.clients[id], ReadStep(cfg, m, id).clients[id].phase.outcome;
    JustifiedIsDue(cfg, m.server.history, c.call.permit, end.fault, c.phase.now, m.server.clock);
  }
}
