/** What the gate promises its callers, proved of every legal history and so of every run. */
module GatePromises {
  import opened Wrappers
  import opened GateTypes
  import opened RedisStore
  import opened GateHistory
  import opened GateProtocol
  import opened GateServer
  import opened GateRefinement
  import opened GateRuns

  /** Which permits a capacity limit is about, in the words of the settings. */
  predicate Matches(p: Permit, key: Key) {
    match key
    case GlobalActive => true
    case DeviceActive(d) => p.target.device == Some(d)
    case TerminalActive => p.operation.Terminal?
    case TerminalDeviceActive(d) => p.operation.Terminal? && p.target.device == Some(d)
    case _ => false
  }

  /** The permits granted, not given back, unexpired at `t`, and of the kind `key` limits. */
  ghost function LivePermits(cfg: Settings, h: seq<Event>, key: Key, t: int): set<Id> {
    var held := Held(cfg, h);
    set id | id in held && held[id].expiry > t && Matches(held[id].permit, key)
  }

  lemma {:induction false} LivePermitsAreMembers(cfg: Settings, h: seq<Event>, key: Key, t: int)
    requires Legal(cfg, h) && IsActive(key)
    ensures LivePermits(cfg, h, key, t) == Above(Members(cfg, h, key), t)
  {
    HeldIsAdmissible(cfg, h);
    var held := Held(cfg, h);
    assert forall id :: id in held ==> (key in ActiveKeys(held[id].permit) <==> Matches(held[id].permit, key));
  }

  lemma AboveShrinks(m: map<Id, int>, a: int, b: int)
    requires a <= b
    ensures Above(m, b) <= Above(m, a) && |Above(m, b)| <= |Above(m, a)|
  {
    SubsetSize(Above(m, b), Above(m, a));
  }

  lemma {:induction false} SubsetSize<T>(a: set<T>, b: set<T>)
    requires a <= b
    ensures |a| <= |b|
  {
    if a != {} {
      var x :| x in a;
      SubsetSize(a - {x}, b - {x});
    }
  }

  lemma LegalHasRoom(cfg: Settings, h: seq<Event>, e: Event, key: Key)
    requires LegalEvent(cfg, h, e) && e.Admitted? && key in Occupied(e.permit)
    ensures HasRoom(cfg, h, key, e.now) && NoneLater(cfg, h, key, e.now) && e.now <= e.at
  {
  }

  /** One legal event keeps a set within its limit, at every time from its commit on. */
  lemma {:induction false} StepWithinLimit(cfg: Settings, h: seq<Event>, e: Event, key: Key, t: int)
    requires Legal(cfg, h) && LegalEvent(cfg, h, e) && IsActive(key) && e.at <= t
    requires |Above(Members(cfg, h, key), t)| <= Limit(cfg, key)
    ensures |Above(Members(cfg, h + [e], key), t)| <= Limit(cfg, key)
  {
    hide Legal, Members, Occupied, ActiveKeys, Limit, HasRoom, NoneLater, InOrder, CoolingDown;
    LegalIsCoherent(cfg, h, e);
    MembersStep(cfg, h, e, key);
    if e.Admitted? && key in Occupied(e.permit) {
      LegalHasRoom(cfg, h, e, key);
    }
    hide LegalEvent;
    var m, m' := Members(cfg, h, key), Members(cfg, h + [e], key);
    if e.Admitted? && key in Occupied(e.permit) {
      AboveShrinks(m, e.now, t);
      SubsetSize(Above(m', t), Above(m, t) + {e.permit.id});
    } else {
      SubsetSize(Above(m', t), Above(m, t));
    }
  }

  lemma {:induction false} MembersWithinLimit(cfg: Settings, h: seq<Event>, key: Key, t: int)
    requires Legal(cfg, h) && IsActive(key) && (h != [] ==> h[|h| - 1].at <= t)
    ensures |Above(Members(cfg, h, key), t)| <= Limit(cfg, key)
  {
    if h != [] {
      var before, e := h[..|h| - 1], h[|h| - 1];
      assert h == before + [e];
      MembersWithinLimit(cfg, before, key, t);
      StepWithinLimit(cfg, before, e, key, t);
    }
  }

  /** No capacity limit is ever exceeded: at any time during a run, the live permits of each kind fit. */
  lemma {:induction false} CapacityHolds(cfg: Settings, clock: int, steps: seq<Step>, key: Key, t: int)
    requires IsActive(key) && t >= RunSteps(cfg, Initial(clock), steps).server.clock
    ensures |LivePermits(cfg, RunSteps(cfg, Initial(clock), steps).server.history, key, t)| <= Limit(cfg, key)
  {
    var s := RunSteps(cfg, Initial(clock), steps).server;
    EveryRunIsSerial(cfg, clock, steps);
    LivePermitsAreMembers(cfg, s.history, key, t);
    MembersWithinLimit(cfg, s.history, key, t);
  }

  /** The live members of each active set are exactly the live permits it stands for, now and at every
      later moment: pruning and key expiry never drop one, and no stale one is ever counted. */
  lemma {:induction false} ActiveSetsAreExact(cfg: Settings, clock: int, steps: seq<Step>, key: Key, t: int)
    requires IsActive(key) && t >= RunSteps(cfg, Initial(clock), steps).server.clock
    ensures var s := RunSteps(cfg, Initial(clock), steps).server;
            var stored := Live(s.store, key, t);
            (if stored.None? then {} else Above(Scores(stored.value.value), t))
            == LivePermits(cfg, s.history, key, t)
  {
    var s := RunSteps(cfg, Initial(clock), steps).server;
    EveryRunIsSerial(cfg, clock, steps);
    LivePermitsAreMembers(cfg, s.history, key, t);
    assert RelIndex(cfg, s, key);
  }

  ghost function Within(stamps: map<Id, int>, from: int, width: nat): set<Id> {
    set id | id in stamps && from < stamps[id] <= from + width
  }

  lemma {:induction false} WindowWithinLimit(cfg: Settings, h: seq<Event>, key: Key, from: int)
    requires Legal(cfg, h) && IsRate(key)
    ensures |Within(Stamps(h, key), from, cfg.rateWindow)| <= Limit(cfg, key)
  {
    if h != [] {
      var before, e := h[..|h| - 1], h[|h| - 1];
      assert h == before + [e];
      WindowWithinLimit(cfg, before, key, from);
      var m, m' := Stamps(before, key), Stamps(h, key);
      if e.Admitted? && RateKey(e.permit) == Some(key) {
        OccupiedKinds(e.permit, key);
        assert HasRoom(cfg, before, key, e.now) && NoneLater(cfg, before, key, e.now);
        if from < e.now <= from + cfg.rateWindow {
          var recent := Above(m, e.now - cfg.rateWindow);
          SubsetSize(Within(m', from, cfg.rateWindow), recent + {e.permit.id});
        } else {
          IdsCover(cfg, before, key);
          assert Within(m', from, cfg.rateWindow) == Within(m, from, cfg.rateWindow);
        }
      }
    }
  }

  /** The sliding-window rate limit, over whole runs and for every placement of the window. */
  lemma {:induction false} RateLimitHolds(cfg: Settings, clock: int, steps: seq<Step>, key: Key, from: int)
    requires IsRate(key)
    ensures |Within(Stamps(RunSteps(cfg, Initial(clock), steps).server.history, key), from, cfg.rateWindow)|
         <= Limit(cfg, key)
  {
    EveryRunIsSerial(cfg, clock, steps);
    WindowWithinLimit(cfg, RunSteps(cfg, Initial(clock), steps).server.history, key, from);
  }

  lemma {:induction false} LegalPrefix(cfg: Settings, h: seq<Event>, i: nat)
    requires Legal(cfg, h) && i < |h|
    ensures Legal(cfg, h[..i]) && LegalEvent(cfg, h[..i], h[i])
    decreases |h|
  {
    var before := h[..|h| - 1];
    if i < |h| - 1 {
      LegalPrefix(cfg, before, i);
      assert before[..i] == h[..i] && before[i] == h[i];
    }
  }

  /** A failure recorded at position `i` and not yet cleared by a success. */
  ghost predicate Outstanding(h: seq<Event>, key: Key, id: Id, now: int, i: int) {
    && 0 <= i < |h| && h[i].Failed? && h[i].id == id && h[i].now == now && FailuresKey(h[i].target) == key
    && forall j :: i < j < |h| ==> !(h[j].Succeeded? && FailuresKey(h[j].target) == key)
  }

  /** What the failure record holds, said about positions in the history. */
  lemma {:induction false} FailureRecord(cfg: Settings, h: seq<Event>, key: Key, id: Id, now: int)
    requires Legal(cfg, h)
    ensures id in FailuresSince(h, key) && FailuresSince(h, key)[id] == now
       <==> exists i :: Outstanding(h, key, id, now, i)
  {
    if h != [] {
      var before, e := h[..|h| - 1], h[|h| - 1];
      assert h == before + [e];
      FailureRecord(cfg, before, key, id, now);
      IdsCover(cfg, before, key);
      var kept := !(e.Succeeded? && FailuresKey(e.target) == key);
      if i :| Outstanding(before, key, id, now, i) {
        if kept { assert Outstanding(h, key, id, now, i); }
      }
      if e.Failed? && FailuresKey(e.target) == key && e.id == id && e.now == now {
        assert Outstanding(h, key, id, now, |h| - 1);
      }
      if i :| Outstanding(h, key, id, now, i) {
        if i < |h| - 1 { assert Outstanding(before, key, id, now, i); }
      }
    }
  }

  /** A failure trips the cooldown exactly when, with it, the limit is reached inside the window. */
  lemma {:induction false} TripsExactlyAtLimit(cfg: Settings, clock: int, steps: seq<Step>, i: nat)
    requires var h := RunSteps(cfg, Initial(clock), steps).server.history; i < |h| && h[i].Failed?
    ensures var h := RunSteps(cfg, Initial(clock), steps).server.history;
            h[i].tripped <==>
            |Above(FailuresSince(h[..i], FailuresKey(h[i].target)), h[i].now - cfg.failureWindow)| + 1
            >= cfg.failureLimit
  {
    hide RunSteps, Inv, Legal, SerialStore, Initial, LegalEvent, FailuresSince, NoneLater, InOrder;
    EveryRunIsSerial(cfg, clock, steps);
    var h := RunSteps(cfg, Initial(clock), steps).server.history;
    LegalPrefix(cfg, h, i);
    TripIsRight(cfg, h[..i], h[i]);
  }

  lemma {:induction false} TripIsRight(cfg: Settings, h: seq<Event>, e: Event)
    requires LegalEvent(cfg, h, e) && e.Failed?
    ensures e.tripped <==>
            |Above(FailuresSince(h, FailuresKey(e.target)), e.now - cfg.failureWindow)| + 1 >= cfg.failureLimit
  {
    hide FailuresSince, NoneLater, InOrder;
  }

  lemma {:induction false} TripIsRemembered(cfg: Settings, h: seq<Event>, i: nat)
    requires Legal(cfg, h) && i < |h| && h[i].Failed? && h[i].tripped
    ensures LastTrip(h, CooldownKey(h[i].target)).Some?
    ensures h[i].at <= LastTrip(h, CooldownKey(h[i].target)).value <= h[|h| - 1].at
    decreases |h|
  {
    var before, e := h[..|h| - 1], h[|h| - 1];
    if i < |h| - 1 {
      TripIsRemembered(cfg, before, i);
    }
  }

  /** After a tripping failure nobody is admitted to that endpoint and profile for the cooldown
      length, whatever successes are recorded meanwhile. */
  lemma {:induction false} CooldownHolds(cfg: Settings, clock: int, steps: seq<Step>, i: nat, j: nat)
    requires var h := RunSteps(cfg, Initial(clock), steps).server.history;
             && i < j < |h| && h[i].Failed? && h[i].tripped
             && h[j].Admitted? && CooldownKey(h[j].permit.target) == CooldownKey(h[i].target)
    ensures var h := RunSteps(cfg, Initial(clock), steps).server.history;
            h[j].at > h[i].at + cfg.cooldown
  {
    var h := RunSteps(cfg, Initial(clock), steps).server.history;
    EveryRunIsSerial(cfg, clock, steps);
    LegalPrefix(cfg, h, j);
    assert h[..j][i] == h[i];
    TripIsRemembered(cfg, h[..j], i);
  }

  /** Timestamps follow commit order on every sorted set that two operations add to. */
  lemma {:induction false} StampsFollowCommitOrder(cfg: Settings, h: seq<Event>, key: Key, i: nat, j: nat)
    requires Legal(cfg, h) && i < j < |h| && AddsTo(h[i], key) && AddsTo(h[j], key)
    ensures h[i].now <= h[i].at <= h[j].now <= h[j].at
  {
    LegalPrefix(cfg, h, i);
    LegalPrefix(cfg, h, j);
    assert h[..j][i] == h[i];
  }

  /** Admissions share the global set, so the timestamps of any two follow commit order. */
  lemma {:induction false} TimestampsFollowCommitOrder(cfg: Settings, clock: int, steps: seq<Step>, i: nat, j: nat)
    requires var h := RunSteps(cfg, Initial(clock), steps).server.history;
             i < j < |h| && h[i].Admitted? && h[j].Admitted?
    ensures var h := RunSteps(cfg, Initial(clock), steps).server.history;
            h[i].now <= h[i].at <= h[j].now <= h[j].at
  {
    var h := RunSteps(cfg, Initial(clock), steps).server.history;
    EveryRunIsSerial(cfg, clock, steps);
    LegalPrefix(cfg, h, i);
    LegalPrefix(cfg, h, j);
    assert AddsTo(h[i], GlobalActive) && AddsTo(h[j], GlobalActive);
    StampsFollowCommitOrder(cfg, h, GlobalActive, i, j);
  }

  /** So do those of any two failures for the same endpoint and profile. */
  lemma {:induction false} FailureTimestampsFollowCommitOrder(cfg: Settings, clock: int, steps: seq<Step>, i: nat, j: nat)
    requires var h := RunSteps(cfg, Initial(clock), steps).server.history;
             && i < j < |h| && h[i].Failed? && h[j].Failed?
             && FailuresKey(h[i].target) == FailuresKey(h[j].target)
    ensures var h := RunSteps(cfg, Initial(clock), steps).server.history;
            h[i].now <= h[i].at <= h[j].now <= h[j].at
  {
    var h := RunSteps(cfg, Initial(clock), steps).server.history;
    EveryRunIsSerial(cfg, clock, steps);
    StampsFollowCommitOrder(cfg, h, FailuresKey(h[i].target), i, j);
  }

  function IdOf(e: Event): Option<Id> {
    match e
    case Admitted(p, _, _) => Some(p.id)
    case Failed(_, id, _, _, _) => Some(id)
    case _ => None
  }

  lemma {:induction false} IdsAreRecorded(h: seq<Event>, i: nat)
    requires i < |h| && IdOf(h[i]).Some?
    ensures IdOf(h[i]).value in Ids(h)
    decreases |h|
  {
    if i < |h| - 1 {
      IdsAreRecorded(h[..|h| - 1], i);
    }
  }

  /** However many of its eight attempts a call makes, it commits at most once. */
  lemma {:induction false} CommitsAtMostOnce(cfg: Settings, clock: int, steps: seq<Step>, i: nat, j: nat)
    requires var h := RunSteps(cfg, Initial(clock), steps).server.history;
             i < j < |h| && IdOf(h[i]).Some?
    ensures var h := RunSteps(cfg, Initial(clock), steps).server.history;
            IdOf(h[i]) != IdOf(h[j])
  {
    var h := RunSteps(cfg, Initial(clock), steps).server.history;
    EveryRunIsSerial(cfg, clock, steps);
    LegalPrefix(cfg, h, j);
    assert h[..j][i] == h[i];
    IdsAreRecorded(h[..j], i);
  }

  /** A call that gives up after its attempts can name eight different things that got in its way, each during its
      own attempt: a commit to a key it watched, or the expiry of one. The attempts follow one another and the first
      starts no earlier than the call. */
  lemma {:induction false} ExhaustionIsJustified(cfg: Settings, clock: int, steps: seq<Step>, id: nat)
    requires var m := RunSteps(cfg, Initial(clock), steps);
             && id in m.clients && WellFormed(m.clients[id].call)
             && m.clients[id].phase == Finished(Raised(GateUnavailable))
    ensures var m := RunSteps(cfg, Initial(clock), steps);
            var c := m.clients[id];
            && |c.aborts| == 8
            && c.begun <= c.aborts[0].since && c.started <= c.aborts[0].from
            && (forall i :: 0 <= i < |c.aborts| ==> AbortOk(cfg, m.server, c.call, c.aborts[i]))
            && (forall i, j :: 0 <= i < j < |c.aborts| ==>
                  && c.aborts[i].until <= c.aborts[j].since && c.aborts[i].end <= c.aborts[j].from
                  && c.aborts[i].blame != c.aborts[j].blame)
  {
    EveryRunIsSerial(cfg, clock, steps);
    var m := RunSteps(cfg, Initial(clock), steps);
    var c := m.clients[id];
    assert ClientInv(cfg, m.server, c);
    forall i, j | 0 <= i < j < |c.aborts| ensures c.aborts[i].blame != c.aborts[j].blame {
      assert AbortOk(cfg, m.server, c.call, c.aborts[i]) && AbortOk(cfg, m.server, c.call, c.aborts[j]);
    }
  }

  // ---- Releasing ----

  lemma ReturnFrees(cfg: Settings, h: seq<Event>, e: Event, key: Key, t: int)
    requires e.Released?
    ensures LivePermits(cfg, h + [e], key, t) == LivePermits(cfg, h, key, t) - {e.permit.id}
  {
    RecordsStep(cfg, h, e, key);
  }

  lemma {:induction false} LegalReturnFrees(cfg: Settings, h: seq<Event>, i: nat, key: Key, t: int)
    requires Legal(cfg, h) && i < |h| && h[i].Released?
    ensures && h[i].permit.id in Held(cfg, h[..i]) && Held(cfg, h[..i])[h[i].permit.id].permit == h[i].permit
            && LivePermits(cfg, h[..i + 1], key, t) == LivePermits(cfg, h[..i], key, t) - {h[i].permit.id}
  {
    LegalPrefix(cfg, h, i);
    assert h[..i + 1] == h[..i] + [h[i]];
    ReturnFrees(cfg, h[..i], h[i], key, t);
  }

  /** Giving a permit back removes it from the live permits and changes no other. */
  lemma {:induction false} ReleaseFreesItsOwnSlots(cfg: Settings, clock: int, steps: seq<Step>, i: nat, key: Key,
                                                   t: int)
    requires var h := RunSteps(cfg, Initial(clock), steps).server.history; i < |h| && h[i].Released?
    ensures var h := RunSteps(cfg, Initial(clock), steps).server.history;
            && h[i].permit.id in Held(cfg, h[..i]) && Held(cfg, h[..i])[h[i].permit.id].permit == h[i].permit
            && LivePermits(cfg, h[..i + 1], key, t) == LivePermits(cfg, h[..i], key, t) - {h[i].permit.id}
  {
    EveryRunIsSerial(cfg, clock, steps);
    LegalReturnFrees(cfg, RunSteps(cfg, Initial(clock), steps).server.history, i, key, t);
  }

  lemma {:induction false} ReleasedStaysReleased(cfg: Settings, h: seq<Event>, i: nat)
    requires Legal(cfg, h) && i < |h| && h[i].Released?
    ensures h[i].permit.id !in Held(cfg, h) && h[i].permit.id in Ids(h)
    decreases |h|
  {
    var before, e := h[..|h| - 1], h[|h| - 1];
    IdsCover(cfg, before, GlobalActive);
    if i < |h| - 1 {
      ReleasedStaysReleased(cfg, before, i);
    }
  }

  /** Releasing is idempotent: a permit given back once is never given back again. */
  lemma {:induction false} ReleasesOnce(cfg: Settings, clock: int, steps: seq<Step>, i: nat, j: nat)
    requires var h := RunSteps(cfg, Initial(clock), steps).server.history;
             i < j < |h| && h[i].Released? && h[j].Released?
    ensures var h := RunSteps(cfg, Initial(clock), steps).server.history;
            h[i].permit.id != h[j].permit.id
  {
    var h := RunSteps(cfg, Initial(clock), steps).server.history;
    EveryRunIsSerial(cfg, clock, steps);
    LegalPrefix(cfg, h, j);
    assert h[..j][i] == h[i];
    ReleasedStaysReleased(cfg, h[..j], i);
  }

  /** What the one read of a release sees decides it correctly: it goes ahead for every live permit,
      and does nothing when the permit is unknown or its fingerprint differs. */
  lemma {:induction false} ReleaseSeesTheTruth(cfg: Settings, clock: int, steps: seq<Step>, p: Permit)
    requires Admissible(p)
    ensures var s := RunSteps(cfg, Initial(clock), steps).server;
            var reply := Evaluate(Get(PermitKey(p.id)), s.store, s.clock);
            var held := Held(cfg, s.history);
            if p.id in held && held[p.id].permit == p
            then s.clock < held[p.id].expiry ==> !NothingToDo(Release(p), [reply])
            else NothingToDo(Release(p), [reply])
  {
    var s := RunSteps(cfg, Initial(clock), steps).server;
    EveryRunIsSerial(cfg, clock, steps);
    assert RelPermit(cfg, s, p.id);
    IdsCover(cfg, s.history, GlobalActive);
  }
}
