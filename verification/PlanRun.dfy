/** Applying a change plan, as a state machine: any number of concurrent calls to apply, and a failure at any
    step of any of them. Claiming the plan under its row lock and committing is one step. */
module PlanRun {
  import opened Wrappers
  import opened Lines
  import opened Device
  import opened CommandLine
  import opened CiscoDriver
  import opened Facts
  import opened StoredText

  datatype Status = Draft | Applying | Applied | Failed | RolledBack | RollbackFailed

  /** What is stored with the plan: its commands are text, newline-joined, and are split back into lines when it is
      applied. A plan that does not hold exactly one step is refused. */
  datatype Plan = Plan(step: ChangeStep, renderedCommands: string, inverseCommands: string, steps: nat)
  {
    function Commands(): seq<string> {
      SplitLines(renderedCommands)
    }

    function Inverse(): seq<string> {
      SplitLines(inverseCommands)
    }
  }

  /** How far a call to apply has come. */
  datatype Phase = Looking | Pushing | Reading | Recording | RollingBack | Over

  /** What was done to the device, and what it showed. */
  datatype Entry = Pushed(complete: bool) | Confirmed | Unconfirmed | Undone(complete: bool)

  /** `accident` records a failure that nothing in apply handles. */
  datatype World = World(status: Status, config: Config, calls: map<nat, Phase>, log: seq<Entry>, accident: bool)

  /** What happens next: a call arrives, or a call in progress goes on, breaks off with an error or dies with
      its process after so many commands. A read-back shows some context. */
  datatype Happening =
    | Arrives(id: nat)
    | Goes(id: nat)
    | Reads(id: nat, context: ChangeContext)
    | Breaks(id: nat, after: nat)
    | Dies(id: nat, after: nat)

  predicate Live(phase: Phase) {
    phase != Over
  }

  function Start(c: Config): World {
    World(Draft, c, map[], [], false)
  }

  function Enter(w: World, id: nat, phase: Phase): World {
    w.(calls := w.calls[id := phase])
  }

  function Cut(after: nat, commands: seq<string>): nat {
    if after <= |commands| then after else |commands|
  }

  /** Sending the first commands of a batch. */
  function Send(w: World, commands: seq<string>, after: nat): Outcome {
    RunLines(w.config, commands[..Cut(after, commands)])
  }

  function Next(p: Plan, w: World, h: Happening): World {
    if h.Arrives? then
      if h.id in w.calls then w
      // Only a draft is claimed; every other call is turned away.
      else if w.status == Draft then Enter(w.(status := Applying), h.id, Looking)
      else Enter(w, h.id, Over)
    else if h.id !in w.calls then w
    else match w.calls[h.id]
         case Looking => NextLooking(p, w, h)
         case Pushing => NextPushing(p, w, h)
         case Reading => NextReading(p, w, h)
         case Recording => NextRecording(w, h)
         case RollingBack => NextRollingBack(p, w, h)
         case Over => w
  }

  /** Looking the device and its driver up. */
  function NextLooking(p: Plan, w: World, h: Happening): World
    requires !h.Arrives?
  {
    if h.Goes? then if p.steps == 1 then Enter(w, h.id, Pushing) else Enter(w.(status := Failed), h.id, Over)
    else if h.Reads? then w
    else Enter(w.(accident := true), h.id, Over)
  }

  /** Connecting and sending the rendered commands; an error on the way leads to the rollback. */
  function NextPushing(p: Plan, w: World, h: Happening): World
    requires !h.Arrives?
  {
    match h
    case Goes(id) =>
      var sent := RunLines(w.config, p.Commands());
      Enter(w.(config := sent.config, log := w.log + [Pushed(sent.completed)]), id,
            if sent.completed then Reading else RollingBack)
    case Breaks(id, after) =>
      Enter(w.(config := Send(w, p.Commands(), after).config, log := w.log + [Pushed(false)]), id, RollingBack)
    case Dies(id, after) =>
      Enter(w.(config := Send(w, p.Commands(), after).config, log := w.log + [Pushed(false)], accident := true), id, Over)
    case _ => w
  }

  /** Reading the device back and checking what it shows. */
  function NextReading(p: Plan, w: World, h: Happening): World
    requires !h.Arrives?
  {
    match h
    case Reads(id, context) =>
      if PostCheckOk(p.step, context) then Enter(w.(log := w.log + [Confirmed]), id, Recording)
      else Enter(w.(log := w.log + [Unconfirmed]), id, RollingBack)
    case Breaks(id, _) => Enter(w.(log := w.log + [Unconfirmed]), id, RollingBack)
    case Dies(id, _) => Enter(w.(accident := true), id, Over)
    case Goes(_) => w
  }

  /** Storing the interfaces, taking the snapshot and recording the outcome: no error here is handled. */
  function NextRecording(w: World, h: Happening): World
    requires !h.Arrives?
  {
    if h.Goes? then Enter(w.(status := Applied), h.id, Over)
    else if h.Reads? then w
    else Enter(w.(accident := true), h.id, Over)
  }

  /** Sending the inverse commands; any error is recorded as a failed rollback. */
  function NextRollingBack(p: Plan, w: World, h: Happening): World
    requires !h.Arrives?
  {
    match h
    case Goes(id) =>
      var sent := RunLines(w.config, p.Inverse());
      Enter(w.(config := sent.config, log := w.log + [Undone(sent.completed)],
               status := if sent.completed then RolledBack else RollbackFailed), id, Over)
    case Breaks(id, after) =>
      Enter(w.(config := Send(w, p.Inverse(), after).config, log := w.log + [Undone(false)],
               status := RollbackFailed), id, Over)
    case Dies(id, after) =>
      Enter(w.(config := Send(w, p.Inverse(), after).config, log := w.log + [Undone(false)], accident := true), id, Over)
    case Reads(_, _) => w
  }

  function RunPlan(p: Plan, w: World, hs: seq<Happening>): World
    decreases |hs|
  {
    if hs == [] then w else RunPlan(p, Next(p, w, hs[0]), hs[1..])
  }

  // ---- What every run keeps ----

  /** At most one call is live, and only while the plan is being applied. */
  ghost predicate OneLive(w: World) {
    && (forall i, j :: i in w.calls && j in w.calls && Live(w.calls[i]) && Live(w.calls[j]) ==> i == j)
    && (w.status != Applying ==> forall i :: i in w.calls ==> !Live(w.calls[i]))
    && (w.status == Draft ==> w.calls == map[])
  }

  /** Some number of the rendered commands got in. */
  ghost predicate PartlyPushed(p: Plan, c: Config, w: World) {
    exists k :: 0 <= k <= |p.Commands()| && w.config == RunLines(c, p.Commands()[..k]).config
  }

  /** All of them did, and were accepted. */
  predicate FullyPushed(p: Plan, c: Config, w: World) {
    Outcome(w.config, true) == RunLines(c, p.Commands())
  }

  /** The log and the device while a call is in this phase. */
  ghost predicate PhaseOk(p: Plan, c: Config, w: World, phase: Phase) {
    match phase
    case Looking => w.log == [] && w.config == c
    case Pushing => w.log == [] && w.config == c
    case Reading => w.log == [Pushed(true)] && FullyPushed(p, c, w)
    case Recording => w.log == [Pushed(true), Confirmed] && FullyPushed(p, c, w)
    case RollingBack => (w.log == [Pushed(false)] || w.log == [Pushed(true), Unconfirmed]) && PartlyPushed(p, c, w)
    case Over => true
  }

  /** The log in each state of the plan. */
  ghost predicate StatusOk(p: Plan, c: Config, w: World) {
    match w.status
    case Draft => w.log == [] && w.config == c && !w.accident
    case Applying => LogOk(w.log)
    case Applied => w.log == [Pushed(true), Confirmed] && FullyPushed(p, c, w)
    case Failed => w.log == [] && w.config == c
    case RolledBack => exists sent: Config :: UndoneFrom(p, c, w, sent) && RunLines(sent, p.Inverse()) == Outcome(w.config, true)
    case RollbackFailed => |w.log| >= 2 && LogOk(w.log) && w.log[|w.log| - 1] == Undone(false)
  }

  ghost predicate UndoneFrom(p: Plan, c: Config, w: World, sent: Config) {
    && (w.log == [Pushed(false), Undone(true)] || w.log == [Pushed(true), Unconfirmed, Undone(true)])
    && exists k :: 0 <= k <= |p.Commands()| && sent == RunLines(c, p.Commands()[..k]).config
  }

  /** One push at the most; one undo at the most, and only behind a push that failed or was not confirmed. */
  predicate LogOk(log: seq<Entry>) {
    || log == [] || log == [Pushed(false)] || log == [Pushed(true)]
    || log == [Pushed(true), Confirmed] || log == [Pushed(true), Unconfirmed]
    || (|log| == 2 && log[0] == Pushed(false) && log[1].Undone?)
    || (|log| == 3 && log[0] == Pushed(true) && log[1] == Unconfirmed && log[2].Undone?)
  }

  ghost predicate Inv(p: Plan, c: Config, w: World) {
    && OneLive(w) && StatusOk(p, c, w)
    && (forall i :: i in w.calls ==> PhaseOk(p, c, w, w.calls[i]))
    && (w.status == Applying ==> w.accident || exists i :: i in w.calls && Live(w.calls[i]))
    && (w.accident ==> w.status == Applying && forall i :: i in w.calls ==> !Live(w.calls[i]))
  }

  lemma {:induction false} StartsOk(p: Plan, c: Config)
    ensures Inv(p, c, Start(c))
  {
  }

  /** Leaving a live phase for another: nothing else is live, so only this call and the outcome matter. */
  lemma {:induction false} MoveKeeps(p: Plan, c: Config, w: World, id: nat, phase: Phase, next: World)
    requires Inv(p, c, w) && id in w.calls && Live(w.calls[id]) && Live(phase)
    requires next.calls == w.calls[id := phase] && next.status == w.status && next.accident == w.accident
    requires PhaseOk(p, c, next, phase) && LogOk(next.log)
    ensures Inv(p, c, next)
  {
    hide FullyPushed, PartlyPushed, LogOk;
    forall i | i in next.calls ensures PhaseOk(p, c, next, next.calls[i]) {
      if i != id {
        assert !Live(w.calls[i]);
      }
    }
    assert next.calls[id] == phase;
  }

  /** The end of a call. */
  lemma {:induction false} EndKeeps(p: Plan, c: Config, w: World, id: nat, next: World)
    requires Inv(p, c, w) && id in w.calls && Live(w.calls[id])
    requires next.calls == w.calls[id := Over] && next.status != Draft && StatusOk(p, c, next)
    requires next.accident <==> next.status == Applying
    ensures Inv(p, c, next)
  {
    hide StatusOk, LogOk;
    forall i | i in next.calls ensures !Live(next.calls[i]) {
      if i != id {
        assert !Live(w.calls[i]);
      }
    }
  }

  lemma {:induction false} LivePhase(p: Plan, c: Config, w: World, id: nat)
    requires Inv(p, c, w) && id in w.calls && Live(w.calls[id])
    ensures w.status == Applying && !w.accident && PhaseOk(p, c, w, w.calls[id])
  {
  }

  lemma {:induction false} ArriveKeeps(p: Plan, c: Config, w: World, id: nat)
    requires Inv(p, c, w)
    ensures Inv(p, c, Next(p, w, Arrives(id)))
  {
    hide FullyPushed, PartlyPushed, UndoneFrom, RunLines, StatusOk;
    var next := Next(p, w, Arrives(id));
    if id !in w.calls && w.status == Draft {
      FirstArrival(p, c, w, id);
    } else if id !in w.calls {
      SameStatus(p, c, w, next);
      forall i | i in next.calls ensures PhaseOk(p, c, next, next.calls[i]) {
        if i != id {
          assert PhaseOk(p, c, w, w.calls[i]);
          SamePhase(p, c, w, next, w.calls[i]);
        }
      }
      if w.status == Applying && !w.accident {
        var i :| i in w.calls && Live(w.calls[i]);
        assert i in next.calls && Live(next.calls[i]);
      }
    }
  }

  lemma {:induction false} SameStatus(p: Plan, c: Config, w: World, next: World)
    requires StatusOk(p, c, w) && next == w.(calls := next.calls)
    ensures StatusOk(p, c, next)
  {
    hide RunLines;
    if w.status == RolledBack {
      var sent: Config :| UndoneFrom(p, c, w, sent) && RunLines(sent, p.Inverse()) == Outcome(w.config, true);
      assert UndoneFrom(p, c, next, sent);
    }
  }

  lemma {:induction false} FirstArrival(p: Plan, c: Config, w: World, id: nat)
    requires Inv(p, c, w) && w.status == Draft && id !in w.calls
    ensures Inv(p, c, Next(p, w, Arrives(id)))
  {
    hide FullyPushed, PartlyPushed, UndoneFrom, RunLines;
    var next := Next(p, w, Arrives(id));
    assert next == World(Applying, c, map[id := Looking], [], false);
    assert id in next.calls && Live(next.calls[id]);
  }

  lemma {:induction false} SamePhase(p: Plan, c: Config, w: World, next: World, phase: Phase)
    requires next.log == w.log && next.config == w.config && PhaseOk(p, c, w, phase)
    ensures PhaseOk(p, c, next, phase)
  {
  }

  lemma {:induction false} PushedPrefix(p: Plan, c: Config, w: World, after: nat, next: World)
    requires w.config == c && next.config == Send(w, p.Commands(), after).config
    ensures PartlyPushed(p, c, next)
  {
    hide RunLines;
    var k := Cut(after, p.Commands());
    assert 0 <= k <= |p.Commands()| && next.config == RunLines(c, p.Commands()[..k]).config;
  }

  lemma {:induction false} PushedAll(p: Plan, c: Config, next: World)
    requires next.config == RunLines(c, p.Commands()).config
    ensures PartlyPushed(p, c, next)
  {
    hide RunLines;
    var k := |p.Commands()|;
    assert p.Commands()[..k] == p.Commands();
    assert 0 <= k <= |p.Commands()| && next.config == RunLines(c, p.Commands()[..k]).config;
  }

  lemma {:induction false} LookingKeeps(p: Plan, c: Config, w: World, h: Happening)
    requires Inv(p, c, w) && !h.Arrives? && h.id in w.calls && w.calls[h.id] == Looking
    ensures Inv(p, c, Next(p, w, h))
  {
    hide Inv, RunLines;
    LivePhase(p, c, w, h.id);
    var next := Next(p, w, h);
    if h.Goes? && p.steps == 1 {
      MoveKeeps(p, c, w, h.id, Pushing, next);
    } else if !h.Reads? {
      EndKeeps(p, c, w, h.id, next);
    }
  }

  lemma {:induction false} PushingKeeps(p: Plan, c: Config, w: World, h: Happening)
    requires Inv(p, c, w) && !h.Arrives? && h.id in w.calls && w.calls[h.id] == Pushing
    ensures Inv(p, c, Next(p, w, h))
  {
    hide Inv, RunLines, PartlyPushed, Send;
    LivePhase(p, c, w, h.id);
    var next := Next(p, w, h);
    match h
    case Goes(id) =>
      PushedAll(p, c, next);
      MoveKeeps(p, c, w, id, next.calls[id], next);
    case Breaks(id, after) =>
      PushedPrefix(p, c, w, after, next);
      MoveKeeps(p, c, w, id, RollingBack, next);
    case Dies(id, after) => EndKeeps(p, c, w, id, next);
    case Reads(_, _) =>
  }

  lemma {:induction false} ReadingKeeps(p: Plan, c: Config, w: World, h: Happening)
    requires Inv(p, c, w) && !h.Arrives? && h.id in w.calls && w.calls[h.id] == Reading
    ensures Inv(p, c, Next(p, w, h))
  {
    hide Inv, RunLines, PartlyPushed, PostCheckOk;
    LivePhase(p, c, w, h.id);
    var next := Next(p, w, h);
    PushedAll(p, c, next);
    match h
    case Reads(id, context) => MoveKeeps(p, c, w, id, next.calls[id], next);
    case Breaks(id, _) => MoveKeeps(p, c, w, id, RollingBack, next);
    case Dies(id, _) => EndKeeps(p, c, w, id, next);
    case Goes(_) =>
  }

  lemma {:induction false} RecordingKeeps(p: Plan, c: Config, w: World, h: Happening)
    requires Inv(p, c, w) && !h.Arrives? && h.id in w.calls && w.calls[h.id] == Recording
    ensures Inv(p, c, Next(p, w, h))
  {
    hide Inv, RunLines;
    LivePhase(p, c, w, h.id);
    if !h.Reads? {
      EndKeeps(p, c, w, h.id, Next(p, w, h));
    }
  }

  lemma {:induction false} RollingBackKeeps(p: Plan, c: Config, w: World, h: Happening)
    requires Inv(p, c, w) && !h.Arrives? && h.id in w.calls && w.calls[h.id] == RollingBack
    ensures Inv(p, c, Next(p, w, h))
  {
    hide Inv, RunLines, Send;
    LivePhase(p, c, w, h.id);
    var next := Next(p, w, h);
    match h
    case Goes(id) =>
      if RunLines(w.config, p.Inverse()).completed {
        assert UndoneFrom(p, c, next, w.config);
        assert RunLines(w.config, p.Inverse()) == Outcome(next.config, true);
      }
      EndKeeps(p, c, w, id, next);
    case Breaks(id, _) => EndKeeps(p, c, w, id, next);
    case Dies(id, _) => EndKeeps(p, c, w, id, next);
    case Reads(_, _) =>
  }

  /** Every step of every call keeps the invariant. */
  lemma {:induction false} NextKeeps(p: Plan, c: Config, w: World, h: Happening)
    requires Inv(p, c, w)
    ensures Inv(p, c, Next(p, w, h))
  {
    hide Inv, RunLines, NextLooking, NextPushing, NextReading, NextRecording, NextRollingBack;
    if h.Arrives? {
      ArriveKeeps(p, c, w, h.id);
    } else if h.id in w.calls {
      match w.calls[h.id]
      case Looking => LookingKeeps(p, c, w, h);
      case Pushing => PushingKeeps(p, c, w, h);
      case Reading => ReadingKeeps(p, c, w, h);
      case Recording => RecordingKeeps(p, c, w, h);
      case RollingBack => RollingBackKeeps(p, c, w, h);
      case Over =>
    }
  }

  lemma {:induction false} RunKeeps(p: Plan, c: Config, w: World, hs: seq<Happening>)
    requires Inv(p, c, w)
    ensures Inv(p, c, RunPlan(p, w, hs))
    decreases |hs|
  {
    hide Inv, Next;
    if hs != [] {
      NextKeeps(p, c, w, hs[0]);
      RunKeeps(p, c, Next(p, w, hs[0]), hs[1..]);
    }
  }

  // ---- What that means ----

  function Pushes(log: seq<Entry>): nat {
    if log == [] then 0 else (if log[0].Pushed? then 1 else 0) + Pushes(log[1..])
  }

  function Undos(log: seq<Entry>): nat {
    if log == [] then 0 else (if log[0].Undone? then 1 else 0) + Undos(log[1..])
  }

  /** For every plan, however many calls come and whatever fails: the rendered commands are sent at most once,
      the inverse at most once and only directly behind a push that failed or was not confirmed; an applied plan
      was confirmed and not rolled back. */
  lemma {:induction false} SentAtMostOnce(p: Plan, c: Config, hs: seq<Happening>)
    ensures var w := RunPlan(p, Start(c), hs);
            && Pushes(w.log) <= 1 && Undos(w.log) <= 1
            && (forall i :: 0 <= i < |w.log| && w.log[i].Undone? ==>
                  i > 0 && (w.log[i - 1] == Pushed(false) || w.log[i - 1] == Unconfirmed))
            && (w.status == Applied ==>
                  w.log == [Pushed(true), Confirmed] && RunLines(c, p.Commands()) == Outcome(w.config, true))
  {
    hide RunLines, RunPlan;
    StartsOk(p, c);
    RunKeeps(p, c, Start(c), hs);
    var w := RunPlan(p, Start(c), hs);
    LogIsOk(p, c, w);
    CountLog(w.log);
  }

  lemma {:induction false} LogIsOk(p: Plan, c: Config, w: World)
    requires Inv(p, c, w)
    ensures LogOk(w.log)
  {
    hide RunLines;
  }

  lemma {:induction false} CountLog(log: seq<Entry>)
    requires LogOk(log)
    ensures Pushes(log) <= 1 && Undos(log) <= 1
  {
    if |log| == 2 {
      CountTwo(log[0], log[1]);
      assert log == [log[0], log[1]];
    } else if |log| == 3 {
      CountTwo(log[1], log[2]);
      assert log[1..] == [log[1], log[2]];
    } else if |log| == 1 {
      assert log[1..] == [];
    }
  }

  lemma {:induction false} CountTwo(a: Entry, b: Entry)
    ensures Pushes([a, b]) == (if a.Pushed? then 1 else 0) + (if b.Pushed? then 1 else 0)
    ensures Undos([a, b]) == (if a.Undone? then 1 else 0) + (if b.Undone? then 1 else 0)
  {
    assert [a] + [b] == [a, b] && [b] + [] == [b];
    CountCons(a, [b]);
    CountCons(b, []);
  }

  lemma {:induction false} CountCons(a: Entry, rest: seq<Entry>)
    ensures Pushes([a] + rest) == (if a.Pushed? then 1 else 0) + Pushes(rest)
    ensures Undos([a] + rest) == (if a.Undone? then 1 else 0) + Undos(rest)
  {
    assert ([a] + rest)[1..] == rest;
  }

  /** A plan recorded as rolled back has left the device as it was, if its change can be restored at all; and one
      that was never sent has not touched it. */
  lemma {:induction false} RolledBackMeansRestored(p: Plan, c: Config, hs: seq<Happening>)
    requires PutsBack(c, p.Commands(), p.Inverse())
    ensures var w := RunPlan(p, Start(c), hs);
            w.status == RolledBack || w.status == Draft || w.status == Failed ==> w.config == c
  {
    hide RunLines, RunPlan;
    StartsOk(p, c);
    RunKeeps(p, c, Start(c), hs);
    var w := RunPlan(p, Start(c), hs);
    if w.status == RolledBack {
      var sent: Config :| UndoneFrom(p, c, w, sent) && RunLines(sent, p.Inverse()) == Outcome(w.config, true);
      var k :| 0 <= k <= |p.Commands()| && sent == RunLines(c, p.Commands()[..k]).config;
      assert PutsBackFrom(c, p.Commands(), p.Inverse(), k);
    }
  }

  predicate Terminal(s: Status) {
    s == Applied || s == Failed || s == RolledBack || s == RollbackFailed
  }

  /** No step returns a plan to draft or moves it out of a final state. */
  lemma {:induction false} StatusOnlyAdvances(p: Plan, c: Config, w: World, h: Happening)
    requires Inv(p, c, w)
    ensures var next := Next(p, w, h);
            && (next.status == Draft ==> w.status == Draft)
            && (Terminal(w.status) ==> next.status == w.status && next.config == w.config && next.log == w.log)
  {
    hide RunLines, PostCheckOk, StatusOk, PhaseOk;
    if !h.Arrives? && h.id in w.calls && Live(w.calls[h.id]) {
      LivePhase(p, c, w, h.id);
    }
  }

  /** The same over runs. */
  lemma {:induction false} FinalIsFinal(p: Plan, c: Config, w: World, hs: seq<Happening>)
    requires Inv(p, c, w)
    ensures var end := RunPlan(p, w, hs);
            && (end.status == Draft ==> w.status == Draft)
            && (Terminal(w.status) ==> end.status == w.status && end.config == w.config)
    decreases |hs|
  {
    hide Inv, Next;
    if hs != [] {
      StatusOnlyAdvances(p, c, w, hs[0]);
      NextKeeps(p, c, w, hs[0]);
      FinalIsFinal(p, c, Next(p, w, hs[0]), hs[1..]);
    }
  }

  /** When no call is live any more, a plan is still marked as being applied exactly when one of the failures
      outside the guarded part struck: the look-ups, storing the outcome, or the process itself. */
  lemma {:induction false} StuckExactlyByAccident(p: Plan, c: Config, hs: seq<Happening>)
    requires var w := RunPlan(p, Start(c), hs); forall i :: i in w.calls ==> !Live(w.calls[i])
    ensures var w := RunPlan(p, Start(c), hs); w.status == Applying <==> w.accident
  {
    hide RunLines, RunPlan;
    StartsOk(p, c);
    RunKeeps(p, c, Start(c), hs);
  }

  /** A failing snapshot is such an accident: the change is on the device and confirmed, and the plan is never
      marked applied. */
  lemma {:induction false} SnapshotFailureSticks(p: Plan, c: Config, context: ChangeContext)
    requires p.steps == 1 && RunLines(c, p.Commands()).completed && PostCheckOk(p.step, context)
    ensures var w := RunPlan(p, Start(c), [Arrives(0), Goes(0), Goes(0), Reads(0, context), Breaks(0, 0)]);
            w.status == Applying && w.log == [Pushed(true), Confirmed] && w.config == RunLines(c, p.Commands()).config
  {
    hide RunLines, PostCheckOk;
    assert [Arrives(0), Goes(0), Goes(0), Reads(0, context)] + [Breaks(0, 0)]
        == [Arrives(0), Goes(0), Goes(0), Reads(0, context), Breaks(0, 0)];
    UpToRecording(p, c, context, [Breaks(0, 0)]);
    RunOne(p, Recorded(p, c), Breaks(0, 0));
  }

  function Recorded(p: Plan, c: Config): World {
    World(Applying, RunLines(c, p.Commands()).config, map[0 := Recording], [Pushed(true), Confirmed], false)
  }

  lemma {:induction false} RunCons(p: Plan, w: World, h: Happening, hs: seq<Happening>)
    ensures RunPlan(p, w, [h] + hs) == RunPlan(p, Next(p, w, h), hs)
  {
    hide Next;
    assert ([h] + hs)[1..] == hs;
  }

  lemma {:induction false} RunOne(p: Plan, w: World, h: Happening)
    ensures RunPlan(p, w, [h]) == Next(p, w, h)
  {
    hide Next;
    assert [h] + [] == [h];
    RunCons(p, w, h, []);
  }

  lemma {:induction false} UpToRecording(p: Plan, c: Config, context: ChangeContext, hs: seq<Happening>)
    requires p.steps == 1 && RunLines(c, p.Commands()).completed && PostCheckOk(p.step, context)
    ensures RunPlan(p, Start(c), [Arrives(0), Goes(0), Goes(0), Reads(0, context)] + hs) == RunPlan(p, Recorded(p, c), hs)
  {
    hide RunLines, PostCheckOk, RunPlan;
    var w1 := World(Applying, c, map[0 := Looking], [], false);
    var w2 := World(Applying, c, map[0 := Pushing], [], false);
    var w3 := World(Applying, RunLines(c, p.Commands()).config, map[0 := Reading], [Pushed(true)], false);
    var w4 := Recorded(p, c);
    Maps();
    RunCons(p, Start(c), Arrives(0), [Goes(0), Goes(0), Reads(0, context)] + hs);
    RunCons(p, w1, Goes(0), [Goes(0), Reads(0, context)] + hs);
    RunCons(p, w2, Goes(0), [Reads(0, context)] + hs);
    RunCons(p, w3, Reads(0, context), hs);
    assert [Arrives(0), Goes(0), Goes(0), Reads(0, context)] + hs == [Arrives(0)] + ([Goes(0), Goes(0), Reads(0, context)] + hs);
    assert [Goes(0), Goes(0), Reads(0, context)] + hs == [Goes(0)] + ([Goes(0), Reads(0, context)] + hs);
    assert [Goes(0), Reads(0, context)] + hs == [Goes(0)] + ([Reads(0, context)] + hs);
    assert Next(p, Start(c), Arrives(0)) == w1;
    assert Next(p, w1, Goes(0)) == w2;
    assert Next(p, w2, Goes(0)) == w3;
    assert Next(p, w3, Reads(0, context)) == w4;
  }

  lemma {:induction false} Maps()
    ensures forall a: Phase, b: Phase {:trigger map[(0 as nat) := a][0 := b]} :: map[(0 as nat) := a][0 := b] == map[0 := b]
  {
  }

  /** A single undisturbed call whose read-back passes the check ends with the plan applied. */
  lemma {:induction false} UndisturbedApplies(p: Plan, c: Config, context: ChangeContext)
    requires p.steps == 1 && RunLines(c, p.Commands()).completed && PostCheckOk(p.step, context)
    ensures var w := RunPlan(p, Start(c), [Arrives(0), Goes(0), Goes(0), Reads(0, context), Goes(0)]);
            w.status == Applied && w.config == RunLines(c, p.Commands()).config
  {
    hide RunLines, PostCheckOk;
    assert [Arrives(0), Goes(0), Goes(0), Reads(0, context)] + [Goes(0)]
        == [Arrives(0), Goes(0), Goes(0), Reads(0, context), Goes(0)];
    UpToRecording(p, c, context, [Goes(0)]);
    RunOne(p, Recorded(p, c), Goes(0));
  }
}
