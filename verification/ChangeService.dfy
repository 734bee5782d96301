/** One call to apply, step by step, on the stored plan and the device. */
module ChangeService {
  import opened Wrappers
  import opened Lines
  import opened Device
  import opened CommandLine
  import opened CiscoDriver
  import opened Facts
  import opened StoredText
  import opened PlanRun

  /** What the surroundings do to this call: which of its steps fail, and what the device shows. A broken push
      got that many commands through. */
  datatype Surroundings = Surroundings(lookupFails: bool, pushBreaks: Option<nat>, shown: Option<ChangeContext>,
                                       recordingFails: bool, undoBreaks: Option<nat>)

  lemma {:induction false} RunAppend(p: Plan, w: World, hs: seq<Happening>, h: Happening)
    ensures RunPlan(p, w, hs + [h]) == Next(p, RunPlan(p, w, hs), h)
    decreases |hs|
  {
    hide Next;
    if hs == [] {
      assert hs + [h] == [h];
      RunOne(p, w, h);
    } else {
      assert (hs + [h])[1..] == hs[1..] + [h];
      RunAppend(p, Next(p, w, hs[0]), hs[1..], h);
    }
  }

  class ChangeService {
    const plan: Plan
    var status: Status
    var config: Config
    var log: seq<Entry>

    constructor (plan: Plan, config: Config)
      ensures Valid() && this.plan == plan && status == Draft && this.config == config && log == []
    {
      this.plan := plan;
      status, this.config, log := Draft, config, [];
    }

    /** Nothing has been done for a draft. */
    ghost predicate Valid()
      reads this
    {
      status == Draft ==> log == []
    }

    /** Sends as much of a batch as gets through; true when all of it was accepted. */
    method SendConfig(commands: seq<string>, breaks: Option<nat>) returns (ok: bool)
      modifies this`config
      ensures breaks.None? ==> Outcome(config, ok) == RunLines(old(config), commands)
      ensures breaks.Some? ==> !ok && config == RunLines(old(config), commands[..Cut(breaks.value, commands)]).config
    {
      var sent := if breaks.None? then commands else commands[..Cut(breaks.value, commands)];
      var outcome := RunLines(config, sent);
      config := outcome.config;
      ok := breaks.None? && outcome.completed;
    }

    /** Applies the plan. A plan that is not a draft is left alone. Otherwise the call is a run of the state
        machine, so all that holds of runs holds of it; `raised` says that it ended in an error to its caller. */
    method Apply(s: Surroundings) returns (raised: bool, ghost trace: seq<Happening>, ghost accident: bool)
      requires Valid()
      modifies this
      ensures Valid()
      ensures old(status) != Draft ==> raised && status == old(status) && config == old(config) && log == old(log)
      ensures old(status) == Draft ==>
                && World(status, config, map[0 := Over], log, accident) == RunPlan(plan, Start(old(config)), trace)
                && (raised <==> status == Applying || status == Failed)
                && (status == Applying <==> s.lookupFails || (s.recordingFails && log == [Pushed(true), Confirmed]))
                && (status == Failed <==> !s.lookupFails && plan.steps != 1)
                && (status == Applied <==>
                      && !s.lookupFails && plan.steps == 1 && s.pushBreaks.None?
                      && RunLines(old(config), plan.Commands()).completed
                      && s.shown.Some? && PostCheckOk(plan.step, s.shown.value) && !s.recordingFails)
                && (status == RolledBack ==> PutsBack(old(config), plan.Commands(), plan.Inverse()) ==> config == old(config))
                && (status == RollbackFailed && PutsBack(old(config), plan.Commands(), plan.Inverse()) ==> s.undoBreaks.Some?)
    {
      hide RunLines, PostCheckOk, Next, RunPlan, PutsBack;
      trace, accident := [], false;
      if status != Draft {
        raised := true;
        return;
      }
      ghost var first := Start(config);
      ghost var before := config;
      status, trace := Applying, [Arrives(0)];
      Claims(plan, config);
      if s.lookupFails {
        Fails(plan, first, trace);
        trace, accident, raised := trace + [Breaks(0, 0)], true, true;
        return;
      }
      Looked(plan, config, trace);
      trace := trace + [Goes(0)];
      if plan.steps != 1 {
        status, raised := Failed, true;
        return;
      }
      Sends(plan, before, trace, s.pushBreaks);
      var pushed := SendConfig(plan.Commands(), s.pushBreaks);
      trace := trace + [if s.pushBreaks.None? then Goes(0) else Breaks(0, s.pushBreaks.value)];
      log := log + [Pushed(pushed)];
      assert log == [Pushed(pushed)];
      if pushed {
        Shows(plan, config, first, trace, s.shown);
        trace := trace + [if s.shown.Some? then Reads(0, s.shown.value) else Breaks(0, 0)];
        if s.shown.Some? && PostCheckOk(plan.step, s.shown.value) {
          log := log + [Confirmed];
          Records(plan, config, first, trace, s.recordingFails);
          trace := trace + [if s.recordingFails then Breaks(0, 0) else Goes(0)];
          status := if s.recordingFails then Applying else Applied;
          raised, accident := s.recordingFails, s.recordingFails;
          return;
        }
        log := log + [Unconfirmed];
        assert log == [Pushed(true), Unconfirmed];
      }
      Undoes(plan, config, log, first, trace, s.undoBreaks);
      ghost var pushedSoFar := config;
      var undone := SendConfig(plan.Inverse(), s.undoBreaks);
      trace := trace + [if s.undoBreaks.None? then Goes(0) else Breaks(0, s.undoBreaks.value)];
      log := log + [Undone(undone)];
      assert log[|log| - 1] != Confirmed;
      status, raised := if undone then RolledBack else RollbackFailed, false;
      RestoredFrom(plan, before, pushedSoFar, s.pushBreaks);
    }
  }

  function At(c: Config, phase: Phase, log: seq<Entry>): World {
    World(Applying, c, map[0 := phase], log, false)
  }

  lemma {:induction false} SetPhase(a: Phase, b: Phase)
    ensures map[(0 as nat) := a][0 := b] == map[0 := b]
  {
  }

  lemma {:induction false} Claims(p: Plan, c: Config)
    ensures RunPlan(p, Start(c), [Arrives(0)]) == At(c, Looking, [])
  {
    RunOne(p, Start(c), Arrives(0));
  }

  lemma {:induction false} Fails(p: Plan, first: World, trace: seq<Happening>)
    requires RunPlan(p, first, trace).calls == map[0 := Looking]
    ensures RunPlan(p, first, trace + [Breaks(0, 0)])
         == RunPlan(p, first, trace).(accident := true, calls := map[0 := Over])
  {
    hide RunPlan;
    RunAppend(p, first, trace, Breaks(0, 0));
    SetPhase(Looking, Over);
  }

  lemma {:induction false} Looked(p: Plan, c: Config, trace: seq<Happening>)
    requires RunPlan(p, Start(c), trace) == At(c, Looking, [])
    ensures RunPlan(p, Start(c), trace + [Goes(0)])
         == if p.steps == 1 then At(c, Pushing, []) else World(Failed, c, map[0 := Over], [], false)
  {
    hide RunPlan;
    RunAppend(p, Start(c), trace, Goes(0));
    SetPhase(Looking, Pushing);
    SetPhase(Looking, Over);
  }

  lemma {:induction false} Sends(p: Plan, c: Config, trace: seq<Happening>, breaks: Option<nat>)
    requires RunPlan(p, Start(c), trace) == At(c, Pushing, [])
    ensures var cut := if breaks.None? then p.Commands() else p.Commands()[..Cut(breaks.value, p.Commands())];
            var ok := breaks.None? && RunLines(c, cut).completed;
            RunPlan(p, Start(c), trace + [if breaks.None? then Goes(0) else Breaks(0, breaks.value)])
            == At(RunLines(c, cut).config, if ok then Reading else RollingBack, [Pushed(ok)])
  {
    hide RunPlan, RunLines;
    RunAppend(p, Start(c), trace, if breaks.None? then Goes(0) else Breaks(0, breaks.value));
    SetPhase(Pushing, Reading);
    SetPhase(Pushing, RollingBack);
  }

  lemma {:induction false} Shows(p: Plan, c: Config, first: World, trace: seq<Happening>, shown: Option<ChangeContext>)
    requires RunPlan(p, first, trace) == At(c, Reading, [Pushed(true)])
    ensures var ok := shown.Some? && PostCheckOk(p.step, shown.value);
            RunPlan(p, first, trace + [if shown.Some? then Reads(0, shown.value) else Breaks(0, 0)])
            == At(c, if ok then Recording else RollingBack, [Pushed(true), if ok then Confirmed else Unconfirmed])
  {
    hide RunPlan, PostCheckOk;
    RunAppend(p, first, trace, if shown.Some? then Reads(0, shown.value) else Breaks(0, 0));
    SetPhase(Reading, Recording);
    SetPhase(Reading, RollingBack);
  }

  lemma {:induction false} Records(p: Plan, c: Config, first: World, trace: seq<Happening>, fails: bool)
    requires RunPlan(p, first, trace) == At(c, Recording, [Pushed(true), Confirmed])
    ensures RunPlan(p, first, trace + [if fails then Breaks(0, 0) else Goes(0)])
         == World(if fails then Applying else Applied, c, map[0 := Over], [Pushed(true), Confirmed], fails)
  {
    hide RunPlan;
    RunAppend(p, first, trace, if fails then Breaks(0, 0) else Goes(0));
    SetPhase(Recording, Over);
  }

  lemma {:induction false} Undoes(p: Plan, c: Config, log: seq<Entry>, first: World, trace: seq<Happening>,
                                  breaks: Option<nat>)
    requires RunPlan(p, first, trace) == At(c, RollingBack, log)
    ensures var cut := if breaks.None? then p.Inverse() else p.Inverse()[..Cut(breaks.value, p.Inverse())];
            var ok := breaks.None? && RunLines(c, cut).completed;
            RunPlan(p, first, trace + [if breaks.None? then Goes(0) else Breaks(0, breaks.value)])
            == World(if ok then RolledBack else RollbackFailed, RunLines(c, cut).config, map[0 := Over], log + [Undone(ok)], false)
  {
    hide RunPlan, RunLines;
    RunAppend(p, first, trace, if breaks.None? then Goes(0) else Breaks(0, breaks.value));
    SetPhase(RollingBack, Over);
  }

  lemma {:induction false} RestoredFrom(p: Plan, c: Config, sent: Config, breaks: Option<nat>)
    requires var cut := if breaks.None? then p.Commands() else p.Commands()[..Cut(breaks.value, p.Commands())];
             sent == RunLines(c, cut).config
    ensures PutsBack(c, p.Commands(), p.Inverse()) ==> RunLines(sent, p.Inverse()) == Outcome(c, true)
  {
    hide RunLines;
    if PutsBack(c, p.Commands(), p.Inverse()) {
      var k := if breaks.None? then |p.Commands()| else Cut(breaks.value, p.Commands());
      assert PutsBackFrom(c, p.Commands(), p.Inverse(), k);
      assert p.Commands()[..|p.Commands()|] == p.Commands();
    }
  }
}
