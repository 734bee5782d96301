/** The change pipeline from end to end: validate, render, store, split, push, read back, check, and roll back. */
module PlanOutcome {
  import opened Wrappers
  import opened Lines
  import opened Facts
  import opened Device
  import opened CommandLine
  import opened CiscoDriver
  import opened StoredText
  import opened ChangeLines
  import opened PlanRun
  import opened PostCheck
  import opened Rollback

  /** The plan a preview stores for a step. */
  function PreviewedPlan(step: ChangeStep, context: ChangeContext): Plan
    requires RenderChange(step, context).Some?
  {
    var r := RenderChange(step, context).value;
    Plan(step, Stored(r.commands), Stored(r.inverse), 1)
  }

  lemma {:induction false} PreviewedLines(step: ChangeStep, context: ChangeContext)
    requires RenderChange(step, context).Some?
    ensures var p, r := PreviewedPlan(step, context), RenderChange(step, context).value;
            p.Commands() == Sent(r.commands) && p.Inverse() == Sent(r.inverse) && p.step == step && p.steps == 1
  {
    hide RenderChange, SplitLines, Stored;
  }

  /** For a validated step, under any concurrent calls and any failures: applied means that the device has taken the
      commands just as they were rendered; and if the step is restorable, every other final state but a failed
      rollback means that it has taken none of them. */
  lemma {:induction false} ValidatedPlanIsSafe(c: Config, step: ChangeStep, context: ChangeContext, carrier: bool,
                                               hs: seq<Happening>)
    requires ConfigOk(c) && Reports(c, step, context, carrier) && Accepts(step, context)
    requires RenderChange(step, context).Some?
    ensures var w := RunPlan(PreviewedPlan(step, context), Start(c), hs);
            && (w.status == Applied ==> Outcome(w.config, true) == Run(c, RenderChange(step, context).value.commands))
            && (Restorable(c, step, context, carrier) ==>
                  w.status == RolledBack || w.status == Failed || w.status == Draft ==> w.config == c)
  {
    hide Run, RunLines, RunPlan, Reports, Accepts, Restorable, ConfigOk, RenderChange, PutsBack, Sent, PreviewedPlan;
    hide TypedCleanly;
    var p := PreviewedPlan(step, context);
    PreviewedLines(step, context);
    RollbackExactlyWhen(c, step, context, carrier);
    PushCompletes(c, step, context, carrier);
    SentAtMostOnce(p, c, hs);
    if Restorable(c, step, context, carrier) {
      RolledBackMeansRestored(p, c, hs);
    }
  }

  /** One call that nothing disturbs, with one read-back. */
  function Undisturbed(shown: ChangeContext): seq<Happening> {
    [Arrives(0), Goes(0), Goes(0), Reads(0, shown), Goes(0)]
  }

  /** Whatever way the device prints what was pushed, an undisturbed call ends with the plan applied. */
  ghost predicate AlwaysApplied(pushed: Config, c: Config, step: ChangeStep, before: ChangeContext, carrier: bool)
    requires RenderChange(step, before).Some?
  {
    forall shown :: Reports(pushed, step, shown, carrier) ==>
      RunPlan(PreviewedPlan(step, before), Start(c), Undisturbed(shown)).status == Applied
  }

  /** An undisturbed call applies the plan, whatever way the device prints its configuration, exactly when the check can
      confirm it. If it cannot, no printing lets the plan be applied, unless it is of a static route with alternatives.
      If the plan is not applied, it is rolled back, and the configuration is what it was exactly if the change is
      restorable; a change that was not typed cleanly ends with a failed rollback. */
  lemma {:induction false} UndisturbedOutcome(c: Config, step: ChangeStep, before: ChangeContext, after: ChangeContext,
                                              carrier0: bool, carrier1: bool)
    requires ConfigOk(c) && Reports(c, step, before, carrier0) && Accepts(step, before)
    requires RenderChange(step, before).Some?
    requires Reports(RunLines(c, Sent(RenderChange(step, before).value.commands)).config, step, after, carrier1)
    ensures var w := RunPlan(PreviewedPlan(step, before), Start(c), Undisturbed(after));
            && (Confirmable(c, step, before, carrier1) ==> w.status == Applied)
            && (w.status == Applied && !step.StaticRouteStep? ==> Confirmable(c, step, before, carrier1))
            && (Confirmable(c, step, before, carrier1) <==>
                  AlwaysApplied(RunLines(c, Sent(RenderChange(step, before).value.commands)).config, c, step, before,
                                carrier1))
            && (w.status != Applied && TypedCleanly(step) ==>
                  (w.config == c <==> Restorable(c, step, before, carrier0)))
            && (w.status != Applied && Restorable(c, step, before, carrier0) ==> w.status == RolledBack)
            && (!TypedCleanly(step) ==> w.status == RollbackFailed)
  {
    hide Run, RunLines, RunPlan, Reports, Accepts, Restorable, ConfigOk, RenderChange, Sent, PreviewedPlan;
    hide TypedCleanly;
    hide Confirmable, PostCheckOk, Undisturbed;
    var p := PreviewedPlan(step, before);
    PreviewedLines(step, before);
    forall shown
      ensures RunPlan(p, Start(c), Undisturbed(shown)).status == Applied
         <==> RunLines(c, p.Commands()).completed && PostCheckOk(step, shown)
    {
      UndisturbedEnds(p, c, shown);
    }
    UndisturbedEnds(p, c, after);
    PushCompletes(c, step, before, carrier0);
    RollbackExactlyWhen(c, step, before, carrier0);
    UndoneOutcome(c, p.Commands(), p.Inverse());
    if TypedCleanly(step) {
      PostCheckExactly(c, step, before, after, carrier0, carrier1);
    } else {
      UncleanIsNotConfirmed(c, step, before, carrier1);
    }
  }

  lemma {:induction false} UncleanIsNotConfirmed(c: Config, step: ChangeStep, before: ChangeContext, carrier: bool)
    requires !TypedCleanly(step)
    ensures !Confirmable(c, step, before, carrier)
  {
  }

  /** Undoing all that was pushed. */
  lemma {:induction false} UndoneOutcome(c: Config, lines: seq<string>, inverse: seq<string>)
    ensures var undone := RunLines(RunLines(c, lines).config, inverse);
            && (PutsBack(c, lines, inverse) ==> undone == Outcome(c, true))
            && (LeavesBehind(c, lines, inverse) ==> undone.config != c)
            && (IsRefused(c, lines, inverse) ==> !undone.completed)
  {
    hide RunLines;
    if PutsBack(c, lines, inverse) {
      assert PutsBackFrom(c, lines, inverse, |lines|);
      assert lines[..|lines|] == lines;
    }
  }

  /** A static route is applied by an undisturbed call whatever the device prints, exactly if it can be confirmed. */
  lemma {:induction false} RouteAppliesExactly(c: Config, step: ChangeStep, before: ChangeContext, carrier0: bool,
                                               carrier1: bool)
    requires ConfigOk(c) && Reports(c, step, before, carrier0) && Accepts(step, before) && step.StaticRouteStep?
    ensures RenderChange(step, before).Some?
    ensures var pushed := RunLines(c, Sent(RenderChange(step, before).value.commands));
            Confirmable(c, step, before, carrier1) <==> AlwaysApplied(pushed.config, c, step, before, carrier1)
  {
    hide Run, RunLines, RunPlan, ReportsRoutes, Accepts, Restorable, ConfigOk, RenderChange, Sent, PreviewedPlan;
    hide TypedCleanly, Confirmable, PostCheckOk, Undisturbed;
    RouteConfirmedExactly(c, step, before, carrier0, carrier1);
    var p := PreviewedPlan(step, before);
    PreviewedLines(step, before);
    var pushed := RunLines(c, p.Commands());
    forall after
      ensures RunPlan(p, Start(c), Undisturbed(after)).status == Applied <==> pushed.completed && PostCheckOk(step, after)
    {
      UndisturbedEnds(p, c, after);
    }
    if !pushed.completed {
      var listing := SomeListing(pushed.config);
      assert Reports(pushed.config, step, listing, carrier1);
    }
  }

  /** What the five steps of an undisturbed call come to. */
  lemma {:induction false} UndisturbedEnds(p: Plan, c: Config, shown: ChangeContext)
    requires p.steps == 1
    ensures var w := RunPlan(p, Start(c), Undisturbed(shown));
            var pushed := RunLines(c, p.Commands());
            var undone := RunLines(pushed.config, p.Inverse());
            if pushed.completed && PostCheckOk(p.step, shown) then w.status == Applied && w.config == pushed.config
            else w.status == (if undone.completed then RolledBack else RollbackFailed) && w.config == undone.config
  {
    hide RunLines, PostCheckOk;
    var pushed := RunLines(c, p.Commands());
    if pushed.completed && PostCheckOk(p.step, shown) {
      UndisturbedApplies(p, c, shown);
    } else {
      UndisturbedUnconfirmed(p, c, shown);
    }
  }

  lemma {:induction false} UndisturbedUnconfirmed(p: Plan, c: Config, shown: ChangeContext)
    requires p.steps == 1 && !(RunLines(c, p.Commands()).completed && PostCheckOk(p.step, shown))
    ensures var w := RunPlan(p, Start(c), Undisturbed(shown));
            var undone := RunLines(RunLines(c, p.Commands()).config, p.Inverse());
            w.status == (if undone.completed then RolledBack else RollbackFailed) && w.config == undone.config
  {
    hide RunLines, PostCheckOk, RunPlan;
    var pushed := RunLines(c, p.Commands());
    var w1 := World(Applying, c, map[0 := Looking], [], false);
    var w2 := World(Applying, c, map[0 := Pushing], [], false);
    var w3 := World(Applying, pushed.config, map[0 := if pushed.completed then Reading else RollingBack],
                    [Pushed(pushed.completed)], false);
    var w4 := World(Applying, pushed.config, map[0 := RollingBack],
                    if pushed.completed then [Pushed(true), Unconfirmed] else [Pushed(false)], false);
    Maps();
    RunCons(p, Start(c), Arrives(0), [Goes(0), Goes(0), Reads(0, shown), Goes(0)]);
    RunCons(p, w1, Goes(0), [Goes(0), Reads(0, shown), Goes(0)]);
    RunCons(p, w2, Goes(0), [Reads(0, shown), Goes(0)]);
    RunCons(p, w3, Reads(0, shown), [Goes(0)]);
    RunOne(p, w4, Goes(0));
    assert Undisturbed(shown) == [Arrives(0)] + [Goes(0), Goes(0), Reads(0, shown), Goes(0)];
    assert [Goes(0), Goes(0), Reads(0, shown), Goes(0)] == [Goes(0)] + [Goes(0), Reads(0, shown), Goes(0)];
    assert [Goes(0), Reads(0, shown), Goes(0)] == [Goes(0)] + [Reads(0, shown), Goes(0)];
    assert [Reads(0, shown), Goes(0)] == [Reads(0, shown)] + [Goes(0)];
    assert Next(p, Start(c), Arrives(0)) == w1;
    assert Next(p, w1, Goes(0)) == w2;
    assert Next(p, w2, Goes(0)) == w3;
    assert Next(p, w3, Reads(0, shown)) == w4;
  }
}
