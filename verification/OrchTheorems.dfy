/** What holds in every run of the orchestration machine. */
module OrchTheorems {
  import opened Cloud
  import opened StagePlan
  import opened OrchMachine
  import opened OrchInvariant

  /** The state after a run that began with no strategy and a fresh thread. */
  function After(starting: nat, unmanaged: set<string>, acts: seq<Action>): Sys {
    Exec(Fresh(starting, unmanaged), acts)
  }

  lemma ExecSnoc(s: Sys, acts: seq<Action>, a: Action)
    ensures Exec(s, acts + [a]) == Do(Exec(s, acts), a)
  {
    hide Do;
    assert (acts + [a])[..|acts|] == acts;
  }

  // ---------------------------------------------------------------- one stage at a time

  function InProgress(steps: seq<Step>): set<int> {
    set i | 0 <= i < |steps| && steps[i].state.Working?
  }

  /** All steps that are started and not finished lie in one stage of one group, and there are
      no more of them than the limit used for that group. */
  lemma OneStageInProgress(starting: nat, unmanaged: set<string>, acts: seq<Action>, i: int, j: int)
    requires CleanCreates(Fresh(starting, unmanaged), acts)
    requires i in InProgress(After(starting, unmanaged, acts).steps) && j in InProgress(After(starting, unmanaged, acts).steps)
    ensures var s := After(starting, unmanaged, acts);
      && s.steps[i].stage == s.steps[j].stage && s.steps[i].group == s.steps[j].group
      && s.steps[i].group < |s.caps|
      && |InProgress(s.steps)| <= s.caps[s.steps[i].group]
  {
    hide Exec, WorkersOk, StraysOk, PhaseOk, PcOk, LifeOk, CleanCreates;
    var s := After(starting, unmanaged, acts);
    RunsAreSafe(starting, unmanaged, acts);
    WorkingShareStage(s.steps, s.caps);
    CloseSetSize(InProgress(s.steps), s.caps[s.steps[i].group]);
  }

  lemma WorkingShareStage(steps: seq<Step>, caps: seq<nat>)
    requires ShapeOk(steps, caps) && Frontier(steps)
    ensures forall x: int, y: int :: x in InProgress(steps) && y in InProgress(steps) ==>
      && steps[x].stage == steps[y].stage && steps[x].group == steps[y].group
      && y < x + caps[steps[x].group]
  {
    forall x: int, y: int | x in InProgress(steps) && y in InProgress(steps)
      ensures steps[x].stage == steps[y].stage && steps[x].group == steps[y].group && y < x + caps[steps[x].group]
    {
      if x < y {
        assert steps[x].stage <= steps[y].stage;
      } else if y < x {
        assert steps[y].stage <= steps[x].stage;
      }
    }
  }

  // ---------------------------------------------------------------- workers

  /** A region has at most one worker of a state operator that has not written its result, and it acts on the
      state the step is in; so no result overwrites a newer step state. Any other worker can only
      write "failed" to a step that is aborted, or failed by now. */
  lemma OneWorkerPerRegion(starting: nat, unmanaged: set<string>, acts: seq<Action>, v: Worker, w: Worker)
    requires CleanCreates(Fresh(starting, unmanaged), acts)
    requires v in After(starting, unmanaged, acts).running && w in After(starting, unmanaged, acts).running
    ensures var s := After(starting, unmanaged, acts);
      && (v.region == w.region ==> v == w)
      && (if v.seen.Working? then
            s.running[v] == 1 && exists i :: 0 <= i < |s.steps| && s.steps[i].region == v.region && s.steps[i].state == v.seen
          else
            v.seen == Aborted && forall i :: 0 <= i < |s.steps| && s.steps[i].region == v.region ==>
              s.steps[i].state == Aborted || s.steps[i].state == Failed)
  {
    hide Exec, Frontier, PhaseOk, PcOk, LifeOk, CleanCreates;
    RunsAreSafe(starting, unmanaged, acts);
    var s := After(starting, unmanaged, acts);
    if v.seen.Working? {
      var k := FindStep(s.steps, v);
      OneRegion(s.steps, s.caps, k);
    } else if w.seen.Working? {
      var k := FindStep(s.steps, w);
      OneRegion(s.steps, s.caps, k);
    }
  }

  /** Creating a strategy over such a worker is what breaks this: its result lands on a step that nobody started. */
  lemma UncleanCreateOverwrites(s: Sys, a: Action, w: Worker, i: nat)
    requires a.Create? && s.strategy.None? && s.steps == [] && w in s.running && !w.seen.Working?
    requires i < |Do(s, a).steps| && Do(s, a).steps[i].region == w.region
    ensures Do(s, a).steps[i].state == Initial
    ensures Do(Do(s, a), Finish(w, Raise)).steps[i].state == Failed
    ensures Do(Do(s, a), Finish(w, Raise)).strategy == Do(s, a).strategy
  {
    hide Plan, Validate, WellFormedGroups;
  }

  // ---------------------------------------------------------------- verdicts and failures

  /** A verdict is right about the steps it was decided from. */
  lemma DecidedVerdictIsRight(s: Sys)
    requires Base(s) && s.pc.ApplyEntered? && DoOrch(s).pc.Deciding?
    ensures VerdictOk(DoOrch(s).pc.verdict, DoOrch(s).steps) && InProgress(DoOrch(s).steps) == {}
  {
    hide LifeOk, StraysOk, WorkersOk, PhaseOk, PcOk, ShapeOk, Frontier, AfterFailure;
    LifeOfScan(s);
    VerdictIsRight(s.steps, s.caps, s.pc.stopOnFailure);
  }

  predicate AllFinished(steps: seq<Step>) {
    forall i :: 0 <= i < |steps| ==> steps[i].state in {Complete, Aborted, Failed}
  }

  predicate Failing(steps: seq<Step>) {
    exists i :: 0 <= i < |steps| && steps[i].state == Failed
  }

  /** Some step failed, and every step of its stage is complete or failed. */
  predicate StageFailed(steps: seq<Step>) {
    exists i :: 0 <= i < |steps| && FailedWith(steps, i)
  }

  predicate FailedWith(steps: seq<Step>, i: nat)
    requires i < |steps|
  {
    steps[i].state == Failed && forall j :: 0 <= j < |steps| && steps[j].stage == steps[i].stage ==> steps[j].state in {Complete, Failed}
  }

  /** The stage is not finished, or holds a failure to stop at, and all earlier stages are finished. */
  predicate Current(steps: seq<Step>, sof: bool, stage: nat) {
    && (forall i :: 0 <= i < |steps| && steps[i].stage < stage ==> steps[i].state in {Complete, Aborted, Failed})
    && exists i :: 0 <= i < |steps| && steps[i].stage == stage && (steps[i].state in {Complete, Aborted, Failed} ==> sof && steps[i].state == Failed)
  }

  /** When a verdict is decided, and which: without stop-on-failure as soon as all steps are finished, with it also as soon
      as a failed step has no unfinished and no aborted step in its stage; "failed" if a step failed, else "aborted" if one
      was aborted, else "complete". Otherwise the thread works on the current stage. */
  lemma DecidedExactly(s: Sys)
    requires Base(s) && s.pc.ApplyEntered?
    ensures s.strategy.Some?
    ensures var sof := s.strategy.value.stopOnFailure; var pc := DoOrch(s).pc;
      if (AllFinished(s.steps) && !(sof && Failing(s.steps))) || (sof && StageFailed(s.steps)) then
        var aborted := exists i :: 0 <= i < |s.steps| && s.steps[i].state == Aborted;
        pc == Deciding(if Failing(s.steps) then SwFailed else if aborted then SwAborted else SwComplete, !(sof && Failing(s.steps)))
      else
        pc.Staging? && pc.snap == s.steps && pc.at == 0 && Current(s.steps, sof, pc.stage)
  {
    LifeOfScan(s);
    BaseOfScan(s);
    DecidesExactly(s.steps, s.caps, s.pc.stopOnFailure);
    ScanTo(s);
    hide Base, DoOrch, Decide;
  }

  lemma ScanTo(s: Sys)
    requires s.pc.ApplyEntered?
    ensures DoOrch(s).pc == Decide(s.steps, s.pc.stopOnFailure)
  {
    hide Decide;
  }

  lemma DecidesExactly(steps: seq<Step>, caps: seq<nat>, sof: bool)
    requires ShapeOk(steps, caps) && Frontier(steps) && (sof ==> AfterFailure(steps))
    ensures var pc := Decide(steps, sof);
      if (AllFinished(steps) && !(sof && Failing(steps))) || (sof && StageFailed(steps)) then
        var aborted := exists i :: 0 <= i < |steps| && steps[i].state == Aborted;
        pc == Deciding(if Failing(steps) then SwFailed else if aborted then SwAborted else SwComplete, !(sof && Failing(steps)))
      else
        pc.Staging? && pc.snap == steps && pc.at == 0 && Current(steps, sof, pc.stage)
  {
    hide Front, ShapeOk, Frontier, AfterFailure, FailedWith, Current;
    var f := Front(steps, sof, 0);
    if f == |steps| {
      NothingStopped(steps, sof);
    } else {
      StoppedAt(steps, caps, sof);
      if sof && StageFailed(steps) {
        var i :| 0 <= i < |steps| && FailedWith(steps, i);
        SameFailure(steps, caps, f, i);
      }
    }
  }

  lemma NothingStopped(steps: seq<Step>, sof: bool)
    requires Front(steps, sof, 0) == |steps|
    ensures AllFinished(steps) && !(sof && Failing(steps)) && (sof ==> !StageFailed(steps))
  {
    hide Front;
  }

  lemma StoppedAt(steps: seq<Step>, caps: seq<nat>, sof: bool)
    requires ShapeOk(steps, caps) && Frontier(steps) && (sof ==> AfterFailure(steps)) && Front(steps, sof, 0) < |steps|
    ensures var f := Front(steps, sof, 0);
      && !(AllFinished(steps) && !(sof && Failing(steps)))
      && (steps[f].state == Failed ==> sof && (!WorkRemains(steps, steps[f].stage) <==> FailedWith(steps, f)))
      && Current(steps, sof, steps[f].stage)
  {
    FrontSplits(steps, caps, sof);
    hide Front, ShapeOk, Frontier, AfterFailure;
    assert Stops(steps[Front(steps, sof, 0)], sof);
  }

  lemma BaseOfScan(s: Sys)
    requires Base(s)
    ensures ShapeOk(s.steps, s.caps) && Frontier(s.steps) && (s.strategy.Some? && s.strategy.value.stopOnFailure ==> AfterFailure(s.steps))
  {
  }

  /** The first step that stops the scan is in the stage of the failure. */
  lemma SameFailure(steps: seq<Step>, caps: seq<nat>, f: nat, i: nat)
    requires ShapeOk(steps, caps) && Frontier(steps) && AfterFailure(steps)
    requires f == Front(steps, true, 0) < |steps| && i < |steps| && FailedWith(steps, i)
    ensures steps[f].state == Failed && steps[f].stage == steps[i].stage && FailedWith(steps, f)
  {
    hide Front, ShapeOk, Frontier, AfterFailure;
    assert Stops(steps[i], true);
    assert f <= i && Stops(steps[f], true);
    InOrder(steps, caps, f, i);
    if steps[f].stage < steps[i].stage {
      StartedLater(steps, f, i);
    }
  }

  lemma InOrder(steps: seq<Step>, caps: seq<nat>, f: nat, i: nat)
    requires ShapeOk(steps, caps) && f <= i < |steps|
    ensures steps[f].stage <= steps[i].stage
  {
  }

  /** A step of a later stage is started only after the earlier one is finished and not failed. */
  lemma StartedLater(steps: seq<Step>, f: nat, i: nat)
    requires Frontier(steps) && AfterFailure(steps) && f < |steps| && i < |steps| && steps[f].stage < steps[i].stage
    ensures !Unstarted(steps[i].state) ==> Final(steps[f].state) && steps[f].state != Failed
  {
  }

  lemma LifeOfScan(s: Sys)
    requires Base(s) && s.pc.ApplyEntered?
    ensures s.strategy.Some? && s.strategy.value.stopOnFailure == s.pc.stopOnFailure
  {
  }

  /** Under a verdict nothing is in progress; "complete" and "failed" are right in every run, and
      "aborted" means that every step is finished. */
  lemma VerdictsAreRight(starting: nat, unmanaged: set<string>, acts: seq<Action>)
    requires CleanCreates(Fresh(starting, unmanaged), acts)
    ensures var s := After(starting, unmanaged, acts);
      s.strategy.Some? && IsVerdict(s.strategy.value.state) ==>
        && InProgress(s.steps) == {} && (forall w :: w in s.running ==> !w.seen.Working?)
        && (s.strategy.value.state == SwComplete ==> forall i :: 0 <= i < |s.steps| ==> s.steps[i].state == Complete)
        && (s.strategy.value.state == SwAborted ==> forall i :: 0 <= i < |s.steps| ==> Final(s.steps[i].state))
        && (s.strategy.value.state == SwFailed ==> AnyIn(s.steps, Failed))
  {
    hide Exec, Frontier, ShapeOk, PcOk, LifeOk, CleanCreates, StraysOk;
    RunsAreSafe(starting, unmanaged, acts);
    var s := After(starting, unmanaged, acts);
    if s.strategy.Some? && IsVerdict(s.strategy.value.state) {
      NoneRunning(s.steps, s.workers, s.running);
    }
  }

  /** A worker without an operator is under way for a step that is still aborted. */
  predicate Threatened(s: Sys) {
    exists w, i :: w in s.running && 0 <= i < |s.steps| && Threat(w, s.steps[i])
  }

  predicate Threat(w: Worker, step: Step) {
    !w.seen.Working? && step.region == w.region && step.state.Aborted?
  }

  /** The strategy was aborted, every step is complete or aborted, and nothing can change that. */
  predicate Settled(s: Sys) {
    Late(s.strategy) && VerdictOk(SwAborted, s.steps) && !Threatened(s) && !s.pc.Staging?
  }

  ghost predicate SameStrategy(s: Sys, acts: seq<Action>) {
    forall k :: 0 <= k <= |acts| ==> Exec(s, acts[..k]).strategy.Some?
  }

  lemma SettledStep(s: Sys, a: Action)
    requires Base(s) && Settled(s) && Do(s, a).strategy.Some?
    ensures Settled(Do(s, a))
  {
    hide Frontier, AfterFailure, WorkersOk, PhaseOk, PcOk, StrayOk, DoCreate, DoFinish, DoOrch, VerdictOk, Threatened;
    match a {
      case Orch => SettledOrch(s);
      case Finish(w, o) => SettledFinish(s, w, o);
      case _ => SettledElse(s, a);
    }
  }

  lemma SettledElse(s: Sys, a: Action)
    requires Settled(s) && !a.Orch? && !a.Finish?
    ensures Settled(Do(s, a))
  {
  }

  lemma SettledFinish(s: Sys, w: Worker, o: Outcome)
    requires Base(s) && Settled(s)
    ensures Settled(DoFinish(s, w, o))
  {
    hide Frontier, AfterFailure, PhaseOk, PcOk, ShapeOk;
    if w in s.running {
      if w.seen.Working? {
        var i := FindStep(s.steps, w);
      }
      forall i | 0 <= i < |s.steps|
        ensures s.steps[i].region != w.region
      {
        assert s.steps[i].state.Complete? || s.steps[i].state.Aborted?;
        assert !Threat(w, s.steps[i]);
      }
      NoSuchStep(s.steps, w.region, ResultState(o));
      assert DoFinish(s, w, o).steps == s.steps;
      assert forall v :: v in DoFinish(s, w, o).running ==> v in s.running;
    }
  }

  lemma SettledOrch(s: Sys)
    requires Base(s) && Settled(s) && DoOrch(s).strategy.Some?
    ensures Settled(DoOrch(s))
  {
    hide Frontier, AfterFailure, WorkersOk, PcOk, ShapeOk, StraysOk;
    if s.pc.ApplyEntered? {
      NothingStops(s.steps, s.pc.stopOnFailure);
    }
  }

  lemma NothingStops(steps: seq<Step>, sof: bool)
    requires VerdictOk(SwAborted, steps)
    ensures Decide(steps, sof) == Deciding(SwAborted, true)
  {
    hide Front;
    assert forall i :: 0 <= i < |steps| ==> !Stops(steps[i], sof);
    assert Front(steps, sof, 0) == |steps|;
  }

  lemma {:induction false} SettledStays(s: Sys, acts: seq<Action>)
    requires Base(s) && Settled(s) && SameStrategy(s, acts)
    ensures Base(Exec(s, acts)) && Settled(Exec(s, acts))
    decreases |acts|
  {
    hide Do, Base, Settled;
    assert acts[..|acts|] == acts;
    if acts != [] {
      var before := acts[..|acts| - 1];
      assert forall k :: 0 <= k <= |before| ==> before[..k] == acts[..k];
      SettledStays(s, before);
      assert before[..|before|] == before;
      NotOverAnother(Exec(s, before), acts[|acts| - 1]);
      StepPreserves(Exec(s, before), acts[|acts| - 1]);
      SettledStep(Exec(s, before), acts[|acts| - 1]);
    }
  }

  lemma NotOverAnother(s: Sys, a: Action)
    requires s.strategy.Some?
    ensures CleanCreate(s, a)
  {
  }

  /** The verdict "aborted" can become wrong while its strategy exists exactly if, when it is about to be
      written, a worker without an operator is under way for one of the aborted steps. */
  lemma AbortedVerdictExactly(s: Sys)
    requires Base(s) && s.pc.Deciding? && s.pc.verdict.SwAborted? && VerdictOk(SwAborted, s.steps)
    ensures (exists acts :: SameStrategy(s, acts) && WronglyAborted(Exec(s, acts))) <==> Threatened(s)
  {
    if Threatened(s) {
      hide Base, VerdictOk;
      ThreatComesTrue(s);
    } else {
      forall acts | SameStrategy(s, acts)
        ensures !WronglyAborted(Exec(s, acts))
      {
        hide Exec, SameStrategy, ShapeOk, Frontier, AfterFailure, WorkersOk, StraysOk;
        SettledStays(s, acts);
      }
    }
  }

  predicate WronglyAborted(s: Sys) {
    StateIs(s, SwAborted) && !VerdictOk(SwAborted, s.steps)
  }

  lemma ThreatComesTrue(s: Sys)
    requires Base(s) && s.pc.Deciding? && s.pc.verdict.SwAborted? && Threatened(s)
    ensures exists acts :: SameStrategy(s, acts) && WronglyAborted(Exec(s, acts))
  {
    var w, i :| w in s.running && 0 <= i < |s.steps| && Threat(w, s.steps[i]);
    DecidesOn(s);
    hide Base, Do, Exec, DoFinish, DoOrch, Threatened, SameStrategy, WronglyAborted;
    ThreatFails(s, w, i);
    var t := Do(s, Finish(w, Raise));
    AbortedIsWritten(t, i);
    NoActions(Do(t, Orch));
    StartWith(t, Orch, []);
    StartWith(s, Finish(w, Raise), [Orch] + []);
  }

  lemma DecidesOn(s: Sys)
    requires Base(s) && s.pc.Deciding?
    ensures s.strategy.Some?
  {
  }

  lemma ThreatFails(s: Sys, w: Worker, i: nat)
    requires w in s.running && i < |s.steps| && Threat(w, s.steps[i])
    ensures var t := Do(s, Finish(w, Raise));
      t.pc == s.pc && t.strategy == s.strategy && |t.steps| == |s.steps| && t.steps[i].state == Failed
  {
    hide SetState;
  }

  lemma AbortedIsWritten(s: Sys, i: nat)
    requires s.strategy.Some? && s.pc.Deciding? && s.pc.verdict.SwAborted? && i < |s.steps| && s.steps[i].state == Failed
    ensures WronglyAborted(Do(s, Orch)) && Do(s, Orch).strategy.Some?
  {
    assert Do(s, Orch).steps[i].state == Failed;
  }

  lemma NoActions(s: Sys)
    ensures Exec(s, []) == s && (s.strategy.Some? ==> SameStrategy(s, []))
  {
    var none: seq<Action> := [];
    assert none[..0] == none;
  }

  lemma StartWith(s: Sys, a: Action, rest: seq<Action>)
    ensures Exec(s, [a] + rest) == Exec(Do(s, a), rest)
    ensures s.strategy.Some? && SameStrategy(Do(s, a), rest) ==> SameStrategy(s, [a] + rest)
  {
    hide Do;
    JustOne(s, a);
    ExecConcat(s, [a], rest);
    if s.strategy.Some? && SameStrategy(Do(s, a), rest) {
      forall k | 0 <= k <= |[a] + rest|
        ensures Exec(s, ([a] + rest)[..k]).strategy.Some?
      {
        if k == 0 {
          assert ([a] + rest)[..k] == [];
        } else {
          assert ([a] + rest)[..k] == [a] + rest[..k - 1];
          ExecConcat(s, [a], rest[..k - 1]);
        }
      }
    }
  }

  lemma JustOne(s: Sys, a: Action)
    ensures Exec(s, [a]) == Do(s, a) && Exec(s, []) == s
  {
    hide Do;
    assert [a][..0] == [];
  }

  /** With stop-on-failure, nothing beyond the stage of a failed step has been started. */
  lemma NothingStartsAfterFailure(starting: nat, unmanaged: set<string>, acts: seq<Action>, i: nat, j: nat)
    requires CleanCreates(Fresh(starting, unmanaged), acts)
    requires var s := After(starting, unmanaged, acts);
      && s.strategy.Some? && s.strategy.value.stopOnFailure
      && i < |s.steps| && j < |s.steps| && s.steps[i].state.Failed? && s.steps[i].stage < s.steps[j].stage
    ensures var s := After(starting, unmanaged, acts); s.steps[j].state == Initial || s.steps[j].state == Aborted
  {
    hide Exec, Frontier, ShapeOk, PcOk, LifeOk, PhaseOk, WorkersOk, StraysOk, CleanCreates;
    RunsAreSafe(starting, unmanaged, acts);
  }

  // ---------------------------------------------------------------- what one action can change

  /** While the strategy exists, an action keeps the list of steps, never changes a complete or failed step,
      changes an aborted one only by the result of a worker without an operator, and starts nothing
      once the strategy is aborting. */
  lemma StepsOnlyAdvance(s: Sys, a: Action, i: nat)
    requires Base(s) && i < |s.steps|
    requires s.strategy.Some? && Do(s, a).strategy.Some?
    ensures Advances(s.steps, Do(s, a).steps, i)
    ensures Do(s, a).steps[i].state != s.steps[i].state && Final(s.steps[i].state) ==>
      a.Finish? && a.worker in s.running && Threat(a.worker, s.steps[i])
    ensures s.strategy.value.state.SwAborting? ==>
      (Do(s, a).steps[i].state.Working? ==> s.steps[i].state.Working?)
  {
    hide Base, DoOrch, DoFinish, Advances;
    if a.Finish? {
      FinishChanges(s, a.worker, a.outcome, i);
    } else if a.Orch? {
      OrchChanges(s, i);
    } else {
      NothingChanges(s.steps, i);
    }
  }

  predicate Advances(before: seq<Step>, after: seq<Step>, i: nat) {
    && SameSkeleton(before, after)
    && i < |before|
    && (Final(before[i].state) ==> after[i].state == before[i].state || (before[i].state.Aborted? && after[i].state.Failed?))
    && (!Unstarted(before[i].state) ==> !Unstarted(after[i].state))
  }

  /** One step that is not finished changes its state. */
  lemma ChangeAdvances(steps: seq<Step>, caps: seq<nat>, k: nat, state: StepState, i: nat)
    requires ShapeOk(steps, caps) && k < |steps| && i < |steps|
    requires !Final(steps[k].state) || ((steps[k].state.Aborted? || steps[k].state.Failed?) && state.Failed?)
    requires Unstarted(state) ==> Unstarted(steps[k].state)
    ensures Advances(steps, SetState(steps, steps[k].region, state), i)
    ensures SetState(steps, steps[k].region, state)[i].state == if i == k then state else steps[i].state
  {
    hide SetState;
    OneStepChanges(steps, caps, k, state);
  }

  lemma FinishChanges(s: Sys, w: Worker, o: Outcome, i: nat)
    requires Base(s) && i < |s.steps|
    ensures Advances(s.steps, DoFinish(s, w, o).steps, i)
    ensures DoFinish(s, w, o).steps[i].state.Working? ==> s.steps[i].state.Working?
    ensures DoFinish(s, w, o).steps[i].state != s.steps[i].state && Final(s.steps[i].state) ==>
      w in s.running && Threat(w, s.steps[i])
  {
    hide Frontier, AfterFailure, PhaseOk, PcOk, LifeOk, ShapeOk, SetState, Advances;
    if w in s.running && Possible(w.seen, o) {
      if w.seen.Working? {
        var k := FindStep(s.steps, w);
        ChangeAdvances(s.steps, s.caps, k, ResultState(o), i);
      } else if k :| 0 <= k < |s.steps| && s.steps[k].region == w.region {
        assert StrayOk(s.steps, k);
        ChangeAdvances(s.steps, s.caps, k, Failed, i);
      } else {
        NoSuchStep(s.steps, w.region, Failed);
        NothingChanges(s.steps, i);
      }
    } else {
      NothingChanges(s.steps, i);
    }
  }

  lemma NothingChanges(steps: seq<Step>, i: nat)
    requires i < |steps|
    ensures Advances(steps, steps, i)
  {
  }

  lemma OrchChanges(s: Sys, i: nat)
    requires Base(s) && i < |s.steps| && DoOrch(s).strategy.Some?
    ensures Advances(s.steps, DoOrch(s).steps, i)
    ensures Final(s.steps[i].state) ==> DoOrch(s).steps[i].state == s.steps[i].state
    ensures s.strategy.Some? && s.strategy.value.state.SwAborting? ==>
      (DoOrch(s).steps[i].state.Working? ==> s.steps[i].state.Working?)
  {
    hide Frontier, AfterFailure, FailuresFrom, DoScan, WorkersOk, StraysOk, ShapeOk, SetState, Advances;
    if s.pc.Staging? && s.pc.at < |s.pc.snap| && s.pc.snap[s.pc.at].stage == s.pc.stage && s.pc.snap[s.pc.at].state.Initial? {
      StartChanges(s, i);
    } else if s.pc.AbortMarking? && s.pc.at < |s.pc.snap| && s.pc.snap[s.pc.at].state.Initial? {
      ChangeAdvances(s.steps, s.caps, s.pc.at, Aborted, i);
    } else {
      NothingChanges(s.steps, i);
      NoStepsTouched(s);
    }
  }

  lemma StartChanges(s: Sys, i: nat)
    requires Base(s) && i < |s.steps| && s.pc.Staging? && s.pc.at < |s.pc.snap|
    requires s.pc.snap[s.pc.at].stage == s.pc.stage && s.pc.snap[s.pc.at].state.Initial?
    ensures Advances(s.steps, DoOrch(s).steps, i)
    ensures Final(s.steps[i].state) ==> DoOrch(s).steps[i].state == s.steps[i].state
    ensures !s.strategy.value.state.SwAborting?
  {
    hide Frontier, AfterFailure, FailuresFrom, WorkersOk, StraysOk, ShapeOk, SetState, Advances;
    var at := s.pc.at;
    assert ReadIsCurrent(s.pc.snap[at].state, s.steps[at], s.workers);
    ChangeAdvances(s.steps, s.caps, at, Failed, i);
    ChangeAdvances(s.steps, s.caps, at, Working(s.starting), i);
  }

  lemma NoStepsTouched(s: Sys)
    requires DoOrch(s).strategy.Some?
    requires !(s.pc.Staging? && s.pc.at < |s.pc.snap| && s.pc.snap[s.pc.at].stage == s.pc.stage && s.pc.snap[s.pc.at].state.Initial?)
    requires !(s.pc.AbortMarking? && s.pc.at < |s.pc.snap| && s.pc.snap[s.pc.at].state.Initial?)
    ensures DoOrch(s).steps == s.steps
  {
  }

  // ---------------------------------------------------------------- the life of a strategy

  /** The strategy row goes from one state to another. */
  predicate Edge(a: StrategyState, b: StrategyState) {
    || a == b
    || (a == SwInitial && (b == SwApplying || b == SwDeleting))
    || (a == SwApplying && (b == SwAbortRequested || IsVerdict(b)))
    || (a == SwAbortRequested && (b == SwAborting || IsVerdict(b)))
    || (a == SwAborting && IsVerdict(b))
    || (IsVerdict(a) && b == SwDeleting)
  }

  predicate LifeEdge(a: Option<Strategy>, b: Option<Strategy>) {
    match (a, b)
    case (None, None) => true
    case (None, Some(t)) => t.state == SwInitial || t.state == SwDeleting
    case (Some(s), None) => s.state == SwDeleting
    case (Some(s), Some(t)) => Edge(s.state, t.state) && t.stopOnFailure == s.stopOnFailure
  }

  lemma LifeKept(s: Sys, a: Action)
    requires LifeOk(s.strategy, s.pc)
    ensures LifeOk(Do(s, a).strategy, Do(s, a).pc)
    ensures LifeEdge(s.strategy, Do(s, a).strategy)
  {
    hide DoOrch;
    if a.Orch? {
      LifeOrch(s);
    } else {
      LifeOther(s, a);
    }
  }

  lemma LifeOther(s: Sys, a: Action)
    requires LifeOk(s.strategy, s.pc) && !a.Orch?
    ensures LifeOk(Do(s, a).strategy, Do(s, a).pc)
    ensures LifeEdge(s.strategy, Do(s, a).strategy)
  {
    hide Do;
    RequestEdge(s, a);
  }

  /** A request writes only the strategy row, and only along its own edge. */
  predicate RequestWrites(a: StrategyState, b: StrategyState) {
    || a == b
    || (a == SwInitial && b == SwApplying)
    || (a == SwApplying && b == SwAbortRequested)
    || ((a == SwInitial || IsVerdict(a)) && b == SwDeleting)
  }

  lemma RequestEdge(s: Sys, a: Action)
    requires !a.Orch?
    ensures var t := Do(s, a);
      && (t.pc == s.pc || t.pc == Idle)
      && (s.strategy.None? ==> t.strategy.None? || t.strategy.value.state == SwInitial || t.strategy.value.state == SwDeleting)
      && (s.strategy.Some? ==>
            && t.strategy.Some? && t.strategy.value.stopOnFailure == s.strategy.value.stopOnFailure
            && RequestWrites(s.strategy.value.state, t.strategy.value.state))
  {
    hide SetState, Plan, Validate, WellFormedGroups, DoOrch, DoCreate;
    if a.Create? {
      CreateWrites(s, a.req, a.fleet, a.groups);
    }
  }

  lemma CreateWrites(s: Sys, req: Request, fleet: seq<Subcloud>, groups: seq<Group>)
    ensures var t := DoCreate(s, req, fleet, groups);
      && t.pc == s.pc
      && (t.strategy == s.strategy || (s.strategy.None? && t.strategy.Some? && t.strategy.value.state in {SwInitial, SwDeleting}))
  {
    hide Plan, Validate, WellFormedGroups, StepsOf, Caps;
  }

  lemma LifeOrch(s: Sys)
    requires LifeOk(s.strategy, s.pc)
    ensures LifeOk(DoOrch(s).strategy, DoOrch(s).pc)
    ensures LifeEdge(s.strategy, DoOrch(s).strategy)
  {
    hide DoScan, DoStage, SetState;
    if s.pc.ApplyEntered? {
      ScanDecides(s);
    } else if s.pc.Staging? && s.pc.at < |s.pc.snap| {
      StageKeepsLife(s, s.pc.snap[s.pc.at]);
    }
  }

  lemma ScanDecides(s: Sys)
    requires s.pc.ApplyEntered?
    ensures DoOrch(s).strategy == s.strategy
    ensures DoOrch(s).pc.Staging? || (DoOrch(s).pc.Deciding? && IsVerdict(DoOrch(s).pc.verdict))
  {
    hide Front;
  }

  lemma StageKeepsLife(s: Sys, step: Step)
    ensures DoStage(s, step).strategy == s.strategy
  {
  }

  /** In every run, interrupted or not, with requests landing between any two steps of the
      thread: the strategy moves only along the edges above; the thread's write of a verdict or
      of "aborting" never meets a strategy that is deleting, and that state is left only when the
      thread removes the strategy. */
  lemma {:induction false} StrategyLife(starting: nat, unmanaged: set<string>, acts: seq<Action>, a: Action)
    ensures var s := After(starting, unmanaged, acts);
      && LifeOk(s.strategy, s.pc)
      && LifeEdge(s.strategy, Do(s, a).strategy)
      && (StateIs(s, SwDeleting) ==> !s.pc.Deciding? && !s.pc.AbortMarking?)
      && (StateIs(s, SwDeleting) && Do(s, a).strategy != s.strategy ==> a == Orch && s.pc.DeleteEntered? && Do(s, a).strategy.None?)
    decreases |acts|
  {
    hide Do, DoOrch;
    var s := After(starting, unmanaged, acts);
    if acts != [] {
      var before := acts[..|acts| - 1];
      StrategyLife(starting, unmanaged, before, acts[|acts| - 1]);
      LifeKept(After(starting, unmanaged, before), acts[|acts| - 1]);
    }
    LifeKept(s, a);
    if StateIs(s, SwDeleting) && Do(s, a).strategy != s.strategy {
      DeletingLeft(s, a);
    }
  }

  lemma DeletingLeft(s: Sys, a: Action)
    requires StateIs(s, SwDeleting) && LifeOk(s.strategy, s.pc) && Do(s, a).strategy != s.strategy
    ensures a == Orch && s.pc.DeleteEntered? && Do(s, a).strategy.None?
  {
    hide DoScan, DoStage, SetState, Plan, Validate, WellFormedGroups;
  }

  /** Aborted steps, and the verdict on them, need a strategy whose abort has begun. */
  predicate AbortedOk(s: Sys) {
    && LifeOk(s.strategy, s.pc)
    && (s.strategy.Some? && BeforeAbort(s.strategy.value.state, s.pc) ==> NoneIn(s.steps, Aborted))
    && (s.pc.Deciding? && s.pc.verdict.SwAborted? ==> StateIs(s, SwAborting))
  }

  predicate BeforeAbort(state: StrategyState, pc: Pc) {
    state.SwInitial? || state.SwApplying? || (state.SwAbortRequested? && InApply(pc))
  }

  lemma AbortedOkKept(s: Sys, a: Action)
    requires AbortedOk(s)
    ensures AbortedOk(Do(s, a))
  {
    hide DoOrch, DoCreate, DoFinish;
    LifeKept(s, a);
    match a {
      case Orch => AbortedOkOrch(s);
      case Create(req, fleet, groups) =>
        CreateWrites(s, req, fleet, groups);
        AbortedOkCreate(s, req, fleet, groups);
      case Finish(w, o) => NoneWritten(s, w, o);
      case _ =>
    }
  }

  lemma AbortedOkCreate(s: Sys, req: Request, fleet: seq<Subcloud>, groups: seq<Group>)
    requires AbortedOk(s) && LifeOk(DoCreate(s, req, fleet, groups).strategy, s.pc)
    ensures AbortedOk(DoCreate(s, req, fleet, groups))
  {
    hide Plan, Validate, WellFormedGroups, Caps;
  }

  lemma NoneWritten(s: Sys, w: Worker, o: Outcome)
    ensures var t := DoFinish(s, w, o);
      t.strategy == s.strategy && t.pc == s.pc && (NoneIn(s.steps, Aborted) ==> NoneIn(t.steps, Aborted))
  {
    hide SetState;
  }

  lemma AbortedOkOrch(s: Sys)
    requires AbortedOk(s) && LifeOk(DoOrch(s).strategy, DoOrch(s).pc)
    ensures AbortedOk(DoOrch(s))
  {
    hide DoStage, DoScan, SetState;
    if s.pc.ApplyEntered? {
      AbortedOkScan(s);
    } else if s.pc.Staging? && s.pc.at < |s.pc.snap| {
      StageKeepsLife(s, s.pc.snap[s.pc.at]);
      StageAbortsNone(s, s.pc.snap[s.pc.at]);
    }
  }

  lemma AbortedOkScan(s: Sys)
    requires AbortedOk(s) && s.pc.ApplyEntered? && LifeOk(DoOrch(s).strategy, DoOrch(s).pc)
    ensures AbortedOk(DoOrch(s))
  {
    hide Front, Regions, Dropped;
  }

  lemma StageAbortsNone(s: Sys, step: Step)
    ensures NoneIn(s.steps, Aborted) ==> NoneIn(DoStage(s, step).steps, Aborted)
  {
    hide SetState;
  }

  lemma {:induction false} RunsAbortedOk(starting: nat, unmanaged: set<string>, acts: seq<Action>)
    ensures AbortedOk(After(starting, unmanaged, acts))
    decreases |acts|
  {
    if acts != [] {
      hide Do, AbortedOk;
      RunsAbortedOk(starting, unmanaged, acts[..|acts| - 1]);
      AbortedOkKept(After(starting, unmanaged, acts[..|acts| - 1]), acts[|acts| - 1]);
    }
  }

  /** In every run the verdict "aborted" is only ever reached from the aborting state. */
  lemma AbortedComesFromAborting(starting: nat, unmanaged: set<string>, acts: seq<Action>, a: Action)
    requires StateIs(Do(After(starting, unmanaged, acts), a), SwAborted)
    ensures StateIs(After(starting, unmanaged, acts), SwAborted) || StateIs(After(starting, unmanaged, acts), SwAborting)
  {
    hide Exec, Do;
    var s := After(starting, unmanaged, acts);
    RunsAbortedOk(starting, unmanaged, acts);
    if !StateIs(s, SwAborted) {
      AbortedStep(s, a);
    }
  }

  lemma AbortedStep(s: Sys, a: Action)
    requires AbortedOk(s) && StateIs(Do(s, a), SwAborted) && !StateIs(s, SwAborted)
    ensures StateIs(s, SwAborting)
  {
    hide DoScan, DoStage, DoCreate, DoFinish, DoDelete, DoOrch;
    if a.Orch? {
      AbortedWritten(s);
    } else {
      RequestEdge(s, a);
    }
  }

  lemma AbortedWritten(s: Sys)
    requires AbortedOk(s) && StateIs(DoOrch(s), SwAborted) && !StateIs(s, SwAborted)
    ensures StateIs(s, SwAborting)
  {
    hide DoScan, DoStage;
    if s.pc.ApplyEntered? {
      ScanDecides(s);
    } else if s.pc.Staging? && s.pc.at < |s.pc.snap| {
      StageKeepsLife(s, s.pc.snap[s.pc.at]);
    }
  }
}
