/** Partly started stages: when they stay away, and what they lead to. An aborted step can reach a state
    operator exactly if it shares its stage with a step that keeps the stage current. */
module OrchStages {
  import opened Cloud
  import opened StagePlan
  import opened OrchMachine
  import opened OrchInvariant
  import opened OrchTheorems

  function StopsOnFailure(s: Sys): bool {
    s.strategy.Some? && s.strategy.value.stopOnFailure
  }

  /** The step keeps the thread at its stage although others of the stage may be aborted. */
  predicate Holds(step: Step, sof: bool) {
    step.state.Working? || (sof && step.state.Failed?)
  }

  /** The stage is not partly started. In the strict sense, all of its steps are started or none;
      otherwise it may also hold finished steps that do not keep it current. */
  predicate WholeAt(steps: seq<Step>, sof: bool, strict: bool, stage: nat) {
    forall i, j :: 0 <= i < |steps| && 0 <= j < |steps| && steps[i].stage == stage && steps[j].stage == stage && Unstarted(steps[i].state) ==>
      if strict then Unstarted(steps[j].state) else !Holds(steps[j], sof)
  }

  /** The stage is being started, and no step of it is aborted. */
  predicate StageClean(snap: seq<Step>, at: nat, steps: seq<Step>, stage: nat) {
    forall i :: 0 <= i < |steps| && i < |snap| && steps[i].stage == stage ==>
      && !steps[i].state.Aborted? && !snap[i].state.Aborted?
      && (i < at ==> !steps[i].state.Initial?)
  }

  predicate NoStrayAt(steps: seq<Step>, running: multiset<Worker>, stage: nat) {
    forall w, i :: w in running && !w.seen.Working? && 0 <= i < |steps| && steps[i].stage == stage ==> steps[i].region != w.region
  }

  predicate CleanAt(s: Sys, strict: bool, stage: nat) {
    && NoStrayAt(s.steps, s.running, stage)
    && if s.pc.Staging? && s.pc.stage == stage then StageClean(s.pc.snap, s.pc.at, s.steps, stage)
       else WholeAt(s.steps, StopsOnFailure(s), strict, stage)
  }

  /** The thread is in the middle of starting a stage. */
  predicate MidStage(s: Sys) {
    s.pc.Staging? && s.pc.at < |s.pc.snap|
  }

  /** The action ends a tick while it is starting the stage. */
  predicate Cuts(s: Sys, a: Action, stage: nat) {
    (a.TickRaises? || a.Restart?) && MidStage(s) && s.pc.stage == stage
  }

  // ---------------------------------------------------------------- a whole stage stays whole

  /** A step in progress gets a result: it was started before and is started after. */
  lemma ResultKeepsStage(steps: seq<Step>, k: nat, state: StepState, sof: bool, strict: bool, stage: nat)
    requires k < |steps| && steps[k].state.Working? && !Unstarted(state)
    ensures WholeAt(steps, sof, strict, stage) ==> WholeAt(steps[k := steps[k].(state := state)], sof, strict, stage)
    ensures forall snap, at :: StageClean(snap, at, steps, stage) ==> StageClean(snap, at, steps[k := steps[k].(state := state)], stage)
  {
    var after := steps[k := steps[k].(state := state)];
    if WholeAt(steps, sof, strict, stage) {
      forall i, j | 0 <= i < |after| && 0 <= j < |after| && after[i].stage == stage && after[j].stage == stage && Unstarted(after[i].state)
        ensures if strict then Unstarted(after[j].state) else !Holds(after[j], sof)
      {
        assert i != k && Unstarted(steps[i].state);
        assert k != j || Holds(steps[k], sof);
      }
    }
  }

  lemma ResultKeepsClean(s: Sys, w: Worker, o: Outcome, strict: bool, stage: nat)
    requires Base(s) && CleanAt(s, strict, stage) && w in s.running && w.seen.Working?
    ensures CleanAt(DoFinish(s, w, o), strict, stage)
  {
    hide ShapeOk, Frontier, AfterFailure, PhaseOk, PcOk, LifeOk, SetState, StraysOk, WholeAt, StageClean;
    var i := FindStep(s.steps, w);
    OneStepChanges(s.steps, s.caps, i, ResultState(o));
    ResultKeepsStage(s.steps, i, ResultState(o), StopsOnFailure(s), strict, stage);
    assert forall v :: v in DoFinish(s, w, o).running ==> v in s.running;
  }

  lemma StrayKeepsClean(s: Sys, w: Worker, stage: nat, strict: bool)
    requires Base(s) && CleanAt(s, strict, stage) && w in s.running && !w.seen.Working?
    ensures CleanAt(DoFinish(s, w, Raise), strict, stage)
  {
    hide ShapeOk, Frontier, AfterFailure, PhaseOk, PcOk, LifeOk, StraysOk, WorkersOk;
    var t := DoFinish(s, w, Raise);
    assert forall i :: 0 <= i < |s.steps| && s.steps[i].stage == stage ==> t.steps[i] == s.steps[i];
    assert forall i :: 0 <= i < |s.steps| ==> t.steps[i].stage == s.steps[i].stage && t.steps[i].region == s.steps[i].region;
    assert forall v :: v in t.running ==> v in s.running;
  }

  lemma ScanKeepsClean(s: Sys, strict: bool, stage: nat)
    requires Base(s) && s.pc.ApplyEntered? && CleanAt(s, strict, stage)
    ensures CleanAt(DoOrch(s), strict, stage)
  {
    hide Front, ShapeOk, Frontier, AfterFailure, VerdictKept, StraysOk, WorkersOk, Regions, Dropped;
    var sof := s.pc.stopOnFailure;
    var pc := Decide(s.steps, sof);
    if pc.Staging? && pc.stage == stage {
      var f := Front(s.steps, sof, 0);
      assert Stops(s.steps[f], sof) && s.steps[f].stage == stage;
      forall i | 0 <= i < |s.steps| && s.steps[i].stage == stage
        ensures !s.steps[i].state.Aborted?
      {
        assert Holds(s.steps[f], sof) || s.steps[f].state.Initial?;
      }
    }
  }

  lemma TurnIsClean(s: Sys, stage: nat)
    requires Base(s) && s.pc.Staging? && s.pc.at < |s.pc.snap| && s.pc.snap[s.pc.at].stage == s.pc.stage == stage
    requires StageClean(s.pc.snap, s.pc.at, s.steps, stage)
    ensures !s.pc.snap[s.pc.at].state.Aborted?
  {
    hide Frontier, AfterFailure, PhaseOk, WorkersOk, StraysOk;
    SkeletonAt(s.pc.snap, s.steps, s.pc.at);
  }

  predicate Starts(s: Sys) {
    s.pc.Staging? && s.pc.at < |s.pc.snap| && s.pc.snap[s.pc.at].stage == s.pc.stage && s.pc.snap[s.pc.at].state.Initial?
  }

  /** A turn of the stage loop changes at most the step of the turn, and only to start it. */
  predicate TurnOf(s: Sys, t: Sys, at: nat) {
    && |t.steps| == |s.steps| && at < |s.steps|
    && (forall i :: 0 <= i < |s.steps| && i != at ==> t.steps[i] == s.steps[i])
    && t.steps[at] == s.steps[at].(state := t.steps[at].state)
    && if Starts(s) then t.steps[at].state.Failed? || t.steps[at].state.Working? else t.steps[at] == s.steps[at]
  }

  lemma TurnEffects(s: Sys)
    requires Base(s) && s.pc.Staging? && s.pc.at < |s.pc.snap|
    ensures |s.steps| == |s.pc.snap| && s.pc.snap[s.pc.at].region == s.steps[s.pc.at].region && s.pc.snap[s.pc.at].stage == s.steps[s.pc.at].stage
    ensures TurnOf(s, DoOrch(s), s.pc.at) && DoOrch(s).strategy == s.strategy
    ensures DoOrch(s).pc == Staging(s.pc.snap, s.pc.stage, s.pc.at + 1)
  {
    hide ShapeOk, Frontier, AfterFailure, PhaseOk, FailuresFrom, WorkersOk, StraysOk, SetState, LifeOk, SameSkeleton, ReadIsCurrent;
    SkeletonAt(s.pc.snap, s.steps, s.pc.at);
    SkeletonLength(s.pc.snap, s.steps);
    hide StagingOk;
    if Starts(s) {
      StartEffects(s);
    }
  }

  lemma SkeletonLength(a: seq<Step>, b: seq<Step>)
    requires SameSkeleton(a, b)
    ensures |a| == |b|
  {
  }

  lemma StartEffects(s: Sys)
    requires Base(s) && Starts(s)
    ensures s.pc.at < |s.steps| && TurnOf(s, DoOrch(s), s.pc.at) && DoOrch(s).strategy == s.strategy
    ensures DoOrch(s).pc == Staging(s.pc.snap, s.pc.stage, s.pc.at + 1)
  {
    hide Base, SetState;
    LeaveInitial(s, Failed);
    LeaveInitial(s, Working(s.starting));
  }

  /** A worker without an operator is only started for a step read as aborted. */
  lemma TurnRuns(s: Sys, w: Worker)
    requires s.pc.Staging? && s.pc.at < |s.pc.snap|
    requires w in DoOrch(s).running && !w.seen.Working? && w !in s.running
    ensures s.pc.snap[s.pc.at].stage == s.pc.stage && s.pc.snap[s.pc.at].state.Aborted? && w.region == s.pc.snap[s.pc.at].region
  {
    hide SetState;
  }

  lemma StageKeepsClean(s: Sys, strict: bool, stage: nat)
    requires Base(s) && s.pc.Staging? && s.pc.at < |s.pc.snap| && CleanAt(s, strict, stage)
    ensures CleanAt(DoOrch(s), strict, stage)
  {
    hide DoOrch, LifeOk, Frontier, AfterFailure, PhaseOk, PcOk, WorkersOk, StraysOk;
    var t := DoOrch(s);
    TurnEffects(s);
    var at := s.pc.at;
    if s.pc.snap[at].stage == s.pc.stage == stage {
      TurnIsClean(s, stage);
      InitialWasRead(s);
    }
    forall w, i | w in t.running && !w.seen.Working? && 0 <= i < |t.steps| && t.steps[i].stage == stage
      ensures t.steps[i].region != w.region
    {
      assert t.steps[i].region == s.steps[i].region && t.steps[i].stage == s.steps[i].stage;
      if w !in s.running {
        TurnRuns(s, w);
        OneRegion(s.steps, s.caps, at);
      }
    }
    if s.pc.stage != stage {
      assert forall i :: 0 <= i < |s.steps| && s.steps[i].stage == stage ==> t.steps[i] == s.steps[i];
    } else {
      CleanTurn(s.pc.snap, s.steps, t.steps, at, stage);
    }
  }

  lemma CleanTurn(snap: seq<Step>, steps: seq<Step>, steps': seq<Step>, at: nat, stage: nat)
    requires StageClean(snap, at, steps, stage) && |steps| == |steps'| == |snap| && at < |snap|
    requires forall i :: 0 <= i < |steps| && i != at ==> steps'[i] == steps[i]
    requires steps'[at] == steps[at].(state := steps'[at].state) && steps[at].stage == snap[at].stage
    requires steps'[at].state == steps[at].state || !Unstarted(steps'[at].state)
    requires snap[at].stage == stage && steps[at].state.Initial? ==> snap[at].state.Initial? && !Unstarted(steps'[at].state)
    ensures StageClean(snap, at + 1, steps', stage)
  {
  }

  lemma InitialWasRead(s: Sys)
    requires Base(s) && s.pc.Staging? && s.pc.at < |s.pc.snap| && s.pc.snap[s.pc.at].stage == s.pc.stage
    ensures s.pc.at < |s.steps| && (s.steps[s.pc.at].state.Initial? ==> s.pc.snap[s.pc.at].state.Initial?)
  {
    hide ShapeOk, Frontier, AfterFailure, PhaseOk, FailuresFrom, WorkersOk, StraysOk, LifeOk;
    SkeletonAt(s.pc.snap, s.steps, s.pc.at);
    assert ReadIsCurrent(s.pc.snap[s.pc.at].state, s.steps[s.pc.at], s.workers);
  }

  lemma EndKeepsClean(s: Sys, strict: bool, stage: nat)
    requires Base(s) && CleanAt(s, strict, stage) && !(MidStage(s) && s.pc.stage == stage)
    ensures WholeAt(s.steps, StopsOnFailure(s), strict, stage)
  {
    hide ShapeOk, Frontier, AfterFailure, PhaseOk, WorkersOk, StraysOk, LifeOk;
    if s.pc.Staging? && s.pc.stage == stage {
      SkeletonLength(s.pc.snap, s.steps);
    }
  }

  lemma MarkKeepsClean(s: Sys, strict: bool, stage: nat)
    requires Base(s) && s.pc.AbortMarking? && CleanAt(s, strict, stage)
    ensures CleanAt(DoOrch(s), strict, stage)
  {
    hide ShapeOk, Frontier, AfterFailure, WorkersOk, StraysOk, SetState;
    var AbortMarking(snap, at) := s.pc;
    if at < |snap| && snap[at].state.Initial? {
      OneStepChanges(s.steps, s.caps, at, Aborted);
    }
  }

  lemma OrchKeepsClean(s: Sys, strict: bool, stage: nat)
    requires Base(s) && CleanAt(s, strict, stage)
    ensures CleanAt(DoOrch(s), strict, stage)
  {
    hide Base, DoScan, DoStage, WholeAt, StageClean, NoStrayAt, SetState;
    if s.pc.ApplyEntered? {
      ScanKeepsClean(s, strict, stage);
    } else if s.pc.Staging? {
      if s.pc.at < |s.pc.snap| {
        StageKeepsClean(s, strict, stage);
      } else {
        EndKeepsClean(s, strict, stage);
      }
    } else if s.pc.AbortMarking? {
      MarkKeepsClean(s, strict, stage);
    } else if s.pc.DeleteEntered? {
      EmptyIsClean(DoOrch(s), strict, stage);
    }
  }

  lemma EmptyIsClean(s: Sys, strict: bool, stage: nat)
    requires s.steps == [] && s.pc.Idle?
    ensures CleanAt(s, strict, stage)
  {
  }

  lemma FinishKeepsClean(s: Sys, w: Worker, o: Outcome, strict: bool, stage: nat)
    requires Base(s) && CleanAt(s, strict, stage)
    ensures CleanAt(DoFinish(s, w, o), strict, stage)
  {
    hide Base, CleanAt, SetState;
    if w in s.running && Possible(w.seen, o) {
      if w.seen.Working? {
        ResultKeepsClean(s, w, o, strict, stage);
      } else {
        StrayKeepsClean(s, w, stage, strict);
      }
    }
  }

  lemma CreateKeepsClean(s: Sys, a: Action, strict: bool, stage: nat)
    requires a.Create? && Base(s) && CleanAt(s, strict, stage) && CleanCreate(s, a)
    ensures CleanAt(Do(s, a), strict, stage)
  {
    hide ShapeOk, Frontier, AfterFailure, WorkersOk, StraysOk, PhaseOk, PcOk, Plan, Validate, WellFormedGroups;
  }

  lemma InterruptKeepsClean(s: Sys, a: Action, strict: bool, stage: nat)
    requires (a.TickRaises? || a.Restart?) && Base(s) && CleanAt(s, strict, stage) && !Cuts(s, a, stage)
    ensures CleanAt(Do(s, a), strict, stage)
  {
    EndKeepsClean(s, strict, stage);
    hide Base, WholeAt, StageClean;
  }

  /** Nothing but an interruption while it is being started makes a stage partly started. */
  lemma CleanKept(s: Sys, a: Action, strict: bool, stage: nat)
    requires Base(s) && CleanAt(s, strict, stage) && CleanCreate(s, a) && !Cuts(s, a, stage)
    ensures CleanAt(Do(s, a), strict, stage)
  {
    hide Base, WholeAt, StageClean, NoStrayAt, DoOrch, DoFinish, DoCreate, MidStage, CleanCreate, Cuts;
    match a
    case Create(_, _, _) => CreateKeepsClean(s, a, strict, stage);
    case Finish(w, o) => FinishKeepsClean(s, w, o, strict, stage);
    case Orch => OrchKeepsClean(s, strict, stage);
    case TickRaises => InterruptKeepsClean(s, a, strict, stage);
    case Restart => InterruptKeepsClean(s, a, strict, stage);
    case _ =>
  }

  // ---------------------------------------------------------------- no worker without an operator

  predicate NoStrays(s: Sys) {
    forall w :: w in s.running ==> w.seen.Working?
  }

  /** No stage is partly started, and every worker has an operator. */
  ghost predicate Clean(s: Sys, strict: bool) {
    NoStrays(s) && forall stage: nat :: CleanAt(s, strict, stage)
  }

  lemma NoStraysKept(s: Sys, a: Action, strict: bool)
    requires Base(s) && NoStrays(s) && (s.pc.Staging? ==> CleanAt(s, strict, s.pc.stage))
    ensures NoStrays(Do(s, a))
  {
    hide Base, DoOrch, DoFinish, DoCreate, WholeAt, StageClean;
    match a
    case Orch =>
      if s.pc.Staging? && s.pc.at < |s.pc.snap| {
        TurnStraysNot(s, strict);
      } else {
        OrchRuns(s);
      }
    case Finish(w, o) => FinishRuns(s, w, o);
    case Create(req, fleet, groups) => CreateRuns(s, req, fleet, groups);
    case _ =>
  }

  lemma TurnStraysNot(s: Sys, strict: bool)
    requires Base(s) && NoStrays(s) && s.pc.Staging? && s.pc.at < |s.pc.snap| && CleanAt(s, strict, s.pc.stage)
    ensures NoStrays(DoOrch(s))
  {
    hide Base, DoOrch, StageClean, WholeAt, NoStrayAt, NoStrays;
    if s.pc.snap[s.pc.at].stage == s.pc.stage {
      TurnIsClean(s, s.pc.stage);
    }
    OperatorTurn(s);
  }

  lemma OperatorTurn(s: Sys)
    requires NoStrays(s) && s.pc.Staging? && s.pc.at < |s.pc.snap|
    requires s.pc.snap[s.pc.at].stage == s.pc.stage ==> !s.pc.snap[s.pc.at].state.Aborted?
    ensures NoStrays(DoOrch(s))
  {
    hide SetState;
  }

  lemma OrchRuns(s: Sys)
    requires !(s.pc.Staging? && s.pc.at < |s.pc.snap|)
    ensures DoOrch(s).running == s.running
  {
    hide SetState, Front;
  }

  lemma FinishRuns(s: Sys, w: Worker, o: Outcome)
    ensures DoFinish(s, w, o).running <= s.running
  {
    hide SetState;
  }

  lemma CreateRuns(s: Sys, req: Request, fleet: seq<Subcloud>, groups: seq<Group>)
    ensures var t := DoCreate(s, req, fleet, groups); t.running == s.running
  {
    hide Plan, Validate, WellFormedGroups;
  }

  /** Without such workers, any strategy can be created. */
  lemma NoStraysCreate(s: Sys, a: Action)
    requires Base(s) && NoStrays(s)
    ensures CleanCreate(s, a)
  {
    hide Frontier, AfterFailure, ShapeOk;
    if s.strategy.None? {
      NoneRunning(s.steps, s.workers, s.running);
    }
  }

  /** The action ends a tick while it is starting some stage. */
  predicate Interrupts(s: Sys, a: Action) {
    (a.TickRaises? || a.Restart?) && MidStage(s)
  }

  lemma CleanStep(s: Sys, a: Action, strict: bool)
    requires Base(s) && Clean(s, strict) && !Interrupts(s, a)
    ensures Base(Do(s, a)) && Clean(Do(s, a), strict)
  {
    hide Base, CleanAt, NoStrays, Do, MidStage;
    NoStraysCreate(s, a);
    StepPreserves(s, a);
    NoStraysKept(s, a, strict);
    forall stage: nat
      ensures CleanAt(Do(s, a), strict, stage)
    {
      CleanKept(s, a, strict, stage);
    }
  }

  /** No tick is cut short while it is starting a stage. */
  predicate Uncut(s: Sys, acts: seq<Action>) {
    acts == [] || (Uncut(s, acts[..|acts| - 1]) && !Interrupts(Exec(s, acts[..|acts| - 1]), acts[|acts| - 1]))
  }

  lemma {:induction false} StaysClean(s: Sys, acts: seq<Action>, strict: bool)
    requires Base(s) && Clean(s, strict) && Uncut(s, acts)
    ensures Base(Exec(s, acts)) && Clean(Exec(s, acts), strict)
    decreases |acts|
  {
    hide Base, Clean, Do, Interrupts;
    if acts != [] {
      StaysClean(s, acts[..|acts| - 1], strict);
      CleanStep(Exec(s, acts[..|acts| - 1]), acts[|acts| - 1], strict);
    }
  }

  /** Without exceptions and restarts of the thread, no tick is cut short. */
  lemma {:induction false} UninterruptedIsUncut(s: Sys, acts: seq<Action>)
    requires TickRaises !in acts && Restart !in acts
    ensures Uncut(s, acts)
    decreases |acts|
  {
    hide Do, Exec;
    if acts != [] {
      assert acts[|acts| - 1] in acts;
      UninterruptedIsUncut(s, acts[..|acts| - 1]);
    }
  }

  lemma FreshIsClean(starting: nat, unmanaged: set<string>)
    ensures Clean(Fresh(starting, unmanaged), true)
  {
  }

  // ---------------------------------------------------------------- from a state without partly started stages

  /** From any state without partly started stages, with no tick cut short since: an aborted step never
      shares a stage with a step that keeps the stage current (in the strict sense, with any
      started step), between ticks neither does a step that has not begun, and every worker has an
      operator. */
  lemma StagesStartWhole(s: Sys, acts: seq<Action>, strict: bool, i: nat, j: nat)
    requires Base(s) && Clean(s, strict) && Uncut(s, acts)
    requires var t := Exec(s, acts); i < |t.steps| && j < |t.steps| && t.steps[i].stage == t.steps[j].stage
    ensures var t := Exec(s, acts);
      && (t.steps[i].state.Aborted? || (Unstarted(t.steps[i].state) && !t.pc.Staging?) ==>
            if strict then Unstarted(t.steps[j].state) else !Holds(t.steps[j], StopsOnFailure(t)))
      && NoStrays(t)
  {
    StaysClean(s, acts, strict);
    var t := Exec(s, acts);
    hide Exec, NoStrayAt, Frontier, ShapeOk, LifeOk, PhaseOk, AfterFailure, StagingOk, FailuresFrom, WorkersOk, StraysOk;
    assert CleanAt(t, strict, t.steps[i].stage);
    if t.pc.Staging? {
      SkeletonSizes(t);
    }
  }

  lemma SkeletonSizes(s: Sys)
    requires Base(s) && s.pc.Staging?
    ensures |s.pc.snap| == |s.steps|
  {
  }

  /** In a run in which no tick is cut short, no worker is ever started for an aborted step. */
  lemma UncutIsNotStray(starting: nat, unmanaged: set<string>, acts: seq<Action>)
    requires Uncut(Fresh(starting, unmanaged), acts)
    ensures var s := After(starting, unmanaged, acts); Base(s) && Clean(s, true)
  {
    hide Uncut, Exec, Base, Clean;
    FreshIsSafe(starting, unmanaged);
    FreshIsClean(starting, unmanaged);
    StaysClean(Fresh(starting, unmanaged), acts, true);
  }

  /** A complete or failed step stays as it is for as long as its strategy exists; so does an aborted one
      whose stage is not partly started, if no tick is cut short in that stage. */
  lemma {:induction false} FinishedForever(s: Sys, acts: seq<Action>, i: nat)
    requires Base(s) && i < |s.steps| && Final(s.steps[i].state) && SameStrategy(s, acts)
    requires s.steps[i].state.Aborted? ==> CleanAt(s, false, s.steps[i].stage) && UncutAt(s, acts, s.steps[i].stage)
    ensures var t := Exec(s, acts); Base(t) && i < |t.steps| && t.steps[i] == s.steps[i]
    ensures s.steps[i].state.Aborted? ==> CleanAt(Exec(s, acts), false, s.steps[i].stage)
    decreases |acts|
  {
    hide Base, Do, CleanAt, Cuts;
    assert acts[..|acts|] == acts;
    if acts != [] {
      var before, a := acts[..|acts| - 1], acts[|acts| - 1];
      assert forall k :: 0 <= k <= |before| ==> before[..k] == acts[..k];
      FinishedForever(s, before, i);
      assert before[..|before|] == before;
      FinishedStep(Exec(s, before), a, i);
    }
  }

  predicate UncutAt(s: Sys, acts: seq<Action>, stage: nat) {
    acts == [] || (UncutAt(s, acts[..|acts| - 1], stage) && !Cuts(Exec(s, acts[..|acts| - 1]), acts[|acts| - 1], stage))
  }

  lemma FinishedStep(s: Sys, a: Action, i: nat)
    requires Base(s) && i < |s.steps| && Final(s.steps[i].state) && s.strategy.Some? && Do(s, a).strategy.Some?
    requires s.steps[i].state.Aborted? ==> CleanAt(s, false, s.steps[i].stage) && !Cuts(s, a, s.steps[i].stage)
    ensures Base(Do(s, a)) && i < |Do(s, a).steps| && Do(s, a).steps[i] == s.steps[i]
    ensures s.steps[i].state.Aborted? ==> CleanAt(Do(s, a), false, s.steps[i].stage)
  {
    hide Base, Do, WholeAt, StageClean, Cuts;
    NotOverAnother(s, a);
    StepPreserves(s, a);
    StepsOnlyAdvance(s, a, i);
    if s.steps[i].state.Aborted? {
      CleanKept(s, a, false, s.steps[i].stage);
    }
    SameStep(s.steps, Do(s, a).steps, i);
  }

  lemma SameStep(a: seq<Step>, b: seq<Step>, i: nat)
    requires Advances(a, b, i) && b[i].state == a[i].state
    ensures b[i] == a[i]
  {
  }

  // ---------------------------------------------------------------- from a partly started stage

  /** No entry of the worker map stands for an aborted step. */
  predicate EntriesWorking(s: Sys) {
    forall r :: r in s.workers ==> s.workers[r].Working?
  }

  /** The strategy is aborting, and the steps that had not begun are aborted. */
  predicate AbortedFrom(s: Sys, t: Sys) {
    && t.pc.Idle? && StateIs(t, SwAborting) && StopsOnFailure(t) == StopsOnFailure(s)
    && t.workers == s.workers && t.running == s.running
    && |t.steps| == |s.steps|
    && forall i :: 0 <= i < |s.steps| ==> t.steps[i] == if s.steps[i].state.Initial? then s.steps[i].(state := Aborted) else s.steps[i]
  }

  predicate Gentle(a: Action) {
    a.RpcAbort? || a.Orch? || a.Finish?
  }

  ghost predicate AllGentle(acts: seq<Action>) {
    forall k :: 0 <= k < |acts| ==> Gentle(acts[k])
  }

  lemma Prepend(s: Sys, a: Action, rest: seq<Action>)
    ensures Exec(s, [a] + rest) == Exec(Do(s, a), rest)
    ensures s.strategy.Some? && SameStrategy(Do(s, a), rest) ==> SameStrategy(s, [a] + rest)
    ensures Gentle(a) && AllGentle(rest) ==> AllGentle([a] + rest)
  {
    hide Do, SameStrategy;
    StartWith(s, a, rest);
  }

  /** What one access of abort() leaves as it is. */
  predicate PartlyMarked(s: Sys, t: Sys) {
    && StopsOnFailure(t) == StopsOnFailure(s) && t.workers == s.workers && t.running == s.running
    && |t.steps| == |s.steps|
    && forall i :: 0 <= i < |s.steps| ==>
      t.steps[i] == s.steps[i] || (s.steps[i].state.Initial? && t.steps[i] == s.steps[i].(state := Aborted))
  }

  lemma MarkEffect(s: Sys)
    requires Base(s) && s.pc.AbortMarking?
    ensures s.strategy.Some? && DoOrch(s).strategy.Some?
    ensures s.pc.at < |s.pc.snap| ==> PartlyMarked(s, DoOrch(s)) && DoOrch(s).pc == AbortMarking(s.pc.snap, s.pc.at + 1)
    ensures s.pc.at >= |s.pc.snap| ==> AbortedFrom(s, DoOrch(s))
  {
    hide ShapeOk, Frontier, AfterFailure, WorkersOk, StraysOk, SetState;
    var AbortMarking(snap, at) := s.pc;
    if at < |snap| && snap[at].state.Initial? {
      OneStepChanges(s.steps, s.caps, at, Aborted);
    }
  }

  lemma MarkedOn(s: Sys, t: Sys, u: Sys)
    requires PartlyMarked(s, t) && AbortedFrom(t, u)
    ensures AbortedFrom(s, u)
  {
    forall i | 0 <= i < |s.steps|
      ensures u.steps[i] == if s.steps[i].state.Initial? then s.steps[i].(state := Aborted) else s.steps[i]
    {
      assert t.steps[i] == s.steps[i] || (s.steps[i].state.Initial? && t.steps[i] == s.steps[i].(state := Aborted));
    }
  }

  lemma {:induction false} Marks(s: Sys) returns (acts: seq<Action>)
    requires Base(s) && s.pc.AbortMarking?
    ensures AllGentle(acts) && SameStrategy(s, acts)
    ensures Base(Exec(s, acts)) && AbortedFrom(s, Exec(s, acts))
    decreases if s.pc.at < |s.pc.snap| then |s.pc.snap| - s.pc.at else 0
  {
    var t := Do(s, Orch);
    assert t == DoOrch(s);
    hide Do, DoOrch;
    OrchPreserves(s);
    MarkEffect(s);
    hide Base, AbortedFrom, PartlyMarked;
    var rest := [];
    if s.pc.at < |s.pc.snap| {
      rest := Marks(t);
      MarkedOn(s, t, Exec(t, rest));
    } else {
      NothingDone(t);
    }
    acts := [Orch] + rest;
    Prepend(s, Orch, rest);
  }

  lemma NothingDone(t: Sys)
    ensures Exec(t, []) == t && AllGentle([]) && (t.strategy.Some? ==> SameStrategy(t, []))
  {
    NoActions(t);
  }

  /** From an idle thread, an active strategy can be brought to aborting by an abort alone. */
  lemma ToAborting(s: Sys) returns (acts: seq<Action>)
    requires Base(s) && s.pc.Idle? && s.strategy.Some? && Active(s.strategy.value.state)
    ensures AllGentle(acts) && SameStrategy(s, acts)
    ensures Base(Exec(s, acts)) && AbortedFrom(s, Exec(s, acts))
  {
    hide Base, AbortedFrom, Do;
    match s.strategy.value.state
    case SwApplying =>
      RequestsAbort(s);
      var t := Do(s, RpcAbort);
      var rest := FromRequested(t);
      acts := [RpcAbort] + rest;
      Prepend(s, RpcAbort, rest);
      MarkedOn(s, t, Exec(t, rest));
    case SwAbortRequested =>
      acts := FromRequested(s);
    case SwAborting =>
      acts := [];
      NothingDone(s);
      AlreadyAborting(s);
  }

  lemma AlreadyAborting(s: Sys)
    requires Base(s) && s.pc.Idle? && StateIs(s, SwAborting)
    ensures AbortedFrom(s, s)
  {
  }

  lemma RequestsAbort(s: Sys)
    requires Base(s) && s.pc.Idle? && StateIs(s, SwApplying)
    ensures var t := Do(s, RpcAbort); Base(t) && t.pc.Idle? && StateIs(t, SwAbortRequested) && PartlyMarked(s, t)
  {
    RequestPreserves(s, RpcAbort);
    hide Base;
  }

  lemma FromRequested(s: Sys) returns (acts: seq<Action>)
    requires Base(s) && s.pc.Idle? && StateIs(s, SwAbortRequested)
    ensures AllGentle(acts) && SameStrategy(s, acts)
    ensures Base(Exec(s, acts)) && AbortedFrom(s, Exec(s, acts))
  {
    EntersAbort(s);
    hide Base, AbortedFrom, Do;
    var t := Do(s, Orch);
    var u := Do(t, Orch);
    var rest := Marks(u);
    Prepend(t, Orch, rest);
    Prepend(s, Orch, [Orch] + rest);
    acts := [Orch] + ([Orch] + rest);
    MarkedOn(s, u, Exec(u, rest));
  }

  lemma EntersAbort(s: Sys)
    requires Base(s) && s.pc.Idle? && StateIs(s, SwAbortRequested)
    ensures var t := Do(s, Orch); var u := Do(t, Orch);
      t.strategy.Some? && Base(u) && u.pc.AbortMarking? && PartlyMarked(s, u)
  {
    hide Base, PartlyMarked;
    OrchPreserves(s);
    OrchPreserves(DoOrch(s));
    AbortPcs(s);
    hide DoOrch;
  }

  lemma AbortPcs(s: Sys)
    requires s.pc.Idle? && StateIs(s, SwAbortRequested)
    ensures var t := DoOrch(s); var u := DoOrch(t); t.strategy.Some? && u.pc.AbortMarking? && PartlyMarked(s, u)
  {
    assert DoOrch(s) == s.(pc := AbortEntered);
    assert DoOrch(s.(pc := AbortEntered)) == s.(pc := AbortMarking(s.steps, 0));
  }

  /** The worker map names a worker for the step as aborted. */
  predicate StaleEntry(s: Sys, i: nat)
    requires i < |s.steps|
  {
    s.steps[i].region in s.workers && s.workers[s.steps[i].region] == Aborted
  }

  /** The stage loop hands the aborted step i to a worker when it gets there. */
  lemma {:induction false} ReachesAborted(s: Sys, i: nat) returns (acts: seq<Action>)
    requires Base(s) && StateIs(s, SwAborting) && s.pc.Staging? && s.pc.at <= i < |s.pc.snap| && i < |s.steps|
    requires s.pc.snap[i].stage == s.pc.stage && s.pc.snap[i].state.Aborted? && s.steps[i].state.Aborted?
    requires !StaleEntry(s, i)
    ensures AllGentle(acts) && SameStrategy(s, acts)
    ensures var t := Exec(s, acts);
      && Base(t) && t.strategy.Some? && i < |t.steps| && t.steps[i] == s.steps[i]
      && Worker(s.steps[i].region, Aborted) in t.running
    decreases i - s.pc.at
  {
    var t := Do(s, Orch);
    assert t == DoOrch(s);
    StagePreserves(s);
    TurnEffects(s);
    var rest := [];
    if s.pc.at < i {
      TurnBefore(s, i);
      hide Base, Do, DoOrch;
      rest := ReachesAborted(t, i);
    } else {
      TurnAt(s, i);
      hide Base, Do, DoOrch;
      NothingDone(t);
    }
    acts := [Orch] + rest;
    Prepend(s, Orch, rest);
  }

  lemma TurnAt(s: Sys, i: nat)
    requires Base(s) && s.pc.Staging? && s.pc.at == i < |s.pc.snap| && i < |s.steps|
    requires s.pc.snap[i].stage == s.pc.stage && s.pc.snap[i].state.Aborted?
    requires !StaleEntry(s, i)
    ensures Worker(s.steps[i].region, Aborted) in DoOrch(s).running && DoOrch(s).steps == s.steps
  {
    TurnEffects(s);
    hide Base, TurnOf, SetState;
  }

  lemma TurnBefore(s: Sys, i: nat)
    requires Base(s) && StateIs(s, SwAborting) && s.pc.Staging? && s.pc.at < i < |s.pc.snap| && i < |s.steps|
    ensures var t := DoOrch(s); var r := s.steps[i].region;
      && StateIs(t, SwAborting) && |t.steps| == |s.steps| && t.steps[i] == s.steps[i]
      && (r in t.workers ==> r in s.workers && t.workers[r] == s.workers[r])
  {
    hide Base, DoOrch;
    TurnEffects(s);
    OneRegionOf(s, i);
    TurnEntry(s, s.steps[i].region);
  }

  lemma OneRegionOf(s: Sys, i: nat)
    requires Base(s) && i < |s.steps|
    ensures forall k :: 0 <= k < |s.steps| && s.steps[k].region == s.steps[i].region ==> k == i
  {
    OneRegion(s.steps, s.caps, i);
  }

  /** A turn leaves the entries of other regions. */
  lemma TurnEntry(s: Sys, region: string)
    requires s.pc.Staging? && s.pc.at < |s.pc.snap| && s.pc.snap[s.pc.at].region != region
    ensures region in DoOrch(s).workers ==> region in s.workers && DoOrch(s).workers[region] == s.workers[region]
  {
    hide SetState;
  }

  /** The thread works on the stage of a step that holds it, whatever else is in the stage. */
  lemma ChoosesStage(s: Sys, i: nat, j: nat)
    requires ShapeOk(s.steps, s.caps) && Frontier(s.steps) && (StopsOnFailure(s) ==> AfterFailure(s.steps))
    requires i < |s.steps| && j < |s.steps| && s.steps[i].stage == s.steps[j].stage
    requires s.steps[i].state.Aborted? && Holds(s.steps[j], StopsOnFailure(s))
    ensures Decide(s.steps, StopsOnFailure(s)) == Staging(s.steps, s.steps[i].stage, 0)
  {
    hide Front;
    var sof := StopsOnFailure(s);
    var f := Front(s.steps, sof, 0);
    assert Stops(s.steps[j], sof);
    assert f <= j && Stops(s.steps[f], sof);
    assert s.steps[f].stage == s.steps[j].stage;
    assert WorkRemains(s.steps, s.steps[i].stage);
  }

  lemma EntersStage(s: Sys, i: nat, j: nat)
    requires Base(s) && s.pc.Idle? && StateIs(s, SwAborting) && i < |s.steps| && j < |s.steps|
    requires s.steps[i].stage == s.steps[j].stage && s.steps[i].state.Aborted? && Holds(s.steps[j], StopsOnFailure(s))
    ensures var t := Do(s, Orch); var u := Do(t, Orch);
      && t.strategy.Some? && Base(u) && u.steps == s.steps && StateIs(u, SwAborting) && StopsOnFailure(u) == StopsOnFailure(s)
      && u.pc == Staging(s.steps, s.steps[i].stage, 0)
      && (forall r :: r in u.workers ==> r in s.workers && u.workers[r] == s.workers[r])
  {
    hide Base, Decide, DoOrch, Apart;
    TickBegins(s);
    OrchPreserves(s);
    OrchPreserves(DoOrch(s));
    BaseOrder(s);
    ChoosesStage(s, i, j);
    ScanReads(DoOrch(s));
    OrchIs(s);
    OrchIs(DoOrch(s));
    hide Do;
  }

  lemma OrchIs(s: Sys)
    ensures Do(s, Orch) == DoOrch(s)
  {
  }

  lemma BaseOrder(s: Sys)
    requires Base(s)
    ensures ShapeOk(s.steps, s.caps) && Frontier(s.steps) && (StopsOnFailure(s) ==> AfterFailure(s.steps))
  {
  }

  lemma TickBegins(s: Sys)
    requires s.pc.Idle? && StateIs(s, SwAborting)
    ensures DoOrch(s) == s.(pc := ApplyEntered(StopsOnFailure(s)))
  {
  }

  lemma ScanReads(s: Sys)
    requires s.pc.ApplyEntered?
    ensures var t := DoOrch(s);
      && t.steps == s.steps && t.strategy == s.strategy && t.pc == Decide(s.steps, s.pc.stopOnFailure)
      && (forall r :: r in t.workers ==> r in s.workers && t.workers[r] == s.workers[r])
  {
    hide Decide, Dropped, Regions;
  }

  /** An aborted step in a stage that is held gets a worker in the next tick, and is failed by it. */
  lemma AbortedFails(s: Sys, i: nat, j: nat) returns (acts: seq<Action>)
    requires Base(s) && s.pc.Idle? && StateIs(s, SwAborting) && i < |s.steps| && j < |s.steps|
    requires s.steps[i].stage == s.steps[j].stage && s.steps[i].state.Aborted? && Holds(s.steps[j], StopsOnFailure(s))
    requires !StaleEntry(s, i)
    ensures AllGentle(acts) && SameStrategy(s, acts)
    ensures var t := Exec(s, acts);
      && Base(t) && t.strategy.Some? && i < |t.steps| && t.steps[i] == s.steps[i]
      && Worker(s.steps[i].region, Aborted) in t.running
  {
    EntersStage(s, i, j);
    hide Base, Do;
    var t := Do(s, Orch);
    var u := Do(t, Orch);
    var rest := ReachesAborted(u, i);
    Prepend(t, Orch, rest);
    Prepend(s, Orch, [Orch] + rest);
    acts := [Orch] + ([Orch] + rest);
  }

  lemma Concat(s: Sys, a: seq<Action>, b: seq<Action>)
    ensures Exec(s, a + b) == Exec(Exec(s, a), b)
    ensures SameStrategy(s, a) && SameStrategy(Exec(s, a), b) ==> SameStrategy(s, a + b)
    ensures AllGentle(a) && AllGentle(b) ==> AllGentle(a + b)
  {
    ExecConcat(s, a, b);
    if SameStrategy(s, a) && SameStrategy(Exec(s, a), b) {
      forall k | 0 <= k <= |a + b|
        ensures Exec(s, (a + b)[..k]).strategy.Some?
      {
        if k <= |a| {
          assert (a + b)[..k] == a[..k];
        } else {
          assert (a + b)[..k] == a + b[..k - |a|];
          ExecConcat(s, a, b[..k - |a|]);
        }
      }
    }
  }

  // ---------------------------------------------------------------- the exact conditions

  /** Some stage holds a step that has not been started together with one that keeps the stage current. */
  predicate Partial(s: Sys) {
    exists i, j :: 0 <= i < |s.steps| && 0 <= j < |s.steps| && Apart(s.steps[i], s.steps[j], StopsOnFailure(s))
  }

  predicate Apart(a: Step, b: Step, sof: bool) {
    a.stage == b.stage && Unstarted(a.state) && Holds(b, sof)
  }

  lemma PartialIsNotClean(s: Sys)
    requires s.pc.Idle? && NoStrays(s)
    ensures !Partial(s) ==> Clean(s, false)
  {
    if !Partial(s) {
      forall stage: nat
        ensures CleanAt(s, false, stage)
      {
        forall i, j | 0 <= i < |s.steps| && 0 <= j < |s.steps| && s.steps[i].stage == stage && s.steps[j].stage == stage && Unstarted(s.steps[i].state)
          ensures !Holds(s.steps[j], StopsOnFailure(s))
        {
          assert !Apart(s.steps[i], s.steps[j], StopsOnFailure(s));
        }
      }
    }
  }

  lemma GentleIsUncut(s: Sys, acts: seq<Action>)
    requires AllGentle(acts)
    ensures Uncut(s, acts)
  {
    forall a | a in acts
      ensures !a.TickRaises? && !a.Restart?
    {
      var k :| 0 <= k < |acts| && acts[k] == a;
      assert Gentle(acts[k]);
    }
    UninterruptedIsUncut(s, acts);
  }

  /** Between ticks of an active strategy, with a worker map that names operators only: an aborted step can
      still be handed to a worker, with no further interruption, exactly if some stage is partly started. */
  lemma AbortedReachesOperatorExactly(s: Sys)
    requires Base(s) && s.pc.Idle? && s.strategy.Some? && Active(s.strategy.value.state)
    requires NoStrays(s) && EntriesWorking(s)
    ensures (exists acts :: Uncut(s, acts) && !NoStrays(Exec(s, acts))) <==> Partial(s)
  {
    if Partial(s) {
      var i, j :| 0 <= i < |s.steps| && 0 <= j < |s.steps| && Apart(s.steps[i], s.steps[j], StopsOnFailure(s));
      hide Base, Exec, Uncut;
      var acts := HandsOut(s, i, j);
      GentleIsUncut(s, acts);
      assert Uncut(s, acts) && !NoStrays(Exec(s, acts));
    } else {
      PartialIsNotClean(s);
      hide Base, Exec, Uncut, Clean, Partial;
      forall acts | Uncut(s, acts)
        ensures NoStrays(Exec(s, acts))
      {
        StaysClean(s, acts, false);
      }
    }
  }

  lemma HandsOut(s: Sys, i: nat, j: nat) returns (acts: seq<Action>)
    requires Base(s) && s.pc.Idle? && s.strategy.Some? && Active(s.strategy.value.state)
    requires i < |s.steps| && j < |s.steps| && Apart(s.steps[i], s.steps[j], StopsOnFailure(s)) && !StaleEntry(s, i)
    ensures AllGentle(acts) && SameStrategy(s, acts)
    ensures var t := Exec(s, acts);
      && Base(t) && t.strategy.Some? && i < |t.steps| && t.steps[i].state.Aborted? && t.steps[i].region == s.steps[i].region
      && Worker(s.steps[i].region, Aborted) in t.running
  {
    hide Base, Exec, SameStrategy, AllGentle;
    var first := ToAborting(s);
    var t := Exec(s, first);
    var rest := AbortedFails(t, i, j);
    Concat(s, first, rest);
    acts := first + rest;
  }

  // ---------------------------------------------------------------- when an aborted step can still change

  predicate ThreatenedAt(s: Sys, k: nat) {
    k < |s.steps| && exists w :: w in s.running && Threat(w, s.steps[k])
  }

  /** Step k keeps the stage of step i current; or a worker without an operator is under way that fails step i itself,
      or fails step k and makes it keep the stage current. */
  predicate Touches(s: Sys, i: nat, k: nat) {
    && i < |s.steps| && k < |s.steps| && s.steps[k].stage == s.steps[i].stage
    && (Holds(s.steps[k], StopsOnFailure(s)) || (ThreatenedAt(s, k) && (k == i || StopsOnFailure(s))))
  }

  ghost predicate MayChange(s: Sys, i: nat) {
    exists k: nat :: Touches(s, i, k)
  }

  /** The aborted step i is out of reach, both of the workers and of the thread. */
  ghost predicate Untouched(s: Sys, i: nat) {
    && i < |s.steps| && s.steps[i].state.Aborted? && !MayChange(s, i)
    && !(s.pc.Staging? && s.pc.stage == s.steps[i].stage)
  }

  /** Step i is as it was, and nothing new touches it. */
  ghost predicate NoCloser(s: Sys, t: Sys, i: nat) {
    && i < |s.steps| && i < |t.steps| && t.steps[i] == s.steps[i]
    && (forall k: nat :: Touches(t, i, k) ==> Touches(s, i, k))
  }

  lemma StaysUntouched(s: Sys, t: Sys, i: nat)
    requires Untouched(s, i) && NoCloser(s, t, i)
    requires t.pc.Staging? ==> t.pc.stage != s.steps[i].stage
    ensures Untouched(t, i) && t.steps[i] == s.steps[i]
  {
    hide Touches;
  }

  /** No step changes, no worker is added. */
  lemma FewerThreats(s: Sys, t: Sys, i: nat)
    requires i < |s.steps| && t.steps == s.steps && t.running <= s.running && StopsOnFailure(t) == StopsOnFailure(s)
    ensures NoCloser(s, t, i)
  {
    forall k: nat | Touches(t, i, k)
      ensures Touches(s, i, k)
    {
      if ThreatenedAt(t, k) {
        var w :| w in t.running && Threat(w, t.steps[k]);
        assert w in s.running && Threat(w, s.steps[k]);
      }
    }
  }

  /** One step changes, which touches step i neither before nor after. */
  lemma OneStepApart(s: Sys, t: Sys, i: nat, k: nat)
    requires i < |s.steps| == |t.steps| && k < |s.steps| && k != i && StopsOnFailure(t) == StopsOnFailure(s)
    requires forall m :: 0 <= m < |s.steps| && m != k ==> t.steps[m] == s.steps[m]
    requires forall w, m: nat :: w in t.running && m < |s.steps| && Threat(w, t.steps[m]) && t.steps[m].stage == s.steps[i].stage ==> w in s.running
    requires !Touches(t, i, k)
    ensures NoCloser(s, t, i)
  {
    forall m: nat | Touches(t, i, m)
      ensures Touches(s, i, m)
    {
      if ThreatenedAt(t, m) {
        var w :| w in t.running && Threat(w, t.steps[m]);
        assert w in s.running && Threat(w, s.steps[m]);
      }
    }
  }

  lemma UntouchedFinish(s: Sys, w: Worker, o: Outcome, i: nat)
    requires Base(s) && Untouched(s, i)
    ensures NoCloser(s, DoFinish(s, w, o), i)
  {
    hide Frontier, AfterFailure, PhaseOk, PcOk, LifeOk, ShapeOk, SetState, NoCloser, MayChange, Touches, StrayOk;
    var t := DoFinish(s, w, o);
    if w in s.running && Possible(w.seen, o) {
      if k: nat :| k < |s.steps| && s.steps[k].region == w.region {
        OneStepChanges(s.steps, s.caps, k, ResultState(o));
        ResultIsApart(s, w, o, i, k);
        assert forall v :: v in t.running ==> v in s.running;
        OneStepApart(s, t, i, k);
      } else {
        NoSuchStep(s.steps, w.region, ResultState(o));
        FewerThreats(s, t, i);
      }
    } else {
      FewerThreats(s, t, i);
    }
  }

  lemma ResultIsApart(s: Sys, w: Worker, o: Outcome, i: nat, k: nat)
    requires Base(s) && Untouched(s, i) && w in s.running && Possible(w.seen, o)
    requires k < |s.steps| && s.steps[k].region == w.region
    ensures k != i && !Touches(s.(steps := s.steps[k := s.steps[k].(state := ResultState(o))], running := s.running - multiset{w}), i, k)
  {
    hide Frontier, AfterFailure, PhaseOk, PcOk, LifeOk;
    assert !Touches(s, i, k);
    if w.seen.Working? {
      var j := FindStep(s.steps, w);
      OneRegion(s.steps, s.caps, j);
      assert s.steps[k].state.Working?;
    } else {
      assert StrayOk(s.steps, k);
      assert s.steps[k].state.Aborted? ==> Threat(w, s.steps[k]);
    }
  }

  lemma UntouchedOrch(s: Sys, i: nat)
    requires Base(s) && Untouched(s, i) && DoOrch(s).strategy.Some?
    ensures NoCloser(s, DoOrch(s), i) && (DoOrch(s).pc.Staging? ==> DoOrch(s).pc.stage != s.steps[i].stage)
  {
    hide Frontier, AfterFailure, PhaseOk, PcOk, ShapeOk, StraysOk, WorkersOk, SetState, NoCloser, MayChange, Touches, DoStage, Decide, Dropped, Regions;
    match s.pc
    case ApplyEntered(sof) =>
      ScanAvoids(s, i);
      FewerThreats(s, DoOrch(s), i);
    case Staging(snap, stage, at) =>
      if at < |snap| {
        UntouchedTurn(s, i);
      } else {
        FewerThreats(s, DoOrch(s), i);
      }
    case AbortMarking(snap, at) =>
      if at < |snap| && snap[at].state.Initial? {
        UntouchedMark(s, i);
      } else {
        FewerThreats(s, DoOrch(s), i);
      }
    case _ =>
      FewerThreats(s, DoOrch(s), i);
  }

  /** The thread goes to a stage that a step keeps current. */
  lemma ScanAvoids(s: Sys, i: nat)
    requires Base(s) && Untouched(s, i) && s.pc.ApplyEntered?
    ensures DoOrch(s).pc.Staging? ==> DoOrch(s).pc.stage != s.steps[i].stage
  {
    hide Frontier, AfterFailure, ShapeOk, StraysOk, WorkersOk, Front, Regions;
    var sof := s.pc.stopOnFailure;
    var f := Front(s.steps, sof, 0);
    if f < |s.steps| {
      assert !Touches(s, i, f);
      assert StateIs(s, SwAborting) by {
        assert !NoneIn(s.steps, Aborted);
      }
      assert !s.steps[f].state.Initial?;
    }
  }

  lemma UntouchedTurn(s: Sys, i: nat)
    requires Base(s) && Untouched(s, i) && s.pc.Staging? && s.pc.at < |s.pc.snap|
    ensures NoCloser(s, DoOrch(s), i) && (DoOrch(s).pc.Staging? ==> DoOrch(s).pc.stage != s.steps[i].stage)
  {
    hide Base, DoOrch, NoCloser, MayChange;
    var t, at := DoOrch(s), s.pc.at;
    TurnEffects(s);
    OneRegionOf(s, at);
    forall w, m: nat | w in t.running && m < |s.steps| && Threat(w, t.steps[m]) && t.steps[m].stage == s.steps[i].stage
      ensures w in s.running
    {
      if w !in s.running {
        TurnRuns(s, w);
      }
    }
    if at == i || s.steps[at].stage == s.steps[i].stage {
      assert t.steps[at] == s.steps[at];
      assert t.steps == s.steps;
      TurnAddsNone(s, t, i);
    } else {
      OneStepApart(s, t, i, at);
    }
  }

  lemma TurnAddsNone(s: Sys, t: Sys, i: nat)
    requires i < |s.steps| && t.steps == s.steps && StopsOnFailure(t) == StopsOnFailure(s)
    requires forall w, m: nat :: w in t.running && m < |s.steps| && Threat(w, t.steps[m]) && t.steps[m].stage == s.steps[i].stage ==> w in s.running
    ensures NoCloser(s, t, i)
  {
    forall m: nat | Touches(t, i, m)
      ensures Touches(s, i, m)
    {
      if ThreatenedAt(t, m) {
        var w :| w in t.running && Threat(w, t.steps[m]);
        assert w in s.running && Threat(w, s.steps[m]);
      }
    }
  }

  /** While an abort is marking steps, no step of the strategy has a worker without an operator. */
  lemma UntouchedMark(s: Sys, i: nat)
    requires Base(s) && Untouched(s, i) && s.pc.AbortMarking? && s.pc.at < |s.pc.snap| && s.pc.snap[s.pc.at].state.Initial?
    ensures NoCloser(s, DoOrch(s), i)
  {
    hide Frontier, AfterFailure, PhaseOk, ShapeOk, WorkersOk, SetState, NoCloser, MayChange;
    var t, at := DoOrch(s), s.pc.at;
    OneStepChanges(s.steps, s.caps, at, Aborted);
    assert s.pc.snap[at].region == s.steps[at].region && s.steps[at].state.Initial?;
    assert forall w :: w in s.running && w.region == s.steps[at].region ==> w.seen.Working?;
    OneStepApart(s, t, i, at);
  }

  lemma UntouchedStep(s: Sys, a: Action, i: nat)
    requires Base(s) && Untouched(s, i) && s.strategy.Some? && Do(s, a).strategy.Some?
    ensures Untouched(Do(s, a), i) && Do(s, a).steps[i] == s.steps[i]
  {
    hide Base, DoOrch, DoFinish, DoCreate, NoCloser, MayChange;
    match a {
      case Orch => UntouchedOrch(s, i);
      case Finish(w, o) =>
        UntouchedFinish(s, w, o, i);
        FinishKeepsPlace(s, w, o);
      case _ => UntouchedElse(s, a, i);
    }
    StaysUntouched(s, Do(s, a), i);
  }

  lemma FinishKeepsPlace(s: Sys, w: Worker, o: Outcome)
    ensures DoFinish(s, w, o).pc == s.pc
  {
    hide SetState;
  }

  lemma UntouchedElse(s: Sys, a: Action, i: nat)
    requires i < |s.steps| && s.strategy.Some? && !a.Orch? && !a.Finish?
    ensures NoCloser(s, Do(s, a), i) && (Do(s, a).pc == s.pc || Do(s, a).pc.Idle?)
  {
    FewerThreats(s, Do(s, a), i);
  }

  lemma {:induction false} UntouchedForever(s: Sys, acts: seq<Action>, i: nat)
    requires Base(s) && Untouched(s, i) && SameStrategy(s, acts)
    ensures var t := Exec(s, acts); Base(t) && Untouched(t, i) && t.steps[i] == s.steps[i]
    decreases |acts|
  {
    hide Base, Do, MayChange;
    assert acts[..|acts|] == acts;
    if acts != [] {
      var before, a := acts[..|acts| - 1], acts[|acts| - 1];
      assert forall k :: 0 <= k <= |before| ==> before[..k] == acts[..k];
      UntouchedForever(s, before, i);
      assert before[..|before|] == before;
      NotOverAnother(Exec(s, before), a);
      StepPreserves(Exec(s, before), a);
      UntouchedStep(Exec(s, before), a, i);
    }
  }

  /** Between ticks of an active strategy, an aborted step can still change while its strategy exists, without a further
      interruption, exactly if it is touched; otherwise no interruption changes it either. An entry of the worker
      map that stands for it as aborted must have its worker under way. */
  lemma AbortedStepChangesExactly(s: Sys, i: nat)
    requires Base(s) && s.pc.Idle? && s.strategy.Some? && Active(s.strategy.value.state)
    requires i < |s.steps| && s.steps[i].state.Aborted? && (StaleEntry(s, i) ==> ThreatenedAt(s, i))
    ensures (exists acts :: Uncut(s, acts) && SameStrategy(s, acts) && ChangedAt(s, Exec(s, acts), i)) <==> MayChange(s, i)
    ensures !MayChange(s, i) ==> forall acts :: SameStrategy(s, acts) ==> !ChangedAt(s, Exec(s, acts), i)
  {
    hide Base, Exec, Uncut, SameStrategy;
    if MayChange(s, i) {
      var k: nat :| Touches(s, i, k);
      var acts := TouchedChanges(s, i, k);
      assert Uncut(s, acts);
    } else {
      forall acts | SameStrategy(s, acts)
        ensures !ChangedAt(s, Exec(s, acts), i)
      {
        UntouchedForever(s, acts, i);
      }
    }
  }

  lemma TouchedChanges(s: Sys, i: nat, k: nat) returns (acts: seq<Action>)
    requires Base(s) && s.pc.Idle? && s.strategy.Some? && Active(s.strategy.value.state)
    requires i < |s.steps| && s.steps[i].state.Aborted? && (StaleEntry(s, i) ==> ThreatenedAt(s, i)) && Touches(s, i, k)
    ensures Uncut(s, acts) && SameStrategy(s, acts) && ChangedAt(s, Exec(s, acts), i)
  {
    hide Base, Exec, Uncut, SameStrategy, AllGentle;
    if ThreatenedAt(s, i) {
      acts := FailsNow(s, i);
    } else if Holds(s.steps[k], StopsOnFailure(s)) {
      acts := HeldChanges(s, i, k);
    } else {
      var first := FailsNow(s, k);
      var t := Exec(s, first);
      var rest := HeldChanges(t, i, k);
      Concat(s, first, rest);
      acts := first + rest;
    }
    GentleIsUncut(s, acts);
  }

  /** A worker without an operator writes its result. */
  lemma FailsNow(s: Sys, k: nat) returns (acts: seq<Action>)
    requires Base(s) && s.strategy.Some? && ThreatenedAt(s, k)
    ensures AllGentle(acts) && SameStrategy(s, acts)
    ensures var t := Exec(s, acts);
      && Base(t) && t == s.(steps := s.steps[k := s.steps[k].(state := Failed)], running := t.running)
  {
    hide Base, Exec, AllGentle, SameStrategy;
    var w :| w in s.running && Threat(w, s.steps[k]);
    acts := [Finish(w, Raise)];
    FinishesOnce(s, w);
    FinishPreserves(s, w, Raise);
    FailsOne(s, w, k);
  }

  lemma FailsOne(s: Sys, w: Worker, k: nat)
    requires Base(s) && k < |s.steps| && w in s.running && Threat(w, s.steps[k])
    ensures DoFinish(s, w, Raise) == s.(steps := s.steps[k := s.steps[k].(state := Failed)], running := s.running - multiset{w})
  {
    hide Frontier, AfterFailure, PhaseOk, PcOk, LifeOk, ShapeOk, WorkersOk, StraysOk, SetState;
    OneStepChanges(s.steps, s.caps, k, Failed);
  }

  lemma HeldChanges(s: Sys, i: nat, j: nat) returns (acts: seq<Action>)
    requires Base(s) && s.pc.Idle? && s.strategy.Some? && Active(s.strategy.value.state)
    requires i < |s.steps| && j < |s.steps| && s.steps[i].state.Aborted? && !StaleEntry(s, i)
    requires Apart(s.steps[i], s.steps[j], StopsOnFailure(s))
    ensures AllGentle(acts) && SameStrategy(s, acts) && ChangedAt(s, Exec(s, acts), i)
  {
    hide Base, Exec, SameStrategy, AllGentle;
    var first := HandsOut(s, i, j);
    var w := Worker(s.steps[i].region, Aborted);
    ThreatFails(Exec(s, first), w, i);
    var last := [Finish(w, Raise)];
    FinishesOnce(Exec(s, first), w);
    Concat(s, first, last);
    acts := first + last;
  }

  predicate ChangedAt(s: Sys, t: Sys, i: nat) {
    i < |s.steps| && i < |t.steps| && t.steps[i] != s.steps[i]
  }

  lemma FinishesOnce(s: Sys, w: Worker)
    requires s.strategy.Some?
    ensures var a := [Finish(w, Raise)];
      Exec(s, a) == Do(s, Finish(w, Raise)) && AllGentle(a) && SameStrategy(s, a)
  {
    var a := [Finish(w, Raise)];
    JustOne(s, a[0]);
    assert a[..0] == [] && a[..1] == a;
    FinishKeepsStrategy(s, w);
    hide Do, Exec;
  }

  lemma FinishKeepsStrategy(s: Sys, w: Worker)
    ensures Do(s, Finish(w, Raise)).strategy == s.strategy
  {
    hide SetState;
  }

  // ---------------------------------------------------------------- these conditions on runs

  /** After every run that created no strategy over a left-over worker, with none under way now: an aborted step can
      still get one without a further interruption exactly if some stage is partly started. */
  lemma RunsReachOperatorExactly(starting: nat, unmanaged: set<string>, acts: seq<Action>)
    requires CleanCreates(Fresh(starting, unmanaged), acts)
    requires var s := After(starting, unmanaged, acts);
      s.pc.Idle? && s.strategy.Some? && Active(s.strategy.value.state) && NoStrays(s) && EntriesWorking(s)
    ensures var s := After(starting, unmanaged, acts);
      (exists more :: Uncut(s, more) && !NoStrays(Exec(s, more))) <==> Partial(s)
  {
    hide Exec, Base, CleanCreates, NoStrays, EntriesWorking;
    RunsAreSafe(starting, unmanaged, acts);
    AbortedReachesOperatorExactly(After(starting, unmanaged, acts));
  }
}
