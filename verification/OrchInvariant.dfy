/** The invariant of the orchestration machine, and its preservation by every action. */
module OrchInvariant {
  import opened Cloud
  import opened StagePlan
  import opened OrchMachine

  // ---------------------------------------------------------------- facts about the steps

  predicate SameSkeleton(a: seq<Step>, b: seq<Step>) {
    && |a| == |b|
    && forall i :: 0 <= i < |a| ==> a[i].region == b[i].region && a[i].group == b[i].group && a[i].stage == b[i].stage
  }

  predicate ShapeOk(steps: seq<Step>, caps: seq<nat>) {
    && (forall i, j :: 0 <= i < j < |steps| ==> steps[i].region != steps[j].region)
    && (forall i, j :: 0 <= i < j < |steps| ==> steps[i].stage <= steps[j].stage)
    && (forall i :: 0 <= i < |steps| ==> steps[i].group < |caps| && caps[steps[i].group] >= 1)
    && (forall i, j :: 0 <= i < j < |steps| && steps[i].stage == steps[j].stage ==>
          steps[i].group == steps[j].group && j - i < caps[steps[i].group])
  }

  /** While a step is unfinished, no step of a later stage has been started. */
  predicate Frontier(steps: seq<Step>) {
    forall i, j :: 0 <= i < |steps| && 0 <= j < |steps| && steps[i].stage < steps[j].stage && !Final(steps[i].state) ==>
      Unstarted(steps[j].state)
  }

  predicate AfterFailure(steps: seq<Step>) {
    forall i, j :: 0 <= i < |steps| && 0 <= j < |steps| && steps[i].stage < steps[j].stage && steps[i].state.Failed? ==>
      Unstarted(steps[j].state)
  }

  predicate Has(steps: seq<Step>, region: string, state: StepState) {
    exists i :: 0 <= i < |steps| && steps[i].region == region && steps[i].state == state
  }

  predicate NoneIn(steps: seq<Step>, state: StepState) {
    forall i :: 0 <= i < |steps| ==> steps[i].state != state
  }

  predicate NoWorking(steps: seq<Step>) {
    forall i :: 0 <= i < |steps| ==> !steps[i].state.Working?
  }

  /** Every unfinished worker of an operator is the one recorded for its region, and sees the step as it is. */
  predicate WorkersOk(steps: seq<Step>, workers: map<string, StepState>, running: multiset<Worker>) {
    forall w :: w in running && w.seen.Working? ==>
      && running[w] == 1
      && w.region in workers && workers[w.region] == w.seen
      && Has(steps, w.region, w.seen)
  }

  /** A step that a worker without an operator can fail: it is aborted (or failed by now), in the
      last stage that has been started. */
  predicate StrayOk(steps: seq<Step>, i: nat)
    requires i < |steps|
  {
    && (steps[i].state.Aborted? || steps[i].state.Failed?)
    && (exists j :: 0 <= j < |steps| && steps[j].stage == steps[i].stage && !Unstarted(steps[j].state))
    && (forall j :: 0 <= j < |steps| && steps[j].stage > steps[i].stage ==> Unstarted(steps[j].state))
  }

  predicate Late(strategy: Option<Strategy>) {
    strategy.Some? && (strategy.value.state.SwAborting? || strategy.value.state.SwDeleting? || IsVerdict(strategy.value.state))
  }

  /** Any other unfinished worker was started for an aborted step, of this strategy or of an earlier one
      that had no step in common with it. */
  predicate StraysOk(strategy: Option<Strategy>, steps: seq<Step>, running: multiset<Worker>) {
    forall w :: w in running && !w.seen.Working? ==>
      && w.seen.Aborted?
      && forall i :: 0 <= i < |steps| && steps[i].region == w.region ==> Late(strategy) && StrayOk(steps, i)
  }

  /** What a verdict says about the steps from which it was decided. */
  predicate VerdictOk(v: StrategyState, steps: seq<Step>) {
    match v
    case SwComplete => forall i :: 0 <= i < |steps| ==> steps[i].state.Complete?
    case SwAborted =>
      && (forall i :: 0 <= i < |steps| ==> steps[i].state.Complete? || steps[i].state.Aborted?)
      && AnyIn(steps, Aborted)
    case SwFailed => AnyIn(steps, Failed)
    case _ => false
  }

  /** What is left of that when a worker without an operator may have failed an aborted step since. */
  predicate VerdictKept(v: StrategyState, steps: seq<Step>) {
    if v.SwAborted? then forall i :: 0 <= i < |steps| ==> Final(steps[i].state) else VerdictOk(v, steps)
  }

  // ---------------------------------------------------------------- the thread in the middle of a tick

  predicate ReadIsCurrent(read: StepState, step: Step, workers: map<string, StepState>) {
    match read
    case Initial => step.state.Initial?
    case Working(_) =>
      !step.state.Initial? && (step.state == read || (step.region in workers && workers[step.region] == read))
    case Aborted => step.state.Aborted? || step.state.Failed?
    case _ => step.state == read
  }

  predicate StagingOk(snap: seq<Step>, stage: nat, at: nat, steps: seq<Step>, workers: map<string, StepState>) {
    && SameSkeleton(snap, steps) && at <= |snap|
    && (forall i :: 0 <= i < |steps| && steps[i].stage < stage ==> Final(steps[i].state))
    && (forall i :: 0 <= i < |steps| && steps[i].stage > stage ==> Unstarted(steps[i].state))
    && (forall i :: at <= i < |steps| && steps[i].stage == stage ==> ReadIsCurrent(snap[i].state, steps[i], workers))
    && (exists i :: 0 <= i < |steps| && steps[i].stage == stage && !steps[i].state.Aborted?)
  }

  predicate FailuresFrom(steps: seq<Step>, stage: nat) {
    forall i :: 0 <= i < |steps| && steps[i].state.Failed? ==> steps[i].stage >= stage
  }

  predicate MarkingOk(snap: seq<Step>, at: nat, steps: seq<Step>) {
    && SameSkeleton(snap, steps) && at <= |snap|
    && (forall i :: 0 <= i < at ==> !steps[i].state.Initial?)
    && (forall i :: at <= i < |steps| ==> (snap[i].state.Initial? <==> steps[i].state.Initial?))
  }

  // ---------------------------------------------------------------- the invariant

  predicate InApply(pc: Pc) {
    pc.ApplyEntered? || pc.Staging? || pc.Deciding?
  }

  /** Where the thread can be, given the strategy row. This part needs no other assumption. */
  predicate LifeOk(strategy: Option<Strategy>, pc: Pc) {
    match pc
    case Idle => true
    case DeleteEntered => strategy.Some? && strategy.value.state.SwDeleting?
    case AbortEntered => strategy.Some? && strategy.value.state.SwAbortRequested?
    case AbortMarking(_, _) => strategy.Some? && strategy.value.state.SwAbortRequested?
    case ApplyEntered(sof) => strategy.Some? && Active(strategy.value.state) && sof == strategy.value.stopOnFailure
    case Staging(_, _, _) => strategy.Some? && Active(strategy.value.state)
    case Deciding(v, _) => strategy.Some? && Active(strategy.value.state) && IsVerdict(v)
  }

  predicate Active(state: StrategyState) {
    state.SwApplying? || state.SwAbortRequested? || state.SwAborting?
  }

  /** What the strategy state says about the steps. */
  predicate PhaseOk(strategy: Option<Strategy>, pc: Pc, steps: seq<Step>) {
    match strategy
    case None => steps == []
    case Some(Strategy(state, _)) =>
      match state
      case SwInitial => forall i :: 0 <= i < |steps| ==> steps[i].state.Initial?
      case SwApplying => NoneIn(steps, Aborted)
      case SwAbortRequested => InApply(pc) ==> NoneIn(steps, Aborted)
      case SwAborting => NoneIn(steps, Initial)
      case SwDeleting => NoWorking(steps)
      case _ => VerdictKept(state, steps) && NoWorking(steps)
  }

  predicate PcOk(s: Sys) {
    match s.pc
    case Staging(snap, stage, at) =>
      && StagingOk(snap, stage, at, s.steps, s.workers)
      && (s.strategy.Some? && s.strategy.value.stopOnFailure ==> FailuresFrom(s.steps, stage))
      && (NoneIn(snap, Aborted) || StateIs(s, SwAborting))
    case Deciding(v, _) => VerdictKept(v, s.steps) && NoWorking(s.steps) && (v.SwAborted? ==> StateIs(s, SwAborting))
    case AbortMarking(snap, at) => MarkingOk(snap, at, s.steps)
    case _ => true
  }

  predicate Base(s: Sys) {
    && LifeOk(s.strategy, s.pc)
    && ShapeOk(s.steps, s.caps)
    && Frontier(s.steps)
    && WorkersOk(s.steps, s.workers, s.running)
    && StraysOk(s.strategy, s.steps, s.running)
    && (s.strategy.Some? && s.strategy.value.stopOnFailure ==> AfterFailure(s.steps))
    && PhaseOk(s.strategy, s.pc, s.steps)
    && PcOk(s)
  }

  // ---------------------------------------------------------------- changing one step

  lemma OneStepChanges(steps: seq<Step>, caps: seq<nat>, i: nat, state: StepState)
    requires ShapeOk(steps, caps) && i < |steps|
    ensures SetState(steps, steps[i].region, state) == steps[i := steps[i].(state := state)]
    ensures ShapeOk(steps[i := steps[i].(state := state)], caps)
  {
  }

  lemma FindStep(steps: seq<Step>, w: Worker) returns (i: nat)
    requires Has(steps, w.region, w.seen)
    ensures i < |steps| && steps[i].region == w.region && steps[i].state == w.seen
  {
    i :| 0 <= i < |steps| && steps[i].region == w.region && steps[i].state == w.seen;
  }

  /** A worker other than w belongs to another region, so its step is not the one that changes. */
  lemma OtherWorkers(steps: seq<Step>, caps: seq<nat>, workers: map<string, StepState>, running: multiset<Worker>,
                     i: nat, state: StepState, running': multiset<Worker>)
    requires ShapeOk(steps, caps) && i < |steps| && WorkersOk(steps, workers, running)
    requires forall w :: w in running' && w.seen.Working? ==> w in running && running'[w] == running[w] && w.region != steps[i].region
    ensures WorkersOk(steps[i := steps[i].(state := state)], workers, running')
  {
    hide ShapeOk;
    var after := steps[i := steps[i].(state := state)];
    forall w | w in running' && w.seen.Working?
      ensures Has(after, w.region, w.seen)
    {
      var k := FindStep(steps, w);
      assert after[k] == steps[k];
    }
  }

  lemma FinishedWorker(steps: seq<Step>, workers: map<string, StepState>, running: multiset<Worker>, w: Worker)
    requires WorkersOk(steps, workers, running) && w in running && w.seen.Working?
    ensures forall v :: v in running - multiset{w} && v.seen.Working? ==>
      v in running && (running - multiset{w})[v] == running[v] && v.region != w.region
  {
  }

  // ---------------------------------------------------------------- a worker writes its result

  lemma FinishFrontier(steps: seq<Step>, i: nat, state: StepState)
    requires Frontier(steps) && i < |steps| && steps[i].state.Working? && !Unstarted(state)
    ensures Frontier(steps[i := steps[i].(state := state)])
    ensures AfterFailure(steps) ==> AfterFailure(steps[i := steps[i].(state := state)])
  {
  }

  lemma FinishPhase(strategy: Option<Strategy>, pc: Pc, steps: seq<Step>, i: nat, state: StepState)
    requires PhaseOk(strategy, pc, steps) && i < |steps| && steps[i].state.Working? && !Unstarted(state)
    ensures PhaseOk(strategy, pc, steps[i := steps[i].(state := state)])
  {
  }

  lemma FinishPc(s: Sys, i: nat, state: StepState)
    requires PcOk(s) && i < |s.steps| && s.steps[i].state.Working? && !Unstarted(state)
    requires s.steps[i].region in s.workers && s.workers[s.steps[i].region] == s.steps[i].state
    ensures PcOk(s.(steps := s.steps[i := s.steps[i].(state := state)]))
  {
    if s.pc.Staging? {
      FinishStaging(s.pc.snap, s.pc.stage, s.pc.at, s.steps, s.workers, i, state);
      hide VerdictKept, StagingOk, NoneIn;
    }
  }

  lemma FinishStaging(snap: seq<Step>, stage: nat, at: nat, steps: seq<Step>, workers: map<string, StepState>, i: nat, state: StepState)
    requires StagingOk(snap, stage, at, steps, workers) && i < |steps| && steps[i].state.Working? && !Unstarted(state)
    requires steps[i].region in workers && workers[steps[i].region] == steps[i].state
    ensures StagingOk(snap, stage, at, steps[i := steps[i].(state := state)], workers)
  {
    var after := steps[i := steps[i].(state := state)];
    var live :| 0 <= live < |steps| && steps[live].stage == stage && !steps[live].state.Aborted?;
    assert !after[live].state.Aborted? && after[live].stage == stage;
    forall k | at <= k < |after| && after[k].stage == stage
      ensures ReadIsCurrent(snap[k].state, after[k], workers)
    {
      assert ReadIsCurrent(snap[k].state, steps[k], workers);
    }
  }

  /** A step in progress gets a result: nothing changes for the steps that stray workers can fail. */
  lemma FinishStrays(strategy: Option<Strategy>, steps: seq<Step>, running: multiset<Worker>, running': multiset<Worker>, i: nat, state: StepState)
    requires StraysOk(strategy, steps, running) && running' <= running
    requires i < |steps| && steps[i].state.Working? && !Unstarted(state)
    ensures StraysOk(strategy, steps[i := steps[i].(state := state)], running')
  {
    var after := steps[i := steps[i].(state := state)];
    forall w, k | w in running' && !w.seen.Working? && 0 <= k < |after| && after[k].region == w.region
      ensures Late(strategy) && StrayOk(after, k)
    {
      assert w in running && StrayOk(steps, k);
      StaysStray(steps, i, state, k);
    }
  }

  lemma StaysStray(steps: seq<Step>, i: nat, state: StepState, k: nat)
    requires i < |steps| && !Unstarted(state) && (steps[i].state.Working? || (StrayOk(steps, i) && state.Failed?))
    requires k < |steps| && StrayOk(steps, k)
    ensures StrayOk(steps[i := steps[i].(state := state)], k)
  {
    var after := steps[i := steps[i].(state := state)];
    var j :| 0 <= j < |steps| && steps[j].stage == steps[k].stage && !Unstarted(steps[j].state);
    assert !Unstarted(after[j].state);
  }

  lemma FinishPreserves(s: Sys, w: Worker, o: Outcome)
    requires Base(s)
    ensures Base(DoFinish(s, w, o))
  {
    if w in s.running && Possible(w.seen, o) {
      if w.seen.Working? {
        ResultPreserves(s, w, o);
      } else {
        StrayPreserves(s, w, o);
      }
    }
  }

  lemma ResultPreserves(s: Sys, w: Worker, o: Outcome)
    requires Base(s) && w in s.running && w.seen.Working?
    ensures Base(DoFinish(s, w, o))
  {
    hide ShapeOk, Frontier, AfterFailure, PhaseOk, PcOk, LifeOk, SetState, StraysOk;
    var i := FindStep(s.steps, w);
    var state := ResultState(o);
    OneStepChanges(s.steps, s.caps, i, state);
    FinishedWorker(s.steps, s.workers, s.running, w);
    OtherWorkers(s.steps, s.caps, s.workers, s.running, i, state, s.running - multiset{w});
    FinishStrays(s.strategy, s.steps, s.running, s.running - multiset{w}, i, state);
    FinishFrontier(s.steps, i, state);
    FinishPhase(s.strategy, s.pc, s.steps, i, state);
    FinishPc(s, i, state);
    PcOkFrame(s.(steps := s.steps[i := s.steps[i].(state := state)]), DoFinish(s, w, o));
  }

  // ---------------------------------------------------------------- a worker without an operator fails its step

  lemma StrayOrder(steps: seq<Step>, i: nat)
    requires Frontier(steps) && i < |steps| && StrayOk(steps, i)
    ensures Frontier(steps[i := steps[i].(state := Failed)])
    ensures AfterFailure(steps) ==> AfterFailure(steps[i := steps[i].(state := Failed)])
  {
    var started :| 0 <= started < |steps| && steps[started].stage == steps[i].stage && !Unstarted(steps[started].state);
    var after := steps[i := steps[i].(state := Failed)];
    forall x, y | 0 <= x < |after| && 0 <= y < |after| && after[x].stage < after[y].stage && !Final(after[x].state)
      ensures Unstarted(after[y].state)
    {
      assert x != i && steps[x].stage < steps[y].stage && !Final(steps[x].state);
      assert y != i;
    }
    if AfterFailure(steps) {
      forall x, y | 0 <= x < |after| && 0 <= y < |after| && after[x].stage < after[y].stage && after[x].state.Failed?
        ensures Unstarted(after[y].state)
      {
        if x != i {
          assert steps[x].stage < steps[y].stage && steps[x].state.Failed?;
          assert y != i;
        }
      }
    }
  }

  lemma StrayPhase(strategy: Option<Strategy>, pc: Pc, steps: seq<Step>, i: nat)
    requires PhaseOk(strategy, pc, steps) && i < |steps| && StrayOk(steps, i)
    ensures PhaseOk(strategy, pc, steps[i := steps[i].(state := Failed)])
  {
    var after := steps[i := steps[i].(state := Failed)];
    if strategy.Some? && strategy.value.state.SwFailed? {
      assert after[i].state == Failed;
    }
  }

  lemma StrayPc(s: Sys, i: nat)
    requires LifeOk(s.strategy, s.pc) && PhaseOk(s.strategy, s.pc, s.steps) && PcOk(s)
    requires i < |s.steps| && StrayOk(s.steps, i) && Late(s.strategy)
    ensures PcOk(s.(steps := s.steps[i := s.steps[i].(state := Failed)]))
  {
    var after := s.steps[i := s.steps[i].(state := Failed)];
    match s.pc
    case Staging(snap, stage, at) =>
      hide VerdictKept;
      StrayStaging(s, i);
    case Deciding(v, _) =>
      if v.SwFailed? {
        assert after[i].state == Failed;
      }
    case _ =>
  }

  lemma StrayStaging(s: Sys, i: nat)
    requires LifeOk(s.strategy, s.pc) && PhaseOk(s.strategy, s.pc, s.steps) && s.pc.Staging? && PcOk(s)
    requires i < |s.steps| && StrayOk(s.steps, i) && Late(s.strategy)
    ensures var after := s.steps[i := s.steps[i].(state := Failed)];
      StagingOk(s.pc.snap, s.pc.stage, s.pc.at, after, s.workers) && (s.strategy.value.stopOnFailure ==> FailuresFrom(after, s.pc.stage))
  {
    var after := s.steps[i := s.steps[i].(state := Failed)];
    var started :| 0 <= started < |s.steps| && s.steps[started].stage == s.steps[i].stage && !Unstarted(s.steps[started].state);
    var live :| 0 <= live < |s.steps| && s.steps[live].stage == s.pc.stage && !s.steps[live].state.Aborted?;
    assert s.steps[i].stage <= s.pc.stage;
    assert s.steps[i].stage >= s.pc.stage by {
      assert !s.steps[live].state.Initial?;
    }
    assert !after[live].state.Aborted?;
    forall k | s.pc.at <= k < |after| && after[k].stage == s.pc.stage
      ensures ReadIsCurrent(s.pc.snap[k].state, after[k], s.workers)
    {
      assert ReadIsCurrent(s.pc.snap[k].state, s.steps[k], s.workers);
    }
  }

  lemma StrayStrays(strategy: Option<Strategy>, steps: seq<Step>, running: multiset<Worker>, running': multiset<Worker>, i: nat)
    requires StraysOk(strategy, steps, running) && running' <= running && i < |steps| && StrayOk(steps, i)
    ensures StraysOk(strategy, steps[i := steps[i].(state := Failed)], running')
  {
    var after := steps[i := steps[i].(state := Failed)];
    forall w, k | w in running' && !w.seen.Working? && 0 <= k < |after| && after[k].region == w.region
      ensures Late(strategy) && StrayOk(after, k)
    {
      assert w in running && StrayOk(steps, k);
      StaysStray(steps, i, Failed, k);
    }
  }

  lemma StrayPreserves(s: Sys, w: Worker, o: Outcome)
    requires Base(s) && w in s.running && !w.seen.Working? && o.Raise?
    ensures Base(DoFinish(s, w, o))
  {
    hide ShapeOk, Frontier, AfterFailure, PhaseOk, PcOk, LifeOk, SetState, StrayOk;
    var running := s.running - multiset{w};
    if i :| 0 <= i < |s.steps| && s.steps[i].region == w.region {
      OneStepChanges(s.steps, s.caps, i, Failed);
      assert StrayOk(s.steps, i) && Late(s.strategy);
      NoOperator(s.steps, i);
      NoWorkerFor(s.steps, s.caps, s.workers, s.running, i);
      OtherWorkers(s.steps, s.caps, s.workers, s.running, i, Failed, running);
      StrayStrays(s.strategy, s.steps, s.running, running, i);
      StrayOrder(s.steps, i);
      StrayPhase(s.strategy, s.pc, s.steps, i);
      StrayPc(s, i);
      PcOkFrame(s.(steps := s.steps[i := s.steps[i].(state := Failed)]), DoFinish(s, w, o));
    } else {
      NoSuchStep(s.steps, w.region, Failed);
      PcOkFrame(s, DoFinish(s, w, o));
    }
  }

  lemma NoOperator(steps: seq<Step>, i: nat)
    requires i < |steps| && StrayOk(steps, i)
    ensures !steps[i].state.Working? && !steps[i].state.Initial?
  {
  }

  lemma NoSuchStep(steps: seq<Step>, region: string, state: StepState)
    requires forall i :: 0 <= i < |steps| ==> steps[i].region != region
    ensures SetState(steps, region, state) == steps
  {
  }

  lemma PcOkFrame(s: Sys, t: Sys)
    requires PcOk(s)
    requires t.pc == s.pc && t.steps == s.steps && t.workers == s.workers && t.strategy == s.strategy
    ensures PcOk(t)
  {
  }

  // ---------------------------------------------------------------- apply() reads the steps

  lemma ScanWorkers(steps: seq<Step>, caps: seq<nat>, workers: map<string, StepState>, running: multiset<Worker>, n: nat)
    requires ShapeOk(steps, caps) && WorkersOk(steps, workers, running) && n <= |steps|
    requires forall i :: 0 <= i < n ==> Final(steps[i].state)
    ensures WorkersOk(steps, workers - Regions(steps[..n]), running)
  {
    forall w | w in running && w.seen.Working?
      ensures w.region !in Regions(steps[..n])
    {
      var i := FindStep(steps, w);
      assert i >= n;
    }
  }

  lemma DroppedFinal(steps: seq<Step>, sof: bool)
    ensures forall i :: 0 <= i < Dropped(steps, sof) ==> Final(steps[i].state)
  {
  }

  /** Before the front everything is finished, and later stages are untouched. */
  lemma FrontSplits(steps: seq<Step>, caps: seq<nat>, sof: bool)
    requires ShapeOk(steps, caps) && Frontier(steps) && (sof ==> AfterFailure(steps))
    ensures var f := Front(steps, sof, 0); f < |steps| ==>
      && (forall i :: 0 <= i < |steps| && steps[i].stage < steps[f].stage ==> Final(steps[i].state))
      && (forall i :: 0 <= i < |steps| && steps[i].stage > steps[f].stage ==> Unstarted(steps[i].state))
      && (sof ==> FailuresFrom(steps, steps[f].stage))
  {
    hide Front;
    var f := Front(steps, sof, 0);
    if f < |steps| {
      forall i | 0 <= i < |steps| && steps[i].stage < steps[f].stage
        ensures Final(steps[i].state)
      {
        assert i < f;
      }
      if sof {
        forall i | 0 <= i < |steps| && steps[i].state.Failed?
          ensures steps[i].stage >= steps[f].stage
        {
          assert i >= f;
        }
      }
    }
  }

  lemma VerdictIsRight(steps: seq<Step>, caps: seq<nat>, sof: bool)
    requires ShapeOk(steps, caps) && Frontier(steps) && (sof ==> AfterFailure(steps))
    requires Decide(steps, sof).Deciding?
    ensures VerdictOk(Decide(steps, sof).verdict, steps) && NoWorking(steps) && IsVerdict(Decide(steps, sof).verdict)
  {
    hide Front, ShapeOk, Frontier, AfterFailure, FailuresFrom;
    FrontSplits(steps, caps, sof);
    var f := Front(steps, sof, 0);
    if f == |steps| {
    } else {
      assert steps[f].state.Failed?;
      forall i | 0 <= i < |steps|
        ensures !steps[i].state.Working?
      {
        assert steps[i].stage == steps[f].stage ==> steps[i].state.Complete? || steps[i].state.Failed?;
      }
    }
  }

  /** The verdict "aborted" and the reading of aborted steps need an aborting strategy. */
  lemma ReadsAborted(s: Sys)
    requires LifeOk(s.strategy, s.pc) && s.pc.ApplyEntered? && PhaseOk(s.strategy, s.pc, s.steps)
    ensures NoneIn(s.steps, Aborted) || StateIs(s, SwAborting)
    ensures AnyIn(s.steps, Aborted) ==> StateIs(s, SwAborting)
  {
    hide VerdictKept;
  }

  lemma ScanPreserves(s: Sys)
    requires Base(s) && s.pc.ApplyEntered?
    ensures Base(DoOrch(s))
  {
    hide Front, ShapeOk, Frontier, AfterFailure, StraysOk, SetState, VerdictOk, NoWorking, FailuresFrom, WorkersOk, Regions, WorkRemains, Dropped;
    var sof := s.pc.stopOnFailure;
    FrontSplits(s.steps, s.caps, sof);
    DroppedFinal(s.steps, sof);
    ScanWorkers(s.steps, s.caps, s.workers, s.running, Dropped(s.steps, sof));
    ReadsAborted(s);
    var pc := Decide(s.steps, sof);
    if pc.Deciding? {
      VerdictIsRight(s.steps, s.caps, sof);
      RightIsKept(pc.verdict, s.steps);
    } else {
      var f := Front(s.steps, sof, 0);
      assert s.steps[f].stage == pc.stage && !s.steps[f].state.Aborted?;
    }
  }

  lemma RightIsKept(v: StrategyState, steps: seq<Step>)
    requires VerdictOk(v, steps)
    ensures VerdictKept(v, steps) && (v.SwAborted? ==> AnyIn(steps, Aborted))
  {
  }

  // ---------------------------------------------------------------- one turn of the stage loop

  /** A step leaves the initial state, in the current stage. */
  lemma StartKeepsOrder(steps: seq<Step>, i: nat, stage: nat, state: StepState)
    requires i < |steps| && steps[i].stage == stage && steps[i].state.Initial? && !Unstarted(state)
    requires Frontier(steps)
    requires forall j :: 0 <= j < |steps| && steps[j].stage < stage ==> Final(steps[j].state)
    requires forall j :: 0 <= j < |steps| && steps[j].stage > stage ==> Unstarted(steps[j].state)
    ensures Frontier(steps[i := steps[i].(state := state)])
  {
  }

  lemma StartKeepsFailures(steps: seq<Step>, i: nat, stage: nat, state: StepState)
    requires i < |steps| && steps[i].stage == stage && !Unstarted(state)
    requires AfterFailure(steps) && FailuresFrom(steps, stage)
    requires forall j :: 0 <= j < |steps| && steps[j].stage > stage ==> Unstarted(steps[j].state)
    ensures AfterFailure(steps[i := steps[i].(state := state)])
    ensures FailuresFrom(steps[i := steps[i].(state := state)], stage)
  {
  }

  lemma StartKeepsPhase(strategy: Option<Strategy>, pc: Pc, steps: seq<Step>, i: nat, state: StepState)
    requires LifeOk(strategy, pc) && pc.Staging? && PhaseOk(strategy, pc, steps)
    requires i < |steps| && steps[i].state.Initial? && !Unstarted(state)
    ensures PhaseOk(strategy, pc, steps[i := steps[i].(state := state)])
  {
  }

  lemma NoWorkerFor(steps: seq<Step>, caps: seq<nat>, workers: map<string, StepState>, running: multiset<Worker>, i: nat)
    requires ShapeOk(steps, caps) && WorkersOk(steps, workers, running) && i < |steps|
    requires !steps[i].state.Working? || steps[i].region !in workers || workers[steps[i].region] != steps[i].state
    ensures forall w :: w in running && w.seen.Working? ==> w.region != steps[i].region
  {
    forall w | w in running && w.seen.Working?
      ensures w.region != steps[i].region
    {
      var k := FindStep(steps, w);
    }
  }

  lemma ForgetWorker(steps: seq<Step>, workers: map<string, StepState>, running: multiset<Worker>, region: string)
    requires WorkersOk(steps, workers, running)
    requires forall w :: w in running && w.seen.Working? ==> w.region != region
    ensures WorkersOk(steps, workers - {region}, running)
  {
  }

  lemma NewWorker(steps: seq<Step>, workers: map<string, StepState>, running: multiset<Worker>, region: string, state: StepState)
    requires WorkersOk(steps, workers, running) && (state.Working? ==> Has(steps, region, state))
    requires forall w :: w in running && w.seen.Working? ==> w.region != region
    ensures WorkersOk(steps, workers[region := state], running + multiset{Worker(region, state)})
  {
    hide Has;
    var more := running + multiset{Worker(region, state)};
    forall w | w in more && w.seen.Working?
      ensures more[w] == 1 && w.region in workers[region := state] && workers[region := state][w.region] == w.seen && Has(steps, w.region, w.seen)
    {
      if w != Worker(region, state) {
        assert w in running;
      }
    }
  }

  lemma NewWorkerStrays(strategy: Option<Strategy>, steps: seq<Step>, running: multiset<Worker>, w: Worker)
    requires StraysOk(strategy, steps, running) && w.seen.Working?
    ensures StraysOk(strategy, steps, running + multiset{w})
  {
    hide StrayOk;
  }

  /** A worker for an aborted step of the current stage. */
  lemma NewStray(s: Sys)
    requires Base(s) && s.pc.Staging? && s.pc.at < |s.pc.snap| && s.pc.snap[s.pc.at].stage == s.pc.stage
    requires s.pc.snap[s.pc.at].state.Aborted?
    ensures StraysOk(s.strategy, s.steps, s.running + multiset{Worker(s.pc.snap[s.pc.at].region, Aborted)})
  {
    hide Frontier, AfterFailure, WorkersOk, VerdictKept, FailuresFrom;
    var at := s.pc.at;
    assert !NoneIn(s.pc.snap, Aborted);
    assert at < |s.steps| && s.pc.snap[at].region == s.steps[at].region && s.steps[at].stage == s.pc.stage;
    assert ReadIsCurrent(s.pc.snap[at].state, s.steps[at], s.workers);
    var live :| 0 <= live < |s.steps| && s.steps[live].stage == s.pc.stage && !s.steps[live].state.Aborted?;
    assert !Unstarted(s.steps[live].state);
    assert StrayOk(s.steps, at);
    OneRegion(s.steps, s.caps, at);
    var more := s.running + multiset{Worker(s.pc.snap[at].region, Aborted)};
    forall w, i | w in more && !w.seen.Working? && 0 <= i < |s.steps| && s.steps[i].region == w.region
      ensures w.seen.Aborted? && Late(s.strategy) && StrayOk(s.steps, i)
    {
      if w == Worker(s.pc.snap[at].region, Aborted) {
        assert i == at;
      } else {
        assert w in s.running;
      }
    }
  }

  lemma OneRegion(steps: seq<Step>, caps: seq<nat>, k: nat)
    requires ShapeOk(steps, caps) && k < |steps|
    ensures forall i :: 0 <= i < |steps| && steps[i].region == steps[k].region ==> i == k
  {
  }

  /** The rest of the stage still matches what was read, after the turn for step `at`. */
  lemma RestIsCurrent(snap: seq<Step>, stage: nat, at: nat, steps: seq<Step>, workers: map<string, StepState>,
                      caps: seq<nat>, state: StepState, workers': map<string, StepState>)
    requires ShapeOk(steps, caps) && StagingOk(snap, stage, at, steps, workers)
    requires at < |steps| && steps[at].stage == stage
    requires state == steps[at].state || !Unstarted(state)
    requires Final(steps[at].state) ==> state == steps[at].state
    requires forall r :: r != steps[at].region ==> (r in workers' <==> r in workers) && (r in workers ==> workers'[r] == workers[r])
    ensures StagingOk(snap, stage, at + 1, steps[at := steps[at].(state := state)], workers')
  {
    hide Final;
    var after := steps[at := steps[at].(state := state)];
    var live :| 0 <= live < |steps| && steps[live].stage == stage && !steps[live].state.Aborted?;
    assert !after[live].state.Aborted?;
    forall i | at + 1 <= i < |after| && after[i].stage == stage
      ensures ReadIsCurrent(snap[i].state, after[i], workers')
    {
      assert after[i] == steps[i] && steps[i].region != steps[at].region;
      assert ReadIsCurrent(snap[i].state, steps[i], workers);
    }
  }

  /** In a strategy that can still start steps, no step is left to a stray worker. */
  lemma NotLateNoStrays(strategy: Option<Strategy>, steps: seq<Step>, steps': seq<Step>, running: multiset<Worker>)
    requires StraysOk(strategy, steps, running) && !Late(strategy) && SameSkeleton(steps, steps')
    ensures StraysOk(strategy, steps', running)
  {
    hide StrayOk;
    forall w, i | w in running && !w.seen.Working? && 0 <= i < |steps'|
      ensures steps'[i].region != w.region
    {
      assert steps'[i].region == steps[i].region;
    }
  }

  /** The turn starts the step `at`, or marks it failed because its subcloud is unmanaged. */
  lemma LeaveInitial(s: Sys, state: StepState)
    requires Base(s) && s.pc.Staging? && s.pc.at < |s.pc.snap| && s.pc.snap[s.pc.at].stage == s.pc.stage
    requires s.pc.snap[s.pc.at].state.Initial? && !Unstarted(state)
    ensures s.pc.at < |s.steps| && s.pc.snap[s.pc.at].region == s.steps[s.pc.at].region
    ensures SetState(s.steps, s.steps[s.pc.at].region, state) == s.steps[s.pc.at := s.steps[s.pc.at].(state := state)]
    ensures forall w :: w in s.running && w.seen.Working? ==> w.region != s.steps[s.pc.at].region
    ensures Base(s.(steps := s.steps[s.pc.at := s.steps[s.pc.at].(state := state)],
                    pc := Staging(s.pc.snap, s.pc.stage, s.pc.at + 1)))
  {
    hide ShapeOk, Frontier, AfterFailure, PhaseOk, FailuresFrom, WorkersOk, StraysOk, SetState, SameSkeleton;
    var i := s.pc.at;
    SkeletonAt(s.pc.snap, s.steps, i);
    assert s.steps[i].state.Initial?;
    StillStarting(s, i);
    var after := s.steps[i := s.steps[i].(state := state)];
    OneStepChanges(s.steps, s.caps, i, state);
    NoWorkerFor(s.steps, s.caps, s.workers, s.running, i);
    OtherWorkers(s.steps, s.caps, s.workers, s.running, i, state, s.running);
    ChangedSkeleton(s.steps, i, state);
    NotLateNoStrays(s.strategy, s.steps, after, s.running);
    StartKeepsOrder(s.steps, i, s.pc.stage, state);
    if s.strategy.value.stopOnFailure {
      StartKeepsFailures(s.steps, i, s.pc.stage, state);
    }
    StartKeepsPhase(s.strategy, s.pc, s.steps, i, state);
    PhasePc(s.strategy, s.pc, Staging(s.pc.snap, s.pc.stage, i + 1), after);
    RestIsCurrent(s.pc.snap, s.pc.stage, i, s.steps, s.workers, s.caps, state, s.workers);
  }

  lemma StillStarting(s: Sys, i: nat)
    requires LifeOk(s.strategy, s.pc) && s.pc.Staging? && PhaseOk(s.strategy, s.pc, s.steps)
    requires i < |s.steps| && s.steps[i].state.Initial?
    ensures !Late(s.strategy)
  {
  }

  lemma ChangedSkeleton(steps: seq<Step>, i: nat, state: StepState)
    requires i < |steps|
    ensures SameSkeleton(steps, steps[i := steps[i].(state := state)])
  {
  }

  lemma SkeletonAt(a: seq<Step>, b: seq<Step>, i: nat)
    requires SameSkeleton(a, b) && i < |a|
    ensures i < |b| && a[i].region == b[i].region && a[i].stage == b[i].stage
  {
  }

  lemma PhasePc(strategy: Option<Strategy>, pc: Pc, pc': Pc, steps: seq<Step>)
    requires PhaseOk(strategy, pc, steps) && (InApply(pc') ==> InApply(pc))
    ensures PhaseOk(strategy, pc', steps)
  {
  }

  /** Moving on without touching the steps; the worker map may change for the region of the turn. */
  lemma TurnKeepsSteps(s: Sys, workers: map<string, StepState>, running: multiset<Worker>)
    requires Base(s) && s.pc.Staging? && s.pc.at < |s.pc.snap|
    requires WorkersOk(s.steps, workers, running) && StraysOk(s.strategy, s.steps, running)
    requires s.pc.snap[s.pc.at].stage == s.pc.stage ==>
      forall r :: r != s.pc.snap[s.pc.at].region ==> (r in workers <==> r in s.workers) && (r in workers ==> workers[r] == s.workers[r])
    requires s.pc.snap[s.pc.at].stage != s.pc.stage ==> workers == s.workers
    ensures Base(s.(workers := workers, running := running, pc := Staging(s.pc.snap, s.pc.stage, s.pc.at + 1)))
  {
    hide ShapeOk, Frontier, AfterFailure, PhaseOk, FailuresFrom, WorkersOk, StraysOk, SetState, SameSkeleton;
    var i := s.pc.at;
    SkeletonAt(s.pc.snap, s.steps, i);
    PhasePc(s.strategy, s.pc, Staging(s.pc.snap, s.pc.stage, i + 1), s.steps);
    if s.pc.snap[i].stage == s.pc.stage {
      RestIsCurrent(s.pc.snap, s.pc.stage, i, s.steps, s.workers, s.caps, s.steps[i].state, workers);
      assert s.steps[i := s.steps[i].(state := s.steps[i].state)] == s.steps;
    } else {
      assert StagingOk(s.pc.snap, s.pc.stage, i + 1, s.steps, workers);
    }
  }

  lemma StagePreserves(s: Sys)
    requires Base(s) && s.pc.Staging?
    ensures Base(DoOrch(s))
  {
    hide ShapeOk, Frontier, AfterFailure, PhaseOk, FailuresFrom, WorkersOk, StraysOk, SetState, SameSkeleton, Has;
    var Staging(snap, stage, at) := s.pc;
    if at >= |snap| {
      StageDone(s);
    } else if snap[at].stage != stage {
      TurnKeepsSteps(s, s.workers, s.running);
    } else {
      SkeletonAt(snap, s.steps, at);
      var region := snap[at].region;
      assert ReadIsCurrent(snap[at].state, s.steps[at], s.workers);
      match snap[at].state
      case Complete => ForgetTurn(s);
      case Failed => ForgetTurn(s);
      case Initial => StartTurn(s);
      case Aborted => AbortedTurn(s);
      case Working(op) => ContinueTurn(s);
    }
  }

  lemma ForgetTurn(s: Sys)
    requires Base(s) && s.pc.Staging? && s.pc.at < |s.pc.snap| && s.pc.snap[s.pc.at].stage == s.pc.stage
    requires s.pc.snap[s.pc.at].state.Complete? || s.pc.snap[s.pc.at].state.Failed?
    ensures Base(DoOrch(s))
  {
    hide ShapeOk, Frontier, AfterFailure, PhaseOk, FailuresFrom, WorkersOk, StraysOk, SetState, SameSkeleton, Has;
    var region := s.pc.snap[s.pc.at].region;
    SkeletonAt(s.pc.snap, s.steps, s.pc.at);
    assert ReadIsCurrent(s.pc.snap[s.pc.at].state, s.steps[s.pc.at], s.workers);
    NoWorkerFor(s.steps, s.caps, s.workers, s.running, s.pc.at);
    ForgetWorker(s.steps, s.workers, s.running, region);
    TurnKeepsSteps(s, s.workers - {region}, s.running);
  }

  lemma AbortedTurn(s: Sys)
    requires Base(s) && s.pc.Staging? && s.pc.at < |s.pc.snap| && s.pc.snap[s.pc.at].stage == s.pc.stage
    requires s.pc.snap[s.pc.at].state.Aborted?
    ensures Base(DoOrch(s))
  {
    hide ShapeOk, Frontier, AfterFailure, PhaseOk, FailuresFrom, WorkersOk, StraysOk, SetState, SameSkeleton, Has;
    var i, region := s.pc.at, s.pc.snap[s.pc.at].region;
    SkeletonAt(s.pc.snap, s.steps, i);
    assert ReadIsCurrent(s.pc.snap[i].state, s.steps[i], s.workers);
    if region in s.workers && s.workers[region] == Aborted {
      TurnKeepsSteps(s, s.workers, s.running);
    } else {
      NoWorkerFor(s.steps, s.caps, s.workers, s.running, i);
      NewWorker(s.steps, s.workers, s.running, region, Aborted);
      NewStray(s);
      TurnKeepsSteps(s, s.workers[region := Aborted], s.running + multiset{Worker(region, Aborted)});
    }
  }

  lemma StageDone(s: Sys)
    requires Base(s) && s.pc.Staging? && s.pc.at >= |s.pc.snap|
    ensures Base(s.(pc := Idle))
  {
    hide ShapeOk, Frontier, AfterFailure, PhaseOk, FailuresFrom, WorkersOk, StraysOk;
    PhasePc(s.strategy, s.pc, Idle, s.steps);
  }

  lemma ContinueTurn(s: Sys)
    requires Base(s) && s.pc.Staging? && s.pc.at < |s.pc.snap| && s.pc.snap[s.pc.at].stage == s.pc.stage
    requires s.pc.snap[s.pc.at].state.Working?
    ensures Base(ProcessStep(s, s.pc.snap[s.pc.at].region, s.pc.snap[s.pc.at].state).(pc := Staging(s.pc.snap, s.pc.stage, s.pc.at + 1)))
  {
    hide ShapeOk, Frontier, AfterFailure, PhaseOk, FailuresFrom, WorkersOk, StraysOk, SetState, SameSkeleton;
    var i := s.pc.at;
    var step := s.pc.snap[i];
    SkeletonAt(s.pc.snap, s.steps, i);
    if step.region in s.workers && s.workers[step.region] == step.state {
      TurnKeepsSteps(s, s.workers, s.running);
    } else {
      assert ReadIsCurrent(step.state, s.steps[i], s.workers);
      assert s.steps[i].state == step.state;
      NoWorkerFor(s.steps, s.caps, s.workers, s.running, i);
      assert Has(s.steps, step.region, step.state);
      NewWorker(s.steps, s.workers, s.running, step.region, step.state);
      NewWorkerStrays(s.strategy, s.steps, s.running, Worker(step.region, step.state));
      TurnKeepsSteps(s, s.workers[step.region := step.state], s.running + multiset{Worker(step.region, step.state)});
      SameHistory(s, step);
    }
  }

  lemma SameHistory(s: Sys, step: Step)
    requires step.state.Working?
  {
  }

  lemma StartTurn(s: Sys)
    requires Base(s) && s.pc.Staging? && s.pc.at < |s.pc.snap| && s.pc.snap[s.pc.at].stage == s.pc.stage
    requires s.pc.snap[s.pc.at].state.Initial?
    ensures Base(DoOrch(s))
  {
    hide ShapeOk, Frontier, AfterFailure, PhaseOk, FailuresFrom, SetState, SameSkeleton, LifeOk, StagingOk, StraysOk;
    var i := s.pc.at;
    var step := s.pc.snap[i];
    if step.region in s.unmanagedRead {
      LeaveInitial(s, Failed);
    } else {
      var first := Working(s.starting);
      LeaveInitial(s, first);
      var after := s.steps[i := s.steps[i].(state := first)];
      assert after[i].region == step.region;
      if !(step.region in s.workers && s.workers[step.region] == first) {
        assert Has(after, step.region, first);
        NewWorker(after, s.workers, s.running, step.region, first);
        NewWorkerStrays(s.strategy, after, s.running, Worker(step.region, first));
        AfterTurn(s.(steps := after, pc := Staging(s.pc.snap, s.pc.stage, i + 1)), i, first);
      }
    }
  }

  /** The worker map gains an entry for the step whose turn is over. */
  lemma AfterTurn(t: Sys, i: nat, state: StepState)
    requires Base(t) && t.pc.Staging? && t.pc.at == i + 1 && i < |t.steps|
    requires WorkersOk(t.steps, t.workers[t.steps[i].region := state], t.running + multiset{Worker(t.steps[i].region, state)})
    requires StraysOk(t.strategy, t.steps, t.running + multiset{Worker(t.steps[i].region, state)})
    ensures Base(t.(workers := t.workers[t.steps[i].region := state], running := t.running + multiset{Worker(t.steps[i].region, state)}))
  {
    hide Frontier, AfterFailure, PhaseOk, FailuresFrom, SetState, WorkersOk, StraysOk, Final, Unstarted;
    var workers := t.workers[t.steps[i].region := state];
    forall j | i + 1 <= j < |t.steps| && t.steps[j].stage == t.pc.stage
      ensures ReadIsCurrent(t.pc.snap[j].state, t.steps[j], workers)
    {
      assert t.steps[j].region != t.steps[i].region;
      assert ReadIsCurrent(t.pc.snap[j].state, t.steps[j], t.workers);
    }
  }

  // ---------------------------------------------------------------- abort()

  lemma MarkKeepsOrder(steps: seq<Step>, i: nat)
    requires i < |steps| && steps[i].state.Initial?
    ensures Frontier(steps) ==> Frontier(steps[i := steps[i].(state := Aborted)])
    ensures AfterFailure(steps) ==> AfterFailure(steps[i := steps[i].(state := Aborted)])
  {
  }

  lemma MarkPreserves(s: Sys)
    requires Base(s) && s.pc.AbortMarking?
    ensures Base(DoOrch(s))
  {
    hide ShapeOk, Frontier, AfterFailure, WorkersOk, StraysOk, SetState;
    var AbortMarking(snap, at) := s.pc;
    if at < |snap| && snap[at].state.Initial? {
      OneStepChanges(s.steps, s.caps, at, Aborted);
      NoWorkerFor(s.steps, s.caps, s.workers, s.running, at);
      OtherWorkers(s.steps, s.caps, s.workers, s.running, at, Aborted, s.running);
      MarkKeepsOrder(s.steps, at);
      NotLateNoStrays(s.strategy, s.steps, s.steps[at := s.steps[at].(state := Aborted)], s.running);
    } else if at >= |snap| {
      LateKeepsStrays(s.strategy, SetStrategy(s, SwAborting).strategy, s.steps, s.running);
    }
  }

  // ---------------------------------------------------------------- the other steps of the thread

  lemma LateKeepsStrays(strategy: Option<Strategy>, strategy': Option<Strategy>, steps: seq<Step>, running: multiset<Worker>)
    requires StraysOk(strategy, steps, running) && (Late(strategy) ==> Late(strategy'))
    ensures StraysOk(strategy', steps, running)
  {
    hide StrayOk, Late;
  }

  lemma WriteVerdictPreserves(s: Sys)
    requires Base(s) && s.pc.Deciding?
    ensures Base(DoOrch(s))
  {
    hide ShapeOk, Frontier, AfterFailure, VerdictKept, WorkersOk, NoWorking, StraysOk;
    NoneRunning(s.steps, s.workers, s.running);
    NoWorkersOk(s.steps, DoOrch(s).workers, s.running);
    LateKeepsStrays(s.strategy, DoOrch(s).strategy, s.steps, s.running);
  }

  lemma NoWorkersOk(steps: seq<Step>, workers: map<string, StepState>, running: multiset<Worker>)
    requires forall w :: w in running ==> !w.seen.Working?
    ensures WorkersOk(steps, workers, running)
  {
  }

  lemma OrchPreserves(s: Sys)
    requires Base(s)
    ensures Base(DoOrch(s))
  {
    hide ShapeOk, Frontier, AfterFailure, WorkersOk, StraysOk, VerdictKept, DoScan, DoStage, StagingOk, FailuresFrom;
    match s.pc
    case ApplyEntered(_) => ScanPreserves(s);
    case Staging(_, _, _) => StagePreserves(s);
    case Deciding(_, _) => WriteVerdictPreserves(s);
    case AbortMarking(_, _) => MarkPreserves(s);
    case Idle =>
    case AbortEntered =>
    case DeleteEntered =>
      DestroyPreserves(s);
  }

  lemma NoneRunning(steps: seq<Step>, workers: map<string, StepState>, running: multiset<Worker>)
    requires WorkersOk(steps, workers, running) && NoWorking(steps)
    ensures forall w :: w in running ==> !w.seen.Working?
  {
    forall w | w in running && w.seen.Working?
      ensures false
    {
      var i := FindStep(steps, w);
    }
  }

  lemma DestroyPreserves(s: Sys)
    requires Base(s) && s.pc.DeleteEntered?
    ensures Base(DoOrch(s))
  {
    hide VerdictKept, ShapeOk, Frontier, AfterFailure, WorkersOk, NoWorking, StrayOk;
    NoneRunning(s.steps, s.workers, s.running);
    EmptyIsBase(DoOrch(s));
  }

  /** With no strategy, only workers of aborted steps can be left over. */
  lemma EmptyIsBase(t: Sys)
    requires t.strategy.None? && t.steps == [] && t.caps == [] && t.pc.Idle?
    requires forall w :: w in t.running ==> w.seen.Aborted?
    ensures Base(t)
  {
  }

  // ---------------------------------------------------------------- requests and interruptions

  /** A new strategy has no step for a region in which a worker of an earlier one is under way. */
  predicate CleanCreate(s: Sys, a: Action) {
    a.Create? && s.strategy.None? ==>
      forall w, i :: w in s.running && 0 <= i < |Do(s, a).steps| ==> Do(s, a).steps[i].region != w.region
  }

  lemma CreatePreserves(s: Sys, req: Request, fleet: seq<Subcloud>, groups: seq<Group>)
    requires Base(s) && CleanCreate(s, Create(req, fleet, groups))
    ensures Base(DoCreate(s, req, fleet, groups))
  {
    hide VerdictKept, ShapeOk, Frontier, AfterFailure, WorkersOk, WellFormedGroups, Validate, Plan, StrayOk;
    if s.strategy.None? && WellFormedGroups(groups) && Validate(req, fleet, groups).Valid? {
      CreatedShape(req, groups);
      NoneRunning(s.steps, s.workers, s.running);
      var t := Do(s, Create(req, fleet, groups));
      forall w | w in t.running
        ensures w.seen.Aborted? && forall i :: 0 <= i < |t.steps| ==> t.steps[i].region != w.region
      {
        assert w in s.running && !w.seen.Working?;
      }
      AllInitial(t);
    }
  }

  lemma AllInitial(t: Sys)
    requires forall i :: 0 <= i < |t.steps| ==> t.steps[i].state.Initial?
    requires t.strategy.Some? && (t.strategy.value.state.SwInitial? || (t.strategy.value.state.SwDeleting? && t.steps == []))
    requires t.pc.Idle? && ShapeOk(t.steps, t.caps)
    requires forall w :: w in t.running ==> w.seen.Aborted? && forall i :: 0 <= i < |t.steps| ==> t.steps[i].region != w.region
    ensures Base(t)
  {
  }

  lemma CreatedShape(req: Request, groups: seq<Group>)
    requires WellFormedGroups(groups)
    ensures ShapeOk(StepsOf(Plan(req, groups)), Caps(req, groups))
  {
    hide PlanFrom, EligibleOf, Roster, RowsOk;
    PlanShape(req, groups, 0, 1, false, Caps(req, groups));
    UniquePlan(req, groups);
  }

  lemma UniquePlan(req: Request, groups: seq<Group>)
    requires UniqueNames(Roster(groups))
    ensures forall i, j :: 0 <= i < j < |Plan(req, groups)| ==> Plan(req, groups)[i].name != Plan(req, groups)[j].name
  {
    hide Plan, EligibleOf, Roster;
    NamesOfPlan(req, groups);
    EligibleUnique(req, Roster(groups));
    var p, el := Plan(req, groups), EligibleOf(req, Roster(groups));
    forall i, j | 0 <= i < j < |p|
      ensures p[i].name != p[j].name
    {
      assert PlacedNames(p)[i] == Names(el)[i] && PlacedNames(p)[j] == Names(el)[j];
    }
  }

  lemma RequestPreserves(s: Sys, a: Action)
    requires Base(s) && (a.RpcApply? || a.RpcAbort? || a.RpcDelete? || a.SetManaged?)
    ensures Base(Do(s, a))
  {
    hide ShapeOk, Frontier, AfterFailure, WorkersOk, StraysOk, VerdictKept, StagingOk, FailuresFrom, MarkingOk, NoWorking;
    LateKeepsStrays(s.strategy, Do(s, a).strategy, s.steps, s.running);
    if a.RpcApply? && StateIs(s, SwInitial) {
      InitialIsClean(s.steps);
    }
    if a.RpcDelete? && s.strategy.Some? && s.strategy.value.state.SwInitial? {
      InitialIsClean(s.steps);
    }
  }

  lemma InitialIsClean(steps: seq<Step>)
    requires forall i :: 0 <= i < |steps| ==> steps[i].state.Initial?
    ensures NoneIn(steps, Aborted) && NoWorking(steps)
  {
  }

  lemma InterruptPreserves(s: Sys, a: Action)
    requires Base(s) && (a.TickRaises? || a.Restart?)
    ensures Base(Do(s, a))
  {
    hide ShapeOk, Frontier, AfterFailure, VerdictKept, FailuresFrom, StrayOk, StagingOk, MarkingOk;
  }

  // ---------------------------------------------------------------- all runs

  /** Every action keeps the invariant, except the creation of a strategy that has a step for the
      region of a worker left over from an earlier one. */
  lemma StepPreserves(s: Sys, a: Action)
    requires Base(s) && CleanCreate(s, a)
    ensures Base(Do(s, a))
  {
    hide Base, DoCreate, DoFinish, DoOrch, CleanCreate;
    match a
    case Create(req, fleet, groups) => CreatePreserves(s, req, fleet, groups);
    case Finish(w, o) => FinishPreserves(s, w, o);
    case Orch => OrchPreserves(s);
    case TickRaises => InterruptPreserves(s, a);
    case Restart => InterruptPreserves(s, a);
    case _ => RequestPreserves(s, a);
  }

  predicate CleanCreates(s: Sys, acts: seq<Action>) {
    acts == [] || (CleanCreates(s, acts[..|acts| - 1]) && CleanCreate(Exec(s, acts[..|acts| - 1]), acts[|acts| - 1]))
  }

  lemma {:induction false} BaseKept(s: Sys, acts: seq<Action>)
    requires Base(s) && CleanCreates(s, acts)
    ensures Base(Exec(s, acts))
    decreases |acts|
  {
    hide Do, Base, CleanCreate;
    if acts != [] {
      BaseKept(s, acts[..|acts| - 1]);
      StepPreserves(Exec(s, acts[..|acts| - 1]), acts[|acts| - 1]);
    }
  }

  /** The invariant holds in every run in which no strategy is created over a left-over worker. */
  lemma RunsAreSafe(starting: nat, unmanaged: set<string>, acts: seq<Action>)
    requires CleanCreates(Fresh(starting, unmanaged), acts)
    ensures Base(Exec(Fresh(starting, unmanaged), acts))
  {
    FreshIsSafe(starting, unmanaged);
    hide Base, CleanCreates, Exec;
    BaseKept(Fresh(starting, unmanaged), acts);
  }

  lemma FreshIsSafe(starting: nat, unmanaged: set<string>)
    ensures Base(Fresh(starting, unmanaged))
  {
  }
}
