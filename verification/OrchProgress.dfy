/** Progress of the orchestration: a measure that no action but a restart raises.

    Progress needs two things. Every operator must move its step to a state of lower rank. And
    when a strategy is created, no left-over entry of the worker map may name the starting state or
    "aborted" for one of its regions: such an entry makes the thread believe a worker exists. */
module OrchProgress {
  import opened Cloud
  import opened StagePlan
  import opened OrchMachine
  import opened OrchInvariant
  import opened OrchTheorems

  predicate Blocked(workers: map<string, StepState>, region: string, state: StepState) {
    region in workers && workers[region] == state
  }

  /** A step in this state gets a worker when the thread comes to it. */
  predicate Served(state: StepState) {
    state.Working? || state.Aborted?
  }

  /** No entry of the worker map stands for work that nobody is doing. */
  predicate Lively(s: Sys) {
    forall i :: 0 <= i < |s.steps| ==> LivelyAt(s.steps[i], s.starting, s.workers, s.running)
  }

  predicate LivelyAt(step: Step, starting: nat, workers: map<string, StepState>, running: multiset<Worker>) {
    && (step.state.Initial? ==> !Blocked(workers, step.region, Working(starting)) && !Blocked(workers, step.region, Aborted))
    && (Served(step.state) && Blocked(workers, step.region, step.state) ==> Worker(step.region, step.state) in running)
  }

  /** No left-over entry blocks a planned step. */
  predicate NoStale(s: Sys, steps: seq<Step>) {
    forall i :: 0 <= i < |steps| ==>
      !Blocked(s.workers, steps[i].region, Working(s.starting)) && !Blocked(s.workers, steps[i].region, Aborted)
  }

  /** The action lets no operator hand its step a state of the same or a higher rank. */
  predicate Descends(rank: nat -> nat, a: Action) {
    a.Finish? && a.outcome.Advance? && a.worker.seen.Working? ==> rank(a.outcome.op) < rank(a.worker.seen.op)
  }

  // ---------------------------------------------------------------- the measure

  function Weight(step: Step, starting: nat, running: multiset<Worker>, rank: nat -> nat): nat {
    match step.state
    case Initial => 2 * rank(starting) + 4
    case Working(op) => if Worker(step.region, step.state) in running then 2 * rank(op) + 1 else 2 * rank(op) + 2
    case Aborted => if Worker(step.region, step.state) in running then 1 else 2
    case _ => 0
  }

  function Total(steps: seq<Step>, starting: nat, running: multiset<Worker>, rank: nat -> nat): nat {
    if steps == [] then 0
    else Weight(steps[0], starting, running, rank) + Total(steps[1..], starting, running, rank)
  }

  function Phase(strategy: Option<Strategy>): nat {
    if strategy.None? then 0
    else
      match strategy.value.state
      case SwApplying => 3
      case SwAbortRequested => 2
      case SwAborting => 1
      case _ => 0
  }

  function Measure(s: Sys, rank: nat -> nat): nat {
    Total(s.steps, s.starting, s.running, rank) + Phase(s.strategy)
  }

  /** All weights but that of step k stay, and that one falls by at least `drop`. */
  lemma {:induction false} TotalDrops(a: seq<Step>, b: seq<Step>, starting: nat, r: multiset<Worker>, r': multiset<Worker>,
                                      rank: nat -> nat, k: nat, drop: nat)
    requires |a| == |b| && k < |a|
    requires forall i :: 0 <= i < |a| && i != k ==> Weight(b[i], starting, r', rank) == Weight(a[i], starting, r, rank)
    requires Weight(b[k], starting, r', rank) + drop <= Weight(a[k], starting, r, rank)
    ensures Total(b, starting, r', rank) + drop <= Total(a, starting, r, rank)
  {
    hide Weight;
    if k == 0 {
      TotalSame(a[1..], b[1..], starting, r, r', rank);
    } else {
      TotalDrops(a[1..], b[1..], starting, r, r', rank, k - 1, drop);
    }
  }

  lemma {:induction false} TotalSame(a: seq<Step>, b: seq<Step>, starting: nat, r: multiset<Worker>, r': multiset<Worker>, rank: nat -> nat)
    requires |a| == |b|
    requires forall i :: 0 <= i < |a| ==> Weight(b[i], starting, r', rank) == Weight(a[i], starting, r, rank)
    ensures Total(b, starting, r', rank) == Total(a, starting, r, rank)
  {
    hide Weight;
    if a != [] {
      TotalSame(a[1..], b[1..], starting, r, r', rank);
    }
  }

  // ---------------------------------------------------------------- a worker writes its result

  /** The worker acts on step k as it is. */
  predicate Relevant(s: Sys, w: Worker, k: nat) {
    k < |s.steps| && s.steps[k].region == w.region && s.steps[k].state == w.seen
  }

  lemma FinishLowers(s: Sys, w: Worker, o: Outcome, rank: nat -> nat, k: nat)
    requires Base(s) && w in s.running && Possible(w.seen, o) && Descends(rank, Finish(w, o)) && Relevant(s, w, k)
    ensures Measure(DoFinish(s, w, o), rank) < Measure(s, rank)
    ensures Lively(s) ==> Lively(DoFinish(s, w, o))
  {
    hide Base, SetState, LivelyAt, Weight, ShapeOk, Served;
    ServedWorker(s, w);
    OneStepChanges(s.steps, s.caps, k, ResultState(o));
    Regional(s.steps, s.caps, k);
    var running := s.running - multiset{w};
    forall i | 0 <= i < |s.steps| && i != k
      ensures Weight(s.steps[i], s.starting, running, rank) == Weight(s.steps[i], s.starting, s.running, rank)
      ensures LivelyAt(s.steps[i], s.starting, s.workers, s.running) ==> LivelyAt(s.steps[i], s.starting, s.workers, running)
    {
      OtherRunning(s.steps[i], s.starting, s.workers, s.workers, s.running, running, rank, w.region);
    }
    ResultWeight(s.steps[k], s.starting, s.workers, s.running, w, o, rank);
    TotalDrops(s.steps, DoFinish(s, w, o).steps, s.starting, s.running, running, rank, k, 1);
  }

  lemma ServedWorker(s: Sys, w: Worker)
    requires Base(s) && w in s.running
    ensures Served(w.seen) && (w.seen.Working? ==> Blocked(s.workers, w.region, w.seen)) && ShapeOk(s.steps, s.caps)
  {
  }

  /** What happens to the worker of another region does not concern a step. */
  lemma OtherRunning(step: Step, starting: nat, workers: map<string, StepState>, workers': map<string, StepState>,
                     running: multiset<Worker>, running': multiset<Worker>, rank: nat -> nat, region: string)
    requires step.region != region
    requires Blocked(workers', step.region, step.state) <==> Blocked(workers, step.region, step.state)
    requires Blocked(workers', step.region, Working(starting)) <==> Blocked(workers, step.region, Working(starting))
    requires Blocked(workers', step.region, Aborted) <==> Blocked(workers, step.region, Aborted)
    requires Worker(step.region, step.state) in running' <==> Worker(step.region, step.state) in running
    ensures Weight(step, starting, running', rank) == Weight(step, starting, running, rank)
    ensures LivelyAt(step, starting, workers, running) ==> LivelyAt(step, starting, workers', running')
  {
  }

  lemma ResultWeight(step: Step, starting: nat, workers: map<string, StepState>, running: multiset<Worker>, w: Worker, o: Outcome, rank: nat -> nat)
    requires step.region == w.region && step.state == w.seen && w in running && Served(w.seen)
    requires Possible(w.seen, o) && Descends(rank, Finish(w, o))
    requires w.seen.Working? ==> Blocked(workers, w.region, w.seen)
    ensures Weight(step.(state := ResultState(o)), starting, running - multiset{w}, rank) + 1 <= Weight(step, starting, running, rank)
    ensures LivelyAt(step.(state := ResultState(o)), starting, workers, running - multiset{w})
  {
  }

  /** A worker left over for a step that has failed, or for another strategy's step, changes nothing. */
  lemma FinishIrrelevant(s: Sys, w: Worker, o: Outcome, rank: nat -> nat)
    requires Base(s) && w in s.running && forall k: nat :: !Relevant(s, w, k)
    ensures !w.seen.Working? && DoFinish(s, w, o).steps == s.steps
    ensures Measure(DoFinish(s, w, o), rank) == Measure(s, rank)
    ensures Lively(s) ==> Lively(DoFinish(s, w, o))
  {
    hide Frontier, AfterFailure, PhaseOk, PcOk, LifeOk, Weight, LivelyAt, SetState, ShapeOk;
    if w.seen.Working? {
      OperatorIsRelevant(s, w);
    }
    var t := DoFinish(s, w, o);
    forall i | 0 <= i < |s.steps|
      ensures t.steps[i] == s.steps[i]
    {
      if s.steps[i].region == w.region {
        assert !Relevant(s, w, i) && StrayOk(s.steps, i);
        assert s.steps[i].state == Failed;
      }
    }
    forall i | 0 <= i < |s.steps|
      ensures Weight(s.steps[i], s.starting, t.running, rank) == Weight(s.steps[i], s.starting, s.running, rank)
      ensures LivelyAt(s.steps[i], s.starting, s.workers, s.running) ==> LivelyAt(s.steps[i], s.starting, s.workers, t.running)
    {
      assert !Relevant(s, w, i);
      SameRunning(s.steps[i], s.starting, s.workers, s.running, t.running, rank);
    }
    TotalSame(s.steps, t.steps, s.starting, s.running, t.running, rank);
  }

  lemma OperatorIsRelevant(s: Sys, w: Worker)
    requires Base(s) && w in s.running && w.seen.Working?
    ensures exists k: nat :: Relevant(s, w, k)
  {
    var k := FindStep(s.steps, w);
    assert Relevant(s, w, k);
  }

  lemma SameRunning(step: Step, starting: nat, workers: map<string, StepState>, running: multiset<Worker>, running': multiset<Worker>, rank: nat -> nat)
    requires Worker(step.region, step.state) in running' <==> Worker(step.region, step.state) in running
    ensures Weight(step, starting, running', rank) == Weight(step, starting, running, rank)
    ensures LivelyAt(step, starting, workers, running) ==> LivelyAt(step, starting, workers, running')
  {
  }

  // ---------------------------------------------------------------- one turn of the stage loop

  /** The step still needs something from the thread: to be started, or to get a worker. */
  predicate Pending(s: Sys, i: nat) {
    && i < |s.steps|
    && (s.steps[i].state.Initial? ||
        (Served(s.steps[i].state) && Worker(s.steps[i].region, s.steps[i].state) !in s.running))
  }

  lemma CurrentAt(s: Sys)
    requires Base(s) && s.pc.Staging? && s.pc.at < |s.pc.snap| && s.pc.snap[s.pc.at].stage == s.pc.stage
    ensures s.pc.at < |s.steps| && s.steps[s.pc.at].region == s.pc.snap[s.pc.at].region
    ensures ReadIsCurrent(s.pc.snap[s.pc.at].state, s.steps[s.pc.at], s.workers)
    ensures ShapeOk(s.steps, s.caps) && WorkersOk(s.steps, s.workers, s.running)
    ensures s.steps[s.pc.at].stage == s.pc.stage && |s.pc.snap| == |s.steps|
  {
  }

  lemma Regional(steps: seq<Step>, caps: seq<nat>, k: nat)
    requires ShapeOk(steps, caps) && k < |steps|
    ensures forall i :: 0 <= i < |steps| && i != k ==> steps[i].region != steps[k].region
  {
  }

  /** The turn for step k changed only that step, its entry and its worker. */
  ghost predicate OnlyAt(s: Sys, t: Sys, k: nat) {
    && k < |s.steps| && |t.steps| == |s.steps| && t.starting == s.starting
    && (forall i :: 0 <= i < |s.steps| && i != k ==> t.steps[i] == s.steps[i])
    && t.steps[k].region == s.steps[k].region
    && OthersKept(s.workers, s.running, t.workers, t.running, s.steps[k].region)
  }

  ghost predicate OthersKept(workers: map<string, StepState>, running: multiset<Worker>,
                             workers': map<string, StepState>, running': multiset<Worker>, region: string) {
    && (forall r: string, st: StepState :: r != region ==> (Blocked(workers', r, st) <==> Blocked(workers, r, st)))
    && (forall w: Worker :: w.region != region ==> (w in running' <==> w in running))
  }

  lemma ProcessKeepsOthers(s: Sys, region: string, state: StepState)
    ensures var t := ProcessStep(s, region, state); OthersKept(s.workers, s.running, t.workers, t.running, region)
    ensures ProcessStep(s, region, state).steps == s.steps && ProcessStep(s, region, state).strategy == s.strategy
    ensures ProcessStep(s, region, state).starting == s.starting
    ensures Blocked(s.workers, region, state) ==> ProcessStep(s, region, state) == s
    ensures !Blocked(s.workers, region, state) ==> Worker(region, state) in ProcessStep(s, region, state).running
    ensures Worker(region, state) in s.running ==> Worker(region, state) in ProcessStep(s, region, state).running
  {
  }

  lemma TurnEffect(s: Sys, t: Sys, k: nat, rank: nat -> nat, drop: nat)
    requires ShapeOk(s.steps, s.caps) && OnlyAt(s, t, k) && Lively(s) && t.strategy == s.strategy
    requires Weight(t.steps[k], s.starting, t.running, rank) + drop <= Weight(s.steps[k], s.starting, s.running, rank)
    requires LivelyAt(t.steps[k], s.starting, t.workers, t.running)
    ensures Measure(t, rank) + drop <= Measure(s, rank) && Lively(t)
    ensures forall i :: i != k && Pending(s, i) ==> Pending(t, i)
  {
    hide Weight, LivelyAt, ShapeOk, Blocked;
    Regional(s.steps, s.caps, k);
    forall i | 0 <= i < |s.steps| && i != k
      ensures Weight(t.steps[i], s.starting, t.running, rank) == Weight(s.steps[i], s.starting, s.running, rank)
      ensures LivelyAt(t.steps[i], s.starting, t.workers, t.running)
    {
      OtherRunning(s.steps[i], s.starting, s.workers, t.workers, s.running, t.running, rank, s.steps[k].region);
    }
    TotalDrops(s.steps, t.steps, s.starting, s.running, t.running, rank, k, drop);
  }

  lemma StartOnly(s: Sys)
    requires Base(s) && s.pc.Staging? && s.pc.at < |s.pc.snap| && s.pc.snap[s.pc.at].stage == s.pc.stage
    requires s.pc.snap[s.pc.at].state.Initial? && Lively(s)
    ensures OnlyAt(s, DoOrch(s), s.pc.at) && DoOrch(s).strategy == s.strategy && s.steps[s.pc.at].state.Initial?
    ensures DoOrch(s).steps[s.pc.at].state.Failed? ||
      (DoOrch(s).steps[s.pc.at].state == Working(s.starting) && Worker(s.steps[s.pc.at].region, Working(s.starting)) in DoOrch(s).running)
  {
    hide Base, SetState, ProcessStep, OthersKept, Blocked, ShapeOk, WorkersOk;
    CurrentAt(s);
    LeaveInitial(s, Failed);
    LeaveInitial(s, Working(s.starting));
    assert LivelyAt(s.steps[s.pc.at], s.starting, s.workers, s.running);
    var step := s.pc.snap[s.pc.at];
    ProcessKeepsOthers(s.(steps := SetState(s.steps, step.region, Working(s.starting))), step.region, Working(s.starting));
    NothingElse(s.workers, s.running, step.region);
  }

  lemma NothingElse(workers: map<string, StepState>, running: multiset<Worker>, region: string)
    ensures OthersKept(workers, running, workers, running, region)
  {
  }

  /** Starting a step (or failing it, when its subcloud is unmanaged) lowers the measure. */
  lemma StartLowers(s: Sys, rank: nat -> nat)
    requires Base(s) && Lively(s) && s.pc.Staging? && s.pc.at < |s.pc.snap| && s.pc.snap[s.pc.at].stage == s.pc.stage
    requires s.pc.snap[s.pc.at].state.Initial?
    ensures Measure(DoOrch(s), rank) < Measure(s, rank) && Lively(DoOrch(s))
    ensures forall i :: i != s.pc.at && Pending(s, i) ==> Pending(DoOrch(s), i)
  {
    hide Base, OnlyAt, Measure, Lively, DoOrch;
    StartOnly(s);
    CurrentAt(s);
    assert OnlyAt(s, DoOrch(s), s.pc.at);
    OnlyAtKeeps(s, DoOrch(s), s.pc.at);
    TurnEffect(s, DoOrch(s), s.pc.at, rank, 1);
  }

  lemma OnlyAtKeeps(s: Sys, t: Sys, k: nat)
    requires OnlyAt(s, t, k)
    ensures k < |s.steps| && |t.steps| == |s.steps| && t.steps[k].region == s.steps[k].region
  {
  }

  lemma ContinueOnly(s: Sys)
    requires Base(s) && s.pc.Staging? && s.pc.at < |s.pc.snap| && s.pc.snap[s.pc.at].stage == s.pc.stage
    requires s.pc.snap[s.pc.at].state.Working? && Lively(s)
    ensures OnlyAt(s, DoOrch(s), s.pc.at) && DoOrch(s).strategy == s.strategy && DoOrch(s).steps == s.steps
    ensures LivelyAt(s.steps[s.pc.at], s.starting, DoOrch(s).workers, DoOrch(s).running)
    ensures Worker(s.steps[s.pc.at].region, s.steps[s.pc.at].state) in s.running ==>
      Worker(s.steps[s.pc.at].region, s.steps[s.pc.at].state) in DoOrch(s).running
    ensures Pending(s, s.pc.at) && s.pc.snap[s.pc.at].state == s.steps[s.pc.at].state ==>
      Worker(s.steps[s.pc.at].region, s.steps[s.pc.at].state) in DoOrch(s).running
  {
    hide Base, ProcessStep, OthersKept, ShapeOk, WorkersOk;
    CurrentAt(s);
    assert LivelyAt(s.steps[s.pc.at], s.starting, s.workers, s.running);
    var step := s.pc.snap[s.pc.at];
    ProcessKeepsOthers(s, step.region, step.state);
    assert ReadIsCurrent(step.state, s.steps[s.pc.at], s.workers);
  }

  lemma ContinueLowers(s: Sys, rank: nat -> nat)
    requires Base(s) && Lively(s) && s.pc.Staging? && s.pc.at < |s.pc.snap| && s.pc.snap[s.pc.at].stage == s.pc.stage
    requires s.pc.snap[s.pc.at].state.Working?
    ensures Measure(DoOrch(s), rank) + (if Waiting(s, s.pc.at) then 1 else 0) <= Measure(s, rank) && Lively(DoOrch(s))
    ensures forall i :: i != s.pc.at && Pending(s, i) ==> Pending(DoOrch(s), i)
  {
    hide Base, OnlyAt, Measure, Lively, DoOrch, LivelyAt;
    ContinueOnly(s);
    CurrentAt(s);
    assert OnlyAt(s, DoOrch(s), s.pc.at);
    OnlyAtKeeps(s, DoOrch(s), s.pc.at);
    TurnEffect(s, DoOrch(s), s.pc.at, rank, if Waiting(s, s.pc.at) then 1 else 0);
  }

  /** Step i will get what it needs when the stage loop reaches it. */
  predicate Waiting(s: Sys, i: nat) {
    && s.pc.Staging? && s.pc.at <= i < |s.pc.snap| && s.pc.snap[i].stage == s.pc.stage
    && Pending(s, i) && s.pc.snap[i].state == s.steps[i].state
  }

  lemma FinishedOnly(s: Sys)
    requires Base(s) && s.pc.Staging? && s.pc.at < |s.pc.snap| && s.pc.snap[s.pc.at].stage == s.pc.stage
    requires s.pc.snap[s.pc.at].state.Complete? || s.pc.snap[s.pc.at].state.Failed?
    ensures OnlyAt(s, DoOrch(s), s.pc.at) && DoOrch(s).strategy == s.strategy && DoOrch(s).steps == s.steps
    ensures s.steps[s.pc.at].state == s.pc.snap[s.pc.at].state && DoOrch(s).running == s.running
  {
    hide Base, ShapeOk, WorkersOk;
    CurrentAt(s);
    assert ReadIsCurrent(s.pc.snap[s.pc.at].state, s.steps[s.pc.at], s.workers);
  }

  lemma FinishedLowers(s: Sys, rank: nat -> nat)
    requires Base(s) && Lively(s) && s.pc.Staging? && s.pc.at < |s.pc.snap| && s.pc.snap[s.pc.at].stage == s.pc.stage
    requires s.pc.snap[s.pc.at].state.Complete? || s.pc.snap[s.pc.at].state.Failed?
    ensures Measure(DoOrch(s), rank) <= Measure(s, rank) && Lively(DoOrch(s)) && !Waiting(s, s.pc.at)
    ensures forall i :: i != s.pc.at && Pending(s, i) ==> Pending(DoOrch(s), i)
  {
    hide Base, OnlyAt, Measure, Lively, DoOrch;
    FinishedOnly(s);
    CurrentAt(s);
    assert OnlyAt(s, DoOrch(s), s.pc.at);
    OnlyAtKeeps(s, DoOrch(s), s.pc.at);
    TurnEffect(s, DoOrch(s), s.pc.at, rank, 0);
  }

  lemma AbortedOnly(s: Sys)
    requires Base(s) && s.pc.Staging? && s.pc.at < |s.pc.snap| && s.pc.snap[s.pc.at].stage == s.pc.stage
    requires s.pc.snap[s.pc.at].state.Aborted? && Lively(s)
    ensures OnlyAt(s, DoOrch(s), s.pc.at) && DoOrch(s).strategy == s.strategy && DoOrch(s).steps == s.steps
    ensures s.steps[s.pc.at].state.Aborted? || s.steps[s.pc.at].state.Failed?
    ensures s.steps[s.pc.at].state.Aborted? ==> Worker(s.steps[s.pc.at].region, Aborted) in DoOrch(s).running
  {
    hide Base, ProcessStep, OthersKept, ShapeOk, WorkersOk;
    CurrentAt(s);
    assert LivelyAt(s.steps[s.pc.at], s.starting, s.workers, s.running);
    ProcessKeepsOthers(s, s.pc.snap[s.pc.at].region, Aborted);
    assert ReadIsCurrent(s.pc.snap[s.pc.at].state, s.steps[s.pc.at], s.workers);
  }

  lemma AbortedLowers(s: Sys, rank: nat -> nat)
    requires Base(s) && Lively(s) && s.pc.Staging? && s.pc.at < |s.pc.snap| && s.pc.snap[s.pc.at].stage == s.pc.stage
    requires s.pc.snap[s.pc.at].state.Aborted?
    ensures Measure(DoOrch(s), rank) + (if Waiting(s, s.pc.at) then 1 else 0) <= Measure(s, rank) && Lively(DoOrch(s))
    ensures forall i :: i != s.pc.at && Pending(s, i) ==> Pending(DoOrch(s), i)
  {
    hide Base, OnlyAt, Measure, Lively, DoOrch;
    AbortedOnly(s);
    CurrentAt(s);
    assert OnlyAt(s, DoOrch(s), s.pc.at);
    OnlyAtKeeps(s, DoOrch(s), s.pc.at);
    TurnEffect(s, DoOrch(s), s.pc.at, rank, if Waiting(s, s.pc.at) then 1 else 0);
  }

  lemma SkippedTurn(s: Sys, rank: nat -> nat)
    requires Base(s) && Lively(s) && s.pc.Staging? && s.pc.at < |s.pc.snap| && s.pc.snap[s.pc.at].stage != s.pc.stage
    ensures Measure(DoOrch(s), rank) == Measure(s, rank) && Lively(DoOrch(s))
    ensures forall i :: Pending(s, i) ==> Pending(DoOrch(s), i)
  {
    hide Base, LivelyAt;
  }

  /** A turn of the stage loop never raises the measure, and lowers it when the step was waiting. */
  lemma TurnLowers(s: Sys, rank: nat -> nat)
    requires Base(s) && Lively(s) && s.pc.Staging? && s.pc.at < |s.pc.snap|
    ensures var t := DoOrch(s);
      && Base(t) && Lively(t) && t.strategy == s.strategy
      && t.pc == Staging(s.pc.snap, s.pc.stage, s.pc.at + 1)
      && Measure(t, rank) + (if Waiting(s, s.pc.at) then 1 else 0) <= Measure(s, rank)
      && (forall i :: Pending(s, i) && i != s.pc.at ==> Pending(t, i))
      && (forall i :: s.pc.at < i < |s.steps| && i < |t.steps| ==> t.steps[i] == s.steps[i])
      && |t.steps| == |s.steps|
  {
    hide Base, Lively, Measure, DoStage, OnlyAt;
    StagePreserves(s);
    TurnShape(s);
    if s.pc.snap[s.pc.at].stage != s.pc.stage {
      SkippedTurn(s, rank);
    } else {
      match s.pc.snap[s.pc.at].state
      case Initial => StartOnly(s); StartLowers(s, rank); OnlyAtRest(s, DoOrch(s), s.pc.at);
      case Working(_) => ContinueOnly(s); ContinueLowers(s, rank);
      case Complete => FinishedOnly(s); FinishedLowers(s, rank);
      case Failed => FinishedOnly(s); FinishedLowers(s, rank);
      case Aborted => AbortedOnly(s); AbortedLowers(s, rank);
    }
  }

  lemma OnlyAtRest(s: Sys, t: Sys, k: nat)
    requires OnlyAt(s, t, k)
    ensures |t.steps| == |s.steps| && forall i :: 0 <= i < |s.steps| && i != k ==> t.steps[i] == s.steps[i]
  {
  }

  lemma TurnShape(s: Sys)
    requires s.pc.Staging? && s.pc.at < |s.pc.snap|
    ensures DoOrch(s).pc == Staging(s.pc.snap, s.pc.stage, s.pc.at + 1)
    ensures DoOrch(s).strategy == s.strategy
    ensures s.pc.snap[s.pc.at].stage != s.pc.stage ==> DoOrch(s).steps == s.steps
  {
  }

  // ---------------------------------------------------------------- driving a tick to its end

  predicate Running(s: Sys) {
    Base(s) && Lively(s) && s.strategy.Some? && Active(s.strategy.value.state)
  }

  predicate Judged(s: Sys) {
    Base(s) && s.strategy.Some? && IsVerdict(s.strategy.value.state)
  }

  function Left(s: Sys): nat {
    match s.pc
    case Idle => 0
    case ApplyEntered(_) => |s.steps| + 3
    case Staging(snap, _, at) => if at < |snap| then |snap| - at + 1 else 1
    case Deciding(_, _) => 1
    case AbortEntered => |s.steps| + 3
    case AbortMarking(snap, at) => if at < |snap| then |snap| - at + 1 else 1
    case DeleteEntered => 1
  }

  /** One step of the thread inside a tick: closer to the end, the measure no higher. */
  lemma OrchStep(s: Sys, rank: nat -> nat)
    requires Running(s) && !s.pc.Idle?
    ensures var t := DoOrch(s);
      && (Running(t) || Judged(t)) && Left(t) < Left(s) && Measure(t, rank) <= Measure(s, rank)
      && (!Running(t) ==> Measure(t, rank) < Measure(s, rank) && t.pc.Idle?)
  {
    hide LivelyAt, Frontier, AfterFailure, WorkersOk, StraysOk, ShapeOk, PhaseOk, PcOk, Total, DoStage, VerdictKept, Decide, Pending;
    OrchPreserves(s);
    match s.pc
    case Staging(snap, stage, at) =>
      if at < |snap| {
        TurnLowers(s, rank);
      }
    case ApplyEntered(sof) => ScanMeasure(s, rank);
    case Deciding(v, clear) => VerdictMeasure(s, rank);
    case AbortMarking(snap, at) => MarkMeasure(s, rank);
    case AbortEntered =>
    case DeleteEntered =>
  }

  lemma ScanMeasure(s: Sys, rank: nat -> nat)
    requires Running(s) && s.pc.ApplyEntered?
    ensures Measure(DoOrch(s), rank) == Measure(s, rank) && Lively(DoOrch(s)) && DoOrch(s).strategy == s.strategy
    ensures Left(DoOrch(s)) < Left(s) && DoOrch(s).steps == s.steps && DoOrch(s).running == s.running
    ensures DoOrch(s).pc == Decide(s.steps, s.pc.stopOnFailure)
  {
    hide Base, Front;
    forall i | 0 <= i < |s.steps|
      ensures LivelyAt(s.steps[i], s.starting, DoOrch(s).workers, s.running)
    {
      assert LivelyAt(s.steps[i], s.starting, s.workers, s.running);
    }
  }

  lemma VerdictMeasure(s: Sys, rank: nat -> nat)
    requires Running(s) && s.pc.Deciding?
    ensures Measure(DoOrch(s), rank) < Measure(s, rank) && Judged(DoOrch(s)) && DoOrch(s).pc.Idle?
  {
    hide Lively, Frontier, AfterFailure, WorkersOk, StraysOk, ShapeOk, Total, VerdictKept;
    OrchPreserves(s);
  }

  lemma MarkMeasure(s: Sys, rank: nat -> nat)
    requires Running(s) && s.pc.AbortMarking?
    ensures Measure(DoOrch(s), rank) <= Measure(s, rank) && Lively(DoOrch(s))
    ensures s.pc.at >= |s.pc.snap| ==> Measure(DoOrch(s), rank) < Measure(s, rank)
    ensures DoOrch(s).strategy.Some? && Active(DoOrch(s).strategy.value.state)
  {
    hide Frontier, AfterFailure, WorkersOk, StraysOk, ShapeOk, SetState, Total;
    var AbortMarking(snap, at) := s.pc;
    if at < |snap| && snap[at].state.Initial? {
      OneStepChanges(s.steps, s.caps, at, Aborted);
      assert LivelyAt(s.steps[at].(state := Aborted), s.starting, s.workers, s.running);
      TotalDrops(s.steps, DoOrch(s).steps, s.starting, s.running, s.running, rank, at, 0);
    }
  }

  lemma EnterTick(s: Sys, rank: nat -> nat)
    requires Running(s) && s.pc.Idle?
    ensures Running(DoOrch(s)) && Measure(DoOrch(s), rank) == Measure(s, rank)
    ensures DoOrch(s).pc.AbortEntered? || DoOrch(s).pc.ApplyEntered?
    ensures DoOrch(s).running == s.running && DoOrch(s).steps == s.steps
  {
    hide LivelyAt, Frontier, AfterFailure, WorkersOk, StraysOk, ShapeOk, Total, VerdictKept;
    OrchPreserves(s);
  }

  /** Nobody is working on a step as it is. */
  predicate Steady(s: Sys) {
    forall i :: 0 <= i < |s.steps| && Served(s.steps[i].state) ==> Worker(s.steps[i].region, s.steps[i].state) !in s.running
  }

  /** With no worker under way, either the tick decides, or the chosen stage holds a step that waits. */
  lemma FirstWaiting(s: Sys) returns (i: int)
    requires Running(s) && s.pc.ApplyEntered? && Steady(s)
    ensures DoOrch(s).pc.Deciding? || (0 <= i && Waiting(DoOrch(s), i))
  {
    hide Front, Lively, AfterFailure, WorkersOk, StraysOk, ShapeOk, PhaseOk, LifeOk;
    i := -1;
    var t := DoOrch(s);
    var sof := s.pc.stopOnFailure;
    if t.pc.Staging? {
      var f := Front(s.steps, sof, 0);
      if !Final(s.steps[f].state) {
        i := f;
      } else {
        i :| 0 <= i < |s.steps| && s.steps[i].stage == s.steps[f].stage && !s.steps[i].state.Complete? && !s.steps[i].state.Failed?;
      }
    }
  }

  lemma WaitingMoves(s: Sys, rank: nat -> nat, i: int)
    requires Running(s) && 0 <= i && Waiting(s, i)
    ensures Measure(DoOrch(s), rank) < Measure(s, rank) || Waiting(DoOrch(s), i)
  {
    hide Base, Lively, Measure, DoOrch, Pending;
    SkeletonBound(s);
    TurnLowers(s, rank);
  }

  lemma SkeletonBound(s: Sys)
    requires Base(s) && s.pc.Staging?
    ensures |s.pc.snap| == |s.steps|
  {
  }

  // ---------------------------------------------------------------- every action, every run

  lemma FinishStep(s: Sys, w: Worker, o: Outcome, rank: nat -> nat)
    requires Base(s) && Descends(rank, Finish(w, o))
    ensures Measure(DoFinish(s, w, o), rank) <= Measure(s, rank)
    ensures Lively(s) ==> Lively(DoFinish(s, w, o))
  {
    hide Base, Measure, Lively, DoFinish, Relevant;
    if w in s.running && Possible(w.seen, o) {
      if k: nat :| Relevant(s, w, k) {
        FinishLowers(s, w, o, rank, k);
      } else {
        FinishIrrelevant(s, w, o, rank);
      }
    } else {
      FinishIgnored(s, w, o);
    }
  }

  /** No action raises the measure while a strategy is running; a thread restart is left out, since
      it throws away work under way. */
  lemma NoActionRaises(s: Sys, a: Action, rank: nat -> nat)
    requires Running(s) && !a.Restart? && Descends(rank, a)
    ensures Measure(Do(s, a), rank) <= Measure(s, rank)
  {
    hide Base, Lively, Total, DoOrch, DoFinish;
    match a
    case Orch =>
      if s.pc.Idle? {
        EnterTick(s, rank);
      } else {
        OrchStep(s, rank);
      }
    case Finish(w, o) => FinishStep(s, w, o, rank);
    case _ =>
  }

  lemma FinishIgnored(s: Sys, w: Worker, o: Outcome)
    requires !(w in s.running && Possible(w.seen, o))
    ensures DoFinish(s, w, o) == s
  {
  }

  predicate CreatesClean(s: Sys, a: Action) {
    a.Create? && s.strategy.None? ==> NoStale(s, Do(s, a).steps)
  }

  lemma LivelyKept(s: Sys, a: Action, rank: nat -> nat)
    requires Base(s) && Lively(s) && Descends(rank, a) && CreatesClean(s, a)
    ensures Lively(Do(s, a))
  {
    hide Base, DoOrch, DoFinish, DoCreate, LivelyAt, CreatesClean;
    match a
    case Orch => LivelyOrch(s, rank);
    case Finish(w, o) => FinishStep(s, w, o, rank);
    case Create(req, fleet, groups) => LivelyCreate(s, a);
    case Restart => LivelyRestart(s);
    case _ =>
  }

  lemma LivelyRestart(s: Sys)
    ensures Lively(Do(s, Restart))
  {
  }

  lemma LivelyCreate(s: Sys, a: Action)
    requires a.Create? && Lively(s) && CreatesClean(s, a)
    ensures Lively(Do(s, a))
  {
    hide Plan, Validate, WellFormedGroups;
  }

  lemma LivelyOrch(s: Sys, rank: nat -> nat)
    requires Base(s) && Lively(s)
    ensures Lively(DoOrch(s))
  {
    hide Frontier, AfterFailure, WorkersOk, StraysOk, ShapeOk, PhaseOk, PcOk, DoStage, Decide, Dropped, Regions, LivelyAt;
    match s.pc
    case Staging(snap, stage, at) =>
      if at < |snap| {
        TurnLowers(s, rank);
      }
    case AbortMarking(_, _) =>
      MarkMeasure(s, rank);
    case ApplyEntered(_) => ScanMeasure(s, rank);
    case Deciding(_, _) => LivelyVerdict(s);
    case _ =>
  }

  lemma LivelyVerdict(s: Sys)
    requires Base(s) && Lively(s) && s.pc.Deciding?
    ensures Lively(DoOrch(s))
  {
    hide Frontier, AfterFailure, WorkersOk, StraysOk, ShapeOk, PhaseOk, VerdictKept;
    forall i | 0 <= i < |s.steps|
      ensures LivelyAt(s.steps[i], s.starting, DoOrch(s).workers, s.running)
    {
      assert LivelyAt(s.steps[i], s.starting, s.workers, s.running);
    }
  }

  /** Operators always descend, and no strategy is created over a stale worker entry. */
  predicate Healthy(s: Sys, acts: seq<Action>, rank: nat -> nat) {
    acts == [] ||
      (Healthy(s, acts[..|acts| - 1], rank) && Descends(rank, acts[|acts| - 1])
       && CreatesClean(Exec(s, acts[..|acts| - 1]), acts[|acts| - 1]))
  }

  /** In every such run, interrupted or not, an entry that blocks a step has a live worker. */
  lemma {:induction false} HealthyRunsAreLively(starting: nat, unmanaged: set<string>, acts: seq<Action>, rank: nat -> nat)
    requires CleanCreates(Fresh(starting, unmanaged), acts) && Healthy(Fresh(starting, unmanaged), acts, rank)
    ensures Lively(After(starting, unmanaged, acts))
    decreases |acts|
  {
    hide Do, Base, Lively, CreatesClean, CleanCreate, Descends;
    if acts == [] {
      FreshLively(starting, unmanaged);
    } else {
      var before := acts[..|acts| - 1];
      HealthyRunsAreLively(starting, unmanaged, before, rank);
      RunsAreSafe(starting, unmanaged, before);
      LivelyKept(After(starting, unmanaged, before), acts[|acts| - 1], rank);
    }
  }

  lemma FreshLively(starting: nat, unmanaged: set<string>)
    ensures Lively(Fresh(starting, unmanaged))
  {
  }

  // ---------------------------------------------------------------- where stale entries come from

  /** The thread is about to write the verdict that leaves the worker map as it is. */
  predicate LeavesEntries(s: Sys) {
    s.pc.Deciding? && !s.pc.clear
  }

  /** Some such verdict was written since the last restart of the thread. */
  predicate LeftEntries(s: Sys, acts: seq<Action>) {
    acts != [] && !acts[|acts| - 1].Restart? &&
      (LeftEntries(s, acts[..|acts| - 1]) || (acts[|acts| - 1].Orch? && LeavesEntries(Exec(s, acts[..|acts| - 1]))))
  }

  /** Outside the active states the map is empty unless such a verdict left it; and only a failure under
      stop-on-failure leads to one. */
  lemma {:induction false} EntriesComeFromFailure(starting: nat, unmanaged: set<string>, acts: seq<Action>)
    ensures var s := After(starting, unmanaged, acts);
      && (s.strategy.None? || !Active(s.strategy.value.state) ==>
            s.workers == map[] || LeftEntries(Fresh(starting, unmanaged), acts))
      && (LeavesEntries(s) ==> StateFails(s))
    decreases |acts|
  {
    hide Do;
    var s0 := Fresh(starting, unmanaged);
    if acts != [] {
      var before, a := acts[..|acts| - 1], acts[|acts| - 1];
      EntriesComeFromFailure(starting, unmanaged, before);
      StrategyLife(starting, unmanaged, before, a);
      EntriesStep(Exec(s0, before), a);
    }
  }

  predicate StateFails(s: Sys) {
    s.pc.Deciding? && s.pc.verdict == SwFailed && s.strategy.Some? && s.strategy.value.stopOnFailure
  }

  lemma EntriesStep(s: Sys, a: Action)
    requires LifeOk(s.strategy, s.pc) && (LeavesEntries(s) ==> StateFails(s))
    ensures var t := Do(s, a);
      && (LeavesEntries(t) ==> StateFails(t))
      && (t.strategy.None? || !Active(t.strategy.value.state) ==>
            t.workers == map[] || (a.Orch? && LeavesEntries(s)) || (!a.Restart? && t.workers == s.workers && (s.strategy.None? || !Active(s.strategy.value.state))))
  {
    hide DoOrch;
    if a.Orch? {
      EntriesOrch(s);
    } else {
      hide Do;
      RequestEdge(s, a);
      RequestKeepsEntries(s, a);
    }
  }

  lemma RequestKeepsEntries(s: Sys, a: Action)
    requires !a.Orch?
    ensures Do(s, a).workers == if a.Restart? then map[] else s.workers
  {
    hide DoCreate, DoFinish, DoDelete;
    match a
    case Create(req, fleet, groups) => CreateKeepsEntries(s, req, fleet, groups);
    case Finish(w, o) => FinishKeepsEntries(s, w, o);
    case RpcDelete => DeleteKeepsEntries(s);
    case _ =>
  }

  lemma CreateKeepsEntries(s: Sys, req: Request, fleet: seq<Subcloud>, groups: seq<Group>)
    ensures DoCreate(s, req, fleet, groups).workers == s.workers
  {
    hide Plan, Validate, WellFormedGroups, StepsOf, Caps;
  }

  lemma FinishKeepsEntries(s: Sys, w: Worker, o: Outcome)
    ensures DoFinish(s, w, o).workers == s.workers
  {
    hide SetState;
  }

  lemma DeleteKeepsEntries(s: Sys)
    ensures DoDelete(s).workers == s.workers
  {
  }

  lemma EntriesOrch(s: Sys)
    requires LifeOk(s.strategy, s.pc) && (LeavesEntries(s) ==> StateFails(s))
    ensures var t := DoOrch(s);
      && (LeavesEntries(t) ==> StateFails(t))
      && (t.strategy.None? || !Active(t.strategy.value.state) ==>
            t.workers == map[] || LeavesEntries(s) || (t.workers == s.workers && (s.strategy.None? || !Active(s.strategy.value.state))))
  {
    hide SetState, Front, Dropped, Regions;
    if s.pc.Staging? && s.pc.at < |s.pc.snap| {
      StageKeepsLife(s, s.pc.snap[s.pc.at]);
    }
  }

  /** No request asks for stop-on-failure. */
  ghost predicate GoesOnAfterFailures(acts: seq<Action>) {
    forall k :: 0 <= k < |acts| && acts[k].Create? ==> !acts[k].req.stopOnFailure
  }

  /** Then no verdict leaves entries, and every strategy starts over an empty worker map. */
  lemma {:induction false} CreatesAreClean(starting: nat, unmanaged: set<string>, acts: seq<Action>, a: Action)
    requires GoesOnAfterFailures(acts)
    ensures CreatesClean(After(starting, unmanaged, acts), a) && !LeftEntries(Fresh(starting, unmanaged), acts)
    ensures var s := After(starting, unmanaged, acts); s.strategy.Some? ==> !s.strategy.value.stopOnFailure
    decreases |acts|
  {
    hide Do;
    EntriesComeFromFailure(starting, unmanaged, acts);
    if acts != [] {
      var before, last := acts[..|acts| - 1], acts[|acts| - 1];
      assert forall k :: 0 <= k < |before| ==> before[k] == acts[k];
      CreatesAreClean(starting, unmanaged, before, last);
      EntriesComeFromFailure(starting, unmanaged, before);
      StrategyLife(starting, unmanaged, before, last);
      if After(starting, unmanaged, before).strategy.None? && After(starting, unmanaged, acts).strategy.Some? {
        RequestedFailures(After(starting, unmanaged, before), last);
      }
    }
    EmptyIsClean(After(starting, unmanaged, acts), a);
  }

  lemma EmptyIsClean(s: Sys, a: Action)
    ensures s.workers == map[] || s.strategy.Some? ==> CreatesClean(s, a)
  {
  }

  lemma RequestedFailures(s: Sys, a: Action)
    requires s.strategy.None? && Do(s, a).strategy.Some?
    ensures a.Create? && Do(s, a).strategy.value.stopOnFailure == a.req.stopOnFailure
  {
    hide Plan, Validate, WellFormedGroups, SetState, Front;
  }

  // ---------------------------------------------------------------- the stale entry

  /** The step is in its first state, the worker map says it has a worker, and it has none. */
  predicate Hung(s: Sys, i: nat) {
    && i < |s.steps|
    && s.steps[i].state == Working(s.starting)
    && Blocked(s.workers, s.steps[i].region, Working(s.starting))
    && Worker(s.steps[i].region, Working(s.starting)) !in s.running
  }

  /** Starting a step over a stale entry for the starting state gives it no worker. */
  lemma StaleStartHangs(s: Sys)
    requires Base(s) && s.pc.Staging? && s.pc.at < |s.pc.snap| && s.pc.snap[s.pc.at].stage == s.pc.stage
    requires s.pc.snap[s.pc.at].state.Initial? && s.pc.snap[s.pc.at].region !in s.unmanagedRead
    requires Blocked(s.workers, s.pc.snap[s.pc.at].region, Working(s.starting))
    ensures Hung(DoOrch(s), s.pc.at)
  {
    hide Base, SetState, ShapeOk;
    CurrentAt(s);
    LeaveInitial(s, Working(s.starting));
  }

  /** Nothing but a restart of the thread frees a hung step, so the strategy never gets a verdict. */
  lemma HungStays(s: Sys, a: Action, i: nat)
    requires Base(s) && Hung(s, i) && !a.Restart?
    ensures Hung(Do(s, a), i)
    ensures Do(s, a).strategy.Some? && Active(Do(s, a).strategy.value.state)
  {
    hide Base, DoOrch, DoFinish, DoCreate, Advances;
    HungIsActive(s, i);
    NotOverAnother(s, a);
    StepPreserves(s, a);
    match a {
      case Orch => HungOrch(s, i);
      case Finish(w, o) => HungFinish(s, w, o, i);
      case _ => HungOther(s, a, i);
    }
    HungIsActive(Do(s, a), i);
  }

  lemma HungOther(s: Sys, a: Action, i: nat)
    requires Hung(s, i) && s.strategy.Some? && !a.Orch? && !a.Finish? && !a.Restart?
    ensures Hung(Do(s, a), i)
  {
  }

  lemma HungIsActive(s: Sys, i: nat)
    requires Base(s) && Hung(s, i)
    ensures s.strategy.Some? && Active(s.strategy.value.state) && !s.pc.Deciding? && !s.pc.DeleteEntered?
  {
    hide Frontier, AfterFailure, WorkersOk, StraysOk, ShapeOk, VerdictKept, StagingOk;
  }

  lemma HungFinish(s: Sys, w: Worker, o: Outcome, i: nat)
    requires Base(s) && Hung(s, i)
    ensures Hung(DoFinish(s, w, o), i)
  {
    hide Frontier, AfterFailure, PhaseOk, PcOk, LifeOk, SetState, ShapeOk;
    if w in s.running && Possible(w.seen, o) {
      NotTheHungOne(s, w, i);
    }
  }

  lemma NotTheHungOne(s: Sys, w: Worker, i: nat)
    requires Base(s) && Hung(s, i) && w in s.running
    ensures w.region != s.steps[i].region
  {
    hide Frontier, AfterFailure, PhaseOk, PcOk, LifeOk, ShapeOk;
  }

  lemma HungOrch(s: Sys, i: nat)
    requires Base(s) && Hung(s, i) && !s.pc.Deciding? && !s.pc.DeleteEntered?
    ensures Hung(DoOrch(s), i)
  {
    hide Frontier, AfterFailure, PhaseOk, LifeOk, SetState, ShapeOk, Decide, Dropped, Regions, FailuresFrom, WorkersOk, StraysOk;
    match s.pc
    case ApplyEntered(sof) =>
      DroppedFinal(s.steps, sof);
      DroppedKeeps(s.steps, s.caps, Dropped(s.steps, sof), i);
    case Staging(snap, stage, at) =>
      if at < |snap| && snap[at].stage == stage {
        HungTurn(s, i);
      }
    case AbortMarking(snap, at) =>
      if at < |snap| && snap[at].state.Initial? {
        OneStepChanges(s.steps, s.caps, at, Aborted);
      }
    case _ =>
  }

  lemma DroppedKeeps(steps: seq<Step>, caps: seq<nat>, n: nat, i: nat)
    requires ShapeOk(steps, caps) && n <= i < |steps|
    ensures steps[i].region !in Regions(steps[..n])
  {
  }

  lemma HungTurn(s: Sys, i: nat)
    requires Base(s) && Hung(s, i) && s.pc.Staging? && s.pc.at < |s.pc.snap| && s.pc.snap[s.pc.at].stage == s.pc.stage
    ensures Hung(DoOrch(s), i)
  {
    hide Base, ShapeOk, WorkersOk, ProcessStep, SetState, OthersKept;
    CurrentAt(s);
    var at, step := s.pc.at, s.pc.snap[s.pc.at];
    assert ReadIsCurrent(step.state, s.steps[at], s.workers);
    Regional(s.steps, s.caps, at);
    if step.state.Initial? {
      HungStart(s, i);
    } else {
      ProcessKeepsOthers(s, step.region, step.state);
      if i != at {
        HungApart(s, s, ProcessStep(s, step.region, step.state), i, step.region);
      }
    }
  }

  lemma HungStart(s: Sys, i: nat)
    requires Base(s) && Hung(s, i) && s.pc.Staging? && s.pc.at < |s.pc.snap| && s.pc.snap[s.pc.at].stage == s.pc.stage
    requires s.pc.snap[s.pc.at].state.Initial?
    ensures Hung(DoOrch(s), i)
  {
    hide Base, ShapeOk, WorkersOk, ProcessStep, SetState, OthersKept;
    CurrentAt(s);
    var step := s.pc.snap[s.pc.at];
    Regional(s.steps, s.caps, s.pc.at);
    LeaveInitial(s, Failed);
    LeaveInitial(s, Working(s.starting));
    var m := s.(steps := SetState(s.steps, step.region, Working(s.starting)));
    ProcessKeepsOthers(m, step.region, Working(s.starting));
    HungApart(s, m, ProcessStep(m, step.region, Working(s.starting)), i, step.region);
  }

  lemma HungApart(s: Sys, m: Sys, t: Sys, i: nat, region: string)
    requires Hung(s, i) && s.steps[i].region != region
    requires m.workers == s.workers && m.running == s.running && m.starting == s.starting == t.starting
    requires i < |m.steps| && m.steps[i] == s.steps[i] && t.steps == m.steps
    requires OthersKept(m.workers, m.running, t.workers, t.running, region)
    ensures Hung(t, i)
  {
  }
}
