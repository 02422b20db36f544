/** The software-update orchestration as a machine. A run is any sequence of actions: user
    requests, worker completions, management changes, single steps of the orchestrator thread,
    and interruptions of it. An action that is not enabled leaves the system as it is. */
module OrchMachine {
  import opened Cloud
  import opened StagePlan

  /** `Working(op)` stands for the intermediate states, each of which names a state operator. */
  datatype StepState = Initial | Working(op: nat) | Complete | Aborted | Failed

  datatype Step = Step(region: string, group: nat, stage: nat, state: StepState)

  datatype StrategyState = SwInitial | SwApplying | SwAbortRequested | SwAborting
    | SwComplete | SwAborted | SwFailed | SwDeleting

  datatype Strategy = Strategy(state: StrategyState, stopOnFailure: bool)

  /** A green thread that runs a state operator and has not written its result yet. */
  datatype Worker = Worker(region: string, seen: StepState)

  /** Where the orchestrator thread stands between two of its database accesses. */
  datatype Pc =
    | Idle
    | ApplyEntered(stopOnFailure: bool)
    | Staging(snap: seq<Step>, stage: nat, at: nat)
    | Deciding(verdict: StrategyState, clear: bool)
    | AbortEntered
    | AbortMarking(snap: seq<Step>, at: nat)
    | DeleteEntered

  /** `starting` is the thread's first operator state and never changes. `caps` records the
      limit that creation used for each group. `unmanagedRead` is what the steps that the thread
      last read said about their subclouds. */
  datatype Sys = Sys(starting: nat, strategy: Option<Strategy>, steps: seq<Step>, caps: seq<nat>,
                     workers: map<string, StepState>, running: multiset<Worker>,
                     unmanaged: set<string>, unmanagedRead: set<string>, pc: Pc)

  /** What a state operator does: returns the next state, reports completion, skips or raises. */
  datatype Outcome = Advance(op: nat) | Done | Skip | Raise

  datatype Action =
    | Create(req: Request, fleet: seq<Subcloud>, groups: seq<Group>)
    | RpcApply
    | RpcAbort
    | RpcDelete
    | SetManaged(region: string, managed: bool)
    | Finish(worker: Worker, outcome: Outcome)
    | Orch
    | TickRaises
    | Restart

  // ---------------------------------------------------------------- step states

  predicate Final(s: StepState) {
    s.Complete? || s.Aborted? || s.Failed?
  }

  predicate Unstarted(s: StepState) {
    s.Initial? || s.Aborted?
  }

  function SetState(steps: seq<Step>, region: string, state: StepState): (r: seq<Step>)
    ensures |r| == |steps|
    ensures forall i :: 0 <= i < |steps| ==>
      r[i] == if steps[i].region == region then steps[i].(state := state) else steps[i]
  {
    seq(|steps|, i requires 0 <= i < |steps| =>
      if steps[i].region == region then steps[i].(state := state) else steps[i])
  }

  // ---------------------------------------------------------------- requests

  function StepsOf(p: seq<Placed>): (r: seq<Step>)
    ensures |r| == |p|
    ensures forall i :: 0 <= i < |p| ==> r[i] == Step(p[i].name, p[i].group, p[i].stage, Initial)
  {
    seq(|p|, i requires 0 <= i < |p| => Step(p[i].name, p[i].group, p[i].stage, Initial))
  }

  /** Groups partition the subclouds, and each subcloud has one status row per endpoint type. */
  predicate WellFormedGroups(groups: seq<Group>) {
    RowsOk(groups) && UniqueNames(Roster(groups))
  }

  function DoCreate(s: Sys, req: Request, fleet: seq<Subcloud>, groups: seq<Group>): Sys {
    if s.strategy.Some? || !WellFormedGroups(groups) || Validate(req, fleet, groups).Invalid? then s
    else
      var p := Plan(req, groups);
      s.(strategy := Some(Strategy(if p == [] then SwDeleting else SwInitial, req.stopOnFailure)),
         steps := StepsOf(p), caps := Caps(req, groups))
  }

  function SetStrategy(s: Sys, state: StrategyState): Sys {
    if s.strategy.None? then s else s.(strategy := Some(s.strategy.value.(state := state)))
  }

  predicate StateIs(s: Sys, state: StrategyState) {
    s.strategy.Some? && s.strategy.value.state == state
  }

  predicate IsVerdict(v: StrategyState) {
    v.SwComplete? || v.SwAborted? || v.SwFailed?
  }

  function DoDelete(s: Sys): Sys {
    if s.strategy.Some? && (s.strategy.value.state.SwInitial? || IsVerdict(s.strategy.value.state))
    then SetStrategy(s, SwDeleting) else s
  }

  // ---------------------------------------------------------------- workers

  /** Only intermediate states have an operator; for any other state the lookup itself raises. */
  predicate Possible(seen: StepState, o: Outcome) {
    seen.Working? || o.Raise?
  }

  function ResultState(o: Outcome): StepState {
    match o
    case Advance(op) => Working(op)
    case Done => Complete
    case Skip => Complete
    case Raise => Failed
  }

  function DoFinish(s: Sys, w: Worker, o: Outcome): Sys {
    if w in s.running && Possible(w.seen, o)
    then s.(steps := SetState(s.steps, w.region, ResultState(o)), running := s.running - multiset{w})
    else s
  }

  /** process_update_step */
  function ProcessStep(s: Sys, region: string, state: StepState): Sys {
    if region in s.workers && s.workers[region] == state then s
    else s.(workers := s.workers[region := state],
            running := s.running + multiset{Worker(region, state)})
  }

  // ---------------------------------------------------------------- the orchestrator thread

  predicate Stops(step: Step, stopOnFailure: bool) {
    !Final(step.state) || (step.state.Failed? && stopOnFailure)
  }

  /** Index of the step that decides the current stage, or the number of steps. */
  function Front(steps: seq<Step>, stopOnFailure: bool, from: nat): (f: nat)
    requires from <= |steps|
    ensures from <= f <= |steps|
    ensures f < |steps| ==> Stops(steps[f], stopOnFailure)
    ensures forall i :: from <= i < f ==> !Stops(steps[i], stopOnFailure)
    decreases |steps| - from
  {
    if from == |steps| || Stops(steps[from], stopOnFailure) then from
    else Front(steps, stopOnFailure, from + 1)
  }

  predicate AnyIn(steps: seq<Step>, state: StepState) {
    exists i :: 0 <= i < |steps| && steps[i].state == state
  }

  predicate WorkRemains(steps: seq<Step>, stage: nat) {
    exists i :: 0 <= i < |steps| && steps[i].stage == stage && !steps[i].state.Complete? && !steps[i].state.Failed?
  }

  function Regions(steps: seq<Step>): set<string> {
    set i | 0 <= i < |steps| :: steps[i].region
  }

  /** What apply() decides from the steps it read. */
  function Decide(steps: seq<Step>, stopOnFailure: bool): Pc {
    var f := Front(steps, stopOnFailure, 0);
    if f == |steps| then
      Deciding(if AnyIn(steps, Failed) then SwFailed else if AnyIn(steps, Aborted) then SwAborted else SwComplete, true)
    else if steps[f].state.Failed? && !WorkRemains(steps, steps[f].stage) then
      Deciding(SwFailed, false)
    else
      Staging(steps, steps[f].stage, 0)
  }

  /** How many leading steps the first loop of apply() drops from the worker map. */
  function Dropped(steps: seq<Step>, stopOnFailure: bool): (n: nat)
    ensures n <= |steps|
  {
    var f := Front(steps, stopOnFailure, 0);
    if f < |steps| && steps[f].state.Failed? then f + 1 else f
  }

  function DoScan(s: Sys, stopOnFailure: bool): Sys {
    s.(workers := s.workers - Regions(s.steps[..Dropped(s.steps, stopOnFailure)]),
       unmanagedRead := s.unmanaged, pc := Decide(s.steps, stopOnFailure))
  }

  /** One turn of the stage loop, for the step read at the start of the tick. */
  function DoStage(s: Sys, step: Step): Sys {
    match step.state
    case Complete => s.(workers := s.workers - {step.region})
    case Failed => s.(workers := s.workers - {step.region})
    case Initial =>
      if step.region in s.unmanagedRead then s.(steps := SetState(s.steps, step.region, Failed))
      else ProcessStep(s.(steps := SetState(s.steps, step.region, Working(s.starting))), step.region, Working(s.starting))
    case Working(_) => ProcessStep(s, step.region, step.state)
    case Aborted => ProcessStep(s, step.region, step.state)
  }

  function DoOrch(s: Sys): Sys {
    match s.pc
    case Idle =>
      if s.strategy.None? then s
      else
        (match s.strategy.value.state
         case SwApplying => s.(pc := ApplyEntered(s.strategy.value.stopOnFailure))
         case SwAborting => s.(pc := ApplyEntered(s.strategy.value.stopOnFailure))
         case SwAbortRequested => s.(pc := AbortEntered)
         case SwDeleting => s.(pc := DeleteEntered)
         case _ => s)
    case ApplyEntered(stopOnFailure) => DoScan(s, stopOnFailure)
    case Staging(snap, stage, at) =>
      if at >= |snap| then s.(pc := Idle)
      else if snap[at].stage != stage then s.(pc := Staging(snap, stage, at + 1))
      else DoStage(s, snap[at]).(pc := Staging(snap, stage, at + 1))
    case Deciding(verdict, clear) =>
      SetStrategy(s, verdict).(workers := if clear then map[] else s.workers, pc := Idle)
    case AbortEntered => s.(pc := AbortMarking(s.steps, 0))
    case AbortMarking(snap, at) =>
      if at >= |snap| then SetStrategy(s, SwAborting).(pc := Idle)
      else
        s.(steps := if snap[at].state.Initial? then SetState(s.steps, snap[at].region, Aborted) else s.steps,
           pc := AbortMarking(snap, at + 1))
    case DeleteEntered => s.(strategy := None, steps := [], caps := [], pc := Idle)
  }

  // ---------------------------------------------------------------- runs

  function Do(s: Sys, a: Action): Sys {
    match a
    case Create(req, fleet, groups) => DoCreate(s, req, fleet, groups)
    case RpcApply => if StateIs(s, SwInitial) then SetStrategy(s, SwApplying) else s
    case RpcAbort => if StateIs(s, SwApplying) then SetStrategy(s, SwAbortRequested) else s
    case RpcDelete => DoDelete(s)
    case SetManaged(region, managed) =>
      s.(unmanaged := if managed then s.unmanaged - {region} else s.unmanaged + {region})
    case Finish(w, o) => DoFinish(s, w, o)
    case Orch => DoOrch(s)
    case TickRaises => s.(pc := Idle)
    case Restart => s.(pc := Idle, workers := map[], running := multiset{})
  }

  function Exec(s: Sys, acts: seq<Action>): Sys {
    if acts == [] then s else Do(Exec(s, acts[..|acts| - 1]), acts[|acts| - 1])
  }

  lemma {:induction false} ExecConcat(s: Sys, a: seq<Action>, b: seq<Action>)
    ensures Exec(s, a + b) == Exec(Exec(s, a), b)
    decreases |b|
  {
    hide Do;
    if b == [] {
      assert a + b == a;
    } else {
      var i := |a + b| - 1;
      assert (a + b)[..i] == a + b[..|b| - 1] && (a + b)[i] == b[|b| - 1];
      ExecConcat(s, a, b[..|b| - 1]);
    }
  }

  /** No strategy, a fresh thread, any subclouds unmanaged. */
  function Fresh(starting: nat, unmanaged: set<string>): Sys {
    Sys(starting, None, [], [], map[], multiset{}, unmanaged, {}, Idle)
  }
}
