/** The orchestrator thread and the request handlers as they are written: methods that update
    the database rows and the worker map in place. Each is proved to take exactly the steps of
    the machine in OrchMachine, whatever the other parties do between its database accesses. */
module OrchThread {
  import opened Cloud
  import opened StagePlan
  import opened OrchMachine
  import opened OrchInvariant
  import opened OrchTheorems

  datatype Reply = Accepted | StrategyExists | BadState | NotFound | Refused(error: CreateError) | NoSteps

  /** An action of somebody other than the thread. */
  predicate Foreign(a: Action) {
    !a.Orch? && !a.TickRaises? && !a.Restart?
  }

  predicate AllForeign(others: seq<seq<Action>>) {
    forall i, k :: 0 <= i < |others| && 0 <= k < |others[i]| ==> Foreign(others[i][k])
  }

  function Turn(others: seq<seq<Action>>, i: nat): seq<Action> {
    if i < |others| then others[i] else []
  }

  /** The first n database accesses of a tick, each preceded by what the others do meanwhile. */
  function Weave(others: seq<seq<Action>>, n: nat): seq<Action> {
    if n == 0 then [] else Weave(others, n - 1) + Turn(others, n - 1) + [Orch]
  }

  lemma WeaveNext(s: Sys, others: seq<seq<Action>>, n: nat)
    ensures Exec(s, Weave(others, n + 1)) == Do(Exec(Exec(s, Weave(others, n)), Turn(others, n)), Orch)
  {
    hide Do;
    ExecConcat(s, Weave(others, n), Turn(others, n));
    ExecSnoc(s, Weave(others, n) + Turn(others, n), Orch);
  }

  /** What the thread knows by itself. */
  predicate ThreadSame(s: Sys, t: Sys) {
    t.pc == s.pc && t.starting == s.starting && t.workers == s.workers && t.unmanagedRead == s.unmanagedRead
  }

  lemma {:induction false} ForeignKeepsPc(s: Sys, acts: seq<Action>)
    requires forall k :: 0 <= k < |acts| ==> Foreign(acts[k])
    ensures ThreadSame(s, Exec(s, acts))
    decreases |acts|
  {
    if acts != [] {
      ForeignKeepsPc(s, acts[..|acts| - 1]);
      ForeignStep(Exec(s, acts[..|acts| - 1]), acts[|acts| - 1]);
    }
  }

  lemma ForeignStep(s: Sys, a: Action)
    requires Foreign(a)
    ensures ThreadSame(s, Do(s, a))
  {
    hide Plan, Validate, WellFormedGroups, SetState, StepsOf, Caps, DoFinish, DoCreate, DoDelete;
    match a {
      case Create(req, fleet, groups) => CreateKeepsThread(s, req, fleet, groups);
      case RpcDelete => DeleteKeepsThread(s);
      case Finish(w, o) => FinishKeepsThread(s, w, o);
      case _ =>
    }
  }

  lemma CreateKeepsThread(s: Sys, req: Request, fleet: seq<Subcloud>, groups: seq<Group>)
    ensures ThreadSame(s, DoCreate(s, req, fleet, groups))
  {
    hide Plan, Validate, WellFormedGroups, StepsOf, Caps;
  }

  lemma DeleteKeepsThread(s: Sys)
    ensures ThreadSame(s, DoDelete(s))
  {
  }

  lemma FinishKeepsThread(s: Sys, w: Worker, o: Outcome)
    ensures ThreadSame(s, DoFinish(s, w, o))
  {
    hide SetState;
  }

  class OrchThread {
    const startingState: nat
    // the database
    var strategy: Option<Strategy>
    var steps: seq<Step>
    var unmanaged: set<string>
    // the thread's own records, and its green threads that have not written their result
    var subcloudWorkers: map<string, StepState>
    var running: multiset<Worker>
    // where the thread stands, and the history of the run
    ghost var pc: Pc
    ghost var unmanagedRead: set<string>
    ghost var caps: seq<nat>

    ghost function Model(): Sys
      reads this
    {
      Sys(startingState, strategy, steps, caps, subcloudWorkers, running, unmanaged, unmanagedRead, pc)
    }

    constructor (startingState: nat, unmanaged: set<string>)
      ensures Model() == Fresh(startingState, unmanaged)
    {
      this.startingState := startingState;
      strategy, steps, this.unmanaged := None, [], unmanaged;
      subcloudWorkers, running := map[], multiset{};
      unmanagedRead, pc, caps := {}, Idle, [];
    }

    // -------------------------------------------------------------- request handlers

    method CreateSwUpdateStrategy(req: Request, fleet: seq<Subcloud>, groups: seq<Group>) returns (reply: Reply)
      requires WellFormedGroups(groups)
      modifies this
      ensures Model() == Do(old(Model()), Create(req, fleet, groups))
      ensures reply == if old(strategy).Some? then StrategyExists
        else if Validate(req, fleet, groups).Invalid? then Refused(Validate(req, fleet, groups).error)
        else if Plan(req, groups) == [] then NoSteps else Accepted
      ensures reply == Accepted || reply == NoSteps ==>
        && strategy == Some(Strategy(if reply == Accepted then SwInitial else SwDeleting, req.stopOnFailure))
        && |steps| == |Plan(req, groups)|
        && forall i :: 0 <= i < |steps| ==>
          steps[i] == Step(Plan(req, groups)[i].name, Plan(req, groups)[i].group, Plan(req, groups)[i].stage, Initial)
      ensures reply != Accepted && reply != NoSteps ==> strategy == old(strategy) && steps == old(steps)
      ensures unmanaged == old(unmanaged) && subcloudWorkers == old(subcloudWorkers) && running == old(running)
    {
      hide Validate, Plan;
      if strategy.Some? {
        return StrategyExists;
      }
      var v := ValidateSubclouds(req, fleet, groups);
      if v.Invalid? {
        return Refused(v.error);
      }
      strategy := Some(Strategy(SwInitial, req.stopOnFailure));
      var placed := CreateSteps(req, groups);
      steps := StepsOf(placed);
      caps := Caps(req, groups);
      if placed == [] {
        strategy := Some(strategy.value.(state := SwDeleting));
        return NoSteps;
      }
      reply := Accepted;
    }

    method ApplySwUpdateStrategy() returns (reply: Reply)
      modifies this
      ensures Model() == Do(old(Model()), RpcApply)
      ensures (reply == NotFound <==> old(strategy) == None)
        && (reply == Accepted <==> old(strategy).Some? && old(strategy).value.state == SwInitial)
      ensures strategy == if reply == Accepted then Some(old(strategy).value.(state := SwApplying)) else old(strategy)
      ensures steps == old(steps) && unmanaged == old(unmanaged) && subcloudWorkers == old(subcloudWorkers) && running == old(running)
    {
      if strategy.None? {
        return NotFound;
      }
      if strategy.value.state != SwInitial {
        return BadState;
      }
      strategy := Some(strategy.value.(state := SwApplying));
      reply := Accepted;
    }

    method AbortSwUpdateStrategy() returns (reply: Reply)
      modifies this
      ensures Model() == Do(old(Model()), RpcAbort)
      ensures (reply == NotFound <==> old(strategy) == None)
        && (reply == Accepted <==> old(strategy).Some? && old(strategy).value.state == SwApplying)
      ensures strategy == if reply == Accepted then Some(old(strategy).value.(state := SwAbortRequested)) else old(strategy)
      ensures steps == old(steps) && unmanaged == old(unmanaged) && subcloudWorkers == old(subcloudWorkers) && running == old(running)
    {
      if strategy.None? {
        return NotFound;
      }
      if strategy.value.state != SwApplying {
        return BadState;
      }
      strategy := Some(strategy.value.(state := SwAbortRequested));
      reply := Accepted;
    }

    method DeleteSwUpdateStrategy() returns (reply: Reply)
      modifies this
      ensures Model() == Do(old(Model()), RpcDelete)
      ensures (reply == NotFound <==> old(strategy) == None)
        && (reply == Accepted <==> old(strategy).Some? && old(strategy).value.state in {SwInitial, SwComplete, SwFailed, SwAborted})
      ensures strategy == if reply == Accepted then Some(old(strategy).value.(state := SwDeleting)) else old(strategy)
      ensures steps == old(steps) && unmanaged == old(unmanaged) && subcloudWorkers == old(subcloudWorkers) && running == old(running)
    {
      if strategy.None? {
        return NotFound;
      }
      if strategy.value.state !in {SwInitial, SwComplete, SwFailed, SwAborted} {
        return BadState;
      }
      strategy := Some(strategy.value.(state := SwDeleting));
      reply := Accepted;
    }

    // -------------------------------------------------------------- the database row of a step

    method StrategyStepUpdate(region: string, state: StepState)
      modifies this`steps
      ensures steps == SetState(old(steps), region, state)
      ensures |steps| == |old(steps)| && forall k :: 0 <= k < |steps| ==>
        steps[k] == if old(steps)[k].region == region then old(steps)[k].(state := state) else old(steps)[k]
    {
      hide SetState;
      var i := 0;
      ghost var before := steps;
      while i < |steps|
        invariant 0 <= i <= |steps| == |before|
        invariant forall k :: 0 <= k < i ==> steps[k] == if before[k].region == region then before[k].(state := state) else before[k]
        invariant forall k :: i <= k < |steps| ==> steps[k] == before[k]
      {
        if steps[i].region == region {
          steps := steps[i := steps[i].(state := state)];
        }
        i := i + 1;
      }
      assert steps == SetState(before, region, state);
    }

    // -------------------------------------------------------------- workers

    /** perform_state_action, from the moment the operator is done: exactly one result is written. */
    method PerformStateAction(w: Worker, o: Outcome)
      modifies this
      ensures Model() == DoFinish(old(Model()), w, o)
      ensures strategy == old(strategy) && subcloudWorkers == old(subcloudWorkers) && |steps| == |old(steps)|
      ensures w !in old(running) || !(w.seen.Working? || o == Raise) ==> steps == old(steps) && running == old(running)
      ensures w in old(running) && (w.seen.Working? || o == Raise) ==>
        && running == old(running) - multiset{w}
        && forall k :: 0 <= k < |steps| ==>
          && (old(steps)[k].region != w.region ==> steps[k] == old(steps)[k])
          && (old(steps)[k].region == w.region ==>
                && (o.Advance? ==> steps[k] == old(steps)[k].(state := Working(o.op)))
                && (o == Done || o == Skip ==> steps[k] == old(steps)[k].(state := Complete))
                && (o == Raise ==> steps[k] == old(steps)[k].(state := Failed)))
    {
      hide SetState;
      if w in running && Possible(w.seen, o) {
        match o {
          case Advance(op) => StrategyStepUpdate(w.region, Working(op));
          case Done => StrategyStepUpdate(w.region, Complete);
          case Skip => StrategyStepUpdate(w.region, Complete);
          case Raise => StrategyStepUpdate(w.region, Failed);
        }
        running := running - multiset{w};
      }
    }

    method DeleteSubcloudWorker(region: string)
      modifies this`subcloudWorkers
      ensures subcloudWorkers == old(subcloudWorkers) - {region}
    {
      if region in subcloudWorkers {
        subcloudWorkers := map r | r in subcloudWorkers && r != region :: subcloudWorkers[r];
      }
    }

    method ProcessUpdateStep(region: string, state: StepState)
      modifies this`subcloudWorkers, this`running
      ensures Model() == ProcessStep(old(Model()), region, state)
      ensures if region in old(subcloudWorkers) && old(subcloudWorkers)[region] == state then
          subcloudWorkers == old(subcloudWorkers) && running == old(running)
        else
          subcloudWorkers == old(subcloudWorkers)[region := state] && running == old(running) + multiset{Worker(region, state)}
    {
      if region in subcloudWorkers {
        if subcloudWorkers[region] == state {
          return;
        }
      }
      subcloudWorkers := subcloudWorkers[region := state];
      running := running + multiset{Worker(region, state)};
    }

    // -------------------------------------------------------------- interference

    method Perform(a: Action)
      requires Foreign(a)
      modifies this
      ensures Model() == Do(old(Model()), a)
    {
      hide DoFinish, DoCreate, DoDelete;
      match a {
        case Create(req, fleet, groups) =>
          IgnoredCreate(Model(), req, fleet, groups);
          if WellFormedGroups(groups) {
            var _ := CreateSwUpdateStrategy(req, fleet, groups);
          }
        case RpcApply => var _ := ApplySwUpdateStrategy();
        case RpcAbort => var _ := AbortSwUpdateStrategy();
        case RpcDelete => var _ := DeleteSwUpdateStrategy();
        case SetManaged(region, managed) =>
          unmanaged := if managed then unmanaged - {region} else unmanaged + {region};
        case Finish(w, o) => PerformStateAction(w, o);
      }
    }

    method Interfere(acts: seq<Action>)
      requires forall k :: 0 <= k < |acts| ==> Foreign(acts[k])
      modifies this
      ensures Model() == Exec(old(Model()), acts)
      ensures pc == old(pc) && subcloudWorkers == old(subcloudWorkers) && unmanagedRead == old(unmanagedRead)
    {
      hide Do;
      var i := 0;
      ghost var before := Model();
      assert acts[..0] == [];
      while i < |acts|
        invariant 0 <= i <= |acts|
        invariant Model() == Exec(before, acts[..i])
      {
        Perform(acts[i]);
        assert acts[..i + 1] == acts[..i] + [acts[i]];
        ExecSnoc(before, acts[..i], acts[i]);
        i := i + 1;
      }
      assert acts[..i] == acts;
      ForeignKeepsPc(before, acts);
    }

    // -------------------------------------------------------------- apply()

    /** The first loop of apply(): which stage to work on, and why. */
    method FindStage(strategySteps: seq<Step>, stopOnFailure: bool)
      returns (currentStage: Option<nat>, stopAfterStage: Option<nat>, failureDetected: bool, abortDetected: bool)
      modifies this`subcloudWorkers
      ensures subcloudWorkers == old(subcloudWorkers) - Regions(strategySteps[..Dropped(strategySteps, stopOnFailure)])
      ensures var f := Front(strategySteps, stopOnFailure, 0);
        if f == |strategySteps| then
          && currentStage.None? && stopAfterStage.None?
          && failureDetected == AnyIn(strategySteps, Failed) && abortDetected == AnyIn(strategySteps, Aborted)
        else
          && currentStage == Some(strategySteps[f].stage)
          && stopAfterStage == if strategySteps[f].state.Failed? then currentStage else None
      ensures currentStage == None ==>
        && (forall k :: 0 <= k < |strategySteps| ==> strategySteps[k].state in {Complete, Aborted} || (strategySteps[k].state == Failed && !stopOnFailure))
        && (failureDetected <==> exists k :: 0 <= k < |strategySteps| && strategySteps[k].state == Failed)
        && (abortDetected <==> exists k :: 0 <= k < |strategySteps| && strategySteps[k].state == Aborted)
      ensures currentStage != None ==>
        (exists f :: 0 <= f < |strategySteps|
          && currentStage == Some(strategySteps[f].stage)
          && strategySteps[f].state !in {Complete, Aborted} && (strategySteps[f].state == Failed ==> stopOnFailure)
          && stopAfterStage == (if strategySteps[f].state == Failed then currentStage else None)
          && forall k :: 0 <= k < f ==> strategySteps[k].state in {Complete, Aborted} || (strategySteps[k].state == Failed && !stopOnFailure))
    {
      hide Front;
      currentStage, stopAfterStage, failureDetected, abortDetected := None, None, false, false;
      ghost var before := subcloudWorkers;
      var i := 0;
      assert strategySteps[..0] == [];
      assert subcloudWorkers == before - Regions([]);
      while i < |strategySteps|
        invariant 0 <= i <= |strategySteps|
        invariant currentStage.None? && stopAfterStage.None?
        invariant forall k :: 0 <= k < i ==> !Stops(strategySteps[k], stopOnFailure)
        invariant failureDetected == AnyIn(strategySteps[..i], Failed)
        invariant abortDetected == AnyIn(strategySteps[..i], Aborted)
        invariant subcloudWorkers == before - Regions(strategySteps[..i])
      {
        var step := strategySteps[i];
        OneMore(before, strategySteps, i);
        if step.state.Complete? {
          DeleteSubcloudWorker(step.region);
        } else if step.state.Aborted? {
          DeleteSubcloudWorker(step.region);
          abortDetected := true;
        } else if step.state.Failed? {
          failureDetected := true;
          DeleteSubcloudWorker(step.region);
          if stopOnFailure {
            stopAfterStage := Some(step.stage);
            currentStage := Some(step.stage);
            FrontIs(strategySteps, stopOnFailure, i);
            return;
          }
        } else {
          currentStage := Some(step.stage);
          FrontIs(strategySteps, stopOnFailure, i);
          return;
        }
        i := i + 1;
      }
      assert strategySteps[..i] == strategySteps;
      FrontIs(strategySteps, stopOnFailure, |strategySteps|);
    }

    method WorkRemaining(strategySteps: seq<Step>, stage: nat) returns (remaining: bool)
      ensures remaining == WorkRemains(strategySteps, stage)
      ensures remaining <==> exists k :: 0 <= k < |strategySteps| && strategySteps[k].stage == stage && strategySteps[k].state !in {Complete, Failed}
    {
      remaining := false;
      var i := 0;
      while i < |strategySteps|
        invariant 0 <= i <= |strategySteps|
        invariant forall k :: 0 <= k < i && strategySteps[k].stage == stage ==>
          strategySteps[k].state.Complete? || strategySteps[k].state.Failed?
      {
        if strategySteps[i].stage == stage && !strategySteps[i].state.Complete? && !strategySteps[i].state.Failed? {
          return true;
        }
        i := i + 1;
      }
    }

    /** One turn of the second loop of apply(). */
    method StageTurn(step: Step, unmanagedThen: set<string>)
      requires unmanagedThen == unmanagedRead
      modifies this
      ensures Model() == DoStage(old(Model()), step)
      ensures strategy == old(strategy) && |steps| == |old(steps)|
      ensures forall k :: 0 <= k < |steps| ==>
        steps[k] == if step.state == Initial && old(steps)[k].region == step.region
          then old(steps)[k].(state := if step.region in unmanagedThen then Failed else Working(startingState))
          else old(steps)[k]
      ensures step.state == Complete || step.state == Failed ==> subcloudWorkers == old(subcloudWorkers) - {step.region} && running == old(running)
      ensures step.state == Initial && step.region in unmanagedThen ==> subcloudWorkers == old(subcloudWorkers) && running == old(running)
      ensures step.state.Working? || step.state == Aborted || (step.state == Initial && step.region !in unmanagedThen) ==>
        var serving := if step.state == Initial then Working(startingState) else step.state;
        if step.region in old(subcloudWorkers) && old(subcloudWorkers)[step.region] == serving then
          subcloudWorkers == old(subcloudWorkers) && running == old(running)
        else
          subcloudWorkers == old(subcloudWorkers)[step.region := serving] && running == old(running) + multiset{Worker(step.region, serving)}
    {
      match step.state {
        case Failed => DeleteSubcloudWorker(step.region);
        case Complete => DeleteSubcloudWorker(step.region);
        case Initial =>
          if step.region in unmanagedThen {
            StrategyStepUpdate(step.region, Failed);
          } else {
            StrategyStepUpdate(step.region, Working(startingState));
            ProcessUpdateStep(step.region, Working(startingState));
          }
        case _ => ProcessUpdateStep(step.region, step.state);
      }
    }

    method WriteStrategyState(state: StrategyState)
      modifies this`strategy
      ensures strategy == SetStrategy(old(Model()), state).strategy
      ensures strategy == if old(strategy).Some? then Some(old(strategy).value.(state := state)) else None
    {
      if strategy.Some? {
        strategy := Some(strategy.value.(state := state));
      }
    }

    /** The last access of a tick that found a verdict. */
    method WriteVerdict(meanwhile: seq<Action>, verdict: StrategyState, clear: bool)
      requires pc == Deciding(verdict, clear) && forall k :: 0 <= k < |meanwhile| ==> Foreign(meanwhile[k])
      modifies this
      ensures Model() == Do(Exec(old(Model()), meanwhile), Orch) && pc == Idle
    {
      hide Do, Exec, SetStrategy;
      Interfere(meanwhile);
      ghost var m := Model();
      WriteStrategyState(verdict);
      if clear {
        subcloudWorkers := map[];
      }
      pc := Idle;
      VerdictWritten(m);
    }

    method StageAccess(meanwhile: seq<Action>, strategySteps: seq<Step>, unmanagedThen: set<string>, stage: nat, i: nat)
      requires unmanagedThen == unmanagedRead
      requires pc == Staging(strategySteps, stage, i) && i < |strategySteps| && forall k :: 0 <= k < |meanwhile| ==> Foreign(meanwhile[k])
      modifies this
      ensures Model() == Do(Exec(old(Model()), meanwhile), Orch) && pc == Staging(strategySteps, stage, i + 1)
      ensures unmanagedRead == old(unmanagedRead)
    {
      hide Do, Exec, DoStage;
      Interfere(meanwhile);
      ghost var m := Model();
      if strategySteps[i].stage == stage {
        StageTurn(strategySteps[i], unmanagedThen);
      }
      pc := Staging(strategySteps, stage, i + 1);
      TurnTaken(m);
    }

    /** The second loop of apply(). */
    method StageLoop(strategySteps: seq<Step>, unmanagedThen: set<string>, stage: nat, others: seq<seq<Action>>, ghost start: Sys)
      returns (n: nat)
      requires unmanagedThen == unmanagedRead
      requires pc == Staging(strategySteps, stage, 0) && AllForeign(others)
      requires Model() == Exec(start, Weave(others, 1))
      modifies this
      ensures Model() == Exec(start, Weave(others, n)) && pc == Idle
    {
      hide Do, Exec, Weave, Model;
      n := 1;
      var i := 0;
      while i < |strategySteps|
        invariant 0 <= i <= |strategySteps| && n == i + 1
        invariant pc == Staging(strategySteps, stage, i) && unmanagedThen == unmanagedRead
        invariant Model() == Exec(start, Weave(others, n))
      {
        StageAccess(Turn(others, n), strategySteps, unmanagedThen, stage, i);
        WeaveNext(start, others, n);
        n := n + 1;
        i := i + 1;
      }
      LeaveLoop(Turn(others, n));
      WeaveNext(start, others, n);
      n := n + 1;
    }

    method LeaveLoop(meanwhile: seq<Action>)
      requires pc.Staging? && pc.at >= |pc.snap| && forall k :: 0 <= k < |meanwhile| ==> Foreign(meanwhile[k])
      modifies this
      ensures Model() == Do(Exec(old(Model()), meanwhile), Orch) && pc == Idle
    {
      hide Do, Exec;
      Interfere(meanwhile);
      ghost var m := Model();
      pc := Idle;
      StageEnded(m);
    }

    /** A whole, uninterrupted apply(), with anything the others do between its accesses.
        `n` counts the accesses; the last of them returns the thread to idle. */
    method Apply(stopOnFailure: bool, others: seq<seq<Action>>) returns (n: nat)
      requires pc == ApplyEntered(stopOnFailure) && AllForeign(others)
      modifies this
      ensures Model() == Exec(old(Model()), Weave(others, n)) && pc == Idle
    {
      hide Do, Exec, Weave, DoScan, Front, Decide, Dropped, WorkRemains, AnyIn;
      ghost var start := Model();
      Interfere(Turn(others, 0));
      var strategySteps, unmanagedThen := steps, unmanaged;
      ghost var read := Model();
      var currentStage, stopAfterStage, failureDetected, abortDetected := FindStage(strategySteps, stopOnFailure);
      pc, unmanagedRead := Decide(strategySteps, stopOnFailure), unmanagedThen;
      FirstAccess(start, others);
      Scanned(read, stopOnFailure);
      ScanIs(read, Model(), stopOnFailure);
      Verdicts(strategySteps, stopOnFailure);
      WeaveNext(start, others, 1);
      if currentStage.None? {
        WriteVerdict(Turn(others, 1), if failureDetected then SwFailed else if abortDetected then SwAborted else SwComplete, true);
        return 2;
      }
      if stopAfterStage.Some? {
        var workRemaining := WorkRemaining(strategySteps, stopAfterStage.value);
        if !workRemaining {
          WriteVerdict(Turn(others, 1), SwFailed, false);
          return 2;
        }
      }
      n := StageLoop(strategySteps, unmanagedThen, currentStage.value, others, start);
    }

    // -------------------------------------------------------------- abort()

    method MarkAccess(meanwhile: seq<Action>, strategySteps: seq<Step>, i: nat)
      requires pc == AbortMarking(strategySteps, i) && i < |strategySteps| && forall k :: 0 <= k < |meanwhile| ==> Foreign(meanwhile[k])
      modifies this
      ensures Model() == Do(Exec(old(Model()), meanwhile), Orch) && pc == AbortMarking(strategySteps, i + 1)
    {
      hide Do, Exec, SetState;
      Interfere(meanwhile);
      ghost var m := Model();
      if strategySteps[i].state.Initial? {
        StrategyStepUpdate(strategySteps[i].region, Aborted);
      }
      pc := AbortMarking(strategySteps, i + 1);
      StepMarked(m);
    }

    method WriteAborting(meanwhile: seq<Action>)
      requires pc.AbortMarking? && pc.at >= |pc.snap| && forall k :: 0 <= k < |meanwhile| ==> Foreign(meanwhile[k])
      modifies this
      ensures Model() == Do(Exec(old(Model()), meanwhile), Orch) && pc == Idle
    {
      hide Do, Exec, SetStrategy;
      Interfere(meanwhile);
      ghost var m := Model();
      WriteStrategyState(SwAborting);
      pc := Idle;
      AbortWritten(m);
    }

    method Abort(others: seq<seq<Action>>) returns (n: nat)
      requires pc == AbortEntered && AllForeign(others)
      modifies this
      ensures Model() == Exec(old(Model()), Weave(others, n)) && pc == Idle
    {
      hide Do, Exec, Weave;
      ghost var start := Model();
      Interfere(Turn(others, 0));
      var strategySteps := steps;
      AbortRead(Model());
      pc := AbortMarking(strategySteps, 0);
      n := 1;
      FirstAccess(start, others);
      var i := 0;
      while i < |strategySteps|
        invariant 0 <= i <= |strategySteps| && n == i + 1
        invariant pc == AbortMarking(strategySteps, i)
        invariant Model() == Exec(start, Weave(others, n))
      {
        MarkAccess(Turn(others, n), strategySteps, i);
        WeaveNext(start, others, n);
        n := n + 1;
        i := i + 1;
      }
      WriteAborting(Turn(others, n));
      WeaveNext(start, others, n);
      n := n + 1;
    }

    // -------------------------------------------------------------- run_orch()

    /** One wake-up: read the strategy row, and apply, abort or remove the strategy. */
    method WakeUp(others: seq<seq<Action>>, inside: seq<seq<Action>>) returns (n: nat)
      requires pc == Idle && AllForeign(others) && AllForeign(inside)
      modifies this
      ensures Model() == Exec(Do(Exec(old(Model()), Turn(others, 0)), Orch), Weave(inside, n)) && pc == Idle
    {
      hide DoScan, DoStage, DoFinish, DoCreate, SetState, Exec;
      ghost var start := Model();
      Interfere(Turn(others, 0));
      ghost var read := Model();
      n := 0;
      NoAccess(Do(read, Orch), inside);
      if strategy.Some? {
        match strategy.value.state {
          case SwApplying =>
            pc := ApplyEntered(strategy.value.stopOnFailure);
            n := Apply(strategy.value.stopOnFailure, inside);
          case SwAborting =>
            pc := ApplyEntered(strategy.value.stopOnFailure);
            n := Apply(strategy.value.stopOnFailure, inside);
          case SwAbortRequested =>
            pc := AbortEntered;
            n := Abort(inside);
          case SwDeleting =>
            pc := DeleteEntered;
            Delete(inside);
            n := 1;
          case _ =>
        }
      }
    }

    /** delete(), apart from its timed wait for the workers it starts. */
    method Delete(others: seq<seq<Action>>)
      requires pc == DeleteEntered && AllForeign(others)
      modifies this
      ensures Model() == Exec(old(Model()), Weave(others, 1)) && pc == Idle
    {
      hide DoFinish, DoCreate, SetState, Exec;
      ghost var start := Model();
      Interfere(Turn(others, 0));
      steps, caps := [], [];
      strategy := None;
      pc := Idle;
      FirstAccess(start, others);
    }
  }

  // ---------------------------------------------------------------- from a delete request to no strategy

  lemma {:induction false} StaysDeleting(s: Sys, acts: seq<Action>)
    requires StateIs(s, SwDeleting) && forall k :: 0 <= k < |acts| ==> Foreign(acts[k])
    ensures StateIs(Exec(s, acts), SwDeleting) && Exec(s, acts).pc == s.pc
    decreases |acts|
  {
    hide Do;
    ForeignKeepsPc(s, acts);
    if acts != [] {
      StaysDeleting(s, acts[..|acts| - 1]);
      RequestEdge(Exec(s, acts[..|acts| - 1]), acts[|acts| - 1]);
    }
  }

  /** From every state that a run can reach with a strategy that was not applied or has its verdict: a delete request,
      and the next two accesses of the thread, leave no strategy and no steps, whatever the others do in between. */
  lemma DeleteRemoves(starting: nat, unmanaged: set<string>, acts: seq<Action>, a: seq<Action>, b: seq<Action>)
    requires var s := After(starting, unmanaged, acts);
      s.strategy.Some? && s.strategy.value.state in {SwInitial, SwComplete, SwFailed, SwAborted}
    requires forall k :: 0 <= k < |a| ==> Foreign(a[k])
    requires forall k :: 0 <= k < |b| ==> Foreign(b[k])
    ensures var t := Exec(After(starting, unmanaged, acts), [RpcDelete] + a + [Orch] + b + [Orch]);
      t.strategy == None && t.steps == [] && t.pc == Idle
  {
    var s := After(starting, unmanaged, acts);
    StrategyLife(starting, unmanaged, acts, RpcDelete);
    hide Exec;
    var s1 := Do(s, RpcDelete);
    assert StateIs(s1, SwDeleting) && s1.pc.Idle?;
    StaysDeleting(s1, a);
    var s2 := Exec(s1, a);
    assert Do(s2, Orch) == s2.(pc := DeleteEntered);
    StaysDeleting(Do(s2, Orch), b);
    hide Do, StateIs;
    JustOne(s, RpcDelete);
    ExecConcat(s, [RpcDelete], a);
    ExecSnoc(s, [RpcDelete] + a, Orch);
    ExecConcat(s, [RpcDelete] + a + [Orch], b);
    ExecSnoc(s, [RpcDelete] + a + [Orch] + b, Orch);
    Removed(Exec(Do(s2, Orch), b));
  }

  lemma Removed(s: Sys)
    requires s.pc.DeleteEntered?
    ensures var t := Do(s, Orch); t.strategy == None && t.steps == [] && t.pc == Idle
  {
  }

  // ---------------------------------------------------------------- unfolding one access

  lemma OneMore(workers: map<string, StepState>, steps: seq<Step>, i: nat)
    requires i < |steps|
    ensures Regions(steps[..i + 1]) == Regions(steps[..i]) + {steps[i].region}
    ensures workers - Regions(steps[..i + 1]) == workers - Regions(steps[..i]) - {steps[i].region}
    ensures forall st :: AnyIn(steps[..i + 1], st) <==> AnyIn(steps[..i], st) || steps[i].state == st
  {
    forall st
      ensures AnyIn(steps[..i + 1], st) <==> AnyIn(steps[..i], st) || steps[i].state == st
    {
      if steps[i].state == st {
        assert steps[..i + 1][i].state == st;
      }
      if AnyIn(steps[..i], st) {
        var k :| 0 <= k < i && steps[k].state == st;
        assert steps[..i + 1][k].state == st;
      }
    }
  }

  lemma FrontIs(steps: seq<Step>, sof: bool, f: nat)
    requires f <= |steps|
    requires forall k :: 0 <= k < f ==> !Stops(steps[k], sof)
    requires f < |steps| ==> Stops(steps[f], sof)
    ensures Front(steps, sof, 0) == f
  {
  }

  lemma FirstAccess(s: Sys, others: seq<seq<Action>>)
    ensures Exec(s, Weave(others, 1)) == Do(Exec(s, Turn(others, 0)), Orch)
  {
    hide Do;
    WeaveNext(s, others, 0);
    assert Exec(s, Weave(others, 0)) == s;
  }

  lemma Scanned(m: Sys, stopOnFailure: bool)
    requires m.pc == ApplyEntered(stopOnFailure)
    ensures Do(m, Orch) == DoScan(m, stopOnFailure)
  {
  }

  lemma ScanIs(m: Sys, t: Sys, stopOnFailure: bool)
    requires t == m.(workers := t.workers, unmanagedRead := m.unmanaged, pc := t.pc)
    requires t.workers == m.workers - Regions(m.steps[..Dropped(m.steps, stopOnFailure)])
    requires t.pc == Decide(m.steps, stopOnFailure)
    ensures t == DoScan(m, stopOnFailure)
  {
  }

  lemma Verdicts(steps: seq<Step>, stopOnFailure: bool)
    ensures var f := Front(steps, stopOnFailure, 0); var pc := Decide(steps, stopOnFailure);
      if f == |steps| then
        pc == Deciding(if AnyIn(steps, Failed) then SwFailed else if AnyIn(steps, Aborted) then SwAborted else SwComplete, true)
      else if steps[f].state.Failed? && !WorkRemains(steps, steps[f].stage) then pc == Deciding(SwFailed, false)
      else pc == Staging(steps, steps[f].stage, 0)
  {
  }

  lemma VerdictWritten(m: Sys)
    requires m.pc.Deciding?
    ensures Do(m, Orch) == SetStrategy(m, m.pc.verdict).(workers := if m.pc.clear then map[] else m.workers, pc := Idle)
    ensures SetStrategy(m, m.pc.verdict) == m.(strategy := SetStrategy(m, m.pc.verdict).strategy)
  {
  }

  lemma TurnTaken(m: Sys)
    requires m.pc.Staging? && m.pc.at < |m.pc.snap|
    ensures Do(m, Orch) == (if m.pc.snap[m.pc.at].stage == m.pc.stage then DoStage(m, m.pc.snap[m.pc.at]) else m)
      .(pc := Staging(m.pc.snap, m.pc.stage, m.pc.at + 1))
    ensures Do(m, Orch).unmanagedRead == m.unmanagedRead
  {
  }

  lemma StageEnded(m: Sys)
    requires m.pc.Staging? && m.pc.at >= |m.pc.snap|
    ensures Do(m, Orch) == m.(pc := Idle)
  {
  }

  lemma AbortRead(m: Sys)
    requires m.pc.AbortEntered?
    ensures Do(m, Orch) == m.(pc := AbortMarking(m.steps, 0))
  {
  }

  lemma StepMarked(m: Sys)
    requires m.pc.AbortMarking? && m.pc.at < |m.pc.snap|
    ensures Do(m, Orch) ==
      m.(steps := if m.pc.snap[m.pc.at].state.Initial? then SetState(m.steps, m.pc.snap[m.pc.at].region, Aborted) else m.steps,
         pc := AbortMarking(m.pc.snap, m.pc.at + 1))
  {
  }

  lemma AbortWritten(m: Sys)
    requires m.pc.AbortMarking? && m.pc.at >= |m.pc.snap|
    ensures Do(m, Orch) == m.(strategy := SetStrategy(m, SwAborting).strategy, pc := Idle)
  {
  }

  lemma NoAccess(s: Sys, others: seq<seq<Action>>)
    ensures Exec(s, Weave(others, 0)) == s
  {
  }

  lemma IgnoredCreate(s: Sys, req: Request, fleet: seq<Subcloud>, groups: seq<Group>)
    ensures !WellFormedGroups(groups) ==> DoCreate(s, req, fleet, groups) == s
  {
  }
}
