/** When a new strategy can hang: exactly if the worker map holds an entry for the first state of one of its
    regions. */
module OrchHanging {
  import opened Cloud
  import opened StagePlan
  import opened OrchMachine
  import opened OrchInvariant
  import opened OrchTheorems
  import opened OrchStages
  import opened OrchProgress
  import F = OrchFairness
  import T = OrchThread

  // ---------------------------------------------------------------- on the way to step i

  /** The step can be started, or has its worker, or is complete. */
  predicate OnWay(step: Step, starting: nat, workers: map<string, StepState>, running: multiset<Worker>) {
    match step.state
    case Initial => !Blocked(workers, step.region, Working(starting))
    case Working(op) => op == starting && Worker(step.region, step.state) in running
    case Complete => true
    case _ => false
  }

  /** Step i has not begun and its entry blocks it; the steps before it are on their way. */
  predicate Ahead(s: Sys, i: nat) {
    && i < |s.steps| && StateIs(s, SwApplying) && NoStrays(s)
    && (forall j :: i <= j < |s.steps| ==> s.steps[j].state.Initial?)
    && (forall j :: 0 <= j < i ==> OnWay(s.steps[j], s.starting, s.workers, s.running))
    && Blocked(s.workers, s.steps[i].region, Working(s.starting))
    && forall j :: 0 <= j < |s.steps| ==> s.steps[j].region !in s.unmanaged
  }

  predicate Startable(step: Step, stage: nat) {
    step.stage == stage && step.state.Initial?
  }

  /** The thread has read the steps as they are, and will not pass step i without serving it. */
  predicate Reading(s: Sys, i: nat)
    requires i < |s.steps|
  {
    match s.pc
    case Idle => true
    case ApplyEntered(_) => s.running == multiset{}
    case Staging(snap, stage, at) =>
      && |snap| == |s.steps| && at <= |snap|
      && (forall j :: at <= j < |snap| ==> snap[j] == s.steps[j] && !snap[j].state.Working?)
      && (forall j :: 0 <= j < |s.steps| ==> s.steps[j].region !in s.unmanagedRead)
      && stage <= s.steps[i].stage && (i < at ==> stage < s.steps[i].stage)
      && (s.running != multiset{} || exists f :: at <= f <= i && Startable(snap[f], stage))
    case _ => false
  }

  predicate Heading(s: Sys, i: nat) {
    Base(s) && Ahead(s, i) && Reading(s, i)
  }

  function Todo(steps: seq<Step>): nat {
    if steps == [] then 0
    else (match steps[0].state case Initial => 2 case Working(_) => 1 case _ => 0) + Todo(steps[1..])
  }

  function Turns(s: Sys): nat {
    match s.pc
    case Idle => if s.running == multiset{} then |s.steps| + 3 else 0
    case ApplyEntered(_) => |s.steps| + 2
    case Staging(snap, _, at) => if at <= |snap| then |snap| - at + 1 else 0
    case _ => 0
  }

  lemma {:induction false} TodoFalls(a: seq<Step>, k: nat, state: StepState)
    requires k < |a|
    requires (a[k].state.Initial? && state.Working?) || (a[k].state.Working? && state.Complete?)
    ensures Todo(a[k := a[k].(state := state)]) < Todo(a)
  {
    var b := a[k := a[k].(state := state)];
    if k == 0 {
      assert b[1..] == a[1..];
    } else {
      assert b[1..] == a[1..][k - 1 := a[k].(state := state)];
      TodoFalls(a[1..], k - 1, state);
    }
  }

  // ---------------------------------------------------------------- one action further

  lemma Reports(s: Sys, i: nat, w: Worker)
    requires Heading(s, i) && s.pc.Idle? && w in s.running
    ensures var t := DoFinish(s, w, Done); Heading(t, i) && t.pc.Idle? && Todo(t.steps) < Todo(s.steps)
  {
    hide Base, Ahead, Todo, DoFinish;
    FinishPreserves(s, w, Done);
    OperatorsOnly(s, i);
    var k := ReportIs(s, w);
    TodoFalls(s.steps, k, Complete);
    AheadReports(s, DoFinish(s, w, Done), i, w, k);
  }

  lemma OperatorsOnly(s: Sys, i: nat)
    requires Ahead(s, i)
    ensures NoStrays(s)
  {
  }

  lemma ReportIs(s: Sys, w: Worker) returns (k: nat)
    requires Base(s) && w in s.running && NoStrays(s)
    ensures k < |s.steps| && s.steps[k].state.Working? && s.steps[k].region == w.region
    ensures DoFinish(s, w, Done) == s.(steps := s.steps[k := s.steps[k].(state := Complete)], running := s.running - multiset{w})
    ensures forall j :: 0 <= j < |s.steps| && j != k ==> s.steps[j].region != w.region
  {
    hide Frontier, AfterFailure, PhaseOk, PcOk, LifeOk, StraysOk, SetState;
    k := FindStep(s.steps, w);
    OneStepChanges(s.steps, s.caps, k, Complete);
    OneRegion(s.steps, s.caps, k);
  }

  lemma AheadReports(s: Sys, t: Sys, i: nat, w: Worker, k: nat)
    requires Ahead(s, i) && k < |s.steps| && s.steps[k].state.Working? && s.steps[k].region == w.region
    requires t == s.(steps := s.steps[k := s.steps[k].(state := Complete)], running := s.running - multiset{w})
    requires forall j :: 0 <= j < |s.steps| && j != k ==> s.steps[j].region != w.region
    ensures Ahead(t, i)
  {
    forall j | 0 <= j < i
      ensures OnWay(t.steps[j], t.starting, t.workers, t.running)
    {
      assert OnWay(s.steps[j], s.starting, s.workers, s.running);
    }
  }

  /** Only the place of the thread changes. */
  lemma AheadPc(s: Sys, t: Sys, i: nat)
    requires Ahead(s, i) && t == s.(pc := t.pc)
    ensures Ahead(t, i)
  {
  }

  lemma Wakes(s: Sys, i: nat)
    requires Heading(s, i) && s.pc.Idle? && s.running == multiset{}
    ensures var t := DoOrch(s); Heading(t, i) && t.pc.ApplyEntered? && t.steps == s.steps
  {
    hide Base, DoOrch;
    OrchPreserves(s);
    WakeIs(s);
    AheadPc(s, DoOrch(s), i);
    hide Ahead;
  }

  lemma WakeIs(s: Sys)
    requires s.pc.Idle? && StateIs(s, SwApplying)
    ensures DoOrch(s) == s.(pc := ApplyEntered(s.strategy.value.stopOnFailure))
  {
  }

  lemma Scans(s: Sys, i: nat)
    requires Heading(s, i) && s.pc.ApplyEntered?
    ensures var t := DoOrch(s); Heading(t, i) && t.pc.Staging? && t.pc.at == 0 && t.steps == s.steps
  {
    hide Base, DoOrch;
    OrchPreserves(s);
    NoneWorking(s, i);
    ShapeOfBase(s);
    var f := ScanIs(s, i);
    var t := DoOrch(s);
    assert Startable(s.steps[f], s.steps[f].stage);
    AheadFewer(s, t, i);
    hide Ahead;
  }

  lemma ShapeOfBase(s: Sys)
    requires Base(s)
    ensures ShapeOk(s.steps, s.caps)
  {
  }

  lemma NoneWorking(s: Sys, i: nat)
    requires Ahead(s, i) && s.running == multiset{}
    ensures forall j :: 0 <= j < |s.steps| ==> s.steps[j].state.Initial? || s.steps[j].state.Complete?
    ensures forall j :: 0 <= j < |s.steps| ==> s.steps[j].region !in s.unmanaged
  {
    forall j | 0 <= j < |s.steps|
      ensures s.steps[j].state.Initial? || s.steps[j].state.Complete?
    {
      if j < i {
        assert OnWay(s.steps[j], s.starting, s.workers, s.running);
      }
    }
  }

  lemma ScanIs(s: Sys, i: nat) returns (f: nat)
    requires ShapeOk(s.steps, s.caps) && s.pc.ApplyEntered? && i < |s.steps| && s.steps[i].state.Initial?
    requires forall j :: 0 <= j < |s.steps| ==> s.steps[j].state.Initial? || s.steps[j].state.Complete?
    ensures f <= i && s.steps[f].state.Initial? && s.steps[f].stage <= s.steps[i].stage
    ensures var t := DoOrch(s);
      && t == s.(workers := t.workers, unmanagedRead := s.unmanaged, pc := Staging(s.steps, s.steps[f].stage, 0))
      && (forall r, st :: Blocked(t.workers, r, st) ==> Blocked(s.workers, r, st))
      && (forall st :: Blocked(s.workers, s.steps[i].region, st) ==> Blocked(t.workers, s.steps[i].region, st))
  {
    hide Regions, Front;
    var sof := s.pc.stopOnFailure;
    f := Front(s.steps, sof, 0);
    assert Stops(s.steps[i], sof);
    assert Dropped(s.steps, sof) == f;
    DroppedKeeps(s.steps, s.caps, f, i);
    assert DoOrch(s).workers == s.workers - Regions(s.steps[..f]);
  }

  /** Some entries are dropped, but not that of step i. */
  lemma AheadFewer(s: Sys, t: Sys, i: nat)
    requires Ahead(s, i) && t == s.(workers := t.workers, unmanagedRead := t.unmanagedRead, pc := t.pc)
    requires forall r, st :: Blocked(t.workers, r, st) ==> Blocked(s.workers, r, st)
    requires forall st :: Blocked(s.workers, s.steps[i].region, st) ==> Blocked(t.workers, s.steps[i].region, st)
    ensures Ahead(t, i)
  {
    hide Blocked;
    forall j | 0 <= j < i
      ensures OnWay(t.steps[j], t.starting, t.workers, t.running)
    {
      assert OnWay(s.steps[j], s.starting, s.workers, s.running);
    }
  }

  lemma Passes(s: Sys, i: nat)
    requires Heading(s, i) && s.pc.Staging? && s.pc.at < |s.pc.snap| && s.pc.snap[s.pc.at].stage != s.pc.stage
    ensures var t := DoOrch(s); Heading(t, i) && t.pc == Staging(s.pc.snap, s.pc.stage, s.pc.at + 1) && t.steps == s.steps
  {
    hide Base, DoOrch;
    OrchPreserves(s);
    PassIs(s);
    AheadPc(s, DoOrch(s), i);
    hide Ahead;
    LaterStartable(s, i);
  }

  lemma PassIs(s: Sys)
    requires s.pc.Staging? && s.pc.at < |s.pc.snap| && s.pc.snap[s.pc.at].stage != s.pc.stage
    ensures DoOrch(s) == s.(pc := Staging(s.pc.snap, s.pc.stage, s.pc.at + 1))
  {
  }

  /** The step to be started is not the one of this turn. */
  lemma LaterStartable(s: Sys, i: nat)
    requires i < |s.steps| && Reading(s, i) && s.pc.Staging? && s.pc.at < |s.pc.snap| && !Startable(s.pc.snap[s.pc.at], s.pc.stage)
    ensures s.running != multiset{} || exists f :: s.pc.at + 1 <= f <= i && Startable(s.pc.snap[f], s.pc.stage)
  {
    if s.running == multiset{} {
      var f :| s.pc.at <= f <= i && Startable(s.pc.snap[f], s.pc.stage);
      assert s.pc.at + 1 <= f;
    }
  }

  lemma Returns(s: Sys, i: nat)
    requires Heading(s, i) && s.pc.Staging? && s.pc.at >= |s.pc.snap|
    ensures var t := DoOrch(s); Heading(t, i) && t.pc.Idle? && t.running != multiset{} && t.steps == s.steps
  {
    hide Base, DoOrch;
    OrchPreserves(s);
    ReturnIs(s);
    AheadPc(s, DoOrch(s), i);
  }

  lemma ReturnIs(s: Sys)
    requires s.pc.Staging? && s.pc.at >= |s.pc.snap|
    ensures DoOrch(s) == s.(pc := Idle)
  {
  }

  lemma Skips(s: Sys, i: nat)
    requires Heading(s, i) && s.pc.Staging? && s.pc.at < i && s.pc.snap[s.pc.at].stage == s.pc.stage && s.pc.snap[s.pc.at].state.Complete?
    ensures var t := DoOrch(s); Heading(t, i) && t.pc == Staging(s.pc.snap, s.pc.stage, s.pc.at + 1) && t.steps == s.steps
  {
    hide Base, DoOrch;
    OrchPreserves(s);
    SkipIs(s);
    ShapeOfBase(s);
    Regional(s.steps, s.caps, s.pc.at);
    AheadFewer(s, DoOrch(s), i);
    hide Ahead;
    LaterStartable(s, i);
  }

  lemma SkipIs(s: Sys)
    requires s.pc.Staging? && s.pc.at < |s.pc.snap| && s.pc.snap[s.pc.at].stage == s.pc.stage && s.pc.snap[s.pc.at].state.Complete?
    ensures DoOrch(s) == s.(workers := s.workers - {s.pc.snap[s.pc.at].region}, pc := Staging(s.pc.snap, s.pc.stage, s.pc.at + 1))
  {
  }

  lemma Starts(s: Sys, i: nat)
    requires Heading(s, i) && s.pc.Staging? && s.pc.at < i && s.pc.snap[s.pc.at].stage == s.pc.stage && s.pc.snap[s.pc.at].state.Initial?
    ensures var t := DoOrch(s);
      && Heading(t, i) && t.pc == Staging(s.pc.snap, s.pc.stage, s.pc.at + 1)
      && Todo(t.steps) < Todo(s.steps)
  {
    hide Base, DoOrch, Todo;
    OrchPreserves(s);
    var k, first := s.pc.at, Working(s.starting);
    LeaveInitial(s, first);
    ShapeOfBase(s);
    Regional(s.steps, s.caps, k);
    assert OnWay(s.steps[k], s.starting, s.workers, s.running);
    StartIs(s);
    TodoFalls(s.steps, k, first);
    AheadStarts(s, DoOrch(s), i, k);
    hide Ahead;
    assert Worker(s.steps[k].region, first) in DoOrch(s).running;
  }

  lemma StartIs(s: Sys)
    requires s.pc.Staging? && s.pc.at < |s.pc.snap| && s.pc.at < |s.steps| && s.pc.snap[s.pc.at] == s.steps[s.pc.at]
    requires s.pc.snap[s.pc.at].stage == s.pc.stage && s.pc.snap[s.pc.at].state.Initial? && s.pc.snap[s.pc.at].region !in s.unmanagedRead
    requires var first := Working(s.starting);
      && !Blocked(s.workers, s.steps[s.pc.at].region, first)
      && SetState(s.steps, s.steps[s.pc.at].region, first) == s.steps[s.pc.at := s.steps[s.pc.at].(state := first)]
    ensures var k := s.pc.at; var first := Working(s.starting);
      DoOrch(s) == s.(steps := s.steps[k := s.steps[k].(state := first)], workers := s.workers[s.steps[k].region := first],
                      running := s.running + multiset{Worker(s.steps[k].region, first)}, pc := Staging(s.pc.snap, s.pc.stage, k + 1))
  {
    hide SetState;
  }

  lemma AheadStarts(s: Sys, t: Sys, i: nat, k: nat)
    requires Ahead(s, i) && k < i && s.steps[k].state.Initial?
    requires forall j :: 0 <= j < |s.steps| && j != k ==> s.steps[j].region != s.steps[k].region
    requires var first := Working(s.starting);
      t == s.(steps := s.steps[k := s.steps[k].(state := first)], workers := s.workers[s.steps[k].region := first],
              running := s.running + multiset{Worker(s.steps[k].region, first)}, pc := t.pc)
    ensures Ahead(t, i)
  {
    forall j | 0 <= j < i
      ensures OnWay(t.steps[j], t.starting, t.workers, t.running)
    {
      assert OnWay(s.steps[j], s.starting, s.workers, s.running);
    }
  }

  /** The thread serves step i, and the strategy hangs. */
  lemma Hangs(s: Sys, i: nat)
    requires Heading(s, i) && s.pc.Staging? && s.pc.at == i && s.pc.snap[i].stage == s.pc.stage
    ensures Hung(DoOrch(s), i)
  {
    StaleStartHangs(s);
  }

  /** The stage of a later step is later. */
  lemma NotBehind(s: Sys, i: nat)
    requires Heading(s, i) && s.pc.Staging? && s.pc.at < |s.pc.snap| && s.pc.snap[s.pc.at].stage == s.pc.stage
    ensures s.pc.at <= i
  {
    hide Frontier, AfterFailure, PhaseOk, PcOk, LifeOk, StraysOk, WorkersOk;
  }

  lemma {:induction false} Drive(s: Sys, i: nat) returns (acts: seq<Action>)
    requires Heading(s, i)
    ensures Obedient(acts) && SameStrategy(s, acts) && Hung(Exec(s, acts), i)
    decreases Todo(s.steps), Turns(s)
  {
    hide Base, Ahead, DoOrch, DoFinish, Hung, Exec, SameStrategy, Do, Todo;
    var a := Orch;
    var rest := [];
    OrchIs(s);
    IsApplying(s, i);
    if s.pc.Idle? && s.running != multiset{} {
      var w :| w in s.running;
      a := Finish(w, Done);
      FinishIs(s, w);
      Reports(s, i, w);
      rest := Drive(DoFinish(s, w, Done), i);
    } else if s.pc.Idle? {
      Wakes(s, i);
      rest := Drive(DoOrch(s), i);
    } else if s.pc.ApplyEntered? {
      Scans(s, i);
      rest := Drive(DoOrch(s), i);
    } else if s.pc.at >= |s.pc.snap| {
      Returns(s, i);
      rest := Drive(DoOrch(s), i);
    } else if s.pc.snap[s.pc.at].stage != s.pc.stage {
      Passes(s, i);
      rest := Drive(DoOrch(s), i);
    } else if s.pc.at == i {
      Hangs(s, i);
      HungStrategy(s, i);
      NoActions(DoOrch(s));
    } else {
      NotBehind(s, i);
      rest := DriveTurn(s, i);
    }
    StartWith(s, a, rest);
    acts := [a] + rest;
  }

  lemma DriveTurn(s: Sys, i: nat) returns (rest: seq<Action>)
    requires Heading(s, i) && s.pc.Staging? && s.pc.at < i && s.pc.snap[s.pc.at].stage == s.pc.stage
    ensures Obedient(rest) && SameStrategy(DoOrch(s), rest) && Hung(Exec(DoOrch(s), rest), i)
    decreases Todo(s.steps), Turns(s), 0
  {
    hide Base, DoOrch, Hung, Exec, SameStrategy, Todo;
    assert OnWay(s.steps[s.pc.at], s.starting, s.workers, s.running);
    if s.pc.snap[s.pc.at].state.Complete? {
      Skips(s, i);
    } else {
      Starts(s, i);
    }
    rest := Drive(DoOrch(s), i);
  }

  lemma IsApplying(s: Sys, i: nat)
    requires Heading(s, i)
    ensures s.strategy.Some?
  {
  }

  lemma FinishIs(s: Sys, w: Worker)
    ensures Do(s, Finish(w, Done)) == DoFinish(s, w, Done)
  {
  }

  lemma HungStrategy(s: Sys, i: nat)
    requires Heading(s, i) && s.pc.Staging? && s.pc.at < |s.pc.snap|
    ensures DoOrch(s).strategy.Some?
  {
    StageKeepsLife(s, s.pc.snap[s.pc.at]);
    hide DoStage;
  }

  /** The thread goes on, workers report completion, requests are made. */
  ghost predicate Obedient(acts: seq<Action>) {
    forall k :: 0 <= k < |acts| ==> acts[k].Orch? || acts[k].RpcApply? || acts[k].SetManaged? || (acts[k].Finish? && acts[k].outcome.Done?)
  }

  // ---------------------------------------------------------------- from the creation

  lemma Created(s: Sys, a: Action)
    requires a.Create? && s.strategy.None? && Do(s, a).strategy.Some?
    ensures var t := Do(s, a);
      && t.workers == s.workers && t.running == s.running && t.pc == s.pc && t.starting == s.starting
      && (forall i :: 0 <= i < |t.steps| ==> t.steps[i].state.Initial?)
      && (t.steps != [] ==> StateIs(t, SwInitial))
  {
    hide Plan, Validate, WellFormedGroups, Caps;
  }

  lemma {:induction false} FirstBlocked(s: Sys, i: nat) returns (k: nat)
    requires i < |s.steps| && Blocked(s.workers, s.steps[i].region, Working(s.starting))
    ensures k <= i && Blocked(s.workers, s.steps[k].region, Working(s.starting))
    ensures forall j :: 0 <= j < k ==> !Blocked(s.workers, s.steps[j].region, Working(s.starting))
    decreases i
  {
    k := i;
    if j: nat :| j < i && Blocked(s.workers, s.steps[j].region, Working(s.starting)) {
      k := FirstBlocked(s, j);
    }
  }

  /** The first n subclouds of the strategy are managed again. */
  lemma {:induction false} AllManaged(s: Sys, n: nat) returns (acts: seq<Action>)
    requires n <= |s.steps| && s.strategy.Some? && Base(s)
    ensures Obedient(acts) && SameStrategy(s, acts)
    ensures Base(Exec(s, acts)) && Exec(s, acts) == s.(unmanaged := s.unmanaged - Regions(s.steps[..n]))
    decreases n
  {
    hide Base, Exec, Do, SameStrategy;
    acts := [];
    NoActions(s);
    if n == 0 {
      assert s.unmanaged - Regions(s.steps[..0]) == s.unmanaged;
    } else {
      var before := AllManaged(s, n - 1);
      var a := SetManaged(s.steps[n - 1].region, true);
      acts := before + [a];
      OneManaged(s, n);
      RequestPreserves(Exec(s, before), a);
      JustOne(Exec(s, before), a);
      NoActions(Do(Exec(s, before), a));
      StartWith(Exec(s, before), a, []);
      assert [a] + [] == [a];
      Join(s, before, [a]);
    }
  }

  lemma OneManaged(s: Sys, n: nat)
    requires 0 < n <= |s.steps|
    ensures Do(s.(unmanaged := s.unmanaged - Regions(s.steps[..n - 1])), SetManaged(s.steps[n - 1].region, true))
      == s.(unmanaged := s.unmanaged - Regions(s.steps[..n]))
  {
    var a, b := s.steps[..n], s.steps[..n - 1];
    assert forall i :: 0 <= i < |b| ==> a[i] == b[i];
    assert a[n - 1] == s.steps[n - 1];
    assert Regions(a) == Regions(b) + {s.steps[n - 1].region};
  }

  lemma Join(s: Sys, a: seq<Action>, b: seq<Action>)
    requires SameStrategy(s, a) && SameStrategy(Exec(s, a), b) && Obedient(a) && Obedient(b)
    ensures SameStrategy(s, a + b) && Obedient(a + b) && Exec(s, a + b) == Exec(Exec(s, a), b)
  {
    hide SameStrategy, Exec, AllGentle;
    Concat(s, a, b);
  }

  lemma Applied(s: Sys)
    requires Base(s) && StateIs(s, SwInitial)
    ensures Do(s, RpcApply) == SetStrategy(s, SwApplying) && Base(Do(s, RpcApply))
  {
    RequestPreserves(s, RpcApply);
  }

  /** The strategy is created and applied, with all its subclouds managed. */
  lemma GoesToHang(s: Sys, i: nat) returns (acts: seq<Action>)
    requires Base(s) && StateIs(s, SwInitial) && s.pc.Idle? && NoStrays(s)
    requires i < |s.steps| && Blocked(s.workers, s.steps[i].region, Working(s.starting))
    requires forall j :: 0 <= j < |s.steps| ==> s.steps[j].state.Initial?
    ensures Obedient(acts) && SameStrategy(s, acts) && exists k :: Hung(Exec(s, acts), k)
  {
    hide Base, Exec, SameStrategy, Hung, Do, Obedient;
    var k := FirstBlocked(s, i);
    hide Blocked;
    var first := AllManaged(s, |s.steps|);
    var second := FromManaged(s, Exec(s, first), k);
    hide StateIs, NoStrays;
    Join(s, first, second);
    acts := first + second;
    assert Hung(Exec(s, acts), k);
  }

  lemma FromManaged(s: Sys, t: Sys, k: nat) returns (acts: seq<Action>)
    requires StateIs(s, SwInitial) && s.pc.Idle? && NoStrays(s)
    requires forall j :: 0 <= j < |s.steps| ==> s.steps[j].state.Initial?
    requires k < |s.steps| && Blocked(s.workers, s.steps[k].region, Working(s.starting))
    requires forall j :: 0 <= j < k ==> !Blocked(s.workers, s.steps[j].region, Working(s.starting))
    requires Base(t) && t == s.(unmanaged := s.unmanaged - Regions(s.steps[..|s.steps|]))
    ensures Obedient(acts) && SameStrategy(t, acts) && Hung(Exec(t, acts), k)
  {
    hide Base, Exec, SameStrategy, Hung, Do, Blocked, NoStrays, Heading, SetStrategy, Regions;
    Applied(t);
    var u := Do(t, RpcApply);
    BeginsAhead(s, t, u, k);
    var rest := Drive(u, k);
    StartWith(t, RpcApply, rest);
    acts := [RpcApply] + rest;
  }

  lemma BeginsAhead(s: Sys, t: Sys, u: Sys, k: nat)
    requires StateIs(s, SwInitial) && s.pc.Idle? && NoStrays(s)
    requires forall j :: 0 <= j < |s.steps| ==> s.steps[j].state.Initial?
    requires k < |s.steps| && Blocked(s.workers, s.steps[k].region, Working(s.starting))
    requires forall j :: 0 <= j < k ==> !Blocked(s.workers, s.steps[j].region, Working(s.starting))
    requires t == s.(unmanaged := s.unmanaged - Regions(s.steps[..|s.steps|])) && u == SetStrategy(t, SwApplying) && Base(u)
    ensures Heading(u, k)
  {
    hide Base, Blocked;
    assert s.steps[..|s.steps|] == s.steps;
    assert forall j :: 0 <= j < |s.steps| ==> s.steps[j].region in Regions(s.steps);
  }

  lemma {:induction false} LivelyForever(s: Sys, acts: seq<Action>, rank: nat -> nat)
    requires Base(s) && Lively(s) && SameStrategy(s, acts) && F.AllPermitted(acts, rank)
    ensures Base(Exec(s, acts)) && Lively(Exec(s, acts))
    decreases |acts|
  {
    hide Base, Lively, Do;
    if acts != [] {
      var before, a := acts[..|acts| - 1], acts[|acts| - 1];
      assert forall k :: 0 <= k <= |before| ==> before[..k] == acts[..k];
      assert forall k :: 0 <= k < |before| ==> before[k] == acts[k];
      LivelyForever(s, before, rank);
      assert acts[..|before|] == before;
      NotOverAnother(Exec(s, before), a);
      StepPreserves(Exec(s, before), a);
      OrchProgress.EmptyIsClean(Exec(s, before), a);
      assert F.Permitted(acts[|acts| - 1], rank);
      LivelyKept(Exec(s, before), a, rank);
    }
  }

  lemma LivelyIsNotHung(s: Sys, i: nat)
    requires Lively(s)
    ensures !Hung(s, i)
  {
  }

  lemma NewIsLively(s: Sys, a: Action)
    requires a.Create? && s.strategy.None? && Do(s, a).strategy.Some? && EntriesWorking(s)
    requires var t := Do(s, a); forall i :: 0 <= i < |t.steps| ==> !Blocked(t.workers, t.steps[i].region, Working(t.starting))
    ensures Lively(Do(s, a))
  {
    Created(s, a);
    hide Do;
  }

  /** A strategy that is created while no left-over worker is under way and no left-over entry stands for an aborted step
      can hang before its verdict, with operators that descend and no restart, exactly if one of its regions has an
      entry for the first state. */
  lemma CreationHangsExactly(s: Sys, a: Action, rank: nat -> nat)
    requires Base(s) && s.strategy.None? && NoStrays(s) && EntriesWorking(s)
    requires a.Create? && Do(s, a).strategy.Some?
    ensures var t := Do(s, a);
      (exists acts :: F.AllPermitted(acts, rank) && SameStrategy(t, acts) && exists i :: Hung(Exec(t, acts), i))
        <==> exists i :: 0 <= i < |t.steps| && Blocked(t.workers, t.steps[i].region, Working(t.starting))
  {
    var t := Do(s, a);
    Created(s, a);
    NoStraysCreate(s, a);
    StepPreserves(s, a);
    IdleAtFirst(s);
    hide Do, Base, Exec, SameStrategy, Hung, Blocked, F.AllPermitted;
    if i :| 0 <= i < |t.steps| && Blocked(t.workers, t.steps[i].region, Working(t.starting)) {
      var acts := GoesToHang(t, i);
      ObedientIsPermitted(acts, rank);
    } else {
      NewIsLively(s, a);
      forall acts | F.AllPermitted(acts, rank) && SameStrategy(t, acts)
        ensures !exists i :: Hung(Exec(t, acts), i)
      {
        hide Lively;
        LivelyForever(t, acts, rank);
        forall i: nat
          ensures !Hung(Exec(t, acts), i)
        {
          LivelyIsNotHung(Exec(t, acts), i);
        }
      }
    }
  }

  lemma IdleAtFirst(s: Sys)
    requires Base(s) && s.strategy.None?
    ensures s.pc.Idle?
  {
  }

  lemma ObedientIsPermitted(acts: seq<Action>, rank: nat -> nat)
    requires Obedient(acts)
    ensures F.AllPermitted(acts, rank)
  {
  }

  // ---------------------------------------------------------------- a strategy from its creation to its removal

  /** A strategy that is created and applied in a healthy run gets its verdict in every fair continuation, and a delete
      request then leaves the room for the next one. */
  lemma StrategyComesAndGoes(starting: nat, unmanaged: set<string>, acts: seq<Action>, a: Action, rounds: seq<seq<Action>>, rank: nat -> nat)
    requires a.Create? && After(starting, unmanaged, acts).strategy == None && StateIs(Do(After(starting, unmanaged, acts), a), SwInitial)
    requires CleanCreates(OrchMachine.Fresh(starting, unmanaged), acts + [a] + [RpcApply])
    requires Healthy(OrchMachine.Fresh(starting, unmanaged), acts + [a] + [RpcApply], rank)
    requires var s := After(starting, unmanaged, acts + [a] + [RpcApply]); F.Fair(s, rounds) && |rounds| > Measure(s, rank)
    requires F.AllPermitted(F.Flat(rounds), rank)
    ensures var s := After(starting, unmanaged, acts + [a] + [RpcApply]);
      && StateIs(s, SwApplying)
      && exists n: nat :: n <= |F.Flat(rounds)| && EndsAt(s, F.Flat(rounds)[..n])
  {
    var before := acts + [a] + [RpcApply];
    var s := After(starting, unmanaged, before);
    IsApplied(starting, unmanaged, acts, a);
    hide Exec, Do, CleanCreates, Healthy, F.Fair, Measure, F.AllPermitted, F.Flat, EndsAt;
    F.EveryStrategyEnds(starting, unmanaged, before, rounds, rank);
    var n: nat :| n <= |F.Flat(rounds)| && F.HasVerdict(Exec(s, F.Flat(rounds)[..n]));
    EndsWith(starting, unmanaged, before, F.Flat(rounds)[..n]);
  }

  lemma EndsWith(starting: nat, unmanaged: set<string>, before: seq<Action>, rest: seq<Action>)
    requires F.HasVerdict(Exec(After(starting, unmanaged, before), rest))
    ensures EndsAt(After(starting, unmanaged, before), rest)
  {
    hide Exec;
    ExecConcat(OrchMachine.Fresh(starting, unmanaged), before, rest);
    T.DeleteRemoves(starting, unmanaged, before + rest, [], []);
    assert [RpcDelete] + [] + [Orch] + [] + [Orch] == [RpcDelete, Orch, Orch];
  }

  /** The strategy has its verdict, and is removed on request. */
  predicate EndsAt(s: Sys, acts: seq<Action>) {
    var t := Exec(s, acts);
    && t.strategy.Some? && t.strategy.value.state in {SwComplete, SwFailed, SwAborted}
    && Exec(t, [RpcDelete, Orch, Orch]).strategy == None && Exec(t, [RpcDelete, Orch, Orch]).steps == []
  }

  lemma IsApplied(starting: nat, unmanaged: set<string>, acts: seq<Action>, a: Action)
    requires StateIs(Do(After(starting, unmanaged, acts), a), SwInitial)
    ensures StateIs(After(starting, unmanaged, acts + [a] + [RpcApply]), SwApplying)
  {
    ExecSnoc(OrchMachine.Fresh(starting, unmanaged), acts, a);
    ExecSnoc(OrchMachine.Fresh(starting, unmanaged), acts + [a], RpcApply);
    hide Exec, DoCreate;
  }
}
