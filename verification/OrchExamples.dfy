/** Two concrete runs that mark the limits of the theorems: what an interrupted tick can do to an
    aborted step, and how a stop-on-failure verdict can leave a later strategy hanging. */
module OrchExamples {
  import opened Cloud
  import opened StagePlan
  import opened OrchMachine
  import opened OrchInvariant
  import opened OrchTheorems
  import opened OrchProgress

  // ---------------------------------------------------------------- two subclouds in one stage

  const Row := Status(Patching, OutOfSync)
  const SubA := Subcloud("a", true, true, true, [Row])
  const SubB := Subcloud("b", true, true, true, [Row])
  const Pair := [Group(false, 2, [SubA, SubB])]
  const Req := Request(Patch, false, None, None, None, true, true)
  const Start := Create(Req, [], Pair)

  function Two(a: StepState, b: StepState): seq<Step> {
    [Step("a", 0, 1, a), Step("b", 0, 1, b)]
  }

  lemma TwoEligible()
    ensures EligibleOf(Req, [SubA, SubB]) == [SubA, SubB]
  {
    assert Row == SubA.statuses[0] && Row == SubB.statuses[0];
    assert ValidateStatusSync(Patch, Row, false, true);
    assert Eligible(Req, SubA) && Eligible(Req, SubB);
    var both := [SubA, SubB];
    assert both[..1] == [SubA];
    assert [SubA][..0] == [];
    assert EligibleOf(Req, [SubA]) == [SubA];
  }

  lemma TwoSteps()
    ensures StepsOf(Plan(Req, Pair)) == Two(Initial, Initial) && Caps(Req, Pair) == [2]
    ensures WellFormedGroups(Pair) && Validate(Req, [], Pair) == Valid
  {
    hide EligibleOf;
    TwoEligible();
    assert Pair[1..] == [];
    assert Roster(Pair) == [SubA, SubB];
    assert PlanFrom(Req, [], 1, NextBase(Req, Pair[0], 1, false), Updated(Req, Pair[0], false)) == [];
    assert Plan(Req, Pair) == PlanGroup(Req, Pair[0], 0, 1);
    assert Quot(1, 2) == 0 && Quot(0, 2) == 0;
    assert Place([SubA, SubB], 0, 1, 2) == [Placed("a", 0, 1), Placed("b", 0, 1)];
  }

  /** A system over the two steps; only what differs along the runs is a parameter. */
  function At(state: StrategyState, a: StepState, b: StepState, workers: map<string, StepState>, running: multiset<Worker>,
              pc: Pc): Sys {
    Sys(0, Some(Strategy(state, true)), Two(a, b), [2], workers, running, {}, {}, pc)
  }

  lemma Created(workers: map<string, StepState>)
    ensures Do(Sys(0, None, [], [], workers, multiset{}, {}, {}, Idle), Start)
      == At(SwInitial, Initial, Initial, workers, multiset{}, Idle)
  {
    hide Plan, Validate, WellFormedGroups;
    TwoSteps();
    assert Plan(Req, Pair) != [];
  }

  lemma SetTwo(a: StepState, b: StepState, c: StepState)
    ensures SetState(Two(a, b), "a", c) == Two(c, b) && SetState(Two(a, b), "b", c) == Two(a, c)
  {
  }

  const First := Working(0)
  const WorkerA := Worker("a", First)
  const WorkerB := Worker("b", First)

  /** From creation, the thread starts the first of the two steps. */
  lemma FirstStarted(workers: map<string, StepState>)
    requires "a" !in workers
    ensures var s := Sys(0, None, [], [], workers, multiset{}, {}, {}, Idle);
      Exec(s, [Start, RpcApply, Orch, Orch, Orch])
        == At(SwApplying, First, Initial, workers["a" := First], multiset{WorkerA}, Staging(Two(Initial, Initial), 1, 1))
  {
    hide Plan, Validate, WellFormedGroups, DoCreate, Front, SetState, Regions;
    var s := Sys(0, None, [], [], workers, multiset{}, {}, {}, Idle);
    Created(workers);
    var acts := [Start, RpcApply, Orch, Orch, Orch];
    Five(s, acts);
    var snap := Two(Initial, Initial);
    assert Front(snap, true, 0) == 0 by {
      FrontAt(snap, true);
    }
    NothingDropped(workers, snap);
    SetTwo(Initial, Initial, First);
    assert At(SwApplying, Initial, Initial, workers, multiset{}, Staging(snap, 1, 0))
      == DoOrch(At(SwApplying, Initial, Initial, workers, multiset{}, ApplyEntered(true)));
  }

  lemma FrontAt(steps: seq<Step>, sof: bool)
    requires steps != [] && Stops(steps[0], sof)
    ensures Front(steps, sof, 0) == 0
  {
  }

  lemma Five(s: Sys, acts: seq<Action>)
    requires |acts| == 5
    ensures Exec(s, acts) == Do(Do(Do(Do(Do(s, acts[0]), acts[1]), acts[2]), acts[3]), acts[4])
  {
    hide Do;
    var a := [acts[0]];
    assert a[..0] == [];
    assert Exec(s, a) == Do(s, acts[0]);
    ExecSnoc(s, a, acts[1]);
    ExecSnoc(s, a + [acts[1]], acts[2]);
    ExecSnoc(s, a + [acts[1]] + [acts[2]], acts[3]);
    ExecSnoc(s, a + [acts[1]] + [acts[2]] + [acts[3]], acts[4]);
    assert acts == a + [acts[1]] + [acts[2]] + [acts[3]] + [acts[4]];
  }

  // ---------------------------------------------------------------- a cut tick and an abort

  const CutRun := [Start, RpcApply, Orch, Orch, Orch] + [TickRaises, RpcAbort, Orch, Orch, Orch]
    + [Orch, Orch, Orch, Orch, Orch]

  const CutEnd := [Orch, Finish(Worker("b", Aborted), Raise)]

  /** A tick is cut short with only the first of two steps started, and an abort marks the other
      one aborted. The next tick hands the aborted step to a worker, which fails it for want of an
      operator: a finished step changed, in a stage that had been started in part. */
  lemma AbortedStepFails()
    ensures var s := Exec(Fresh(0, {}), CutRun); var t := Exec(Fresh(0, {}), CutRun + CutEnd);
      && s.strategy == Some(Strategy(SwAborting, true)) && s.steps == Two(First, Aborted)
      && t.strategy == s.strategy && t.steps == Two(First, Failed)
  {
    hide Do, Exec;
    CutRunIs();
    FinishAborted(Exec(Fresh(0, {}), CutRun));
    ExecConcat(Fresh(0, {}), CutRun, CutEnd);
  }

  lemma CutRunIs()
    ensures Exec(Fresh(0, {}), CutRun)
      == At(SwAborting, First, Aborted, map["a" := First], multiset{WorkerA}, Staging(Two(First, Aborted), 1, 1))
  {
    hide Do, Exec;
    var s0 := Fresh(0, {});
    var s1 := At(SwApplying, First, Initial, map["a" := First], multiset{WorkerA}, Staging(Two(Initial, Initial), 1, 1));
    FirstStarted(map[]);
    assert map[]["a" := First] == map["a" := First];
    var m1 := [Start, RpcApply, Orch, Orch, Orch];
    var m2 := [TickRaises, RpcAbort, Orch, Orch, Orch];
    MarkFirst(s1);
    ServeAborted(Exec(s1, m2));
    ExecConcat(s0, m1, m2);
    ExecConcat(s0, m1 + m2, [Orch, Orch, Orch, Orch, Orch]);
  }

  lemma MarkFirst(s: Sys)
    requires s == At(SwApplying, First, Initial, map["a" := First], multiset{WorkerA}, Staging(Two(Initial, Initial), 1, 1))
    ensures Exec(s, [TickRaises, RpcAbort, Orch, Orch, Orch])
      == At(SwAbortRequested, First, Initial, map["a" := First], multiset{WorkerA}, AbortMarking(Two(First, Initial), 1))
  {
    Five(s, [TickRaises, RpcAbort, Orch, Orch, Orch]);
  }

  lemma ServeAborted(s: Sys)
    requires s == At(SwAbortRequested, First, Initial, map["a" := First], multiset{WorkerA}, AbortMarking(Two(First, Initial), 1))
    ensures Exec(s, [Orch, Orch, Orch, Orch, Orch])
      == At(SwAborting, First, Aborted, map["a" := First], multiset{WorkerA}, Staging(Two(First, Aborted), 1, 1))
  {
    hide Do, Exec;
    Five(s, [Orch, Orch, Orch, Orch, Orch]);
    AbortEnds(s);
    AbortingTick(At(SwAborting, First, Aborted, map["a" := First], multiset{WorkerA}, Idle));
  }

  lemma AbortEnds(s: Sys)
    requires s == At(SwAbortRequested, First, Initial, map["a" := First], multiset{WorkerA}, AbortMarking(Two(First, Initial), 1))
    ensures Do(Do(s, Orch), Orch) == At(SwAborting, First, Aborted, map["a" := First], multiset{WorkerA}, Idle)
  {
    hide SetState;
    SetTwo(First, Initial, Aborted);
  }

  lemma AbortingTick(s: Sys)
    requires s == At(SwAborting, First, Aborted, map["a" := First], multiset{WorkerA}, Idle)
    ensures Do(Do(Do(s, Orch), Orch), Orch)
      == At(SwAborting, First, Aborted, map["a" := First], multiset{WorkerA}, Staging(Two(First, Aborted), 1, 1))
  {
    hide Front, SetState, Regions;
    var snap := Two(First, Aborted);
    FrontAt(snap, true);
    NothingDropped(map["a" := First], snap);
  }

  lemma NothingDropped(workers: map<string, StepState>, steps: seq<Step>)
    ensures workers - Regions(steps[..0]) == workers
  {
  }

  lemma FinishAborted(s: Sys)
    requires s == At(SwAborting, First, Aborted, map["a" := First], multiset{WorkerA}, Staging(Two(First, Aborted), 1, 1))
    ensures var t := Exec(s, CutEnd); t.strategy == s.strategy && t.steps == Two(First, Failed)
  {
    hide SetState, Do;
    var m := Do(s, Orch);
    TwoMore(s, Orch, CutEnd[1]);
    SetTwo(First, Aborted, Failed);
    ServeB(s);
    assert Worker("b", Aborted) in m.running;
    FinishB(m);
  }

  lemma ServeB(s: Sys)
    requires s == At(SwAborting, First, Aborted, map["a" := First], multiset{WorkerA}, Staging(Two(First, Aborted), 1, 1))
    ensures var m := Do(s, Orch); m.strategy == s.strategy && m.steps == s.steps && Worker("b", Aborted) in m.running
  {
  }

  lemma FinishB(m: Sys)
    requires Worker("b", Aborted) in m.running
    ensures var t := Do(m, Finish(Worker("b", Aborted), Raise));
      t.strategy == m.strategy && t.steps == SetState(m.steps, "b", Failed)
  {
    hide SetState;
  }

  lemma TwoMore(s: Sys, a: Action, b: Action)
    ensures Exec(s, [a, b]) == Do(Do(s, a), b)
  {
    hide Do;
    assert [a][..0] == [];
    assert Exec(s, [a]) == Do(s, a);
    ExecSnoc(s, [a], b);
    assert [a] + [b] == [a, b];
  }

  // ---------------------------------------------------------------- a stale worker entry

  const FirstLife := [Start, RpcApply, Orch, Orch, Orch] + [Orch, Orch, Finish(WorkerA, Raise), Finish(WorkerB, Skip), Orch]
    + [Orch, Orch, RpcDelete, Orch, Orch]

  const SecondLife := [Start, RpcApply, Orch, Orch, Orch] + [Orch]

  /** The first strategy, with stop-on-failure: the step of "a" fails in its first state and that of
      "b" is skipped there. The verdict is written without clearing the worker map, and the
      strategy is deleted. A second strategy for the same subclouds then starts the step of "b" over
      the left-over entry: it has no worker and stays in its first state. */
  lemma LeftoverEntryHangs()
    ensures Exec(Fresh(0, {}), FirstLife) == Sys(0, None, [], [], map["b" := First], multiset{}, {}, {}, Idle)
    ensures Hung(Exec(Fresh(0, {}), FirstLife + SecondLife), 1)
    ensures TickRaises !in FirstLife + SecondLife && Restart !in FirstLife + SecondLife
  {
    hide Do, Exec, Hung;
    var s0 := Fresh(0, {});
    var m1 := [Start, RpcApply, Orch, Orch, Orch];
    var m2 := [Orch, Orch, Finish(WorkerA, Raise), Finish(WorkerB, Skip), Orch];
    var m3 := [Orch, Orch, RpcDelete, Orch, Orch];
    FirstStarted(map[]);
    assert map[]["a" := First] == map["a" := First];
    var s1 := Exec(s0, m1);
    BothFinish(s1);
    VerdictAndDelete(Exec(s1, m2));
    ExecConcat(s0, m1, m2);
    ExecConcat(s0, m1 + m2, m3);
    var s3 := Exec(s0, FirstLife);
    FirstStarted(map["b" := First]);
    SecondHangs(Exec(s3, m1));
    ExecConcat(s3, m1, [Orch]);
    ExecConcat(s0, FirstLife, SecondLife);
  }

  const Both := map["a" := First, "b" := First]

  lemma BothFinish(s: Sys)
    requires s == At(SwApplying, First, Initial, map["a" := First], multiset{WorkerA}, Staging(Two(Initial, Initial), 1, 1))
    ensures Exec(s, [Orch, Orch, Finish(WorkerA, Raise), Finish(WorkerB, Skip), Orch])
      == At(SwApplying, Failed, Complete, Both, multiset{}, ApplyEntered(true))
  {
    hide Do;
    Five(s, [Orch, Orch, Finish(WorkerA, Raise), Finish(WorkerB, Skip), Orch]);
    SecondStarted(s);
    BothDone(Do(Do(s, Orch), Orch));
  }

  lemma SecondStarted(s: Sys)
    requires s == At(SwApplying, First, Initial, map["a" := First], multiset{WorkerA}, Staging(Two(Initial, Initial), 1, 1))
    ensures Do(Do(s, Orch), Orch) == At(SwApplying, First, First, Both, multiset{WorkerA, WorkerB}, Idle)
  {
    hide SetState;
    SetTwo(First, Initial, First);
    assert Do(s, Orch) == At(SwApplying, First, First, Both, multiset{WorkerA, WorkerB}, Staging(Two(Initial, Initial), 1, 2));
  }

  lemma BothDone(s: Sys)
    requires s == At(SwApplying, First, First, Both, multiset{WorkerA, WorkerB}, Idle)
    ensures Do(Do(Do(s, Finish(WorkerA, Raise)), Finish(WorkerB, Skip)), Orch)
      == At(SwApplying, Failed, Complete, Both, multiset{}, ApplyEntered(true))
  {
    hide SetState;
    SetTwo(First, First, Failed);
    SetTwo(Failed, First, Complete);
    assert Do(s, Finish(WorkerA, Raise)) == At(SwApplying, Failed, First, Both, multiset{WorkerB}, Idle);
  }

  lemma VerdictAndDelete(s: Sys)
    requires s == At(SwApplying, Failed, Complete, map["a" := First, "b" := First], multiset{}, ApplyEntered(true))
    ensures Exec(s, [Orch, Orch, RpcDelete, Orch, Orch]) == Sys(0, None, [], [], map["b" := First], multiset{}, {}, {}, Idle)
  {
    hide Do, Exec;
    Five(s, [Orch, Orch, RpcDelete, Orch, Orch]);
    FailureFound(s);
    Deleted(At(SwApplying, Failed, Complete, map["b" := First], multiset{}, Deciding(SwFailed, false)));
  }

  lemma FailureFound(s: Sys)
    requires s == At(SwApplying, Failed, Complete, map["a" := First, "b" := First], multiset{}, ApplyEntered(true))
    ensures Do(s, Orch) == At(SwApplying, Failed, Complete, map["b" := First], multiset{}, Deciding(SwFailed, false))
  {
    hide Front, Regions;
    var snap := Two(Failed, Complete);
    FrontAt(snap, true);
    OneMore(snap);
  }

  lemma Deleted(s: Sys)
    requires s == At(SwApplying, Failed, Complete, map["b" := First], multiset{}, Deciding(SwFailed, false))
    ensures Do(Do(Do(Do(s, Orch), RpcDelete), Orch), Orch) == Sys(0, None, [], [], map["b" := First], multiset{}, {}, {}, Idle)
  {
    hide Front, Regions, SetState;
  }

  lemma OneMore(snap: seq<Step>)
    requires |snap| >= 1 && snap[0].region == "a"
    ensures map["a" := First, "b" := First] - Regions(snap[..1]) == map["b" := First]
  {
    assert Regions(snap[..1]) == {"a"};
  }

  lemma SecondHangs(s: Sys)
    requires s == At(SwApplying, First, Initial, map["b" := First]["a" := First], multiset{WorkerA}, Staging(Two(Initial, Initial), 1, 1))
    ensures Hung(Exec(s, [Orch]), 1)
  {
    hide SetState;
    assert [Orch][..0] == [];
    assert Exec(s, []) == s;
    SetTwo(First, Initial, First);
  }
}
