/** What a worker that was started for an aborted step can do. A concrete run in which its result makes the verdict
    "aborted" wrong; and, from any state in which it has outlived its strategy, a run in which two stages of a
    later strategy are in progress at once. */
module OrchStray {
  import opened Cloud
  import opened StagePlan
  import opened OrchMachine
  import opened OrchInvariant
  import opened OrchTheorems
  import opened OrchStages
  import opened OrchExamples

  const Stray := Worker("b", Aborted)

  // ---------------------------------------------------------------- the first strategy ends

  const EndOfFirst := [Orch, Orch, Finish(WorkerA, Done), Orch, Orch] + [Orch, RpcDelete, Orch, Orch]

  /** Nothing is left of the first strategy but the worker. */
  function Gone(): Sys {
    Sys(0, None, [], [], map[], multiset{Stray}, {}, {}, Idle)
  }

  lemma FirstIsAborted(s: Sys)
    requires s == At(SwAborting, First, Aborted, map["a" := First], multiset{WorkerA}, Staging(Two(First, Aborted), 1, 1))
    ensures Exec(s, [Orch, Orch, Finish(WorkerA, Done), Orch, Orch])
      == At(SwAborting, Complete, Aborted, map[], multiset{Stray}, Deciding(SwAborted, true))
  {
    hide Do, Front, SetState, Regions, Exec;
    Five(s, [Orch, Orch, Finish(WorkerA, Done), Orch, Orch]);
    StrayStarts(s);
    BothFinal(At(SwAborting, First, Aborted, map["a" := First, "b" := Aborted], multiset{WorkerA, Stray}, Idle));
  }

  lemma StrayStarts(s: Sys)
    requires s == At(SwAborting, First, Aborted, map["a" := First], multiset{WorkerA}, Staging(Two(First, Aborted), 1, 1))
    ensures Do(Do(s, Orch), Orch)
      == At(SwAborting, First, Aborted, map["a" := First, "b" := Aborted], multiset{WorkerA, Stray}, Idle)
  {
    hide SetState;
    assert Do(s, Orch) == At(SwAborting, First, Aborted, map["a" := First, "b" := Aborted], multiset{WorkerA, Stray},
                             Staging(Two(First, Aborted), 1, 2));
  }

  lemma BothFinal(s: Sys)
    requires s == At(SwAborting, First, Aborted, map["a" := First, "b" := Aborted], multiset{WorkerA, Stray}, Idle)
    ensures Do(Do(Do(s, Finish(WorkerA, Done)), Orch), Orch)
      == At(SwAborting, Complete, Aborted, map[], multiset{Stray}, Deciding(SwAborted, true))
  {
    hide SetState, Front, Regions;
    SetTwo(First, Aborted, Complete);
    var done := At(SwAborting, Complete, Aborted, map["a" := First, "b" := Aborted], multiset{Stray}, Idle);
    assert Do(s, Finish(WorkerA, Done)) == done;
    hide Decide, Dropped;
    AllDone(map["a" := First, "b" := Aborted]);
    assert Do(done, Orch) == done.(pc := ApplyEntered(true));
  }

  lemma AllDone(workers: map<string, StepState>)
    requires workers.Keys == {"a", "b"}
    ensures var done := Two(Complete, Aborted);
      Decide(done, true) == Deciding(SwAborted, true) && workers - Regions(done[..Dropped(done, true)]) == map[]
  {
    var done := Two(Complete, Aborted);
    assert Front(done, true, 0) == 2;
    assert done[1].state == Aborted;
    assert done[..2] == done;
    assert done[0].region in Regions(done) && done[1].region in Regions(done);
  }

  lemma FirstIsGone(s: Sys)
    requires s == At(SwAborting, Complete, Aborted, map[], multiset{Stray}, Deciding(SwAborted, true))
    ensures Exec(s, [Orch, RpcDelete, Orch, Orch]) == Gone()
  {
    hide Front, Regions, SetState;
    var acts := [Orch, RpcDelete] + [Orch, Orch];
    assert acts == [Orch, RpcDelete, Orch, Orch];
    ExecConcat(s, [Orch, RpcDelete], [Orch, Orch]);
    TwoMore(s, Orch, RpcDelete);
    TwoMore(Do(Do(s, Orch), RpcDelete), Orch, Orch);
  }

  // ---------------------------------------------------------------- a wrong verdict

  const WrongEnd := [Orch, Orch, Finish(WorkerA, Done), Orch, Orch] + [Finish(Stray, Raise), Orch]

  /** The worker fails its step between the reading of the steps and the verdict. */
  lemma AbortedVerdictIsWrong()
    ensures CleanCreates(Fresh(0, {}), CutRun + WrongEnd)
    ensures var s := Exec(Fresh(0, {}), CutRun + WrongEnd); StateIs(s, SwAborted) && s.steps == Two(Complete, Failed)
  {
    hide Do, Exec, CleanCreates;
    var s0 := Fresh(0, {});
    CutRunIs();
    var s1 := Exec(s0, CutRun);
    FirstIsAborted(s1);
    var a := [Orch, Orch, Finish(WorkerA, Done), Orch, Orch];
    var s2 := Exec(s1, a);
    StrayFailsLate(s2);
    ExecConcat(s1, a, [Finish(Stray, Raise), Orch]);
    ExecConcat(s0, CutRun, WrongEnd);
    OneCreateIsClean(0, {}, CutRun + WrongEnd);
  }

  lemma StrayFailsLate(s: Sys)
    requires s == At(SwAborting, Complete, Aborted, map[], multiset{Stray}, Deciding(SwAborted, true))
    ensures var t := Exec(s, [Finish(Stray, Raise), Orch]); StateIs(t, SwAborted) && t.steps == Two(Complete, Failed)
  {
    hide SetState;
    TwoMore(s, Finish(Stray, Raise), Orch);
    SetTwo(Complete, Aborted, Failed);
    assert Do(s, Finish(Stray, Raise)) == At(SwAborting, Complete, Failed, map[], multiset{}, Deciding(SwAborted, true));
  }

  lemma {:induction false} OneCreateIsClean(starting: nat, unmanaged: set<string>, acts: seq<Action>)
    requires forall k :: 0 < k < |acts| ==> !acts[k].Create?
    ensures CleanCreates(Fresh(starting, unmanaged), acts)
    decreases |acts|
  {
    hide Do;
    if acts != [] {
      OneCreateIsClean(starting, unmanaged, acts[..|acts| - 1]);
    }
  }

  // ---------------------------------------------------------------- a strategy of serial steps

  const OneByOne := Request(Patch, false, None, None, None, false, true)

  predicate AllWanted(scs: seq<Subcloud>) {
    forall i :: 0 <= i < |scs| ==> scs[i].managed && scs[i].online && scs[i].statuses == [Row]
  }

  /** Steps one to a stage, as many as subclouds. */
  function InTurn(names: seq<string>): seq<Step> {
    seq(|names|, j requires 0 <= j < |names| => Step(names[j], 0, j + 1, Initial))
  }

  lemma {:induction false} AllEligible(scs: seq<Subcloud>)
    requires AllWanted(scs)
    ensures EligibleOf(OneByOne, scs) == scs
    decreases |scs|
  {
    if scs != [] {
      var last := scs[|scs| - 1];
      AllEligible(scs[..|scs| - 1]);
      assert Row == last.statuses[0] && ValidateStatusSync(Patch, Row, false, true);
      assert Eligible(OneByOne, last);
    }
  }

  lemma {:induction false} QuotOne(n: nat)
    ensures Quot(n, 1) == n
  {
    if n > 0 {
      QuotOne(n - 1);
    }
  }

  lemma SerialPlan(scs: seq<Subcloud>)
    requires AllWanted(scs) && UniqueNames(scs)
    ensures var g := [Group(true, 1, scs)];
      && StepsOf(Plan(OneByOne, g)) == InTurn(Names(scs)) && Caps(OneByOne, g) == [1]
      && WellFormedGroups(g) && Validate(OneByOne, [], g) == Valid
  {
    hide EligibleOf;
    var g := [Group(true, 1, scs)];
    AllEligible(scs);
    assert g[1..] == [];
    assert Roster(g) == scs;
    assert PlanFrom(OneByOne, [], 1, NextBase(OneByOne, g[0], 1, false), Updated(OneByOne, g[0], false)) == [];
    assert Plan(OneByOne, g) == PlanGroup(OneByOne, g[0], 0, 1);
    forall j | 0 <= j < |scs|
      ensures Place(scs, 0, 1, 1)[j] == Placed(scs[j].name, 0, j + 1)
    {
      QuotOne(j);
    }
    assert forall j :: 0 <= j < |scs| ==> StepsOf(Plan(OneByOne, g))[j] == InTurn(Names(scs))[j];
  }

  function Wanted(name: string): Subcloud {
    Subcloud(name, true, true, true, [Row])
  }

  function CreateFor(names: seq<string>): Action {
    Create(OneByOne, [], [Group(true, 1, seq(|names|, j requires 0 <= j < |names| => Wanted(names[j])))])
  }

  lemma CreatesInTurn(e: Sys, names: seq<string>)
    requires e.strategy.None? && names != [] && forall i, j :: 0 <= i < j < |names| ==> names[i] != names[j]
    ensures Do(e, CreateFor(names)) == e.(strategy := Some(Strategy(SwInitial, false)), steps := InTurn(names), caps := [1])
  {
    hide Plan, Validate, WellFormedGroups, Caps;
    var scs := seq(|names|, j requires 0 <= j < |names| => Wanted(names[j]));
    SerialPlan(scs);
    assert Names(scs) == names;
    assert |Plan(OneByOne, [Group(true, 1, scs)])| == |names|;
  }

  // ---------------------------------------------------------------- a strategy that clears the worker map

  predicate Empty(s: Sys) {
    s.strategy.None? && s.steps == [] && s.pc.Idle?
  }

  function With(e: Sys, state: StrategyState, steps: seq<Step>, workers: map<string, StepState>, running: multiset<Worker>, pc: Pc): Sys {
    e.(strategy := Some(Strategy(state, false)), steps := steps, caps := [1], workers := workers, running := running,
       unmanagedRead := e.unmanaged, pc := pc)
  }

  function Only(r: string, state: StepState): seq<Step> {
    [Step(r, 0, 1, state)]
  }

  function Unmanaged(e: Sys, r: string): Sys {
    e.(unmanaged := e.unmanaged + {r})
  }

  lemma OnlyStarts(e: Sys, r: string)
    requires Empty(e)
    ensures Exec(e, [SetManaged(r, false), CreateFor([r]), RpcApply, Orch, Orch])
      == With(Unmanaged(e, r), SwApplying, Only(r, Initial), e.workers, e.running, Staging(Only(r, Initial), 1, 0))
  {
    hide CreateFor, Do;
    Five(e, [SetManaged(r, false), CreateFor([r]), RpcApply, Orch, Orch]);
    hide Exec;
    var u := Unmanaged(e, r);
    OneUnmanaged(e, r);
    CreatesInTurn(u, [r]);
    assert InTurn([r]) == Only(r, Initial);
    EntersApply(u, Only(r, Initial));
    OnlyScanned(u, r);
  }

  lemma OneUnmanaged(e: Sys, r: string)
    ensures Do(e, SetManaged(r, false)) == Unmanaged(e, r)
  {
  }

  lemma EntersApply(e: Sys, steps: seq<Step>)
    requires Empty(e)
    ensures Do(Do(e.(strategy := Some(Strategy(SwInitial, false)), steps := steps, caps := [1]), RpcApply), Orch)
      == e.(strategy := Some(Strategy(SwApplying, false)), steps := steps, caps := [1], pc := ApplyEntered(false))
  {
  }

  lemma OnlyScanned(e: Sys, r: string)
    ensures var steps := Only(r, Initial);
      Do(e.(strategy := Some(Strategy(SwApplying, false)), steps := steps, caps := [1], pc := ApplyEntered(false)), Orch)
        == With(e, SwApplying, steps, e.workers, e.running, Staging(steps, 1, 0))
  {
    hide Front, Regions;
    FrontAt(Only(r, Initial), false);
    NothingDropped(e.workers, Only(r, Initial));
  }

  lemma OnlyFails(e: Sys, r: string, workers: map<string, StepState>, running: multiset<Worker>)
    requires r in e.unmanaged
    ensures Exec(With(e, SwApplying, Only(r, Initial), workers, running, Staging(Only(r, Initial), 1, 0)), [Orch, Orch, Orch, Orch, Orch])
      == With(e, SwFailed, Only(r, Failed), map[], running, Idle)
  {
    hide Regions, Dropped, SetState;
    var s := With(e, SwApplying, Only(r, Initial), workers, running, Staging(Only(r, Initial), 1, 0));
    Five(s, [Orch, Orch, Orch, Orch, Orch]);
    hide Exec;
    assert SetState(Only(r, Initial), r, Failed) == Only(r, Failed);
    var failed := Only(r, Failed);
    assert Do(s, Orch) == With(e, SwApplying, failed, workers, running, Staging(Only(r, Initial), 1, 1));
    var t := With(e, SwApplying, failed, workers, running, ApplyEntered(false));
    assert Do(Do(Do(s, Orch), Orch), Orch) == t;
    assert failed[0].state == Failed && Front(failed, false, 0) == 1;
    assert Do(t, Orch).pc == Deciding(SwFailed, true);
  }

  lemma OnlyEnds(e: Sys, steps: seq<Step>, running: multiset<Worker>)
    ensures Exec(With(e, SwFailed, steps, map[], running, Idle), [RpcDelete, Orch, Orch])
      == e.(strategy := None, steps := [], caps := [], workers := map[], running := running, unmanagedRead := e.unmanaged, pc := Idle)
  {
    Three(With(e, SwFailed, steps, map[], running, Idle), RpcDelete, Orch, Orch);
  }

  lemma Three(s: Sys, a: Action, b: Action, c: Action)
    ensures Exec(s, [a, b, c]) == Do(Do(Do(s, a), b), c)
  {
    hide Do;
    TwoMore(s, a, b);
    ExecSnoc(s, [a, b], c);
    assert [a, b] + [c] == [a, b, c];
  }

  /** No strategy, and no entry of the worker map. */
  lemma ClearsTheMap(e: Sys, r: string) returns (acts: seq<Action>)
    requires Empty(e)
    ensures Calm(acts)
    ensures var t := Exec(e, acts); Empty(t) && t.workers == map[] && t.running == e.running && t.starting == e.starting
  {
    hide Do, Exec, Only, CreateFor;
    var a := [SetManaged(r, false), CreateFor([r]), RpcApply, Orch, Orch];
    var b := [Orch, Orch, Orch, Orch, Orch];
    var c := [RpcDelete, Orch, Orch];
    OnlyStarts(e, r);
    OnlyFails(Unmanaged(e, r), r, e.workers, e.running);
    OnlyEnds(Unmanaged(e, r), Only(r, Failed), e.running);
    ExecConcat(e, a, b);
    ExecConcat(e, a + b, c);
    acts := a + b + c;
    CreateIsCalm([r]);
  }

  /** The thread is not interrupted. */
  predicate Calm(acts: seq<Action>) {
    forall k :: 0 <= k < |acts| ==> !acts[k].TickRaises? && !acts[k].Restart?
  }

  lemma CreateIsCalm(names: seq<string>)
    ensures CreateFor(names).Create?
  {
  }

  lemma CalmIsUncut(s: Sys, acts: seq<Action>)
    requires Calm(acts)
    ensures Uncut(s, acts)
  {
    UninterruptedIsUncut(s, acts);
  }

  // ---------------------------------------------------------------- a strategy of two stages

  function Next(r: string): string {
    r + "+"
  }

  function InPair(r: string, a: StepState, b: StepState): seq<Step> {
    [Step(r, 0, 1, a), Step(Next(r), 0, 2, b)]
  }

  lemma SetInPair(r: string, a: StepState, b: StepState, c: StepState)
    ensures SetState(InPair(r, a, b), r, c) == InPair(r, c, b) && SetState(InPair(r, a, b), Next(r), c) == InPair(r, a, c)
  {
    assert |Next(r)| == |r| + 1;
  }

  function Managed(e: Sys, r: string): Sys {
    e.(unmanaged := e.unmanaged - {r} - {Next(r)})
  }

  lemma PairApplied(e: Sys, r: string)
    requires Empty(e)
    ensures Exec(e, [SetManaged(r, true), SetManaged(Next(r), true), CreateFor([r, Next(r)]), RpcApply, Orch])
      == Managed(e, r).(strategy := Some(Strategy(SwApplying, false)), steps := InPair(r, Initial, Initial), caps := [1], pc := ApplyEntered(false))
  {
    hide CreateFor, Do;
    Five(e, [SetManaged(r, true), SetManaged(Next(r), true), CreateFor([r, Next(r)]), RpcApply, Orch]);
    hide Exec;
    BothManaged(e, r);
    PairCreated(Managed(e, r), r);
    EntersApply(Managed(e, r), InPair(r, Initial, Initial));
  }

  lemma BothManaged(e: Sys, r: string)
    ensures Do(Do(e, SetManaged(r, true)), SetManaged(Next(r), true)) == Managed(e, r)
  {
  }

  lemma PairCreated(e: Sys, r: string)
    requires Empty(e)
    ensures Do(e, CreateFor([r, Next(r)]))
      == e.(strategy := Some(Strategy(SwInitial, false)), steps := InPair(r, Initial, Initial), caps := [1])
  {
    hide Do, CreateFor;
    assert |Next(r)| == |r| + 1;
    CreatesInTurn(e, [r, Next(r)]);
    assert InTurn([r, Next(r)]) == InPair(r, Initial, Initial);
  }

  /** The first of the two steps is started, and the old worker fails it. */
  lemma PairStarts(e: Sys, r: string, w: Worker)
    requires e.workers == map[] && r !in e.unmanaged && w in e.running && w.region == r && w.seen.Aborted?
    requires e.strategy == Some(Strategy(SwApplying, false)) && e.steps == InPair(r, Initial, Initial) && e.caps == [1] && e.pc == ApplyEntered(false)
    ensures var first := Working(e.starting);
      Exec(e, [Orch, Orch, Orch, Orch, Finish(w, Raise)])
        == With(e, SwApplying, InPair(r, Failed, Initial), map[r := first], e.running + multiset{Worker(r, first)} - multiset{w}, Idle)
  {
    hide Do, InPair;
    var first := Working(e.starting);
    var running := e.running + multiset{Worker(r, first)};
    Five(e, [Orch, Orch, Orch, Orch, Finish(w, Raise)]);
    hide Exec;
    PairScanned(e, r);
    FirstOfPair(e, r);
    OldWorkerFails(e, r, running, w);
  }

  lemma PairScanned(e: Sys, r: string)
    requires e.workers == map[]
    requires e.strategy == Some(Strategy(SwApplying, false)) && e.steps == InPair(r, Initial, Initial) && e.caps == [1] && e.pc == ApplyEntered(false)
    ensures Do(e, Orch) == With(e, SwApplying, InPair(r, Initial, Initial), map[], e.running, Staging(InPair(r, Initial, Initial), 1, 0))
  {
    hide Front, Regions, SetState;
    FrontAt(InPair(r, Initial, Initial), false);
    NothingDropped(e.workers, InPair(r, Initial, Initial));
  }

  lemma FirstOfPair(e: Sys, r: string)
    requires r !in e.unmanaged
    ensures var pair := InPair(r, Initial, Initial); var first := Working(e.starting);
      Do(Do(Do(With(e, SwApplying, pair, map[], e.running, Staging(pair, 1, 0)), Orch), Orch), Orch)
        == With(e, SwApplying, InPair(r, first, Initial), map[r := first], e.running + multiset{Worker(r, first)}, Idle)
  {
    hide SetState;
    var pair := InPair(r, Initial, Initial);
    var first := Working(e.starting);
    SetInPair(r, Initial, Initial, first);
    var s1 := With(e, SwApplying, InPair(r, first, Initial), map[r := first], e.running + multiset{Worker(r, first)}, Staging(pair, 1, 1));
    assert Do(With(e, SwApplying, pair, map[], e.running, Staging(pair, 1, 0)), Orch) == s1;
    assert Do(s1, Orch) == s1.(pc := Staging(pair, 1, 2));
  }

  lemma OldWorkerFails(e: Sys, r: string, running: multiset<Worker>, w: Worker)
    requires w in running && w.region == r && w.seen.Aborted?
    ensures var first := Working(e.starting);
      Do(With(e, SwApplying, InPair(r, first, Initial), map[r := first], running, Idle), Finish(w, Raise))
        == With(e, SwApplying, InPair(r, Failed, Initial), map[r := first], running - multiset{w}, Idle)
  {
    hide SetState, InPair;
    SetInPair(r, Working(e.starting), Initial, Failed);
  }

  /** The thread goes on to the second stage; then the first step's own worker reports its next state. */
  lemma PairOverlaps(e: Sys, r: string, running: multiset<Worker>)
    requires Next(r) !in e.unmanaged && Worker(r, Working(e.starting)) in running
    ensures var first := Working(e.starting);
      var t := Exec(With(e, SwApplying, InPair(r, Failed, Initial), map[r := first], running, Idle),
                    [Orch, Orch, Orch, Orch, Finish(Worker(r, first), Advance(1))]);
      t.steps == InPair(r, Working(1), first) && t.caps == [1]
  {
    hide Do, InPair;
    var first := Working(e.starting);
    var s := With(e, SwApplying, InPair(r, Failed, Initial), map[r := first], running, Idle);
    Five(s, [Orch, Orch, Orch, Orch, Finish(Worker(r, first), Advance(1))]);
    hide Exec;
    ThreadGoesOn(e, r, running);
    SecondOfPair(e, r, running);
    FirstReturns(Do(Do(Do(Do(s, Orch), Orch), Orch), Orch), r, first);
  }

  lemma ThreadGoesOn(e: Sys, r: string, running: multiset<Worker>)
    ensures var pair := InPair(r, Failed, Initial);
      Do(Do(With(e, SwApplying, pair, map[r := Working(e.starting)], running, Idle), Orch), Orch)
        == With(e, SwApplying, pair, map[], running, Staging(pair, 2, 0))
  {
    hide Regions, SetState, Dropped;
    var pair := InPair(r, Failed, Initial);
    var s := With(e, SwApplying, pair, map[r := Working(e.starting)], running, Idle);
    assert Do(s, Orch) == s.(pc := ApplyEntered(false));
    DropsFirst(r, Working(e.starting));
  }

  lemma SecondOfPair(e: Sys, r: string, running: multiset<Worker>)
    requires Next(r) !in e.unmanaged && Worker(r, Working(e.starting)) in running
    ensures var pair := InPair(r, Failed, Initial); var first := Working(e.starting);
      var t := Do(Do(With(e, SwApplying, pair, map[], running, Staging(pair, 2, 0)), Orch), Orch);
      t.steps == InPair(r, Failed, first) && Worker(r, first) in t.running && t.caps == [1]
  {
    hide SetState;
    var pair := InPair(r, Failed, Initial);
    SetInPair(r, Failed, Initial, Working(e.starting));
    var s1 := With(e, SwApplying, pair, map[], running, Staging(pair, 2, 0));
    assert Do(s1, Orch) == s1.(pc := Staging(pair, 2, 1));
  }

  lemma FirstReturns(s: Sys, r: string, first: StepState)
    requires s.steps == InPair(r, Failed, first) && Worker(r, first) in s.running && first.Working?
    ensures var t := Do(s, Finish(Worker(r, first), Advance(1))); t.steps == InPair(r, Working(1), first) && t.caps == s.caps
  {
    hide SetState, InPair;
    SetInPair(r, Failed, first, Working(1));
  }

  lemma DropsFirst(r: string, first: StepState)
    ensures var pair := InPair(r, Failed, Initial);
      map[r := first] - Regions(pair[..Dropped(pair, false)]) == map[] && Decide(pair, false) == Staging(pair, 2, 0)
  {
    var pair := InPair(r, Failed, Initial);
    assert Front(pair, false, 0) == 1;
    assert pair[..1][0].region in Regions(pair[..1]);
  }

  // ---------------------------------------------------------------- two stages at once

  predicate TwoStages(s: Sys) {
    exists i, j :: 0 <= i < |s.steps| && 0 <= j < |s.steps| && s.steps[i].state.Working? && s.steps[j].state.Working? && s.steps[i].stage != s.steps[j].stage
  }

  /** A left-over worker, and two strategies for its region. */
  lemma Overlaps(s: Sys, w: Worker) returns (acts: seq<Action>)
    requires Empty(s) && w in s.running && w.seen.Aborted?
    ensures Calm(acts)
    ensures var t := Exec(s, acts); TwoStages(t) && t.caps == [1]
  {
    hide Do, Exec, CreateFor;
    var r := w.region;
    var a := ClearsTheMap(s, r);
    var e := Exec(s, a);
    var b := [SetManaged(r, true), SetManaged(Next(r), true), CreateFor([r, Next(r)]), RpcApply, Orch];
    PairApplied(e, r);
    var e1 := Exec(e, b);
    var first := Working(e.starting);
    var c := [Orch, Orch, Orch, Orch, Finish(w, Raise)];
    PairStarts(e1, r, w);
    var d := [Orch, Orch, Orch, Orch, Finish(Worker(r, first), Advance(1))];
    PairOverlaps(e1, r, e1.running + multiset{Worker(r, first)} - multiset{w});
    ExecConcat(s, a, b);
    ExecConcat(s, a + b, c);
    ExecConcat(s, a + b + c, d);
    acts := a + b + c + d;
    CreateIsCalm([r, Next(r)]);
    var t := Exec(s, acts);
    assert t.steps[0].state.Working? && t.steps[1].state.Working?;
  }

  /** From any state without a strategy: with no further interruption, two stages can be in progress at once exactly if
      a worker without an operator is under way. */
  lemma OverlapExactly(s: Sys)
    requires Base(s) && s.strategy.None?
    ensures (exists acts :: Uncut(s, acts) && TwoStages(Exec(s, acts))) <==> !NoStrays(s)
  {
    NothingLeft(s);
    hide Exec, Base, Uncut, TwoStages;
    if NoStrays(s) {
      EmptyIsClean(s);
      forall acts | Uncut(s, acts)
        ensures !TwoStages(Exec(s, acts))
      {
        StaysClean(s, acts, true);
        OneStage(Exec(s, acts));
      }
    } else {
      var w :| w in s.running && !w.seen.Working?;
      var acts := Overlaps(s, w);
      CalmIsUncut(s, acts);
      assert TwoStages(Exec(s, acts));
    }
  }

  lemma NothingLeft(s: Sys)
    requires Base(s) && s.strategy.None?
    ensures Empty(s) && forall w :: w in s.running && !w.seen.Working? ==> w.seen.Aborted?
  {
    hide WorkersOk, ShapeOk, Frontier;
  }

  lemma EmptyIsClean(s: Sys)
    requires Empty(s) && NoStrays(s)
    ensures Clean(s, true)
  {
  }

  lemma OneStage(s: Sys)
    requires Base(s)
    ensures !TwoStages(s)
  {
    hide WorkersOk, StraysOk, PhaseOk, PcOk, LifeOk;
    WorkingShareStage(s.steps, s.caps);
    forall i, j | 0 <= i < |s.steps| && 0 <= j < |s.steps| && s.steps[i].state.Working? && s.steps[j].state.Working?
      ensures s.steps[i].stage == s.steps[j].stage
    {
      assert i in InProgress(s.steps) && j in InProgress(s.steps);
    }
  }

  /** A run in which that happens: the worker comes from an interrupted tick and an abort, and outlives its strategy. */
  lemma StrayWorkerOverlapsStages()
    ensures exists acts :: var s := Exec(Fresh(0, {}), acts); TwoStages(s) && s.caps == [1]
  {
    hide Do, Exec, TwoStages;
    var s0 := Fresh(0, {});
    CutRunIs();
    var s1 := Exec(s0, CutRun);
    FirstIsAborted(s1);
    var a := [Orch, Orch, Finish(WorkerA, Done), Orch, Orch];
    var b := [Orch, RpcDelete, Orch, Orch];
    FirstIsGone(Exec(s1, a));
    ExecConcat(s1, a, b);
    ExecConcat(s0, CutRun, EndOfFirst);
    var rest := Overlaps(Gone(), Stray);
    ExecConcat(s0, CutRun + EndOfFirst, rest);
    assert TwoStages(Exec(s0, CutRun + EndOfFirst + rest));
  }
}
