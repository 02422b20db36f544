/** Fair runs end. Whatever the users, the operators and the exceptions of the thread do in between: a run
    in which every worker finishes and the thread completes its ticks brings every strategy that was
    applied to a verdict. */
module OrchFairness {
  import opened Cloud
  import opened StagePlan
  import opened OrchMachine
  import opened OrchInvariant
  import opened OrchTheorems
  import opened OrchProgress

  predicate Permitted(a: Action, rank: nat -> nat) {
    !a.Restart? && Descends(rank, a)
  }

  ghost predicate AllPermitted(acts: seq<Action>, rank: nat -> nat) {
    forall k :: 0 <= k < |acts| ==> Permitted(acts[k], rank)
  }

  /** The action makes the worker write its result. */
  predicate Ends(a: Action, w: Worker) {
    a.Finish? && a.worker == w && Possible(w.seen, a.outcome)
  }

  /** From access p to access q the thread wakes up, and goes back to sleep without an exception. */
  predicate WholeTick(s: Sys, acts: seq<Action>, p: nat, q: nat) {
    && p < q <= |acts| && acts[p].Orch?
    && Exec(s, acts[..p]).pc.Idle? && Exec(s, acts[..q]).pc.Idle?
    && forall k :: p <= k < q ==> !acts[k].TickRaises?
  }

  /** All these workers finish within the first m actions. */
  predicate WorkersEnd(workers: multiset<Worker>, acts: seq<Action>, m: nat) {
    m <= |acts| && forall w :: w in workers ==> exists k :: 0 <= k < m && Ends(acts[k], w)
  }

  /** A round: the workers under way finish, and after that there is a whole tick. Anything else may
      happen at any time. */
  predicate Round(s: Sys, acts: seq<Action>) {
    exists m, p, q :: 0 <= m <= p < q <= |acts| && WorkersEnd(s.running, acts, m) && WholeTick(s, acts, p, q)
  }

  // ---------------------------------------------------------------- prefixes of a run

  function At(s: Sys, acts: seq<Action>, n: nat): Sys
    requires n <= |acts|
  {
    Exec(s, acts[..n])
  }

  lemma Next(s: Sys, acts: seq<Action>, n: nat)
    requires n < |acts|
    ensures At(s, acts, n + 1) == Do(At(s, acts, n), acts[n])
  {
    assert acts[..n + 1] == acts[..n] + [acts[n]];
    ExecSnoc(s, acts[..n], acts[n]);
  }

  ghost predicate JudgedBy(s: Sys, acts: seq<Action>, n: nat)
    requires n <= |acts|
  {
    exists m: nat :: m <= n && Judged(At(s, acts, m))
  }

  /** Until a verdict, the strategy stays active and the measure does not rise. */
  ghost predicate Going(s: Sys, acts: seq<Action>, n: nat, rank: nat -> nat)
    requires n <= |acts|
  {
    Running(At(s, acts, n)) && Measure(At(s, acts, n), rank) <= Measure(s, rank)
  }

  lemma ActionStep(s: Sys, a: Action, rank: nat -> nat)
    requires Running(s) && Permitted(a, rank)
    ensures Running(Do(s, a)) || Judged(Do(s, a))
    ensures Measure(Do(s, a), rank) <= Measure(s, rank)
  {
    hide Base, Lively, Measure, DoOrch, DoFinish;
    NoActionRaises(s, a, rank);
    NotOverAnother(s, a);
    StepPreserves(s, a);
    EmptyIsClean(s, a);
    LivelyKept(s, a, rank);
    StaysActive(s, a);
  }

  lemma StaysActive(s: Sys, a: Action)
    requires Base(s) && s.strategy.Some? && Active(s.strategy.value.state)
    ensures var t := Do(s, a);
      t.strategy.Some? && (Active(t.strategy.value.state) || IsVerdict(t.strategy.value.state))
  {
    BaseLife(s);
    hide Base;
    LifeKept(s, a);
  }

  lemma BaseLife(s: Sys)
    requires Base(s)
    ensures LifeOk(s.strategy, s.pc)
  {
  }

  lemma {:induction false} KeepsGoing(s: Sys, acts: seq<Action>, n: nat, rank: nat -> nat)
    requires Running(s) && AllPermitted(acts, rank) && n <= |acts|
    ensures JudgedBy(s, acts, n) || Going(s, acts, n, rank)
  {
    hide Running, Judged, Measure, Do;
    if n == 0 {
      assert acts[..0] == [];
    } else {
      KeepsGoing(s, acts, n - 1, rank);
      Next(s, acts, n - 1);
      if !JudgedBy(s, acts, n - 1) {
        assert Permitted(acts[n - 1], rank);
        ActionStep(At(s, acts, n - 1), acts[n - 1], rank);
      }
    }
  }

  // ---------------------------------------------------------------- a worker under way

  /** Worker w is under way for step i as it is. */
  predicate UnderWay(s: Sys, w: Worker, i: nat) {
    w in s.running && Relevant(s, w, i)
  }

  lemma UnderWayStep(s: Sys, a: Action, rank: nat -> nat, w: Worker, i: nat)
    requires Running(s) && UnderWay(s, w, i) && Permitted(a, rank) && Running(Do(s, a))
    ensures Measure(Do(s, a), rank) < Measure(s, rank) || (UnderWay(Do(s, a), w, i) && !Ends(a, w))
  {
    hide Base, Lively, Measure, DoFinish, DoOrch, DoCreate;
    RunningBase(s);
    match a
    case Finish(v, o) => UnderWayFinish(s, v, o, rank, w, i);
    case Orch => UnderWayOrch(s, w, i);
    case Create(_, _, _) => Ignored(s, a);
    case _ =>
  }

  lemma Ignored(s: Sys, a: Action)
    requires s.strategy.Some? && a.Create?
    ensures Do(s, a) == s
  {
  }

  lemma RunningBase(s: Sys)
    requires Running(s)
    ensures Base(s) && s.strategy.Some?
  {
  }

  lemma UnderWayFinish(s: Sys, v: Worker, o: Outcome, rank: nat -> nat, w: Worker, i: nat)
    requires Base(s) && UnderWay(s, w, i) && Descends(rank, Finish(v, o))
    ensures Measure(DoFinish(s, v, o), rank) < Measure(s, rank) || (UnderWay(DoFinish(s, v, o), w, i) && !Ends(Finish(v, o), w))
  {
    hide Base, Measure;
    if v in s.running && Possible(v.seen, o) {
      if k: nat :| Relevant(s, v, k) {
        FinishLowers(s, v, o, rank, k);
      } else {
        FinishIrrelevant(s, v, o, rank);
        assert v != w;
      }
    }
  }

  /** The thread neither takes back a worker nor touches the step of one. */
  lemma UnderWayOrch(s: Sys, w: Worker, i: nat)
    requires Base(s) && UnderWay(s, w, i) && DoOrch(s).strategy.Some?
    ensures UnderWay(DoOrch(s), w, i)
  {
    ServedWorker(s, w);
    OrchChanges(s, i);
    NotBegun(s, i);
    hide Base;
    RunningGrows(s);
  }

  lemma RunningGrows(s: Sys)
    ensures s.running <= DoOrch(s).running
  {
    hide SetState, Decide, Dropped, Regions;
  }

  /** Only a step that has not begun is changed by the thread. */
  lemma NotBegun(s: Sys, i: nat)
    requires Base(s) && i < |s.steps| && DoOrch(s).strategy.Some? && !s.steps[i].state.Initial?
    ensures i < |DoOrch(s).steps| && DoOrch(s).steps[i] == s.steps[i]
  {
    hide ShapeOk, Frontier, AfterFailure, FailuresFrom, WorkersOk, StraysOk, SetState, DoScan;
    if s.pc.Staging? && s.pc.at < |s.pc.snap| && s.pc.snap[s.pc.at].stage == s.pc.stage && s.pc.snap[s.pc.at].state.Initial? {
      NotTheStarted(s, i);
    } else if s.pc.AbortMarking? && s.pc.at < |s.pc.snap| && s.pc.snap[s.pc.at].state.Initial? {
      OneStepChanges(s.steps, s.caps, s.pc.at, Aborted);
    } else {
      NoStepsTouched(s);
    }
  }

  lemma NotTheStarted(s: Sys, i: nat)
    requires Base(s) && s.pc.Staging? && s.pc.at < |s.pc.snap| && s.pc.snap[s.pc.at].stage == s.pc.stage && s.pc.snap[s.pc.at].state.Initial?
    requires i < |s.steps| && !s.steps[i].state.Initial?
    ensures i < |DoOrch(s).steps| && DoOrch(s).steps[i] == s.steps[i]
  {
    hide Base, SetState, ProcessStep, ShapeOk, WorkersOk;
    CurrentAt(s);
    Regional(s.steps, s.caps, s.pc.at);
    LeaveInitial(s, Failed);
    LeaveInitial(s, Working(s.starting));
    ProcessKeepsOthers(s.(steps := SetState(s.steps, s.pc.snap[s.pc.at].region, Working(s.starting))),
                       s.pc.snap[s.pc.at].region, Working(s.starting));
  }

  /** Until the worker finishes, the measure falls or the worker stays under way. */
  lemma {:induction false} WorkerTracked(s: Sys, acts: seq<Action>, n: nat, rank: nat -> nat, w: Worker, i: nat)
    requires Running(s) && AllPermitted(acts, rank) && n <= |acts| && UnderWay(s, w, i)
    ensures JudgedBy(s, acts, n) || Measure(At(s, acts, n), rank) < Measure(s, rank) ||
      (UnderWay(At(s, acts, n), w, i) && forall k :: 0 <= k < n ==> !Ends(acts[k], w))
  {
    hide Running, Judged, Measure, Do, UnderWay, Ends;
    KeepsGoing(s, acts, n, rank);
    if n == 0 {
      assert acts[..0] == [];
    } else {
      KeepsGoing(s, acts, n - 1, rank);
      WorkerTracked(s, acts, n - 1, rank, w, i);
      Next(s, acts, n - 1);
      assert Permitted(acts[n - 1], rank);
      if !JudgedBy(s, acts, n) {
        ActionStep(At(s, acts, n - 1), acts[n - 1], rank);
        if UnderWay(At(s, acts, n - 1), w, i) {
          UnderWayStep(At(s, acts, n - 1), acts[n - 1], rank, w, i);
        }
      }
    }
  }

  // ---------------------------------------------------------------- no worker under way

  lemma SteadyStep(s: Sys, a: Action, rank: nat -> nat)
    requires Running(s) && Steady(s) && Permitted(a, rank) && Running(Do(s, a))
    ensures Measure(Do(s, a), rank) < Measure(s, rank) || Steady(Do(s, a))
  {
    hide Base, Lively, Measure, DoFinish, DoOrch, DoCreate, Steady;
    RunningBase(s);
    match a
    case Finish(w, o) => SteadyFinish(s, w, o, rank);
    case Orch => SteadyOrch(s, rank);
    case Create(_, _, _) => Ignored(s, a);
    case _ => SteadyRest(s, Do(s, a));
  }

  lemma SteadyRest(s: Sys, t: Sys)
    requires Steady(s) && t.steps == s.steps && t.running == s.running
    ensures Steady(t)
  {
  }

  lemma SteadyFinish(s: Sys, w: Worker, o: Outcome, rank: nat -> nat)
    requires Base(s) && Steady(s) && Descends(rank, Finish(w, o))
    ensures Measure(DoFinish(s, w, o), rank) < Measure(s, rank) || Steady(DoFinish(s, w, o))
  {
    hide Base, Measure;
    if w in s.running && Possible(w.seen, o) {
      if k: nat :| Relevant(s, w, k) {
        FinishLowers(s, w, o, rank, k);
      } else {
        FinishIrrelevant(s, w, o, rank);
      }
    }
  }

  lemma SteadyOrch(s: Sys, rank: nat -> nat)
    requires Running(s) && Steady(s) && Running(DoOrch(s))
    ensures Measure(DoOrch(s), rank) < Measure(s, rank) || Steady(DoOrch(s))
  {
    hide Base, Lively, Measure, Steady, SetState;
    if s.pc.Staging? && s.pc.at < |s.pc.snap| {
      hide DoOrch;
      SteadyTurn(s, rank);
    } else if s.pc.AbortMarking? && s.pc.at < |s.pc.snap| {
      hide DoOrch;
      SteadyMark(s);
    } else {
      hide DoScan;
      QuietOrch(s);
      SteadyRest(s, DoOrch(s));
    }
  }

  lemma QuietOrch(s: Sys)
    requires !(s.pc.Staging? && s.pc.at < |s.pc.snap|) && !(s.pc.AbortMarking? && s.pc.at < |s.pc.snap|) && Running(DoOrch(s))
    ensures DoOrch(s).steps == s.steps && DoOrch(s).running == s.running
  {
    hide Base, Lively, Front, Regions;
  }

  /** Marking makes a step aborted that had not begun; no worker is under way for it. */
  lemma SteadyMark(s: Sys)
    requires Base(s) && s.pc.AbortMarking? && s.pc.at < |s.pc.snap| && Steady(s)
    ensures Steady(DoOrch(s))
  {
    hide ShapeOk, Frontier, AfterFailure, WorkersOk, SetState, StrayOk;
    var at := s.pc.at;
    if s.pc.snap[at].state.Initial? {
      OneStepChanges(s.steps, s.caps, at, Aborted);
      assert !Late(s.strategy);
    }
  }

  lemma SteadyTurn(s: Sys, rank: nat -> nat)
    requires Running(s) && Steady(s) && s.pc.Staging? && s.pc.at < |s.pc.snap|
    ensures Measure(DoOrch(s), rank) < Measure(s, rank) || Steady(DoOrch(s))
  {
    RunningBase(s);
    hide Base, Lively, Measure, DoOrch, Steady;
    if s.pc.snap[s.pc.at].stage == s.pc.stage && s.pc.snap[s.pc.at].state.Initial? {
      RunningLively(s);
      StartLowers(s, rank);
    } else {
      TurnWithoutStart(s);
      SteadyUnlessWaiting(s);
      RunningLively(s);
      TurnLowers(s, rank);
    }
  }

  lemma RunningLively(s: Sys)
    requires Running(s)
    ensures Lively(s)
  {
  }

  lemma TurnWithoutStart(s: Sys)
    requires Base(s) && s.pc.Staging? && s.pc.at < |s.pc.snap|
    requires !(s.pc.snap[s.pc.at].stage == s.pc.stage && s.pc.snap[s.pc.at].state.Initial?)
    ensures DoOrch(s).steps == s.steps
    ensures forall w :: w in DoOrch(s).running && w !in s.running ==>
      s.pc.snap[s.pc.at].stage == s.pc.stage && w == Worker(s.pc.snap[s.pc.at].region, s.pc.snap[s.pc.at].state)
  {
    hide Base, SetState;
  }

  lemma SteadyUnlessWaiting(s: Sys)
    requires Base(s) && Steady(s) && s.pc.Staging? && s.pc.at < |s.pc.snap|
    requires DoOrch(s).steps == s.steps
    requires forall w :: w in DoOrch(s).running && w !in s.running ==>
      s.pc.snap[s.pc.at].stage == s.pc.stage && w == Worker(s.pc.snap[s.pc.at].region, s.pc.snap[s.pc.at].state)
    ensures Steady(DoOrch(s)) || Waiting(s, s.pc.at)
  {
    hide DoOrch;
    var t := DoOrch(s);
    if !Steady(t) {
      var i :| 0 <= i < |t.steps| && Served(t.steps[i].state) && Worker(t.steps[i].region, t.steps[i].state) in t.running;
      var w := Worker(t.steps[i].region, t.steps[i].state);
      assert w !in s.running;
      CurrentAt(s);
      Regional(s.steps, s.caps, s.pc.at);
      hide Base;
      assert i == s.pc.at;
    }
  }

  // ---------------------------------------------------------------- a tick that must get somewhere

  /** The thread is in a tick that began with no worker under way, and has not lowered the measure yet. */
  ghost predicate OnTrack(s: Sys) {
    match s.pc
    case Idle => false
    case ApplyEntered(_) => Steady(s)
    case Staging(_, _, _) => exists i: nat :: Waiting(s, i)
    case Deciding(_, _) => true
    case AbortEntered => true
    case AbortMarking(_, _) => true
    case DeleteEntered => false
  }

  lemma TrackStep(s: Sys, a: Action, rank: nat -> nat)
    requires Running(s) && OnTrack(s) && Permitted(a, rank) && !a.TickRaises? && Running(Do(s, a))
    ensures Measure(Do(s, a), rank) < Measure(s, rank) || OnTrack(Do(s, a))
  {
    hide Base, Lively, Measure, DoFinish, DoOrch, DoCreate, OnTrack;
    RunningBase(s);
    match a
    case Finish(w, o) => TrackFinish(s, w, o, rank);
    case Orch => TrackOrch(s, rank);
    case Create(_, _, _) => Ignored(s, a);
    case _ => TrackRest(s, Do(s, a));
  }

  lemma TrackRest(s: Sys, t: Sys)
    requires OnTrack(s) && t.steps == s.steps && t.running == s.running && t.pc == s.pc
    ensures OnTrack(t)
  {
    if s.pc.Staging? {
      var i: nat :| Waiting(s, i);
      assert Waiting(t, i);
    }
  }

  lemma TrackFinish(s: Sys, w: Worker, o: Outcome, rank: nat -> nat)
    requires Base(s) && OnTrack(s) && Descends(rank, Finish(w, o))
    ensures Measure(DoFinish(s, w, o), rank) < Measure(s, rank) || OnTrack(DoFinish(s, w, o))
  {
    hide Base, Measure;
    var t := DoFinish(s, w, o);
    if w in s.running && Possible(w.seen, o) {
      if k: nat :| Relevant(s, w, k) {
        FinishLowers(s, w, o, rank, k);
      } else {
        FinishIrrelevant(s, w, o, rank);
        if s.pc.Staging? {
          var i: nat :| Waiting(s, i);
          assert Waiting(t, i);
        }
      }
    }
  }

  lemma TrackOrch(s: Sys, rank: nat -> nat)
    requires Running(s) && OnTrack(s) && Running(DoOrch(s))
    ensures Measure(DoOrch(s), rank) < Measure(s, rank) || OnTrack(DoOrch(s))
  {
    hide Running, Measure, DoOrch, Waiting, Steady;
    match s.pc
    case ApplyEntered(_) =>
      ScanTracks(s);
    case Staging(_, _, _) =>
      var i: nat :| Waiting(s, i);
      WaitingMoves(s, rank, i);
      WaitingIsStaging(DoOrch(s));
    case Deciding(_, _) => VerdictMeasure(s, rank);
    case AbortEntered => AbortTracks(s, rank);
    case AbortMarking(_, _) => AbortTracks(s, rank);
  }

  lemma ScanTracks(s: Sys)
    requires Running(s) && s.pc.ApplyEntered? && Steady(s)
    ensures OnTrack(DoOrch(s))
  {
    var i := FirstWaiting(s);
    hide Running, DoOrch, Steady;
    if 0 <= i && Waiting(DoOrch(s), i) {
      WaitingIsStaging(DoOrch(s));
    }
  }

  lemma WaitingIsStaging(t: Sys)
    ensures forall i: nat :: Waiting(t, i) ==> OnTrack(t)
  {
  }

  lemma AbortTracks(s: Sys, rank: nat -> nat)
    requires Running(s) && (s.pc.AbortEntered? || s.pc.AbortMarking?)
    ensures Measure(DoOrch(s), rank) < Measure(s, rank) || OnTrack(DoOrch(s))
  {
    if s.pc.AbortMarking? {
      MarkMeasure(s, rank);
    }
  }

  // ---------------------------------------------------------------- a round

  lemma {:induction false} StaysSteady(s: Sys, acts: seq<Action>, n: nat, rank: nat -> nat)
    requires Running(s) && Steady(s) && AllPermitted(acts, rank) && n <= |acts|
    ensures JudgedBy(s, acts, n) || Measure(At(s, acts, n), rank) < Measure(s, rank) || Steady(At(s, acts, n))
  {
    hide Running, Judged, Measure, Do, Steady;
    if n == 0 {
      assert acts[..0] == [];
    } else {
      KeepsGoing(s, acts, n - 1, rank);
      StaysSteady(s, acts, n - 1, rank);
      Next(s, acts, n - 1);
      assert Permitted(acts[n - 1], rank);
      if !JudgedBy(s, acts, n) {
        ActionStep(At(s, acts, n - 1), acts[n - 1], rank);
        if Steady(At(s, acts, n - 1)) {
          SteadyStep(At(s, acts, n - 1), acts[n - 1], rank);
        }
      }
    }
  }

  /** Within a tick that began steadily at p, the measure falls or the tick is on its way. */
  lemma {:induction false} StaysOnTrack(s: Sys, acts: seq<Action>, p: nat, n: nat, rank: nat -> nat)
    requires Running(s) && AllPermitted(acts, rank) && p < n <= |acts|
    requires acts[p].Orch? && At(s, acts, p).pc.Idle? && Steady(At(s, acts, p))
    requires forall k :: p <= k < n ==> !acts[k].TickRaises?
    ensures JudgedBy(s, acts, n) || Measure(At(s, acts, n), rank) < Measure(s, rank) || OnTrack(At(s, acts, n))
    decreases n
  {
    hide Running, Judged, Measure, Do, Steady, OnTrack;
    KeepsGoing(s, acts, n - 1, rank);
    Next(s, acts, n - 1);
    assert Permitted(acts[n - 1], rank);
    if !JudgedBy(s, acts, n) {
      ActionStep(At(s, acts, n - 1), acts[n - 1], rank);
      if n == p + 1 {
        TickTracks(At(s, acts, p), rank);
      } else {
        StaysOnTrack(s, acts, p, n - 1, rank);
        if OnTrack(At(s, acts, n - 1)) {
          TrackStep(At(s, acts, n - 1), acts[n - 1], rank);
        }
      }
    }
  }

  lemma TickTracks(s: Sys, rank: nat -> nat)
    requires Running(s) && s.pc.Idle? && Steady(s)
    ensures OnTrack(Do(s, Orch))
  {
    EnterTick(s, rank);
    SteadyRest(s, DoOrch(s));
    hide Running, Steady, DoOrch;
  }

  lemma IdleIsOff(s: Sys)
    requires s.pc.Idle?
    ensures !OnTrack(s)
  {
  }

  /** Every round brings a verdict or lowers the measure. */
  lemma RoundLowers(s: Sys, acts: seq<Action>, rank: nat -> nat)
    requires Running(s) && AllPermitted(acts, rank) && Round(s, acts)
    ensures JudgedBy(s, acts, |acts|) || (Running(At(s, acts, |acts|)) && Measure(At(s, acts, |acts|), rank) < Measure(s, rank))
  {
    var m, p, q :| 0 <= m <= p < q <= |acts| && WorkersEnd(s.running, acts, m) && WholeTick(s, acts, p, q);
    hide Running, Judged, Measure, Exec, OnTrack;
    if Steady(s) {
      hide Steady;
      StaysSteady(s, acts, p, rank);
      KeepsGoing(s, acts, p, rank);
      if !JudgedBy(s, acts, p) && Steady(At(s, acts, p)) {
        StaysOnTrack(s, acts, p, q, rank);
        IdleIsOff(At(s, acts, q));
        NeverRises(s, acts, q, |acts|, rank);
      } else {
        NeverRises(s, acts, p, |acts|, rank);
      }
    } else {
      var i :| 0 <= i < |s.steps| && Served(s.steps[i].state) && Worker(s.steps[i].region, s.steps[i].state) in s.running;
      var w := Worker(s.steps[i].region, s.steps[i].state);
      WorkerTracked(s, acts, m, rank, w, i);
      NeverRises(s, acts, m, |acts|, rank);
    }
  }

  lemma {:induction false} NeverRises(s: Sys, acts: seq<Action>, m: nat, n: nat, rank: nat -> nat)
    requires Running(s) && AllPermitted(acts, rank) && m <= n <= |acts|
    requires JudgedBy(s, acts, m) || Measure(At(s, acts, m), rank) < Measure(s, rank)
    ensures JudgedBy(s, acts, n) || (Running(At(s, acts, n)) && Measure(At(s, acts, n), rank) < Measure(s, rank))
    decreases n
  {
    hide Running, Judged, Measure, Do;
    KeepsGoing(s, acts, n, rank);
    if m < n {
      NeverRises(s, acts, m, n - 1, rank);
      Next(s, acts, n - 1);
      assert Permitted(acts[n - 1], rank);
      if !JudgedBy(s, acts, n) {
        ActionStep(At(s, acts, n - 1), acts[n - 1], rank);
      }
    }
  }

  // ---------------------------------------------------------------- many rounds

  function Flat(rounds: seq<seq<Action>>): seq<Action> {
    if rounds == [] then [] else Flat(rounds[..|rounds| - 1]) + rounds[|rounds| - 1]
  }

  /** The run consists of rounds. */
  predicate Fair(s: Sys, rounds: seq<seq<Action>>) {
    rounds == [] ||
      (Fair(s, rounds[..|rounds| - 1]) && Round(Exec(s, Flat(rounds[..|rounds| - 1])), rounds[|rounds| - 1]))
  }

  lemma PermittedConcat(a: seq<Action>, b: seq<Action>, rank: nat -> nat)
    requires AllPermitted(a + b, rank)
    ensures AllPermitted(a, rank) && AllPermitted(b, rank)
  {
    forall k | 0 <= k < |a|
      ensures Permitted(a[k], rank)
    {
      assert a[k] == (a + b)[k];
    }
    forall k | 0 <= k < |b|
      ensures Permitted(b[k], rank)
    {
      assert b[k] == (a + b)[|a| + k];
    }
  }

  lemma LaterJudged(s: Sys, a: seq<Action>, b: seq<Action>)
    ensures JudgedBy(s, a, |a|) ==> JudgedBy(s, a + b, |a + b|)
    ensures JudgedBy(Exec(s, a), b, |b|) ==> JudgedBy(s, a + b, |a + b|)
    ensures At(s, a + b, |a + b|) == Exec(Exec(s, a), b) == At(Exec(s, a), b, |b|)
  {
    hide Judged, Do;
    ExecConcat(s, a, b);
    assert (a + b)[..|a + b|] == a + b && b[..|b|] == b;
    if m: nat :| m <= |a| && Judged(At(s, a, m)) {
      assert (a + b)[..m] == a[..m];
      assert Judged(At(s, a + b, m));
    }
    if m: nat :| m <= |b| && Judged(At(Exec(s, a), b, m)) {
      assert (a + b)[..|a| + m] == a + b[..m];
      ExecConcat(s, a, b[..m]);
      assert Judged(At(s, a + b, |a| + m));
    }
  }

  lemma {:induction false} RoundsLower(s: Sys, rounds: seq<seq<Action>>, rank: nat -> nat)
    requires Running(s) && Fair(s, rounds) && AllPermitted(Flat(rounds), rank)
    ensures var acts := Flat(rounds);
      JudgedBy(s, acts, |acts|) || (Running(Exec(s, acts)) && Measure(Exec(s, acts), rank) + |rounds| <= Measure(s, rank))
    decreases |rounds|
  {
    hide Running, Judged, Measure, Round, Do;
    if rounds != [] {
      var before, last := rounds[..|rounds| - 1], rounds[|rounds| - 1];
      PermittedConcat(Flat(before), last, rank);
      RoundsLower(s, before, rank);
      LaterJudged(s, Flat(before), last);
      if !JudgedBy(s, Flat(before), |Flat(before)|) {
        RoundLowers(Exec(s, Flat(before)), last, rank);
      }
      assert Flat(rounds)[..|Flat(rounds)|] == Flat(rounds);
    }
  }

  /** A strategy that is applying, abort requested or aborting has a verdict after at most as many rounds as the
      measure says, and one more, however the operators choose and whatever else happens. */
  lemma VerdictIsReached(s: Sys, rounds: seq<seq<Action>>, rank: nat -> nat)
    requires Running(s) && Fair(s, rounds) && AllPermitted(Flat(rounds), rank) && |rounds| > Measure(s, rank)
    ensures exists n: nat :: n <= |Flat(rounds)| && Judged(Exec(s, Flat(rounds)[..n]))
  {
    hide Running, Measure, Fair, Judged, Exec;
    RoundsLower(s, rounds, rank);
    var acts := Flat(rounds);
    var n: nat :| n <= |acts| && Judged(At(s, acts, n));
    assert Judged(Exec(s, acts[..n]));
  }

  /** From every state a healthy run can reach, interrupted or not: every strategy that is applying or being aborted
      gets its verdict in every fair continuation in which the thread is not restarted. */
  lemma EveryStrategyEnds(starting: nat, unmanaged: set<string>, acts: seq<Action>, rounds: seq<seq<Action>>, rank: nat -> nat)
    requires CleanCreates(Fresh(starting, unmanaged), acts) && Healthy(Fresh(starting, unmanaged), acts, rank)
    requires var s := After(starting, unmanaged, acts);
      && s.strategy.Some? && Active(s.strategy.value.state)
      && Fair(s, rounds) && |rounds| > Measure(s, rank)
    requires AllPermitted(Flat(rounds), rank)
    ensures var s := After(starting, unmanaged, acts);
      exists n: nat :: n <= |Flat(rounds)| && HasVerdict(Exec(s, Flat(rounds)[..n]))
  {
    hide Exec, Base, Lively, CleanCreates, Healthy, Fair, Measure;
    HealthyRunsAreLively(starting, unmanaged, acts, rank);
    RunsAreSafe(starting, unmanaged, acts);
    VerdictIsReached(After(starting, unmanaged, acts), rounds, rank);
    var n: nat :| n <= |Flat(rounds)| && Judged(Exec(After(starting, unmanaged, acts), Flat(rounds)[..n]));
    assert HasVerdict(Exec(After(starting, unmanaged, acts), Flat(rounds)[..n]));
  }

  predicate HasVerdict(s: Sys) {
    s.strategy.Some? && IsVerdict(s.strategy.value.state)
  }

  // ---------------------------------------------------------------- fair runs exist

  /** An operator that is done at once; without an operator the lookup raises. */
  function AtOnce(w: Worker): Action {
    Finish(w, if w.seen.Working? then Done else Raise)
  }

  predicate AllAtOnce(acts: seq<Action>) {
    forall k :: 0 <= k < |acts| ==> acts[k].Finish? && acts[k] == AtOnce(acts[k].worker)
  }

  lemma {:induction false} FinishAll(s: Sys, todo: multiset<Worker>) returns (acts: seq<Action>)
    requires Running(s) && todo <= s.running
    ensures AllAtOnce(acts) && WorkersEnd(todo, acts, |acts|)
    ensures Running(Exec(s, acts))
    decreases |todo|
  {
    hide Running, Do, Exec, Ends;
    if todo == multiset{} {
      acts := [];
      NoActions(s);
    } else {
      var w :| w in todo;
      var t := Do(s, AtOnce(w));
      OneDone(s, w);
      hide AllAtOnce, AtOnce, WorkersEnd;
      var rest := FinishAll(t, todo - multiset{w});
      StartWith(s, AtOnce(w), rest);
      acts := [AtOnce(w)] + rest;
      OneMoreEnds(todo, w, rest);
    }
  }

  lemma OneMoreEnds(todo: multiset<Worker>, w: Worker, rest: seq<Action>)
    requires w in todo && AllAtOnce(rest) && WorkersEnd(todo - multiset{w}, rest, |rest|)
    ensures var acts := [AtOnce(w)] + rest; AllAtOnce(acts) && WorkersEnd(todo, acts, |acts|)
  {
    var acts := [AtOnce(w)] + rest;
    forall v | v in todo
      ensures exists k :: 0 <= k < |acts| && Ends(acts[k], v)
    {
      if v == w {
        assert Ends(acts[0], v);
      } else {
        assert v in todo - multiset{w};
        var k :| 0 <= k < |rest| && Ends(rest[k], v);
        assert acts[k + 1] == rest[k];
      }
    }
  }

  lemma OneDone(s: Sys, w: Worker)
    requires Running(s) && w in s.running
    ensures Running(Do(s, AtOnce(w))) && Do(s, AtOnce(w)).running == s.running - multiset{w}
  {
    hide Running, SetState;
    ActionStep(s, AtOnce(w), n => n);
    RunningBase(s);
    assert Do(s, AtOnce(w)).strategy == s.strategy;
    NotBoth(s, Do(s, AtOnce(w)));
  }

  lemma NotBoth(s: Sys, t: Sys)
    requires Running(s) && t.strategy == s.strategy
    ensures !Judged(t)
  {
  }

  lemma {:induction false} DriveToIdle(s: Sys) returns (acts: seq<Action>)
    requires Running(s)
    ensures forall k :: 0 <= k < |acts| ==> acts[k] == Orch
    ensures Exec(s, acts).pc.Idle? && (Running(Exec(s, acts)) || Judged(Exec(s, acts)))
    decreases Left(s)
  {
    hide Running, Judged, Do, DoOrch;
    if s.pc.Idle? {
      acts := [];
      NoActions(s);
    } else {
      OrchStep(s, n => n);
      OrchIs(s);
      var rest := [];
      if Running(DoOrch(s)) {
        rest := DriveToIdle(DoOrch(s));
      } else {
        NoActions(DoOrch(s));
      }
      StartWith(s, Orch, rest);
      acts := [Orch] + rest;
    }
  }

  lemma OrchIs(s: Sys)
    ensures Do(s, Orch) == DoOrch(s)
  {
  }

  /** Whatever happened before, a running strategy can be given its next round, or has its verdict on the way. */
  lemma RoundCanFollow(s: Sys, rank: nat -> nat) returns (acts: seq<Action>)
    requires Running(s)
    ensures AllPermitted(acts, rank) && (Round(s, acts) || JudgedBy(s, acts, |acts|))
  {
    hide Running, Judged, Exec, Do, DoOrch;
    var a := FinishAll(s, s.running);
    var t := Exec(s, a);
    var b := DriveToIdle(t);
    var u := Exec(t, b);
    ExecConcat(s, a, b);
    if Judged(u) {
      acts := a + b;
      assert acts[..|acts|] == acts;
      assert At(s, acts, |acts|) == u;
    } else {
      EnterTick(u, rank);
      OrchIs(u);
      var rest := DriveToIdle(DoOrch(u));
      StartWith(u, Orch, rest);
      var c := [Orch] + rest;
      ExecConcat(s, a + b, c);
      acts := a + b + c;
      assert acts[..|a + b|] == a + b && acts[..|acts|] == acts;
      forall w | w in s.running
        ensures exists k :: 0 <= k < |a| && Ends(acts[k], w)
      {
        var k :| 0 <= k < |a| && Ends(a[k], w);
        assert acts[k] == a[k];
      }
      assert WorkersEnd(s.running, acts, |a|);
      assert forall k :: |a + b| <= k < |acts| ==> acts[k] == Orch;
      assert WholeTick(s, acts, |a + b|, |acts|);
    }
    forall k | 0 <= k < |acts|
      ensures Permitted(acts[k], rank)
    {
      assert acts[k] == Orch || (acts[k].Finish? && acts[k] == AtOnce(acts[k].worker));
    }
  }
}
