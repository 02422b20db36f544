/** The initial-sync protocol of one subcloud. Several engines share the subcloud's database
    row and a database lock; dcmanager's updates, engine start-ups, crashes and retry timers
    come in between. Each verify-then-write is one action, and an action that is not enabled
    changes nothing. Accesses to different subclouds touch different rows and locks. */
module InitialSync {
  import opened Cloud

  datatype SyncState = SyncNone | Requested | InProgress | Completed | SyncFailed

  datatype Row = Row(managed: bool, online: bool, sync: SyncState)

  /** A thread of `_initial_sync_subcloud` inside its lock. `begun` is the number of requests
      made so far when the sync began. */
  datatype Phase = Holding | Syncing(begun: nat) | Leaving

  datatype Run = Run(engine: nat, phase: Phase)

  /** The green threads of all engines that concern the subcloud. A retry timer is known by its engine. */
  datatype Threads = Threads(runs: map<nat, Run>, timers: multiset<nat>)

  /** What happened so far; no action looks at it. `requests` counts the moves to `Requested`,
      `completedBy` is the `begun` of the run that wrote the latest completion, `deleting` says that
      del_subcloud has overwritten the management state, `lost` that a thread or a timer died before its
      work was done. */
  datatype History = History(requests: nat, completedBy: Option<nat>, deleting: bool, lost: bool)

  datatype Sys = Sys(row: Option<Row>, lock: Option<nat>, threads: Threads, history: History)

  datatype Action =
    | Add
    | StartDelete
    | Remove
    | Update(managed: bool, online: bool)
    | InitActions
    | Acquire(id: nat, engine: nat)
    | Begin(id: nat)
    | End(id: nat, ok: bool)
    | Fault(id: nat)
    | Release(id: nat)
    | Retry(engine: nat)
    | EngineDies(engine: nat)
    | Purge(engine: nat)

  // ---------------------------------------------------------------- the actions

  predicate SyncIs(s: Sys, state: SyncState) {
    s.row.Some? && s.row.value.sync == state
  }

  function WriteSync(s: Sys, state: SyncState): Sys
    requires s.row.Some?
  {
    s.(row := Some(s.row.value.(sync := state)),
       history := if state.Requested? then s.history.(requests := s.history.requests + 1) else s.history)
  }

  /** update_subcloud_states: an unchanged report is ignored, any other requests or cancels the sync. */
  function DoUpdate(s: Sys, managed: bool, online: bool): Sys {
    if s.row.None? || (s.row.value.managed == managed && s.row.value.online == online) then s
    else
      WriteSync(s.(row := Some(s.row.value.(managed := managed, online := online)), history := s.history.(deleting := false)),
                if managed && online then Requested else SyncNone)
  }

  function DoInitActions(s: Sys): Sys {
    if SyncIs(s, InProgress) || SyncIs(s, SyncFailed) then WriteSync(s, Requested) else s
  }

  predicate AtPhase(s: Sys, id: nat, holding: bool) {
    id in s.threads.runs && if holding then s.threads.runs[id].phase.Holding? else s.threads.runs[id].phase.Syncing?
  }

  function SetPhase(s: Sys, id: nat, phase: Phase): Sys
    requires id in s.threads.runs
  {
    s.(threads := s.threads.(runs := s.threads.runs[id := s.threads.runs[id].(phase := phase)]))
  }

  function DoAcquire(s: Sys, id: nat, engine: nat): Sys {
    if s.lock.Some? || id in s.threads.runs then s
    else s.(lock := Some(engine), threads := s.threads.(runs := s.threads.runs[id := Run(engine, Holding)]))
  }

  function DoBegin(s: Sys, id: nat): Sys {
    if !AtPhase(s, id, true) then s
    else if SyncIs(s, Requested) then SetPhase(WriteSync(s, InProgress), id, Syncing(s.history.requests))
    else SetPhase(s, id, Leaving)
  }

  function DoEnd(s: Sys, id: nat, ok: bool): Sys {
    if !AtPhase(s, id, false) then s
    else if !SyncIs(s, InProgress) then SetPhase(s, id, Leaving)
    else if ok then
      SetPhase(WriteSync(s, Completed).(history := s.history.(completedBy := Some(s.threads.runs[id].phase.begun))), id, Leaving)
    else
      StartTimer(SetPhase(WriteSync(s, SyncFailed), id, Leaving), s.threads.runs[id].engine)
  }

  function StartTimer(s: Sys, engine: nat): Sys {
    s.(threads := s.threads.(timers := s.threads.timers + multiset{engine}))
  }

  /** An exception of the database layer; the lock is released all the same. */
  function DoFault(s: Sys, id: nat): Sys {
    if id !in s.threads.runs then s else SetPhase(s, id, Leaving).(history := s.history.(lost := true))
  }

  /** The release names the subcloud, not the engine: it deletes whoever's lock is there. */
  function DoRelease(s: Sys, id: nat): Sys {
    if id !in s.threads.runs || !s.threads.runs[id].phase.Leaving? then s
    else s.(lock := None, threads := s.threads.(runs := s.threads.runs - {id}))
  }

  function DoRetry(s: Sys, engine: nat): Sys {
    if engine !in s.threads.timers then s
    else
      var t := s.(threads := s.threads.(timers := s.threads.timers - multiset{engine}));
      if SyncIs(s, SyncFailed) then WriteSync(t, Requested) else t
  }

  function DoEngineDies(s: Sys, engine: nat): Sys {
    s.(threads := Threads(map id | id in s.threads.runs && s.threads.runs[id].engine != engine :: s.threads.runs[id],
                          s.threads.timers[engine := 0]),
       history := s.history.(lost := true))
  }

  function DoPurge(s: Sys, engine: nat): Sys {
    if s.lock != Some(engine) then s else s.(lock := None)
  }

  /** del_subcloud first overwrites management and availability, and leaves the sync state. */
  function DoStartDelete(s: Sys): Sys {
    if s.row.None? then s
    else s.(row := Some(s.row.value.(managed := false, online := false)), history := s.history.(deleting := true))
  }

  function DoAdd(s: Sys): Sys {
    if s.row.Some? then s
    else s.(row := Some(Row(false, false, SyncNone)), history := s.history.(deleting := false))
  }

  function Do(s: Sys, a: Action): Sys {
    match a
    case Add => DoAdd(s)
    case StartDelete => DoStartDelete(s)
    case Remove => s.(row := None)
    case Update(managed, online) => DoUpdate(s, managed, online)
    case InitActions => DoInitActions(s)
    case Acquire(id, engine) => DoAcquire(s, id, engine)
    case Begin(id) => DoBegin(s, id)
    case End(id, ok) => DoEnd(s, id, ok)
    case Fault(id) => DoFault(s, id)
    case Release(id) => DoRelease(s, id)
    case Retry(engine) => DoRetry(s, engine)
    case EngineDies(engine) => DoEngineDies(s, engine)
    case Purge(engine) => DoPurge(s, engine)
  }

  function Exec(s: Sys, acts: seq<Action>): Sys {
    if acts == [] then s else Do(Exec(s, acts[..|acts| - 1]), acts[|acts| - 1])
  }

  lemma {:induction false} ExecConcat(s: Sys, a: seq<Action>, b: seq<Action>)
    ensures Exec(s, a + b) == Exec(Exec(s, a), b)
    decreases |b|
  {
    hide Do;
    if b == [] {
      assert a + b == a;
    } else {
      var i := |a + b| - 1;
      assert (a + b)[..i] == a + b[..|b| - 1] && (a + b)[i] == b[|b| - 1];
      ExecConcat(s, a, b[..|b| - 1]);
    }
  }

  lemma One(s: Sys, a: Action)
    ensures Exec(s, [a]) == Do(s, a)
  {
    hide Do;
    assert [a][..0] == [];
    assert Exec(s, [a][..0]) == s;
  }

  lemma Snoc(s: Sys, acts: seq<Action>, a: Action)
    ensures Exec(s, acts + [a]) == Do(Exec(s, acts), a)
  {
    One(Exec(s, acts), a);
    ExecConcat(s, acts, [a]);
  }

  lemma Two(s: Sys, acts: seq<Action>)
    requires |acts| == 2
    ensures Exec(s, acts) == Do(Do(s, acts[0]), acts[1])
  {
    hide Do;
    assert acts == [acts[0]] + [acts[1]];
    One(s, acts[0]);
    Snoc(s, [acts[0]], acts[1]);
  }

  lemma Three(s: Sys, acts: seq<Action>)
    requires |acts| == 3
    ensures Exec(s, acts) == Do(Do(Do(s, acts[0]), acts[1]), acts[2])
  {
    hide Do;
    assert acts == acts[..2] + [acts[2]];
    Two(s, acts[..2]);
    Snoc(s, acts[..2], acts[2]);
  }

  lemma Five(s: Sys, acts: seq<Action>)
    requires |acts| == 5
    ensures Exec(s, acts) == Do(Do(Do(Do(Do(s, acts[0]), acts[1]), acts[2]), acts[3]), acts[4])
  {
    hide Do;
    assert acts == acts[..3] + [acts[3]] + [acts[4]];
    Three(s, acts[..3]);
    Snoc(s, acts[..3], acts[3]);
    Snoc(s, acts[..3] + [acts[3]], acts[4]);
  }

  /** Nothing is known of the subcloud yet. */
  function Fresh(): Sys {
    Sys(None, None, Threads(map[], multiset{}), History(0, None, false, false))
  }

  // ---------------------------------------------------------------- reports

  /** Only a report that differs from the stored row does anything: it is stored, and the sync is requested if the
      subcloud is managed and online by it, and called off otherwise. */
  lemma ReportsExactly(s: Sys, managed: bool, online: bool)
    ensures var t := Exec(s, [Update(managed, online)]);
      && t.lock == s.lock && t.threads == s.threads && t.history.completedBy == s.history.completedBy && t.history.lost == s.history.lost
      && (s.row.Some? && (s.row.value.managed != managed || s.row.value.online != online) ==>
            && t.row == Some(Row(managed, online, if managed && online then Requested else SyncNone))
            && t.history.requests == s.history.requests + (if managed && online then 1 else 0)
            && !t.history.deleting)
      && (s.row.None? || (s.row.value.managed == managed && s.row.value.online == online) ==> t == s)
  {
    One(s, Update(managed, online));
    hide Exec;
  }

  /** In the middle of any run, repeating a report changes nothing, in particular not the sync that it asked for. */
  lemma RepeatedReport(s: Sys, managed: bool, online: bool, after: seq<Action>)
    ensures Exec(s, [Update(managed, online)] + [Update(managed, online)] + after) == Exec(s, [Update(managed, online)] + after)
  {
    var u := [Update(managed, online)];
    ReportsExactly(s, managed, online);
    ReportsExactly(Exec(s, u), managed, online);
    ExecConcat(s, u, u);
    ExecConcat(s, u + u, after);
    ExecConcat(s, u, after);
  }

  // ---------------------------------------------------------------- the invariant

  /** The lock works: one thread at a time, and the lock is its engine's. */
  ghost predicate Exclusive(s: Sys) {
    && (forall a, b :: a in s.threads.runs && b in s.threads.runs ==> a == b)
    && (forall id :: id in s.threads.runs ==> s.lock == Some(s.threads.runs[id].engine))
  }

  /** A sync in progress belongs to the latest request, and so does a completed one. */
  ghost predicate Current(s: Sys) {
    && (SyncIs(s, InProgress) ==>
          forall id :: AtPhase(s, id, false) ==> s.threads.runs[id].phase.begun == s.history.requests)
    && (SyncIs(s, Completed) ==> s.history.completedBy == Some(s.history.requests))
  }

  /** There is a sync state exactly for a managed, online subcloud. */
  ghost predicate Matched(s: Sys) {
    s.row.Some? ==>
      && (s.history.deleting ==> !s.row.value.managed && !s.row.value.online)
      && (!s.history.deleting ==> (s.row.value.sync != SyncNone <==> s.row.value.managed && s.row.value.online))
  }

  /** Whatever must still happen has somebody to do it. */
  ghost predicate Attended(s: Sys) {
    && (SyncIs(s, InProgress) ==> exists id :: AtPhase(s, id, false))
    && (SyncIs(s, SyncFailed) ==> s.threads.timers != multiset{})
    && (s.lock.Some? ==> s.threads.runs != map[])
  }

  /** A run syncs for a request that was made, and so did the one that wrote the latest completion. */
  ghost predicate Counted(s: Sys) {
    && (forall id :: AtPhase(s, id, false) ==> s.threads.runs[id].phase.begun <= s.history.requests)
    && (SyncIs(s, Completed) ==> s.history.completedBy.Some? && s.history.completedBy.value <= s.history.requests)
  }

  /** What holds in every run. */
  ghost predicate Good(s: Sys) {
    Matched(s) && Counted(s) && (!s.history.lost ==> Attended(s))
  }

  predicate Lives(s: Sys, engine: nat) {
    exists id :: id in s.threads.runs && s.threads.runs[id].engine == engine
  }

  /** The action deletes the lock of an engine that has a thread under way. */
  predicate PurgesLive(s: Sys, a: Action) {
    a.Purge? && s.lock == Some(a.engine) && Lives(s, a.engine)
  }

  predicate NoLivePurge(s: Sys, acts: seq<Action>) {
    acts == [] || (NoLivePurge(s, acts[..|acts| - 1]) && !PurgesLive(Exec(s, acts[..|acts| - 1]), acts[|acts| - 1]))
  }

  ghost predicate NoPurges(acts: seq<Action>) {
    forall k :: 0 <= k < |acts| ==> !acts[k].Purge?
  }

  lemma {:induction false} NoPurgeIsLive(s: Sys, acts: seq<Action>)
    requires NoPurges(acts)
    ensures NoLivePurge(s, acts)
    decreases |acts|
  {
    hide Do, Exec;
    if acts != [] {
      NoPurgeIsLive(s, acts[..|acts| - 1]);
    }
  }

  lemma NotLive(s: Sys, a: Action)
    requires !PurgesLive(s, a)
    ensures NoLivePurge(s, [a]) && Exec(s, [a]) == Do(s, a)
  {
    One(s, a);
    assert [a][..0] == [];
    assert Exec(s, []) == s;
  }

  lemma {:induction false} Concat(s: Sys, a: seq<Action>, b: seq<Action>)
    requires NoLivePurge(s, a) && NoLivePurge(Exec(s, a), b)
    ensures NoLivePurge(s, a + b) && Exec(s, a + b) == Exec(Exec(s, a), b)
    decreases |b|
  {
    hide Do, PurgesLive;
    ExecConcat(s, a, b);
    if b == [] {
      assert a + b == a;
    } else {
      var i := |a + b| - 1;
      assert (a + b)[..i] == a + b[..|b| - 1] && (a + b)[i] == b[|b| - 1];
      Concat(s, a, b[..|b| - 1]);
    }
  }

  lemma NoNewThread(s: Sys, a: Action)
    requires !a.Acquire?
    ensures Do(s, a).threads.runs.Keys <= s.threads.runs.Keys
    ensures forall id :: id in Do(s, a).threads.runs ==> Do(s, a).threads.runs[id].engine == s.threads.runs[id].engine
    ensures !a.Release? && !a.Purge? ==> Do(s, a).lock == s.lock
  {
  }

  lemma ExclusiveKept(s: Sys, a: Action)
    requires Exclusive(s) && !PurgesLive(s, a)
    ensures Exclusive(Do(s, a))
  {
    if a.Acquire? {
      assert s.lock.None? ==> s.threads.runs == map[];
    } else {
      NoNewThread(s, a);
      hide Do;
      if a.Release? {
        assert Do(s, a) == DoRelease(s, a.id) by { Releases(s, a.id); }
      } else if a.Purge? {
        assert Do(s, a) == DoPurge(s, a.engine) by { Purges(s, a.engine); }
      }
    }
  }

  lemma Releases(s: Sys, id: nat)
    ensures Do(s, Release(id)) == DoRelease(s, id)
  {
  }

  lemma Purges(s: Sys, engine: nat)
    ensures Do(s, Purge(engine)) == DoPurge(s, engine)
  {
  }

  lemma CurrentKept(s: Sys, a: Action)
    requires Exclusive(s) && Current(s)
    ensures Current(Do(s, a))
  {
    var t := Do(s, a);
    if SyncIs(t, InProgress) {
      forall id | AtPhase(t, id, false)
        ensures t.threads.runs[id].phase.begun == t.history.requests
      {
        if !a.Begin? {
          assert AtPhase(s, id, false);
        }
      }
    }
  }

  lemma CountedKept(s: Sys, a: Action)
    requires Counted(s)
    ensures Counted(Do(s, a))
  {
    var t := Do(s, a);
    forall id | AtPhase(t, id, false)
      ensures t.threads.runs[id].phase.begun <= t.history.requests
    {
      if !(a.Begin? && a.id == id) {
        assert AtPhase(s, id, false);
      }
    }
  }

  lemma SyncAttended(s: Sys, a: Action)
    requires Attended(s) && !Do(s, a).history.lost && SyncIs(Do(s, a), InProgress)
    ensures exists id :: AtPhase(Do(s, a), id, false)
  {
    if a.Begin? && AtPhase(s, a.id, true) && SyncIs(s, Requested) {
      assert AtPhase(Do(s, a), a.id, false);
    } else {
      var id :| AtPhase(s, id, false);
      assert AtPhase(Do(s, a), id, false);
    }
  }

  lemma TimerAttended(s: Sys, a: Action)
    requires Attended(s) && !Do(s, a).history.lost && SyncIs(Do(s, a), SyncFailed)
    ensures Do(s, a).threads.timers != multiset{}
  {
    if a.End? && !SyncIs(s, SyncFailed) {
      assert s.threads.runs[a.id].engine in Do(s, a).threads.timers;
    }
  }

  lemma LockAttended(s: Sys, a: Action)
    requires Attended(s) && !Do(s, a).history.lost && Do(s, a).lock.Some?
    ensures Do(s, a).threads.runs != map[]
  {
    if a.Acquire? && s.lock.None? {
      assert a.id in Do(s, a).threads.runs;
    } else {
      var id :| id in s.threads.runs;
      assert id in Do(s, a).threads.runs;
    }
  }

  lemma AttendedKept(s: Sys, a: Action)
    requires Attended(s) && !Do(s, a).history.lost
    ensures Attended(Do(s, a))
  {
    hide AtPhase, Do;
    if SyncIs(Do(s, a), InProgress) {
      SyncAttended(s, a);
    }
    if SyncIs(Do(s, a), SyncFailed) {
      TimerAttended(s, a);
    }
    if Do(s, a).lock.Some? {
      LockAttended(s, a);
    }
  }

  lemma MatchedKept(s: Sys, a: Action)
    requires Matched(s)
    ensures Matched(Do(s, a))
  {
  }

  lemma LostStays(s: Sys, a: Action)
    ensures s.history.lost ==> Do(s, a).history.lost
  {
  }

  lemma {:induction false} RunsAreGood(acts: seq<Action>)
    ensures Good(Exec(Fresh(), acts))
    decreases |acts|
  {
    if acts != [] {
      hide Do, Matched, Counted, Attended;
      var s := Exec(Fresh(), acts[..|acts| - 1]);
      var a := acts[|acts| - 1];
      RunsAreGood(acts[..|acts| - 1]);
      MatchedKept(s, a);
      CountedKept(s, a);
      LostStays(s, a);
      if !Do(s, a).history.lost {
        AttendedKept(s, a);
      }
    }
  }

  // ---------------------------------------------------------------- what every run keeps

  lemma {:induction false} StaysExclusive(s: Sys, acts: seq<Action>)
    requires Exclusive(s) && Current(s) && NoLivePurge(s, acts)
    ensures Exclusive(Exec(s, acts)) && Current(Exec(s, acts))
    decreases |acts|
  {
    hide Do, Exclusive, Current, PurgesLive;
    if acts != [] {
      StaysExclusive(s, acts[..|acts| - 1]);
      ExclusiveKept(Exec(s, acts[..|acts| - 1]), acts[|acts| - 1]);
      CurrentKept(Exec(s, acts[..|acts| - 1]), acts[|acts| - 1]);
    }
  }

  /** From any state in which the lock works and nothing is outdated, over all interleavings in which no running
      thread's lock is purged: a completed sync was begun after the latest request, and no
      two threads sync at once. */
  lemma CompletedIsFresh(s: Sys, acts: seq<Action>)
    requires Exclusive(s) && Current(s) && NoLivePurge(s, acts)
    ensures var t := Exec(s, acts);
      && (SyncIs(t, Completed) ==> t.history.completedBy == Some(t.history.requests))
      && (forall a, b :: a in t.threads.runs && b in t.threads.runs ==> a == b)
  {
    StaysExclusive(s, acts);
  }

  /** The first such state, and any in which no thread is under way and the sync has not completed. */
  lemma LockWorks(s: Sys)
    requires s == Fresh() || (s.threads.runs == map[] && !SyncIs(s, Completed))
    ensures Exclusive(s) && Current(s)
  {
  }

  /** The sync state is something other than `none` exactly while the subcloud is managed and
      online, until del_subcloud overwrites those two. */
  lemma SyncMeansReady(acts: seq<Action>)
    requires Exec(Fresh(), acts).row.Some?
    ensures var s := Exec(Fresh(), acts); var ready := s.row.value.managed && s.row.value.online;
      (s.row.value.sync != SyncNone <==> ready) <==> !(s.history.deleting && s.row.value.sync != SyncNone)
  {
    RunsAreGood(acts);
  }

  /** While no thread or timer dies, whatever locks are purged: a sync in progress has a live thread, a failed one a
      pending timer, and a held lock a thread that will release it. */
  lemma NothingIsForgotten(acts: seq<Action>)
    requires !Exec(Fresh(), acts).history.lost
    ensures Attended(Exec(Fresh(), acts))
  {
    RunsAreGood(acts);
  }

  /** The sync has completed, but for an older request than the latest. */
  predicate Stale(s: Sys) {
    SyncIs(s, Completed) && s.history.completedBy.Some? && s.history.completedBy.value < s.history.requests
  }

  const NewRequest := [Add, Update(false, false), Update(true, true)]

  lemma Requests(s: Sys)
    ensures var t := Exec(s, NewRequest);
      && t.row == Some(Row(true, true, Requested)) && t.lock == s.lock && t.threads == s.threads
      && t.history.requests == s.history.requests + 1
  {
    Three(s, NewRequest);
    var t := Do(Do(s, Add), Update(false, false));
    assert t.row.Some? && !(t.row.value.managed && t.row.value.online);
    assert t.lock == s.lock && t.threads == s.threads && t.history.requests == s.history.requests;
  }

  lemma {:induction false} AnotherId(ids: set<nat>) returns (n: nat)
    ensures n !in ids && forall id :: id in ids ==> id < n
    decreases |ids|
  {
    n := 0;
    if ids != {} {
      var id :| id in ids;
      var m := AnotherId(ids - {id});
      n := if id < m then m else id + 1;
      forall x | x in ids
        ensures x < n
      {
        assert x == id || x in ids - {id};
      }
    }
  }

  /** A thread without a lock syncs while another begins for a newer request. */
  lemma SyncingGoesStale(s: Sys, id: nat) returns (acts: seq<Action>)
    requires s.lock.None? && AtPhase(s, id, false) && s.threads.runs[id].phase.begun <= s.history.requests
    ensures NoPurges(acts) && Stale(Exec(s, acts))
  {
    var n := AnotherId(s.threads.runs.Keys);
    var others := [Acquire(n, 0), Begin(n), End(id, true)];
    acts := NewRequest + others;
    ExecConcat(s, NewRequest, others);
    Requests(s);
    var t := Exec(s, NewRequest);
    Three(t, others);
    hide Exec;
    var u := Do(Do(t, Acquire(n, 0)), Begin(n));
    assert SyncIs(u, InProgress) && u.threads.runs[id] == s.threads.runs[id] && u.history == t.history;
    assert Stale(Do(u, End(id, true)));
  }

  lemma HoldingGoesStale(s: Sys, id: nat) returns (acts: seq<Action>)
    requires s.lock.None? && AtPhase(s, id, true)
    ensures NoPurges(acts) && Stale(Exec(s, acts))
  {
    var begins := NewRequest + [Begin(id)];
    Requests(s);
    Snoc(s, NewRequest, Begin(id));
    hide Exec;
    var t := Exec(s, begins);
    var rest := SyncingGoesStale(t, id);
    acts := begins + rest;
    ExecConcat(s, begins, rest);
  }

  /** It releases the lock that another thread has just acquired. */
  lemma LeavingGoesStale(s: Sys, id: nat) returns (acts: seq<Action>)
    requires s.lock.None? && id in s.threads.runs && s.threads.runs[id].phase.Leaving?
    ensures NoPurges(acts) && Stale(Exec(s, acts))
  {
    var n := AnotherId(s.threads.runs.Keys);
    var first := [Acquire(n, 0), Release(id)];
    Two(s, first);
    hide Exec;
    var rest := HoldingGoesStale(Exec(s, first), n);
    acts := first + rest;
    ExecConcat(s, first, rest);
  }

  lemma UnlockedGoesStale(s: Sys, id: nat) returns (acts: seq<Action>)
    requires Counted(s) && s.lock.None? && id in s.threads.runs
    ensures NoLivePurge(s, acts) && Stale(Exec(s, acts))
  {
    hide Exec, Stale;
    match s.threads.runs[id].phase {
      case Holding => acts := HoldingGoesStale(s, id);
      case Syncing(_) => acts := SyncingGoesStale(s, id);
      case Leaving => acts := LeavingGoesStale(s, id);
    }
    NoPurgeIsLive(s, acts);
  }

  /** The second thread runs to its end and takes the lock with it. */
  lemma TwoGoStale(s: Sys, a: nat, b: nat) returns (acts: seq<Action>)
    requires Counted(s) && a in s.threads.runs && b in s.threads.runs && a != b
    ensures NoLivePurge(s, acts) && Stale(Exec(s, acts))
  {
    var first := ToItsEnd(b);
    Three(s, first);
    ThreadEnds(s, b);
    CountedKept(s, first[0]);
    CountedKept(Do(s, first[0]), first[1]);
    CountedKept(Do(Do(s, first[0]), first[1]), first[2]);
    hide Do, Exec, Counted, Stale;
    var rest := UnlockedGoesStale(Exec(s, first), a);
    NoPurgeIsLive(s, first);
    acts := first + rest;
    Concat(s, first, rest);
  }

  /** The lock of an engine without threads is purged. */
  lemma ForeignGoesStale(s: Sys, id: nat) returns (acts: seq<Action>)
    requires Counted(s) && id in s.threads.runs && s.lock.Some? && !Lives(s, s.lock.value)
    ensures NoLivePurge(s, acts) && Stale(Exec(s, acts))
  {
    var purge := Purge(s.lock.value);
    CountedKept(s, purge);
    NotLive(s, purge);
    hide Exec, Counted, Stale;
    var rest := UnlockedGoesStale(Exec(s, [purge]), id);
    acts := [purge] + rest;
    Concat(s, [purge], rest);
  }

  lemma NotExclusiveGoesStale(s: Sys) returns (acts: seq<Action>)
    requires Counted(s) && !Exclusive(s)
    ensures NoLivePurge(s, acts) && Stale(Exec(s, acts))
  {
    hide Exec, Stale, Counted, NoLivePurge;
    if a, b :| a in s.threads.runs && b in s.threads.runs && a != b {
      acts := TwoGoStale(s, a, b);
    } else {
      var id :| id in s.threads.runs && s.lock != Some(s.threads.runs[id].engine);
      if s.lock.None? {
        acts := UnlockedGoesStale(s, id);
      } else {
        acts := ForeignGoesStale(s, id);
      }
    }
  }

  /** A thread that began too early completes, if the completion is not stale already. */
  lemma NotCurrentGoesStale(s: Sys) returns (acts: seq<Action>)
    requires Counted(s) && !Current(s)
    ensures NoLivePurge(s, acts) && Stale(Exec(s, acts))
  {
    acts := [];
    if SyncIs(s, InProgress) {
      var id :| AtPhase(s, id, false) && s.threads.runs[id].phase.begun != s.history.requests;
      acts := [End(id, true)];
      One(s, End(id, true));
    }
    NoPurgeIsLive(s, acts);
  }

  lemma NeverStale(s: Sys, acts: seq<Action>)
    requires Exclusive(s) && Current(s) && NoLivePurge(s, acts)
    ensures !Stale(Exec(s, acts))
  {
    StaysExclusive(s, acts);
    hide Exec;
  }

  /** After every run, whatever locks were purged: from here on a stale completion is possible without a further
      live purge exactly if the lock does not work, or something is outdated. */
  lemma StaleCompletionExactly(before: seq<Action>)
    ensures var s := Exec(Fresh(), before);
      (exists acts :: NoLivePurge(s, acts) && Stale(Exec(s, acts))) <==> !(Exclusive(s) && Current(s))
  {
    hide Exec, Matched, Attended, Counted, NoLivePurge, Stale, Exclusive, Current;
    RunsAreGood(before);
    var s := Exec(Fresh(), before);
    if Exclusive(s) && Current(s) {
      forall acts | NoLivePurge(s, acts)
        ensures !Stale(Exec(s, acts))
      {
        NeverStale(s, acts);
      }
    } else {
      var acts: seq<Action>;
      if Exclusive(s) {
        acts := NotCurrentGoesStale(s);
      } else {
        acts := NotExclusiveGoesStale(s);
      }
      assert NoLivePurge(s, acts) && Stale(Exec(s, acts));
    }
  }

  /** One action leads there exactly by purging the lock of a running thread. */
  lemma PurgeBreaksExactly(before: seq<Action>, a: Action)
    requires var s := Exec(Fresh(), before); Exclusive(s) && Current(s)
    ensures var s := Exec(Fresh(), before);
      (exists acts :: NoLivePurge(Do(s, a), acts) && Stale(Exec(Do(s, a), acts))) <==> PurgesLive(s, a)
  {
    var s := Exec(Fresh(), before);
    Snoc(Fresh(), before, a);
    StaleCompletionExactly(before + [a]);
    hide Exec;
    if PurgesLive(s, a) {
      var id :| id in s.threads.runs && s.threads.runs[id].engine == a.engine;
      assert id in Do(s, a).threads.runs && Do(s, a).lock.None?;
    } else {
      hide Do, Exclusive, Current;
      ExclusiveKept(s, a);
      CurrentKept(s, a);
    }
  }

  /** Engine 7's thread has begun request 1 and does not hold its lock any more. */
  function Unlocked(): Sys {
    Sys(Some(Row(true, true, InProgress)), None, Threads(map[0 := Run(7, Syncing(1))], multiset{}),
        History(1, None, false, false))
  }

  lemma LoseTheLock()
    ensures Exec(Fresh(), [Add, Update(true, true), Acquire(0, 7), Begin(0), Purge(7)]) == Unlocked()
  {
    var a := [Add, Update(true, true), Acquire(0, 7), Begin(0), Purge(7)];
    Five(Fresh(), a);
    var s1 := Do(Do(Fresh(), Add), Update(true, true));
    assert s1 == Sys(Some(Row(true, true, Requested)), None, Threads(map[], multiset{}), History(1, None, false, false));
    var s2 := Do(s1, Acquire(0, 7));
    assert s2 == s1.(lock := Some(7), threads := Threads(map[0 := Run(7, Holding)], multiset{}));
    var s3 := Do(s2, Begin(0));
    assert s3 == Sys(Some(Row(true, true, InProgress)), Some(7), Threads(map[0 := Run(7, Syncing(1))], multiset{}), s1.history);
    assert 0 in s3.threads.runs && Lives(s3, 7);
  }

  /** A run in which that happens: the thread completes the sync of a newer request. */
  lemma PurgeAllowsStaleCompletion()
    ensures exists acts :: Stale(Exec(Fresh(), acts))
  {
    var a := [Add, Update(true, true), Acquire(0, 7), Begin(0), Purge(7)];
    LoseTheLock();
    hide Exec, Stale;
    var b := SyncingGoesStale(Unlocked(), 0);
    ExecConcat(Fresh(), a, b);
    assert Stale(Exec(Fresh(), a + b));
  }

  /** A sync that is under way when del_subcloud starts completes on an unmanaged subcloud. */
  lemma DeleteKeepsTheSync()
    ensures exists acts :: var s := Exec(Fresh(), acts);
      SyncIs(s, Completed) && !s.row.value.managed && !s.row.value.online && NoLivePurge(Fresh(), acts) && !s.history.lost
  {
    var a := [Add, Update(true, true), Acquire(0, 7), Begin(0), StartDelete];
    var s1 := Do(Do(Fresh(), Add), Update(true, true));
    var s2 := Do(Do(s1, Acquire(0, 7)), Begin(0));
    var s3 := Do(s2, StartDelete);
    var s4 := Do(s3, End(0, true));
    assert SyncIs(s4, Completed) && !s4.row.value.managed;
    hide Do;
    Five(Fresh(), a);
    One(s3, End(0, true));
    ExecConcat(Fresh(), a, [End(0, true)]);
    NoPurgeIsLive(Fresh(), a + [End(0, true)]);
    assert Exec(Fresh(), a + [End(0, true)]) == s4;
  }

  // ---------------------------------------------------------------- recovery

  /** What the engines do by themselves: no report from dcmanager, no deletion, no further fault. */
  predicate Internal(a: Action) {
    a.InitActions? || a.Acquire? || a.Begin? || a.End? || a.Release? || a.Retry? || a.Purge?
  }

  ghost predicate AllInternal(acts: seq<Action>) {
    forall i :: 0 <= i < |acts| ==> Internal(acts[i])
  }

  predicate Ready(s: Sys) {
    s.row.Some? && s.row.value.managed && s.row.value.online && s.row.value.sync != SyncNone
  }

  function ToItsEnd(id: nat): seq<Action> {
    [Begin(id), End(id, true), Release(id)]
  }

  lemma ThreadEnds(s: Sys, id: nat)
    requires id in s.threads.runs
    ensures var t := Do(Do(Do(s, Begin(id)), End(id, true)), Release(id));
      t.lock.None? && t.threads.runs.Keys == s.threads.runs.Keys - {id} && (Ready(s) ==> Ready(t))
  {
    var s1 := Do(s, Begin(id));
    assert s1.threads.runs.Keys == s.threads.runs.Keys && !s1.threads.runs[id].phase.Holding? && (Ready(s) ==> Ready(s1));
    var s2 := Do(s1, End(id, true));
    assert s2.threads.runs.Keys == s.threads.runs.Keys && s2.threads.runs[id].phase.Leaving? && (Ready(s) ==> Ready(s2));
  }

  lemma ThreadDrains(s: Sys, id: nat)
    requires Ready(s) && id in s.threads.runs
    ensures var acts := ToItsEnd(id); var t := Exec(s, acts);
      AllInternal(acts) && NoLivePurge(s, acts) && Ready(t) && t.threads.runs.Keys == s.threads.runs.Keys - {id}
  {
    Three(s, ToItsEnd(id));
    ThreadEnds(s, id);
    hide Do, Exec, NoLivePurge;
    NoPurgeIsLive(s, ToItsEnd(id));
  }

  /** All threads in the lock, however many, run to their ends. */
  lemma {:induction false} Drain(s: Sys) returns (acts: seq<Action>)
    requires Ready(s)
    ensures AllInternal(acts) && NoLivePurge(s, acts)
    ensures Ready(Exec(s, acts)) && Exec(s, acts).threads.runs == map[]
    decreases s.threads.runs.Keys
  {
    acts := [];
    if s.threads.runs != map[] {
      hide Exec, Ready, NoLivePurge, ToItsEnd;
      var id :| id in s.threads.runs;
      ThreadDrains(s, id);
      var rest := Drain(Exec(s, ToItsEnd(id)));
      acts := ToItsEnd(id) + rest;
      Concat(s, ToItsEnd(id), rest);
    }
  }

  /** A dead engine's lock is purged, and the engines start up. */
  lemma StartUp(s: Sys) returns (acts: seq<Action>)
    requires Ready(s) && s.threads.runs == map[]
    ensures AllInternal(acts) && NoLivePurge(s, acts)
    ensures var t := Exec(s, acts);
      (SyncIs(t, Requested) || SyncIs(t, Completed)) && t.lock.None? && t.threads.runs == map[]
  {
    var purge := Purge(if s.lock.Some? then s.lock.value else 0);
    acts := [purge] + [InitActions];
    Two(s, acts);
    var t := Do(s, purge);
    assert t.lock.None? && t.row == s.row && t.threads == s.threads;
    hide Exec, NoLivePurge;
    NotLive(s, purge);
    NoPurgeIsLive(t, [InitActions]);
    Concat(s, [purge], [InitActions]);
  }

  function Round(): seq<Action> {
    [Acquire(0, 0), Begin(0), End(0, true)]
  }

  lemma SyncsFrom(t: Sys)
    requires SyncIs(t, Requested) && t.lock.None? && t.threads.runs == map[]
    ensures SyncIs(Exec(t, Round()), Completed)
  {
    Three(t, Round());
    var s1 := Do(Do(t, Acquire(0, 0)), Begin(0));
    assert SyncIs(s1, InProgress) && AtPhase(s1, 0, false);
  }

  /** However a run went, even with several threads inside the lock: engines that go on, start up, purge dead engines'
      locks and sync again can complete the initial sync of every managed, online subcloud. */
  lemma SyncCanComplete(before: seq<Action>)
    requires var s := Exec(Fresh(), before); s.row.Some? && s.row.value.managed && s.row.value.online
    ensures var s := Exec(Fresh(), before);
      exists acts :: AllInternal(acts) && NoLivePurge(s, acts) && SyncIs(Exec(s, acts), Completed)
  {
    RunsAreGood(before);
    var s := Exec(Fresh(), before);
    hide Do, Exec, Counted, Attended;
    var a := Drain(s);
    var b := StartUp(Exec(s, a));
    Concat(s, a, b);
    var t := Exec(s, a + b);
    if SyncIs(t, Requested) {
      SyncsFrom(t);
      NoPurgeIsLive(t, Round());
      Concat(s, a + b, Round());
      assert AllInternal(a + b + Round());
    }
  }
}
