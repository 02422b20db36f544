/** The initial sync as it is written: methods over the subcloud rows and locks of all
    subclouds. Each is proved to take, on the subcloud it names, the steps of the machine in
    InitialSync, whatever happens between its database accesses, and to leave the others alone. */
module InitialSyncManager {
  import opened Cloud
  import opened InitialSync

  /** What may happen while the thread `id` of `engine` is between two accesses. */
  predicate Meanwhile(a: Action, id: nat, engine: nat) {
    match a
    case Acquire(i, _) => i != id
    case Begin(i) => i != id
    case End(i, _) => i != id
    case Fault(i) => i != id
    case Release(i) => i != id
    case EngineDies(e) => e != engine
    case _ => true
  }

  predicate AllMeanwhile(acts: seq<Action>, id: nat, engine: nat) {
    forall k :: 0 <= k < |acts| ==> Meanwhile(acts[k], id, engine)
  }

  /** Only the thread itself, or the death of its engine, changes where a thread stands. */
  lemma {:induction false} ThreadKept(s: Sys, acts: seq<Action>, id: nat, engine: nat)
    requires AllMeanwhile(acts, id, engine)
    requires id in s.threads.runs && s.threads.runs[id].engine == engine
    ensures id in Exec(s, acts).threads.runs && Exec(s, acts).threads.runs[id] == s.threads.runs[id]
    decreases |acts|
  {
    if acts != [] {
      hide Do;
      var i := |acts| - 1;
      ThreadKept(s, acts[..i], id, engine);
      ThreadStays(Exec(s, acts[..i]), acts[i], id, engine);
    }
  }

  lemma ThreadStays(s: Sys, a: Action, id: nat, engine: nat)
    requires Meanwhile(a, id, engine)
    requires id in s.threads.runs && s.threads.runs[id].engine == engine
    ensures id in Do(s, a).threads.runs && Do(s, a).threads.runs[id] == s.threads.runs[id]
  {
  }

  /** One subcloud in one of the two loops of init_actions. */
  function Reset(s: Sys, from: SyncState): Sys {
    if SyncIs(s, from) then WriteSync(s, Requested) else s
  }

  /** What one thread that gets the lock does, between the actions of the others. */
  function Script(id: nat, engine: nat, ok: bool, during: seq<seq<Action>>): seq<Action>
    requires |during| == 3
  {
    [Acquire(id, engine)] + during[0] + [Begin(id)] + during[1] + [End(id, ok)] + during[2] + [Release(id)]
  }

  lemma ScriptIs(s: Sys, id: nat, engine: nat, ok: bool, during: seq<seq<Action>>)
    requires |during| == 3
    ensures Exec(s, Script(id, engine, ok, during)) ==
      Do(Exec(Do(Exec(Do(Exec(Do(s, Acquire(id, engine)), during[0]), Begin(id)), during[1]), End(id, ok)), during[2]), Release(id))
  {
    hide Do, Exec;
    var a := [Acquire(id, engine)];
    var b := a + during[0] + [Begin(id)];
    var c := b + during[1] + [End(id, ok)];
    One(s, Acquire(id, engine));
    ExecConcat(s, a, during[0]);
    Snoc(s, a + during[0], Begin(id));
    ExecConcat(s, b, during[1]);
    Snoc(s, b + during[1], End(id, ok));
    ExecConcat(s, c, during[2]);
    Snoc(s, c + during[2], Release(id));
  }

  /** A thread that gets the lock and that nobody disturbs completes or fails the sync, if it is requested, and leaves
      the lock free. */
  lemma UndisturbedSync(s: Sys, id: nat, engine: nat, ok: bool)
    requires s.lock.None? && id !in s.threads.runs
    ensures var t := Exec(s, Script(id, engine, ok, [[], [], []]));
      && t.lock.None? && t.threads.runs == s.threads.runs
      && t.row == (if s.row.Some? && s.row.value.sync == Requested
           then Some(s.row.value.(sync := if ok then Completed else SyncFailed)) else s.row)
      && t.threads.timers == s.threads.timers
           + (if s.row.Some? && s.row.value.sync == Requested && !ok then multiset{engine} else multiset{})
      && t.history.requests == s.history.requests
  {
    hide Do;
    ScriptIs(s, id, engine, ok, [[], [], []]);
    Acquires(s, id, engine);
    Begins(Do(s, Acquire(id, engine)), id);
    Ends(Do(Do(s, Acquire(id, engine)), Begin(id)), id, ok);
    hide Exec;
    Releases(Do(Do(Do(s, Acquire(id, engine)), Begin(id)), End(id, ok)), id);
    assert s.threads.runs[id := Run(engine, Leaving)] - {id} == s.threads.runs;
  }

  lemma Acquires(s: Sys, id: nat, engine: nat)
    requires s.lock.None? && id !in s.threads.runs
    ensures Do(s, Acquire(id, engine)) == s.(lock := Some(engine), threads := s.threads.(runs := s.threads.runs[id := Run(engine, Holding)]))
  {
  }

  lemma Begins(s: Sys, id: nat)
    requires AtPhase(s, id, true)
    ensures Do(s, Begin(id)) ==
      if SyncIs(s, Requested) then
        s.(row := Some(s.row.value.(sync := InProgress)),
           threads := s.threads.(runs := s.threads.runs[id := s.threads.runs[id].(phase := Syncing(s.history.requests))]))
      else s.(threads := s.threads.(runs := s.threads.runs[id := s.threads.runs[id].(phase := Leaving)]))
  {
  }

  lemma Ends(s: Sys, id: nat, ok: bool)
    requires id in s.threads.runs && !s.threads.runs[id].phase.Holding?
    requires s.threads.runs[id].phase.Syncing? ==> SyncIs(s, InProgress)
    ensures var t := Do(s, End(id, ok));
      if s.threads.runs[id].phase.Leaving? then t == s
      else
        && t.row == Some(s.row.value.(sync := if ok then Completed else SyncFailed)) && t.lock == s.lock
        && t.threads.runs == s.threads.runs[id := s.threads.runs[id].(phase := Leaving)]
        && t.threads.timers == s.threads.timers + (if ok then multiset{} else multiset{s.threads.runs[id].engine})
        && t.history.requests == s.history.requests
  {
  }

  lemma Releases(s: Sys, id: nat)
    requires id in s.threads.runs && s.threads.runs[id].phase.Leaving?
    ensures Do(s, Release(id)) == s.(lock := None, threads := s.threads.(runs := s.threads.runs - {id}))
  {
  }

  lemma NotAcquired(s: Sys, id: nat, engine: nat)
    ensures s.lock.Some? ==> Do(s, Acquire(id, engine)) == s
  {
  }

  lemma BeginIs(s: Sys, id: nat)
    requires AtPhase(s, id, true)
    ensures Do(s, Begin(id)) == DoBegin(s, id) && id in DoBegin(s, id).threads.runs
    ensures DoBegin(s, id).threads.runs[id].engine == s.threads.runs[id].engine
    ensures DoBegin(s, id).threads.runs[id].phase == if SyncIs(s, Requested) then Syncing(s.history.requests) else Leaving
  {
  }

  lemma EndIs(s: Sys, id: nat, ok: bool)
    requires id in s.threads.runs && !s.threads.runs[id].phase.Holding?
    ensures Do(s, End(id, ok)) == DoEnd(s, id, ok) && id in DoEnd(s, id, ok).threads.runs
    ensures DoEnd(s, id, ok).threads.runs[id] == s.threads.runs[id].(phase := Leaving)
    ensures s.threads.runs[id].phase.Leaving? ==> DoEnd(s, id, ok) == s
  {
  }

  lemma RowKept(s: Sys, a: Action)
    requires a.Fault? || a.EngineDies? || a.Purge?
    ensures Do(s, a).row == s.row && (Do(s, a).lock.None? || Do(s, a).lock == s.lock)
  {
  }

  lemma ThreadsDisturbed(s: Sys, a: Action)
    requires a.Fault? || a.EngineDies? || a.Purge?
    ensures var before := s.threads; var after := Do(s, a).threads;
      && (a.Purge? ==> after == before)
      && (a.Fault? ==> after == if a.id in before.runs then before.(runs := before.runs[a.id := Run(before.runs[a.id].engine, Leaving)]) else before)
      && (a.EngineDies? ==>
            && (forall id :: id in after.runs <==> id in before.runs && before.runs[id].engine != a.engine)
            && (forall id :: id in after.runs ==> after.runs[id] == before.runs[id])
            && after.timers == before.timers[a.engine := 0])
    ensures Do(s, a).lock == if a.Purge? && s.lock == Some(a.engine) then None else s.lock
  {
  }

  lemma InitActionsOf(s: Sys)
    ensures DoInitActions(s) == if SyncIs(s, InProgress) || SyncIs(s, SyncFailed) then WriteSync(s, Requested) else s
  {
  }

  class InitialSyncManager {
    // the database
    var rows: map<string, Row>
    var locks: map<string, nat>
    // where the green threads of all engines stand, and what happened so far
    var threads: map<string, Threads>
    var history: map<string, History>

    function Model(name: string): Sys
      reads this
    {
      Sys(if name in rows then Some(rows[name]) else None,
          if name in locks then Some(locks[name]) else None,
          if name in threads then threads[name] else Fresh().threads,
          if name in history then history[name] else Fresh().history)
    }

    twostate predicate OthersKept(name: string)
      reads this
    {
      forall r {:trigger Model(r)} :: r != name ==> Model(r) == old(Model(r))
    }

    constructor ()
      ensures forall name :: Model(name) == Fresh()
    {
      rows, locks, threads, history := map[], map[], map[], map[];
    }

    // -------------------------------------------------------------- the state store

    /** Only the arguments that are given are compared. */
    method SubcloudStateMatches(name: string, managed: Option<bool>, online: Option<bool>, sync: Option<SyncState>)
      returns (matching: Option<bool>)
      ensures matching.None? <==> name !in rows
      ensures matching.Some? ==> (matching.value <==>
        && (managed.Some? ==> rows[name].managed == managed.value)
        && (online.Some? ==> rows[name].online == online.value)
        && (sync.Some? ==> rows[name].sync == sync.value))
    {
      if name !in rows {
        return None;
      }
      var sc := rows[name];
      var m := true;
      if managed.Some? {
        if sc.managed != managed.value {
          m := false;
        }
      }
      if m && online.Some? {
        if sc.online != online.value {
          m := false;
        }
      }
      if m && sync.Some? {
        if sc.sync != sync.value {
          m := false;
        }
      }
      matching := Some(m);
    }

    /** Only the arguments that are given are written. */
    method UpdateSubcloudState(name: string, managed: Option<bool>, online: Option<bool>, sync: Option<SyncState>)
      returns (found: bool)
      modifies this`rows, this`history
      ensures found == (name in old(rows)) && (!found ==> rows == old(rows) && history == old(history))
      ensures found ==>
        && rows == old(rows)[name := Row(
             if managed.Some? then managed.value else old(rows)[name].managed,
             if online.Some? then online.value else old(rows)[name].online,
             if sync.Some? then sync.value else old(rows)[name].sync)]
        && history == (if sync == Some(Requested)
             then old(history)[name := old(Model(name)).history.(requests := old(Model(name)).history.requests + 1)]
             else old(history))
    {
      if name !in rows {
        return false;
      }
      var sc := rows[name];
      if managed.Some? {
        sc := sc.(managed := managed.value);
      }
      if online.Some? {
        sc := sc.(online := online.value);
      }
      if sync.Some? {
        sc := sc.(sync := sync.value);
      }
      var h := Model(name).history;
      rows := rows[name := sc];
      if sync == Some(Requested) {
        history := history[name := h.(requests := h.requests + 1)];
      }
      found := true;
    }

    // -------------------------------------------------------------- dcmanager's requests

    method UpdateSubcloudStates(name: string, managed: bool, online: bool)
      modifies this
      ensures Model(name) == Do(old(Model(name)), Update(managed, online)) && OthersKept(name)
      ensures name !in old(rows) || (old(rows)[name].managed == managed && old(rows)[name].online == online) ==>
        rows == old(rows) && history == old(history)
      ensures name in old(rows) && (old(rows)[name].managed != managed || old(rows)[name].online != online) ==>
        && rows == old(rows)[name := Row(managed, online, if managed && online then Requested else SyncNone)]
        && Model(name).history.requests == old(Model(name)).history.requests + (if managed && online then 1 else 0)
      ensures locks == old(locks) && threads == old(threads)
    {
      var same := SubcloudStateMatches(name, Some(managed), Some(online), None);
      if same != Some(false) {
        return;
      }
      var h := Model(name).history;
      if managed && online {
        var _ := UpdateSubcloudState(name, Some(managed), Some(online), Some(Requested));
      } else {
        var _ := UpdateSubcloudState(name, Some(managed), Some(online), Some(SyncNone));
      }
      history := history[name := Model(name).history.(deleting := false)];
    }

    method AddSubcloud(name: string)
      modifies this
      ensures Model(name) == Do(old(Model(name)), Add) && OthersKept(name)
      ensures rows == (if name in old(rows) then old(rows) else old(rows)[name := Row(false, false, SyncNone)])
    {
      if name !in rows {
        history := history[name := Model(name).history.(deleting := false)];
        rows := rows[name := Row(false, false, SyncNone)];
      }
    }

    /** The first half of del_subcloud. */
    method StartDeletion(name: string)
      modifies this
      ensures Model(name) == Do(old(Model(name)), StartDelete) && OthersKept(name)
      ensures rows == if name in old(rows) then old(rows)[name := Row(false, false, old(rows)[name].sync)] else old(rows)
    {
      var found := UpdateSubcloudState(name, Some(false), Some(false), None);
      if found {
        history := history[name := Model(name).history.(deleting := true)];
      }
    }

    method RemoveSubcloud(name: string)
      modifies this
      ensures Model(name) == Do(old(Model(name)), Remove) && OthersKept(name)
      ensures rows == old(rows) - {name} && locks == old(locks) && threads == old(threads)
    {
      rows := rows - {name};
    }

    // -------------------------------------------------------------- start-up of an engine

    method InitActionsOnce(from: SyncState)
      requires from.InProgress? || from.SyncFailed?
      modifies this
      ensures forall r {:trigger Model(r)} :: Model(r) == Reset(old(Model(r)), from)
      ensures rows.Keys == old(rows).Keys && locks == old(locks) && threads == old(threads)
      ensures forall r :: r in old(rows) ==> rows[r] == if old(rows)[r].sync == from then old(rows)[r].(sync := Requested) else old(rows)[r]
    {
      var todo := set r | r in rows && rows[r].sync == from;
      ghost var before := todo;
      while todo != {}
        invariant todo <= before
        invariant forall r {:trigger Model(r)} :: r in before <==> SyncIs(old(Model(r)), from)
        invariant forall r {:trigger Model(r)} :: 
          Model(r) == (if r in before && r !in todo then Reset(old(Model(r)), from) else old(Model(r)))
        invariant rows.Keys == old(rows).Keys && locks == old(locks) && threads == old(threads)
        invariant forall r :: r in old(rows) ==>
          rows[r] == if r in before && r !in todo then old(rows)[r].(sync := Requested) else old(rows)[r]
        decreases |todo|
      {
        var name :| name in todo;
        ResetOne(name, from);
        todo := todo - {name};
      }
    }

    method ResetOne(name: string, from: SyncState)
      requires SyncIs(Model(name), from)
      modifies this
      ensures Model(name) == Reset(old(Model(name)), from) && OthersKept(name)
      ensures rows == old(rows)[name := old(rows)[name].(sync := Requested)] && locks == old(locks) && threads == old(threads)
    {
      var _ := UpdateSubcloudState(name, None, None, Some(Requested));
    }

    /** All subclouds whose sync was under way or had failed must sync again. */
    method InitActionsAll()
      modifies this
      ensures forall r {:trigger Model(r)} :: Model(r) == Do(old(Model(r)), InitActions)
      ensures rows.Keys == old(rows).Keys && locks == old(locks) && threads == old(threads)
      ensures forall r :: r in old(rows) ==>
        rows[r] == if old(rows)[r].sync == InProgress || old(rows)[r].sync == SyncFailed then old(rows)[r].(sync := Requested) else old(rows)[r]
    {
      InitActionsOnce(InProgress);
      InitActionsOnce(SyncFailed);
    }

    // -------------------------------------------------------------- the lock

    method SyncLockAcquire(name: string, id: nat, engine: nat) returns (acquired: bool)
      requires id !in Model(name).threads.runs
      modifies this
      ensures Model(name) == Do(old(Model(name)), Acquire(id, engine)) && OthersKept(name)
      ensures acquired == (name !in old(locks)) == old(Model(name)).lock.None?
      ensures rows == old(rows) && locks == if acquired then old(locks)[name := engine] else old(locks)
      ensures acquired ==> id in Model(name).threads.runs && Model(name).threads.runs[id] == Run(engine, Holding)
    {
      if name in locks {
        return false;
      }
      var t := Model(name).threads;
      locks := locks[name := engine];
      threads := threads[name := t.(runs := t.runs[id := Run(engine, Holding)])];
      acquired := true;
    }

    method SyncLockRelease(name: string, id: nat)
      requires id in Model(name).threads.runs && Model(name).threads.runs[id].phase.Leaving?
      modifies this
      ensures Model(name) == Do(old(Model(name)), Release(id)) && OthersKept(name)
      ensures rows == old(rows) && locks == old(locks) - {name} && id !in Model(name).threads.runs
    {
      locks := locks - {name};
      threads := threads[name := threads[name].(runs := threads[name].runs - {id})];
    }

    // -------------------------------------------------------------- the thread

    /** Up to the write of `in-progress`. */
    method BeginSync(name: string, id: nat) returns (begun: bool)
      requires AtPhase(Model(name), id, true)
      modifies this
      ensures Model(name) == DoBegin(old(Model(name)), id) && OthersKept(name)
      ensures begun == old(SyncIs(Model(name), Requested)) == (name in old(rows) && old(rows)[name].sync == Requested)
      ensures rows == (if begun then old(rows)[name := old(rows)[name].(sync := InProgress)] else old(rows)) && locks == old(locks)
    {
      var matches := SubcloudStateMatches(name, None, None, Some(Requested));
      begun := matches == Some(true);
      if !begun {
        SetThread(name, id, Leaving);
        return;
      }
      var found := UpdateSubcloudState(name, None, None, Some(InProgress));
      assert Model(name) == WriteSync(old(Model(name)), InProgress);
      SetThread(name, id, Syncing(Model(name).history.requests));
    }

    /** From the second verification to the last write of the function. */
    method EndSync(name: string, id: nat, ok: bool)
      requires AtPhase(Model(name), id, false)
      modifies this
      ensures Model(name) == DoEnd(old(Model(name)), id, ok) && OthersKept(name)
      ensures locks == old(locks)
      ensures var mine := name in old(rows) && old(rows)[name].sync == InProgress;
        && rows == (if mine then old(rows)[name := old(rows)[name].(sync := if ok then Completed else SyncFailed)] else old(rows))
        && Model(name).threads.timers == old(Model(name)).threads.timers
             + (if mine && !ok then multiset{old(Model(name)).threads.runs[id].engine} else multiset{})
    {
      var newState := if ok then Completed else SyncFailed;
      var thread := Model(name).threads.runs[id];
      var matches := SubcloudStateMatches(name, None, None, Some(InProgress));
      if matches == Some(true) {
        var found := UpdateSubcloudState(name, None, None, Some(newState));
        assert Model(name) == WriteSync(old(Model(name)), newState);
        if newState == Completed {
          history := history[name := Model(name).history.(completedBy := Some(thread.phase.begun))];
          SetThread(name, id, Leaving);
        } else {
          SetThread(name, id, Leaving);
          ReattemptLater(name, thread.engine);
        }
      } else {
        SetThread(name, id, Leaving);
      }
    }

    method ReattemptLater(name: string, engine: nat)
      modifies this`threads
      ensures Model(name) == StartTimer(old(Model(name)), engine) && OthersKept(name)
    {
      threads := threads[name := StartTimer(Model(name), engine).threads];
    }

    method SetThread(name: string, id: nat, phase: Phase)
      requires id in Model(name).threads.runs
      modifies this`threads
      ensures Model(name) == SetPhase(old(Model(name)), id, phase) && OthersKept(name)
    {
      threads := threads[name := SetPhase(Model(name), id, phase).threads];
    }

    /** The retry timer fires. */
    method ReattemptSync(name: string, engine: nat)
      requires engine in Model(name).threads.timers
      modifies this
      ensures Model(name) == DoRetry(old(Model(name)), engine) && OthersKept(name)
      ensures rows == (if name in old(rows) && old(rows)[name].sync == SyncFailed then old(rows)[name := old(rows)[name].(sync := Requested)] else old(rows))
      ensures locks == old(locks) && Model(name).threads.timers == old(Model(name)).threads.timers - multiset{engine}
    {
      hide WriteSync;
      TimerFires(name, engine);
      var matches := SubcloudStateMatches(name, None, None, Some(SyncFailed));
      if matches != Some(true) {
        return;
      }
      Request(name);
    }

    method Request(name: string)
      requires name in rows
      modifies this
      ensures Model(name) == WriteSync(old(Model(name)), Requested) && OthersKept(name)
      ensures rows == old(rows)[name := old(rows)[name].(sync := Requested)] && locks == old(locks) && threads == old(threads)
    {
      var found := UpdateSubcloudState(name, None, None, Some(Requested));
    }

    method TimerFires(name: string, engine: nat)
      modifies this`threads
      ensures Model(name) == old(Model(name)).(threads := old(Model(name)).threads.(timers := old(Model(name)).threads.timers - multiset{engine}))
      ensures OthersKept(name)
    {
      var t := Model(name).threads;
      threads := threads[name := t.(timers := t.timers - multiset{engine})];
    }

    // -------------------------------------------------------------- interference

    /** An engine dies, a thread hits an exception or a lock is purged, as this subcloud sees it. */
    method Disturb(name: string, a: Action)
      requires a.Fault? || a.EngineDies? || a.Purge?
      modifies this
      ensures Model(name) == Do(old(Model(name)), a) && OthersKept(name) && rows == old(rows)
      ensures locks == if a.Purge? && name in old(locks) && old(locks)[name] == a.engine then old(locks) - {name} else old(locks)
      ensures var before := old(Model(name)).threads; var after := Model(name).threads;
        && (a.Purge? ==> after == before)
        && (a.Fault? ==> after == if a.id in before.runs then before.(runs := before.runs[a.id := Run(before.runs[a.id].engine, Leaving)]) else before)
        && (a.EngineDies? ==>
              && (forall id :: id in after.runs <==> id in before.runs && before.runs[id].engine != a.engine)
              && (forall id :: id in after.runs ==> after.runs[id] == before.runs[id])
              && after.timers == before.timers[a.engine := 0])
    {
      hide Do;
      var after := Do(Model(name), a);
      RowKept(Model(name), a);
      ThreadsDisturbed(Model(name), a);
      if after.lock.None? {
        locks := locks - {name};
      }
      threads, history := threads[name := after.threads], history[name := after.history];
    }

    /** Any action of anybody, by the method that performs it. */
    method Perform(name: string, a: Action)
      modifies this
      ensures Model(name) == Do(old(Model(name)), a) && OthersKept(name)
    {
      hide DoUpdate, DoInitActions, WriteSync, SetPhase, StartTimer;
      match a {
        case Add => AddSubcloud(name);
        case StartDelete => StartDeletion(name);
        case Remove => RemoveSubcloud(name);
        case Update(managed, online) => UpdateSubcloudStates(name, managed, online);
        case InitActions =>
          InitActionsOf(Model(name));
          if SyncIs(Model(name), InProgress) || SyncIs(Model(name), SyncFailed) {
            Request(name);
          }
        case Acquire(id, engine) =>
          if id !in Model(name).threads.runs {
            var _ := SyncLockAcquire(name, id, engine);
          }
        case Begin(id) =>
          if AtPhase(Model(name), id, true) {
            var _ := BeginSync(name, id);
          }
        case End(id, ok) =>
          if AtPhase(Model(name), id, false) {
            EndSync(name, id, ok);
          }
        case Release(id) =>
          if id in Model(name).threads.runs && Model(name).threads.runs[id].phase.Leaving? {
            SyncLockRelease(name, id);
          }
        case Retry(engine) =>
          if engine in Model(name).threads.timers {
            ReattemptSync(name, engine);
          }
        case _ => Disturb(name, a);
      }
    }

    method Interfere(name: string, acts: seq<Action>)
      modifies this
      ensures Model(name) == Exec(old(Model(name)), acts) && OthersKept(name)
    {
      hide Do;
      var i := 0;
      ghost var before := Model(name);
      assert acts[..0] == [];
      while i < |acts|
        invariant 0 <= i <= |acts|
        invariant Model(name) == Exec(before, acts[..i]) && OthersKept(name)
      {
        Perform(name, acts[i]);
        assert acts[..i + 1] == acts[..i] + [acts[i]];
        Snoc(before, acts[..i], acts[i]);
        i := i + 1;
      }
      assert acts[..i] == acts;
    }

    /** The decorated `_initial_sync_subcloud`, with anything the others do between its accesses.
        `during` has their actions before the first verification, while the subcloud is
        synchronized, and before the release; `ok` says whether the work succeeds. */
    method InitialSyncSubcloud(name: string, id: nat, engine: nat, ok: bool, during: seq<seq<Action>>) returns (acquired: bool)
      requires id !in Model(name).threads.runs
      requires |during| == 3 && forall k :: 0 <= k < 3 ==> AllMeanwhile(during[k], id, engine)
      modifies this
      ensures acquired == (name !in old(locks)) && OthersKept(name)
      ensures Model(name) == if acquired then Exec(old(Model(name)), Script(id, engine, ok, during)) else old(Model(name))
      ensures acquired && during == [[], [], []] ==>
        && name !in locks
        && (name in rows <==> name in old(rows))
        && (name in rows ==> rows[name] == if old(rows)[name].sync == Requested
             then old(rows)[name].(sync := if ok then Completed else SyncFailed) else old(rows)[name])
    {
      hide Do, Exec, Model;
      ghost var s0 := Model(name);
      acquired := SyncLockAcquire(name, id, engine);
      if !acquired {
        NotAcquired(s0, id, engine);
        return;
      }
      ghost var s1 := Model(name);
      Interfere(name, during[0]);
      ThreadKept(s1, during[0], id, engine);
      ghost var s2 := Model(name);
      var begun := BeginSync(name, id);
      BeginIs(s2, id);
      ghost var s3 := Model(name);
      Interfere(name, during[1]);
      ThreadKept(s3, during[1], id, engine);
      ghost var s4 := Model(name);
      if begun {
        EndSync(name, id, ok);
      }
      EndIs(s4, id, ok);
      ghost var s5 := Model(name);
      Interfere(name, during[2]);
      ThreadKept(s5, during[2], id, engine);
      SyncLockRelease(name, id);
      ScriptIs(s0, id, engine, ok, during);
      if during == [[], [], []] {
        RowsAndLocks(name);
        UndisturbedSync(s0, id, engine, ok);
      }
    }

    twostate lemma RowsAndLocks(name: string)
      ensures Model(name).row == if name in rows then Some(rows[name]) else None
      ensures old(Model(name)).row == if name in old(rows) then Some(old(rows)[name]) else None
      ensures Model(name).lock.None? <==> name !in locks
      ensures old(Model(name)).lock.None? <==> name !in old(locks)
    {
    }
  }
}
