/** The handlers that update statuses, alarms, management state and availability, as they are
    written. Each is proved to take the steps of the machine in SubcloudState, whatever the
    other handlers do between its database accesses. */
module SubcloudStateManager {
  import opened Cloud
  import opened SubcloudState

  /** What can happen while a status update holds the lock. */
  predicate Unlocked(acts: seq<Action>) {
    forall k :: 0 <= k < |acts| ==> acts[k].WriteManaged? || acts[k].WriteOnline?
  }

  lemma {:induction false} HolderKept(s: Sys, acts: seq<Action>)
    requires Unlocked(acts)
    ensures Exec(s, acts).pending == s.pending
    decreases |acts|
  {
    if acts != [] {
      HolderKept(s, acts[..|acts| - 1]);
    }
  }

  /** One status update, with what happens while it holds the lock. */
  function UpdateScript(u: Update, during: seq<Action>): seq<Action> {
    [Begin(u)] + during + [Commit]
  }

  /** Becoming available or unavailable, with what happens in the gaps. */
  function AvailabilityScript(online: bool, during: seq<Action>, gap: seq<Action>): seq<Action> {
    (if online then [] else UpdateScript(MuteAll(), during)) + gap + [WriteOnline(online)]
  }

  /** Accepted management, with what happens in the gaps. */
  function ManagedScript(managed: bool, informed: bool, gap: seq<seq<Action>>): seq<Action>
    requires |gap| == 4
  {
    WriteBack(managed, informed, gap) + (if managed == informed then [] else UpdateScript(Mute(), gap[3]))
  }

  /** Up to the moment the management state is settled; it is rolled back if dcorch cannot be informed. */
  function WriteBack(managed: bool, informed: bool, gap: seq<seq<Action>>): seq<Action>
    requires |gap| == 4
  {
    gap[0] + [WriteManaged(managed)] + gap[1] + (if informed then [] else [WriteManaged(!managed)]) + gap[2]
  }

  /** Without anything in the gaps, the handlers are the atomic ones. */
  lemma NoGaps(s: Sys, managed: bool, force: bool, deployed: bool, informed: bool, online: bool)
    ensures Check(s, managed, force, deployed) == Ok ==>
      ManagedScript(managed, informed, [[], [], [], []]) == Script(s, SetManaged(managed, force, deployed, informed))
    ensures AvailabilityScript(online, [], []) == Script(s, SetOnline(online))
  {
    if Check(s, managed, force, deployed) == Ok {
      assert WriteBack(managed, informed, [[], [], [], []]) ==
        [WriteManaged(managed)] + (if informed then [] else [WriteManaged(!managed)]);
    }
    assert UpdateScript(MuteAll(), []) == [Begin(MuteAll())] + [Commit];
    assert UpdateScript(Mute(), []) == [Begin(Mute())] + [Commit];
  }

  class SubcloudStateManager {
    var managed: bool
    var online: bool
    var statuses: map<Endpoint, SyncStatus>
    // the fault manager's out-of-sync alarms of the subcloud
    var alarms: set<Endpoint>
    // the lock, and what its holder has read
    var pending: Option<Pending>

    function Model(): Sys
      reads this
    {
      Sys(managed, online, statuses, alarms, pending)
    }

    constructor (endpoints: set<Endpoint>)
      ensures Model() == Fresh(endpoints)
    {
      managed, online, alarms, pending := false, false, {}, None;
      statuses := map e | e in endpoints :: Unknown;
    }

    // -------------------------------------------------------------- one status update

    method RaiseOrClearAlarm(e: Endpoint, status: SyncStatus, alarmable: bool)
      modifies this`alarms
      ensures alarms == if status == OutOfSync && (e in old(alarms) || alarmable) then old(alarms) + {e} else old(alarms) - {e}
    {
      var fault := e in alarms;
      if status != OutOfSync && fault {
        alarms := alarms - {e};
      } else if !fault && alarmable && status == OutOfSync {
        alarms := alarms + {e};
      }
    }

    /** One endpoint; false if the subcloud has no row for it. */
    method UpdateOne(e: Endpoint, u: Update) returns (found: bool)
      requires u.endpoint == Some(e)
      modifies this`statuses, this`alarms
      ensures Model() == Apply(old(Model()), u)
      ensures found == (e in old(statuses))
      ensures statuses == if found then old(statuses)[e := u.status] else old(statuses)
      ensures alarms == if !found || old(statuses)[e] == u.status then old(alarms)
        else if u.status == OutOfSync && (e in old(alarms) || u.alarmable) then old(alarms) + {e} else old(alarms) - {e}
    {
      ghost var after := Apply(Model(), u);
      found := e in statuses;
      if !found || statuses[e] == u.status {
        assert after.statuses == statuses && after.alarms == alarms;
        return;
      }
      statuses := statuses[e := u.status];
      assert after.statuses == statuses;
      RaiseOrClearAlarm(e, u.status, u.alarmable);
    }

    /** All endpoints but the ignored ones: the alarms one by one, then the rows together. */
    method UpdateMany(u: Update)
      requires u.endpoint.None?
      modifies this`statuses, this`alarms
      ensures Model() == Apply(old(Model()), u)
      ensures statuses == map e | e in old(statuses) :: if e in u.ignored then old(statuses)[e] else u.status
      ensures forall e :: e in alarms <==>
        if e in old(statuses) && e !in u.ignored then u.status == OutOfSync && (e in old(alarms) || u.alarmable) else e in old(alarms)
    {
      hide AlarmsDone, Apply;
      ghost var before := Model();
      var todo := statuses.Keys;
      var endpointToUpdateList := [];
      NoAlarmDone(before, u);
      while todo != {}
        invariant todo <= statuses.Keys && statuses == before.statuses
        invariant forall e :: e in endpointToUpdateList <==> e in statuses.Keys - todo && e !in u.ignored
        invariant AlarmsDone(before, u, todo, alarms)
        decreases |todo|
      {
        var e :| e in todo;
        AlarmTurn(before, u, todo, alarms, e);
        todo := todo - {e};
        if e !in u.ignored {
          endpointToUpdateList := endpointToUpdateList + [e];
          RaiseOrClearAlarm(e, u.status, u.alarmable);
        }
      }
      statuses := map e | e in statuses :: if e in endpointToUpdateList then u.status else statuses[e];
      AllAlarmsDone(before, u, alarms);
      RowsTogether(before, u, endpointToUpdateList);
      ManyAlarms(before, u);
    }

    /** The decorated function up to the guard: the lock is taken and the row is read. */
    method BeginUpdate(u: Update)
      modifies this`pending
      ensures Model() == Do(old(Model()), Begin(u))
    {
      if pending.Some? {
        return;
      }
      var allowed := u.status != InSync || (online && (managed || u.endpoint == Some(DcCert)));
      pending := Some(Pending(u, allowed));
    }

    /** From the guard to the release of the lock; false if an endpoint is asked for that is not there. */
    method CommitUpdate() returns (found: bool)
      modifies this`statuses, this`alarms, this`pending
      ensures Model() == Do(old(Model()), Commit)
      ensures found == (old(pending).Some? && old(pending).value.allowed && old(pending).value.update.endpoint.Some?
        ==> old(pending).value.update.endpoint.value in old(statuses))
    {
      hide Apply;
      found := true;
      if pending.Some? {
        var u := pending.value.update;
        var allowed := pending.value.allowed;
        pending := None;
        ApplyIgnoresLock(old(Model()), u);
        if allowed {
          if u.endpoint.Some? {
            found := UpdateOne(u.endpoint.value, u);
          } else {
            UpdateMany(u);
          }
        }
      }
    }

    // -------------------------------------------------------------- interference

    method Perform(a: Action)
      modifies this
      ensures Model() == Do(old(Model()), a)
    {
      hide Apply;
      match a {
        case Begin(u) => BeginUpdate(u);
        case Commit => var _ := CommitUpdate();
        case WriteManaged(m) => managed := m;
        case WriteOnline(o) => online := o;
      }
    }

    method Interfere(acts: seq<Action>)
      modifies this
      ensures Model() == Exec(old(Model()), acts)
    {
      hide Do;
      var i := 0;
      ghost var before := Model();
      assert acts[..0] == [];
      while i < |acts|
        invariant 0 <= i <= |acts|
        invariant Model() == Exec(before, acts[..i])
      {
        Perform(acts[i]);
        assert acts[..i + 1] == acts[..i] + [acts[i]];
        Snoc(before, acts[..i], acts[i]);
        i := i + 1;
      }
      assert acts[..i] == acts;
    }

    // -------------------------------------------------------------- the handlers

    /** The update waits for the lock; `during` comes between its read and its writes. */
    method UpdateSubcloudEndpointStatus(u: Update, during: seq<Action>) returns (found: bool)
      requires pending.None? && Unlocked(during)
      modifies this
      ensures Model() == Exec(old(Model()), UpdateScript(u, during)) && pending.None?
      ensures found == (u.endpoint.Some? && (u.status == InSync ==> old(online) && (old(managed) || u.endpoint == Some(DcCert)))
        ==> u.endpoint.value in old(statuses))
      ensures statuses.Keys == old(statuses).Keys
      ensures forall e :: e in old(statuses) ==>
        statuses[e] == if (u.endpoint == Some(e) || (u.endpoint == None && e !in u.ignored))
            && (u.status == InSync ==> old(online) && (old(managed) || u.endpoint == Some(DcCert)))
          then u.status else old(statuses)[e]
      ensures forall e :: e in alarms <==>
        if e in old(statuses) && (u.endpoint == Some(e) || (u.endpoint == None && e !in u.ignored))
          && (u.status == InSync ==> old(online) && (old(managed) || u.endpoint == Some(DcCert)))
          && (u.endpoint == Some(e) ==> old(statuses)[e] != u.status)
        then u.status == OutOfSync && (e in old(alarms) || u.alarmable) else e in old(alarms)
    {
      hide Exec, Do, Apply;
      ghost var s := Model();
      BeginUpdate(u);
      ghost var held := Model();
      BeginIs(s, u);
      Interfere(during);
      HolderKept(held, during);
      RowsKept(held, during);
      ghost var last := Model();
      found := CommitUpdate();
      CommitFrees(last);
      One(s, Begin(u));
      ExecConcat(s, [Begin(u)], during);
      Snoc(s, [Begin(u)] + during, Commit);
      CommitEffect(s, held, last, u);
    }

    method UpdateSubcloudAvailability(online: bool, during: seq<Action>, gap: seq<Action>)
      requires pending.None? && Unlocked(during)
      modifies this
      ensures Model() == Exec(old(Model()), AvailabilityScript(online, during, gap))
      ensures this.online == online
      ensures gap == [] ==> statuses.Keys == old(statuses).Keys
      ensures gap == [] ==> forall e :: e in old(statuses) ==> statuses[e] == if online then old(statuses)[e] else Unknown
      ensures gap == [] ==> alarms == if online then old(alarms) else old(alarms) - old(statuses).Keys
    {
      hide Exec, Do, Apply;
      ghost var s := Model();
      ghost var acts := if online then [] else UpdateScript(MuteAll(), during);
      if !online {
        var _ := UpdateSubcloudEndpointStatus(MuteAll(), during);
      } else {
        Nothing(s);
      }
      ghost var muted := Model();
      Interfere(gap);
      ExecConcat(s, acts, gap);
      Nothing(muted);
      OnlineIs(Model(), online);
      Perform(WriteOnline(online));
      Snoc(s, acts + gap, WriteOnline(online));
    }

    /** `informed` says whether dcorch accepts the new state, `deployed` whether the deployment is
        complete or prestaged. The lock is free again when the statuses are to be set. */
    method UpdateSubcloud(managementState: bool, force: bool, deployed: bool, informed: bool, gap: seq<seq<Action>>)
      returns (reply: Reply)
      requires |gap| == 4 && Unlocked(gap[3])
      requires Exec(Model(), WriteBack(managementState, informed, gap)).pending.None?
      modifies this
      ensures (reply == AlreadyUnmanaged <==> !managementState && !old(managed))
        && (reply == AlreadyManaged <==> managementState && old(managed))
        && (reply == NotDeployed <==> managementState && !old(managed) && !force && !deployed)
        && (reply == NotOnline <==> managementState && !old(managed) && !force && deployed && !old(online))
      ensures reply == Ok && gap == [[], [], [], []] ==>
        && managed == (if informed then managementState else old(managed)) && online == old(online)
        && statuses.Keys == old(statuses).Keys
        && (forall e :: e in old(statuses) ==> statuses[e] == if !managed && e != DcCert then Unknown else old(statuses)[e])
        && (forall e :: e in alarms <==> e in old(alarms) && !(!managed && e in old(statuses) && e != DcCert))
      ensures Model() == if reply == Ok then Exec(old(Model()), ManagedScript(managementState, informed, gap)) else old(Model())
    {
      hide Exec, Do, Apply;
      ghost var s := Model();
      var originalManagementState := managed;
      if !managementState {
        if !managed {
          return AlreadyUnmanaged;
        }
      } else if managed {
        return AlreadyManaged;
      } else if !force {
        if !deployed {
          return NotDeployed;
        }
        if !online {
          return NotOnline;
        }
      }
      var newState := managementState;
      Interfere(gap[0]);
      Perform(WriteManaged(newState));
      Snoc(s, gap[0], WriteManaged(managementState));
      Interfere(gap[1]);
      ghost var done := gap[0] + [WriteManaged(managementState)];
      ExecConcat(s, done, gap[1]);
      done := done + gap[1];
      if !informed {
        newState := originalManagementState;
        Perform(WriteManaged(newState));
        Snoc(s, done, WriteManaged(!managementState));
        done := done + [WriteManaged(!managementState)];
      } else {
        assert done == done + [];
      }
      Interfere(gap[2]);
      ExecConcat(s, done, gap[2]);
      assert done + gap[2] == WriteBack(managementState, informed, gap);
      if !newState {
        var _ := UpdateSubcloudEndpointStatus(Mute(), gap[3]);
        ExecConcat(s, WriteBack(managementState, informed, gap), UpdateScript(Mute(), gap[3]));
      } else {
        assert ManagedScript(managementState, informed, gap) == WriteBack(managementState, informed, gap);
      }
      reply := Ok;
      if gap == [[], [], [], []] {
        HolderKept(s, WriteBack(managementState, informed, gap));
        NoGaps(s, managementState, force, deployed, informed, false);
        UpdateOrRollBack(s, managementState, force, deployed, informed);
      }
    }
  }

  // ---------------------------------------------------------------- the loop over the endpoints

  /** The alarms when all endpoints but those in `todo` have been dealt with. */
  predicate AlarmsDone(before: Sys, u: Update, todo: set<Endpoint>, alarms: set<Endpoint>) {
    forall e :: e in alarms <==> if e in todo then e in before.alarms else AlarmAfter(before, u, e)
  }

  lemma NoAlarmDone(before: Sys, u: Update)
    ensures AlarmsDone(before, u, before.statuses.Keys, before.alarms)
  {
  }

  lemma AlarmTurn(before: Sys, u: Update, todo: set<Endpoint>, alarms: set<Endpoint>, e: Endpoint)
    requires u.endpoint.None? && AlarmsDone(before, u, todo, alarms) && todo <= before.statuses.Keys && e in todo
    ensures e in u.ignored ==> AlarmsDone(before, u, todo - {e}, alarms)
    ensures e !in u.ignored ==>
      AlarmsDone(before, u, todo - {e}, if u.status == OutOfSync && (e in alarms || u.alarmable) then alarms + {e} else alarms - {e})
  {
  }

  lemma AllAlarmsDone(before: Sys, u: Update, alarms: set<Endpoint>)
    requires AlarmsDone(before, u, {}, alarms)
    ensures alarms == Apply(before, u).alarms
  {
  }

  lemma ManyAlarms(before: Sys, u: Update)
    requires u.endpoint.None?
    ensures forall e :: e in Apply(before, u).alarms <==>
      if e in before.statuses && e !in u.ignored then u.status == OutOfSync && (e in before.alarms || u.alarmable) else e in before.alarms
  {
  }

  lemma RowsTogether(before: Sys, u: Update, list: seq<Endpoint>)
    requires u.endpoint.None? && forall e :: e in list <==> e in before.statuses && e !in u.ignored
    ensures Apply(before, u).statuses == map e | e in before.statuses :: if e in list then u.status else before.statuses[e]
    ensures Apply(before, u) == before.(statuses := Apply(before, u).statuses, alarms := Apply(before, u).alarms)
  {
  }

  // ---------------------------------------------------------------- unfolding one access

  lemma ApplyIgnoresLock(s: Sys, u: Update)
    ensures Apply(s.(pending := None), u) == Apply(s, u).(pending := None)
  {
  }

  lemma BeginIs(s: Sys, u: Update)
    requires s.pending.None?
    ensures Do(s, Begin(u)) == s.(pending := Some(Pending(u, Allowed(s, u))))
  {
  }

  lemma OnlineIs(s: Sys, online: bool)
    ensures Do(s, WriteOnline(online)) == s.(online := online)
  {
  }

  lemma ManagedIs(s: Sys, managed: bool)
    ensures Do(s, WriteManaged(managed)) == s.(managed := managed)
  {
  }

  lemma CommitFrees(s: Sys)
    ensures Do(s, Commit).pending.None?
  {
  }

  /** What is written was decided by the row as it was read. */
  lemma CommitEffect(s: Sys, held: Sys, last: Sys, u: Update)
    requires s.pending.None? && held == Do(s, Begin(u))
    requires last.pending == held.pending && last.statuses == held.statuses && last.alarms == held.alarms
    ensures var t := Do(last, Commit);
      && t.statuses.Keys == s.statuses.Keys
      && (forall e :: e in s.statuses ==>
            t.statuses[e] == if (u.endpoint == Some(e) || (u.endpoint == None && e !in u.ignored))
                && (u.status == InSync ==> s.online && (s.managed || u.endpoint == Some(DcCert)))
              then u.status else s.statuses[e])
      && (forall e :: e in t.alarms <==>
            if e in s.statuses && (u.endpoint == Some(e) || (u.endpoint == None && e !in u.ignored))
              && (u.status == InSync ==> s.online && (s.managed || u.endpoint == Some(DcCert)))
              && (u.endpoint == Some(e) ==> s.statuses[e] != u.status)
            then u.status == OutOfSync && (e in s.alarms || u.alarmable) else e in s.alarms)
  {
  }

  lemma Nothing(s: Sys)
    ensures Exec(s, []) == s
  {
  }

  lemma {:induction false} RowsKept(s: Sys, acts: seq<Action>)
    requires Unlocked(acts)
    ensures Exec(s, acts).statuses == s.statuses && Exec(s, acts).alarms == s.alarms
    decreases |acts|
  {
    if acts != [] {
      RowsKept(s, acts[..|acts| - 1]);
    }
  }
}
