/** Sync statuses and out-of-sync alarms of one subcloud. Status updates hold a lock from the
    moment they read the subcloud's row to their last write; changes of the management state and
    of the availability do not take that lock and may come in between. */
module SubcloudState {
  import opened Cloud

  /** A request to set one endpoint, or all but the ignored ones. */
  datatype Update = Update(endpoint: Option<Endpoint>, status: SyncStatus, alarmable: bool, ignored: set<Endpoint>)

  /** An update that holds the lock and has read the row; `allowed` is what the guard said then. */
  datatype Pending = Pending(update: Update, allowed: bool)

  datatype Sys = Sys(managed: bool, online: bool, statuses: map<Endpoint, SyncStatus>, alarms: set<Endpoint>,
                     pending: Option<Pending>)

  datatype Action =
    | Begin(update: Update)
    | Commit
    | WriteManaged(managed: bool)
    | WriteOnline(online: bool)

  /** A subcloud that has just been added, with one row per endpoint. */
  function Fresh(endpoints: set<Endpoint>): Sys {
    Sys(false, false, map e | e in endpoints :: Unknown, {}, None)
  }

  // ---------------------------------------------------------------- one status update

  /** In-sync is only accepted from a managed, online subcloud, or for dc-cert from an online one. */
  predicate Allowed(s: Sys, u: Update) {
    u.status != InSync || (s.online && (s.managed || u.endpoint == Some(DcCert)))
  }

  predicate Targets(u: Update, e: Endpoint) {
    if u.endpoint.Some? then u.endpoint.value == e else e !in u.ignored
  }

  /** Whether the update gets as far as the alarm of `e`: an unchanged single endpoint does not. */
  predicate Reaches(s: Sys, u: Update, e: Endpoint) {
    e in s.statuses && Targets(u, e) && (u.endpoint.Some? ==> s.statuses[e] != u.status)
  }

  predicate AlarmAfter(s: Sys, u: Update, e: Endpoint) {
    if !Reaches(s, u, e) then e in s.alarms
    else u.status == OutOfSync && (e in s.alarms || u.alarmable)
  }

  function Apply(s: Sys, u: Update): Sys {
    s.(statuses := map e | e in s.statuses :: if Targets(u, e) then u.status else s.statuses[e],
       alarms := set e | e in s.alarms + s.statuses.Keys && AlarmAfter(s, u, e))
  }

  // ---------------------------------------------------------------- runs

  function Do(s: Sys, a: Action): Sys {
    match a
    case Begin(u) => if s.pending.Some? then s else s.(pending := Some(Pending(u, Allowed(s, u))))
    case Commit =>
      if s.pending.None? then s
      else (if s.pending.value.allowed then Apply(s, s.pending.value.update) else s).(pending := None)
    case WriteManaged(m) => s.(managed := m)
    case WriteOnline(o) => s.(online := o)
  }

  function Exec(s: Sys, acts: seq<Action>): Sys {
    if acts == [] then s else Do(Exec(s, acts[..|acts| - 1]), acts[|acts| - 1])
  }

  lemma {:induction false} ExecConcat(s: Sys, a: seq<Action>, b: seq<Action>)
    ensures Exec(s, a + b) == Exec(Exec(s, a), b)
    decreases |b|
  {
    hide Do;
    if b == [] {
      assert a + b == a;
    } else {
      var i := |a + b| - 1;
      assert (a + b)[..i] == a + b[..|b| - 1] && (a + b)[i] == b[|b| - 1];
      ExecConcat(s, a, b[..|b| - 1]);
    }
  }

  lemma One(s: Sys, a: Action)
    ensures Exec(s, [a]) == Do(s, a)
  {
    hide Do;
    assert [a][..0] == [];
    assert Exec(s, [a][..0]) == s;
  }

  lemma Snoc(s: Sys, acts: seq<Action>, a: Action)
    ensures Exec(s, acts + [a]) == Do(Exec(s, acts), a)
  {
    One(Exec(s, acts), a);
    ExecConcat(s, acts, [a]);
  }

  lemma Locked(s: Sys, u: Update)
    requires s.pending.None?
    ensures Exec(s, [Begin(u)] + [Commit]) == if Allowed(s, u) then Apply(s, u) else s
  {
    One(s, Begin(u));
    Snoc(s, [Begin(u)], Commit);
    hide Exec;
  }

  /** What an update does to every status and every alarm. It covers the endpoint it names, or all that it does not
      ignore; an update to in-sync counts if the subcloud is online and managed, or online and the
      update is for dc-cert alone, any other counts always. */
  lemma UpdateTakesEffect(s: Sys, u: Update, e: Endpoint)
    requires s.pending.None?
    ensures var t := Exec(s, [Begin(u)] + [Commit]);
      var counts := (u.endpoint == Some(e) || (u.endpoint == None && e !in u.ignored))
        && (u.status == InSync ==> s.online && (s.managed || u.endpoint == Some(DcCert)));
      && t == s.(statuses := t.statuses, alarms := t.alarms) && t.statuses.Keys == s.statuses.Keys
      && (e in s.statuses ==> t.statuses[e] == if counts then u.status else s.statuses[e])
      && (e in t.alarms <==>
            if e !in s.statuses || !counts || (u.endpoint.Some? && s.statuses[e] == u.status) then e in s.alarms
            else u.status == OutOfSync && (e in s.alarms || u.alarmable))
  {
    Locked(s, u);
    hide Exec;
  }

  // ---------------------------------------------------------------- alarms

  predicate AlarmsFit(s: Sys) {
    forall e :: e in s.alarms ==> e in s.statuses && s.statuses[e] == OutOfSync
  }

  predicate AlarmsExact(s: Sys) {
    forall e :: e in s.alarms <==> OutOfSyncAt(s, e)
  }

  predicate OutOfSyncAt(s: Sys, e: Endpoint) {
    e in s.statuses && s.statuses[e] == OutOfSync
  }

  /** Whatever interleaves, an endpoint with an out-of-sync alarm is out-of-sync. */
  lemma {:induction false} AlarmsAreOutOfSync(endpoints: set<Endpoint>, acts: seq<Action>)
    ensures AlarmsFit(Exec(Fresh(endpoints), acts))
    decreases |acts|
  {
    if acts != [] {
      AlarmsAreOutOfSync(endpoints, acts[..|acts| - 1]);
      var s := Exec(Fresh(endpoints), acts[..|acts| - 1]);
      hide Exec;
      var t := Do(s, acts[|acts| - 1]);
      forall e | e in t.alarms
        ensures e in t.statuses && t.statuses[e] == OutOfSync
      {
        assert e in s.alarms ==> e in s.statuses && s.statuses[e] == OutOfSync;
      }
    }
  }

  /** The commit of an update that was let through. */
  predicate Commits(s: Sys, a: Action) {
    a.Commit? && s.pending.Some? && s.pending.value.allowed
  }

  /** The action makes an endpoint out-of-sync without raising its alarm. */
  predicate Silences(s: Sys, a: Action) {
    && Commits(s, a) && s.pending.value.update.status == OutOfSync && !s.pending.value.update.alarmable
    && exists e :: e in s.statuses && e !in s.alarms && Reaches(s, s.pending.value.update, e)
  }

  /** Exactly such an action makes alarms and out-of-sync endpoints differ. */
  lemma AlarmStepExactly(s: Sys, a: Action)
    requires AlarmsExact(s)
    ensures !AlarmsExact(Do(s, a)) <==> Silences(s, a)
  {
    var t := Do(s, a);
    if Silences(s, a) {
      var e :| e in s.statuses && e !in s.alarms && Reaches(s, s.pending.value.update, e);
      assert e !in t.alarms && OutOfSyncAt(t, e);
    } else {
      forall e
        ensures e in t.alarms <==> OutOfSyncAt(t, e)
      {
        assert e in s.alarms <==> OutOfSyncAt(s, e);
        if Commits(s, a) && e in s.statuses && e !in s.alarms {
          assert Reaches(s, s.pending.value.update, e) ==> s.pending.value.update.status != OutOfSync || s.pending.value.update.alarmable;
        }
      }
    }
  }

  lemma Next(s: Sys, acts: seq<Action>, n: nat)
    requires n < |acts|
    ensures Exec(s, acts[..n + 1]) == Do(Exec(s, acts[..n]), acts[n])
  {
    hide Do;
    assert acts[..n + 1] == acts[..n] + [acts[n]];
    Snoc(s, acts[..n], acts[n]);
  }

  ghost predicate ExactThroughout(s: Sys, acts: seq<Action>, n: nat)
    requires n <= |acts|
  {
    forall k :: 0 <= k <= n ==> AlarmsExact(Exec(s, acts[..k]))
  }

  ghost predicate NeverSilences(s: Sys, acts: seq<Action>, n: nat)
    requires n <= |acts|
  {
    forall k :: 0 <= k < n ==> !Silences(Exec(s, acts[..k]), acts[k])
  }

  /** Over every interleaving: the alarms are exactly the out-of-sync endpoints all along, if and only if no
      update makes an endpoint out-of-sync silently. */
  lemma {:induction false} AlarmsStayExactly(endpoints: set<Endpoint>, acts: seq<Action>, n: nat)
    requires n <= |acts|
    ensures ExactThroughout(Fresh(endpoints), acts, n) <==> NeverSilences(Fresh(endpoints), acts, n)
    decreases n
  {
    var s := Fresh(endpoints);
    if n == 0 {
      assert acts[..0] == [];
      assert AlarmsExact(s);
    } else {
      hide Do, Silences, AlarmsExact, Exec;
      AlarmsStayExactly(endpoints, acts, n - 1);
      Next(s, acts, n - 1);
      if AlarmsExact(Exec(s, acts[..n - 1])) {
        AlarmStepExactly(Exec(s, acts[..n - 1]), acts[n - 1]);
      }
    }
  }

  /** An update that may raise alarms makes or keeps the endpoint out-of-sync. */
  predicate Raises(s: Sys, a: Action, e: Endpoint) {
    Commits(s, a) && s.pending.value.update.status == OutOfSync && s.pending.value.update.alarmable && Reaches(s, s.pending.value.update, e)
  }

  ghost predicate RaisedAt(s: Sys, acts: seq<Action>, e: Endpoint, k: nat, n: nat)
    requires k < n <= |acts|
  {
    Raises(Exec(s, acts[..k]), acts[k], e) && forall m :: k < m <= n ==> OutOfSyncAt(Exec(s, acts[..m]), e)
  }

  lemma AlarmStep(s: Sys, a: Action, e: Endpoint)
    requires e in s.alarms ==> OutOfSyncAt(s, e)
    ensures e in Do(s, a).alarms <==> OutOfSyncAt(Do(s, a), e) && (e in s.alarms || Raises(s, a, e))
    ensures Raises(s, a, e) ==> OutOfSyncAt(Do(s, a), e)
  {
    if Commits(s, a) {
      ApplyAlarm(s, s.pending.value.update, e);
      hide Apply, Reaches;
    }
  }

  lemma ApplyAlarm(s: Sys, u: Update, e: Endpoint)
    requires e in s.alarms ==> OutOfSyncAt(s, e)
    ensures var t := Apply(s, u);
      && (e in t.alarms <==> OutOfSyncAt(t, e) && (e in s.alarms || (u.status == OutOfSync && u.alarmable && Reaches(s, u, e))))
      && (u.status == OutOfSync && Reaches(s, u, e) ==> OutOfSyncAt(t, e))
  {
  }

  /** Over every interleaving: an endpoint has its alarm exactly if an update that may raise alarms has reached it and
      it has been out-of-sync ever since. */
  lemma {:induction false} AlarmedExactly(endpoints: set<Endpoint>, acts: seq<Action>, n: nat, e: Endpoint)
    requires n <= |acts|
    ensures e in Exec(Fresh(endpoints), acts[..n]).alarms <==> exists k: nat :: k < n && RaisedAt(Fresh(endpoints), acts, e, k, n)
    ensures e in Exec(Fresh(endpoints), acts[..n]).alarms ==> OutOfSyncAt(Exec(Fresh(endpoints), acts[..n]), e)
    decreases n
  {
    var s0 := Fresh(endpoints);
    if n == 0 {
      assert acts[..0] == [];
    } else {
      hide Do, Raises, OutOfSyncAt, Exec;
      var s, a := Exec(s0, acts[..n - 1]), acts[n - 1];
      AlarmedExactly(endpoints, acts, n - 1, e);
      Next(s0, acts, n - 1);
      AlarmStep(s, a, e);
      hide RaisedAt;
      RaisedStep(s0, acts, e, n);
      if e in s.alarms {
        var k: nat :| k < n - 1 && RaisedAt(s0, acts, e, k, n - 1);
        assert OutOfSyncAt(Do(s, a), e) ==> RaisedAt(s0, acts, e, k, n);
      }
      if Raises(s, a, e) {
        assert RaisedAt(s0, acts, e, n - 1, n);
      }
    }
  }

  lemma RaisedStep(s: Sys, acts: seq<Action>, e: Endpoint, n: nat)
    requires 0 < n <= |acts|
    ensures Raises(Exec(s, acts[..n - 1]), acts[n - 1], e) && OutOfSyncAt(Exec(s, acts[..n]), e) <==> RaisedAt(s, acts, e, n - 1, n)
    ensures forall k: nat :: k < n - 1 ==> (RaisedAt(s, acts, e, k, n) <==> RaisedAt(s, acts, e, k, n - 1) && OutOfSyncAt(Exec(s, acts[..n]), e))
  {
    hide Exec, Raises, OutOfSyncAt;
  }

  /** An update that must not raise an alarm blocks the alarm of the next one that may: the second
      finds the status unchanged. */
  lemma SilencedAlarm(s: Sys, e: Endpoint)
    requires s.pending.None? && e in s.statuses && s.statuses[e] != OutOfSync && e !in s.alarms
    ensures var quiet := Update(Some(e), OutOfSync, false, {}); var loud := quiet.(alarmable := true);
      var t := Exec(s, [Begin(quiet)] + [Commit] + [Begin(loud)] + [Commit]);
      e in t.statuses && t.statuses[e] == OutOfSync && e !in t.alarms
  {
    var quiet := Update(Some(e), OutOfSync, false, {});
    var loud := quiet.(alarmable := true);
    One(s, Begin(quiet));
    Snoc(s, [Begin(quiet)], Commit);
    Snoc(s, [Begin(quiet)] + [Commit], Begin(loud));
    Snoc(s, [Begin(quiet)] + [Commit] + [Begin(loud)], Commit);
    var t := Do(Do(s, Begin(quiet)), Commit);
    assert e !in t.alarms && t.statuses[e] == OutOfSync;
    assert !Reaches(t, loud, e);
  }

  // ---------------------------------------------------------------- unmanaging

  /** The second half of unmanaging: everything but dc-cert becomes unknown. */
  function Mute(): Update {
    Update(None, Unknown, true, {DcCert})
  }

  /** No endpoint but dc-cert is in-sync, nor is about to be. */
  predicate Quiet(s: Sys) {
    && !s.managed
    && (forall e :: e in s.statuses && e != DcCert ==> s.statuses[e] != InSync)
    && (s.pending.Some? && s.pending.value.allowed && s.pending.value.update.status == InSync ==>
          s.pending.value.update.endpoint == Some(DcCert))
  }

  lemma {:induction false} QuietKept(s: Sys, acts: seq<Action>)
    requires Quiet(s) && WriteManaged(true) !in acts
    ensures Quiet(Exec(s, acts))
    decreases |acts|
  {
    if acts != [] {
      assert acts[|acts| - 1] in acts;
      QuietKept(s, acts[..|acts| - 1]);
      var t := Exec(s, acts[..|acts| - 1]);
      hide Exec;
      assert Quiet(Do(t, acts[|acts| - 1]));
    }
  }

  /** Under every interleaving: from the moment the second half of unmanaging is written to an unmanaged
      subcloud, no endpoint but dc-cert is in-sync until the subcloud is managed again. */
  lemma UnmanagedStaysQuiet(endpoints: set<Endpoint>, before: seq<Action>, after: seq<Action>)
    requires var s := Exec(Fresh(endpoints), before); s.pending == Some(Pending(Mute(), true)) && !s.managed
    requires WriteManaged(true) !in after
    ensures var t := Exec(Fresh(endpoints), before + [Commit] + after);
      forall e :: e in t.statuses && t.statuses[e] == InSync ==> e == DcCert
  {
    var s := Exec(Fresh(endpoints), before);
    Snoc(Fresh(endpoints), before, Commit);
    ExecConcat(Fresh(endpoints), before + [Commit], after);
    assert Quiet(Do(s, Commit)) by {
      hide Exec;
    }
    QuietKept(Do(s, Commit), after);
  }

  // ---------------------------------------------------------------- going offline

  /** The first half of going offline: everything becomes unknown. */
  function MuteAll(): Update {
    Update(None, Unknown, true, {})
  }

  predicate Silent(s: Sys) {
    && (forall e :: e in s.statuses ==> s.statuses[e] != InSync)
    && (s.pending.Some? && s.pending.value.allowed ==> s.pending.value.update.status != InSync)
  }

  /** Some in-sync update is let through in the run. */
  predicate LetsThrough(s: Sys, acts: seq<Action>) {
    acts != [] &&
      var i := |acts| - 1;
      LetsThrough(s, acts[..i]) ||
      (acts[i].Begin? && acts[i].update.status == InSync && Exec(s, acts[..i]).pending.None? && Exec(s, acts[..i]).online
       && (Exec(s, acts[..i]).managed || acts[i].update.endpoint == Some(DcCert)))
  }

  lemma {:induction false} SilentKept(s: Sys, acts: seq<Action>)
    requires Silent(s) && !LetsThrough(s, acts)
    ensures Silent(Exec(s, acts))
    decreases |acts|
  {
    if acts != [] {
      SilentKept(s, acts[..|acts| - 1]);
      var t := Exec(s, acts[..|acts| - 1]);
      hide Exec, LetsThrough;
      assert Silent(Do(t, acts[|acts| - 1]));
    }
  }

  lemma {:induction false} OfflineLetsNothingThrough(s: Sys, acts: seq<Action>)
    requires !s.online && WriteOnline(true) !in acts
    ensures !LetsThrough(s, acts) && !Exec(s, acts).online
    decreases |acts|
  {
    if acts != [] {
      assert acts[|acts| - 1] in acts;
      OfflineLetsNothingThrough(s, acts[..|acts| - 1]);
    }
  }

  /** Going offline in two halves, statuses first and availability second: if no in-sync update is
      let through in the gap, nothing is in-sync until the subcloud is online again. */
  lemma OfflineStaysSilent(endpoints: set<Endpoint>, before: seq<Action>, gap: seq<Action>, after: seq<Action>)
    requires Exec(Fresh(endpoints), before).pending == Some(Pending(MuteAll(), true))
    requires !LetsThrough(Exec(Fresh(endpoints), before + [Commit]), gap)
    requires WriteOnline(true) !in after
    ensures var t := Exec(Fresh(endpoints), before + [Commit] + gap + [WriteOnline(false)] + after);
      forall e :: e in t.statuses ==> t.statuses[e] != InSync
  {
    var s := Exec(Fresh(endpoints), before);
    Snoc(Fresh(endpoints), before, Commit);
    var s1 := Do(s, Commit);
    assert Silent(s1) by {
      hide Exec;
    }
    SilentKept(s1, gap);
    var s2 := Exec(s1, gap);
    ExecConcat(Fresh(endpoints), before + [Commit], gap);
    var s3 := Do(s2, WriteOnline(false));
    assert Silent(s3) by {
      hide Exec;
    }
    Snoc(Fresh(endpoints), before + [Commit] + gap, WriteOnline(false));
    OfflineLetsNothingThrough(s3, after);
    SilentKept(s3, after);
    ExecConcat(Fresh(endpoints), before + [Commit] + gap + [WriteOnline(false)], after);
  }

  // ---------------------------------------------------------------- the gap, exactly

  /** The action writes the status of the endpoint. */
  predicate Writes(s: Sys, a: Action, e: Endpoint) {
    Commits(s, a) && Targets(s.pending.value.update, e)
  }

  /** What the last write to the endpoint in the run has set it to. */
  function LastWritten(s: Sys, acts: seq<Action>, e: Endpoint): SyncStatus
    requires e in s.statuses
  {
    if acts == [] then s.statuses[e]
    else
      var t, a := Exec(s, acts[..|acts| - 1]), acts[|acts| - 1];
      if Writes(t, a, e) then t.pending.value.update.status else LastWritten(s, acts[..|acts| - 1], e)
  }

  lemma WriteStep(s: Sys, a: Action, e: Endpoint)
    requires e in s.statuses
    ensures e in Do(s, a).statuses
    ensures Do(s, a).statuses[e] == if Writes(s, a, e) then s.pending.value.update.status else s.statuses[e]
  {
  }

  /** In every interleaving, an endpoint has the status that was written last; an update that is not let
      through writes nothing. */
  lemma {:induction false} StatusIsLastWritten(s: Sys, acts: seq<Action>, e: Endpoint)
    requires e in s.statuses
    ensures e in Exec(s, acts).statuses && Exec(s, acts).statuses[e] == LastWritten(s, acts, e)
    decreases |acts|
  {
    if acts != [] {
      hide Do, Writes;
      StatusIsLastWritten(s, acts[..|acts| - 1], e);
      WriteStep(Exec(s, acts[..|acts| - 1]), acts[|acts| - 1], e);
    }
  }

  /** The update begun at b is let through and holds the lock until its commit at c. */
  ghost predicate LetThrough(s: Sys, acts: seq<Action>, b: nat, c: nat)
    requires b < c <= |acts|
  {
    && acts[b].Begin? && Exec(s, acts[..b]).pending.None?
    && (acts[b].update.status == InSync ==>
          Exec(s, acts[..b]).online && (Exec(s, acts[..b]).managed || acts[b].update.endpoint == Some(DcCert)))
    && forall k :: b < k < c ==> !acts[k].Commit?
  }

  lemma {:induction false} HoldsUntil(s: Sys, acts: seq<Action>, b: nat, c: nat)
    requires b < c <= |acts| && LetThrough(s, acts, b, c)
    ensures Exec(s, acts[..c]).pending == Some(Pending(acts[b].update, true))
    decreases c
  {
    Next(s, acts, c - 1);
    hide Exec;
    if c > b + 1 {
      HoldsUntil(s, acts, b, c - 1);
    }
  }

  lemma {:induction false} HolderBegan(s: Sys, acts: seq<Action>, c: nat) returns (b: nat)
    requires c <= |acts| && s.pending.None? && Exec(s, acts[..c]).pending.Some? && Exec(s, acts[..c]).pending.value.allowed
    ensures b < c && LetThrough(s, acts, b, c) && acts[b] == Begin(Exec(s, acts[..c]).pending.value.update)
    decreases c
  {
    assert acts[..0] == [];
    Next(s, acts, c - 1);
    hide Exec;
    if Exec(s, acts[..c - 1]).pending.Some? {
      b := HolderBegan(s, acts, c - 1);
    } else {
      b := c - 1;
    }
  }

  /** An in-sync update that covers the endpoint is let through at b and committed at c, and nothing writes
      the endpoint after it. */
  ghost predicate LastInSync(s: Sys, acts: seq<Action>, e: Endpoint, b: nat, c: nat) {
    && b < c < |acts| && LetThrough(s, acts, b, c) && acts[c].Commit?
    && acts[b].update.status == InSync && Targets(acts[b].update, e)
    && forall k :: c < k < |acts| ==> !Writes(Exec(s, acts[..k]), acts[k], e)
  }

  lemma {:induction false} InSyncExactly(s: Sys, acts: seq<Action>, e: Endpoint)
    requires s.pending.None? && e in s.statuses && s.statuses[e] != InSync
    ensures LastWritten(s, acts, e) == InSync <==> exists b: nat, c: nat :: LastInSync(s, acts, e, b, c)
    decreases |acts|
  {
    if acts != [] {
      hide Exec, LastInSync, Writes;
      InSyncExactly(s, acts[..|acts| - 1], e);
      if Writes(Exec(s, acts[..|acts| - 1]), acts[|acts| - 1], e) {
        WrittenNow(s, acts, e);
      } else {
        var front := acts[..|acts| - 1];
        WrittenBefore(s, acts, e);
        if b: nat, c: nat :| LastInSync(s, front, e, b, c) {
          assert LastInSync(s, acts, e, b, c);
        }
        if b: nat, c: nat :| LastInSync(s, acts, e, b, c) {
          assert LastInSync(s, front, e, b, c);
        }
      }
    }
  }

  /** The last action writes the endpoint: it is the commit in question, or there is none. */
  lemma WrittenNow(s: Sys, acts: seq<Action>, e: Endpoint)
    requires s.pending.None? && acts != [] && Writes(Exec(s, acts[..|acts| - 1]), acts[|acts| - 1], e)
    ensures Exec(s, acts[..|acts| - 1]).pending.value.update.status == InSync <==> exists b: nat, c: nat :: LastInSync(s, acts, e, b, c)
  {
    hide Exec, Targets, Allowed;
    var n := |acts| - 1;
    var u := Exec(s, acts[..n]).pending.value.update;
    var b := HolderBegan(s, acts, n);
    if u.status == InSync {
      assert LastInSync(s, acts, e, b, n);
    }
    if b': nat, c': nat :| LastInSync(s, acts, e, b', c') {
      HoldsUntil(s, acts, b', c');
    }
  }

  /** The last action does not write the endpoint: nothing changes. */
  lemma WrittenBefore(s: Sys, acts: seq<Action>, e: Endpoint)
    requires acts != [] && !Writes(Exec(s, acts[..|acts| - 1]), acts[|acts| - 1], e)
    ensures forall b: nat, c: nat :: LastInSync(s, acts, e, b, c) <==> LastInSync(s, acts[..|acts| - 1], e, b, c)
  {
    hide Exec, Targets, Allowed;
    var n := |acts| - 1;
    FrontPrefixes(acts, n);
    forall b: nat, c: nat
      ensures LastInSync(s, acts, e, b, c) <==> LastInSync(s, acts[..n], e, b, c)
    {
      if LastInSync(s, acts, e, b, c) {
        HoldsUntil(s, acts, b, c);
      }
    }
  }

  lemma FrontPrefixes(acts: seq<Action>, n: nat)
    requires n <= |acts|
    ensures forall k :: 0 <= k <= n ==> acts[..n][..k] == acts[..k]
  {
  }

  /** Going offline in two halves, with anything in the gap and anything after it: an endpoint ends in-sync exactly
      if an in-sync update that covers it was let through since the first half, and nothing has
      written the endpoint after its commit. */
  lemma OfflineGapExactly(s: Sys, gap: seq<Action>, after: seq<Action>, e: Endpoint)
    requires s.pending.None? && e in s.statuses
    ensures var rest := gap + [WriteOnline(false)] + after; var silent := Apply(s, MuteAll());
      var t := Exec(s, [Begin(MuteAll())] + [Commit] + rest);
      && e in t.statuses
      && (t.statuses[e] == InSync <==> exists b: nat, c: nat :: LastInSync(silent, rest, e, b, c))
  {
    var rest, silent := gap + [WriteOnline(false)] + after, Apply(s, MuteAll());
    assert e in silent.statuses && silent.statuses[e] == Unknown && silent.pending.None?;
    Locked(s, MuteAll());
    ExecConcat(s, [Begin(MuteAll())] + [Commit], rest);
    hide Exec, Apply, LastInSync;
    StatusIsLastWritten(silent, rest, e);
    InSyncExactly(silent, rest, e);
  }

  // ---------------------------------------------------------------- handlers as one step

  /** What update_subcloud is asked: the new management state, and what it finds of the deployment. */
  datatype Handler =
    | SetStatus(update: Update)
    | SetOnline(online: bool)
    | SetManaged(managed: bool, force: bool, deployed: bool, informed: bool)

  datatype Reply = Ok | AlreadyUnmanaged | AlreadyManaged | NotDeployed | NotOnline

  /** The semantic check of update_subcloud. */
  function Check(s: Sys, managed: bool, force: bool, deployed: bool): Reply {
    if !managed then if s.managed then Ok else AlreadyUnmanaged
    else if s.managed then AlreadyManaged
    else if force then Ok
    else if !deployed then NotDeployed
    else if !s.online then NotOnline else Ok
  }

  function Script(s: Sys, h: Handler): seq<Action> {
    match h
    case SetStatus(u) => [Begin(u)] + [Commit]
    case SetOnline(online) => (if online then [] else [Begin(MuteAll())] + [Commit]) + [WriteOnline(online)]
    case SetManaged(managed, force, deployed, informed) =>
      if Check(s, managed, force, deployed) != Ok then []
      else
        var final := if informed then managed else s.managed;
        [WriteManaged(managed)] + (if informed then [] else [WriteManaged(final)])
        + (if final then [] else [Begin(Mute())] + [Commit])
  }

  function Run(s: Sys, hs: seq<Handler>): Sys {
    if hs == [] then s
    else var t := Run(s, hs[..|hs| - 1]); Exec(t, Script(t, hs[|hs| - 1]))
  }

  predicate Tidy(s: Sys) {
    && s.pending.None?
    && (forall e :: e in s.statuses && s.statuses[e] == InSync ==> s.online && (s.managed || e == DcCert))
  }

  /** An update is accepted if it changes the management state, and, to manage, is forced or finds the subcloud
      deployed and online. One that is refused or rolled back leaves the management state, one that is accepted
      sets it; and if it was accepted and the subcloud is unmanaged then, everything but dc-cert is
      unknown, without alarms. */
  lemma UpdateOrRollBack(s: Sys, managed: bool, force: bool, deployed: bool, informed: bool)
    requires s.pending.None?
    ensures var t := Exec(s, Script(s, SetManaged(managed, force, deployed, informed)));
      var accepted := s.managed != managed && (managed && !force ==> deployed && s.online);
      && t.managed == (if accepted && informed then managed else s.managed)
      && t.online == s.online && t.pending.None? && t.statuses.Keys == s.statuses.Keys
      && (forall e :: e in s.statuses ==> t.statuses[e] == if accepted && !t.managed && e != DcCert then Unknown else s.statuses[e])
      && (forall e :: e in t.alarms <==> e in s.alarms && !(accepted && !t.managed && e in s.statuses && e != DcCert))
  {
    if Check(s, managed, force, deployed) == Ok {
      var final := if informed then managed else s.managed;
      var w := [WriteManaged(managed)] + (if informed then [] else [WriteManaged(final)]);
      One(s, WriteManaged(managed));
      Snoc(s, [WriteManaged(managed)], WriteManaged(final));
      var t := Exec(s, w);
      assert t == s.(managed := final) by {
        if informed {
          assert w == [WriteManaged(managed)];
        }
      }
      if final {
        assert Script(s, SetManaged(managed, force, deployed, informed)) == w;
      } else {
        Locked(t, Mute());
        ExecConcat(s, w, [Begin(Mute())] + [Commit]);
        assert w + ([Begin(Mute())] + [Commit]) == Script(s, SetManaged(managed, force, deployed, informed));
      }
      hide Exec;
    }
  }

  lemma {:induction false} HandlersKeepTidy(endpoints: set<Endpoint>, hs: seq<Handler>)
    ensures Tidy(Run(Fresh(endpoints), hs))
    decreases |hs|
  {
    if hs != [] {
      HandlersKeepTidy(endpoints, hs[..|hs| - 1]);
      var s := Run(Fresh(endpoints), hs[..|hs| - 1]);
      hide Run;
      match hs[|hs| - 1] {
        case SetStatus(u) => AtomicStatus(s, u);
        case SetOnline(online) => AtomicOnline(s, online);
        case SetManaged(managed, force, deployed, informed) => UpdateOrRollBack(s, managed, force, deployed, informed);
      }
    }
  }

  lemma AtomicStatus(s: Sys, u: Update)
    requires Tidy(s)
    ensures Tidy(Exec(s, Script(s, SetStatus(u))))
  {
    Locked(s, u);
    hide Exec;
  }

  lemma AtomicOnline(s: Sys, online: bool)
    requires Tidy(s)
    ensures Tidy(Exec(s, Script(s, SetOnline(online))))
  {
    if online {
      assert Script(s, SetOnline(true)) == [WriteOnline(true)];
      One(s, WriteOnline(true));
    } else {
      Locked(s, MuteAll());
      Snoc(s, [Begin(MuteAll())] + [Commit], WriteOnline(false));
    }
    hide Exec;
  }

  /** With every handler as one step: an offline subcloud has no endpoint in-sync, an unmanaged one
      at most dc-cert. */
  lemma HandlersKeepStatuses(endpoints: set<Endpoint>, hs: seq<Handler>)
    ensures var s := Run(Fresh(endpoints), hs);
      && (!s.online ==> forall e :: e in s.statuses ==> s.statuses[e] != InSync)
      && (!s.managed ==> forall e :: e in s.statuses && s.statuses[e] == InSync ==> e == DcCert)
  {
    HandlersKeepTidy(endpoints, hs);
  }
}
