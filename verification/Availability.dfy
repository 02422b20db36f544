/** The availability audit of one subcloud: hysteresis over any sequence of audits, and the
    verdict over its service groups. */
module Availability {
  import opened Cloud

  const AVAIL_FAIL_COUNT_TO_ALARM := 2
  const AVAIL_FAIL_COUNT_MAX := 9999

  datatype ServiceGroup = ServiceGroup(name: string, active: bool)

  /** What an audit finds. `NotFound` is a connection failure that is ignored for an offline
      subcloud, `NoClient` any other failure to get a client, `Groups(None)` a failed query. */
  datatype Probe = NotFound | NoClient | Prestaging | Groups(groups: Option<seq<ServiceGroup>>)

  datatype Stored = Stored(online: bool, failCount: int)

  predicate Listed(groups: seq<ServiceGroup>, name: string, active: bool) {
    exists j :: 0 <= j < |groups| && groups[j].name == name && groups[j].active == active
  }

  /** There is a service group, and every one that is listed is listed as active at least once. */
  predicate AllActive(groups: seq<ServiceGroup>) {
    groups != [] && forall i :: 0 <= i < |groups| ==> Listed(groups, groups[i].name, true)
  }

  predicate Success(p: Probe) {
    p.Prestaging? || (p.Groups? && p.groups.Some? && AllActive(p.groups.value))
  }

  function Audited(s: Stored, p: Probe): Stored {
    if Success(p) then Stored(true, 0)
    else if p.NotFound? && !s.online then s
    else
      var count := if s.failCount < AVAIL_FAIL_COUNT_MAX then s.failCount + 1 else s.failCount;
      Stored(s.online && count < AVAIL_FAIL_COUNT_TO_ALARM, count)
  }

  function Trace(s: Stored, ps: seq<Probe>): Stored {
    if ps == [] then s else Audited(Trace(s, ps[..|ps| - 1]), ps[|ps| - 1])
  }

  /** Length of the run of failed audits at the end. */
  function TrailingFailures(ps: seq<Probe>): (n: nat)
    ensures n <= |ps|
  {
    if ps == [] || Success(ps[|ps| - 1]) then 0 else 1 + TrailingFailures(ps[..|ps| - 1])
  }

  /** How many of the probes an offline subcloud counts. */
  function Counted(ps: seq<Probe>): nat {
    if ps == [] then 0 else Counted(ps[..|ps| - 1]) + if ps[|ps| - 1].NotFound? then 0 else 1
  }

  /** The fail count after a run of failures: the first two count whatever they are. */
  function FailCount(failures: seq<Probe>): int {
    if |failures| <= AVAIL_FAIL_COUNT_TO_ALARM then |failures|
    else Min(AVAIL_FAIL_COUNT_MAX, AVAIL_FAIL_COUNT_TO_ALARM + Counted(failures[AVAIL_FAIL_COUNT_TO_ALARM..]))
  }

  /** From online with no failures: the subcloud is stored as offline exactly after two failed
      audits in a row, and the fail count has a closed form. */
  lemma {:induction false} Hysteresis(ps: seq<Probe>)
    ensures var s := Trace(Stored(true, 0), ps); var n := TrailingFailures(ps);
      && (s.online <==> n < 2)
      && s.failCount == FailCount(ps[|ps| - n..])
      && 0 <= s.failCount <= 9999
    decreases |ps|
  {
    FailCountBounds([]);
    if ps != [] {
      hide Audited, FailCount;
      var i := |ps| - 1;
      var p := ps[i];
      Hysteresis(ps[..i]);
      if !Success(p) {
        var m := TrailingFailures(ps[..i]);
        var before := ps[..i][i - m..];
        assert ps[|ps| - (m + 1)..] == before + [p];
        OneMoreFailure(before, p);
        FailCountBounds(before + [p]);
      } else {
        Recovered(Trace(Stored(true, 0), ps[..i]), p);
      }
    }
  }

  lemma FailCountBounds(failures: seq<Probe>)
    ensures 0 <= FailCount(failures) <= AVAIL_FAIL_COUNT_MAX && FailCount([]) == 0
  {
  }

  lemma Recovered(s: Stored, p: Probe)
    requires Success(p)
    ensures Audited(s, p) == Stored(true, 0)
  {
  }

  lemma OneMoreFailure(failures: seq<Probe>, p: Probe)
    requires !Success(p)
    ensures Audited(Stored(|failures| < AVAIL_FAIL_COUNT_TO_ALARM, FailCount(failures)), p) ==
      Stored(|failures| + 1 < AVAIL_FAIL_COUNT_TO_ALARM, FailCount(failures + [p]))
  {
    if |failures| >= AVAIL_FAIL_COUNT_TO_ALARM {
      var late := failures[AVAIL_FAIL_COUNT_TO_ALARM..];
      assert (failures + [p])[AVAIL_FAIL_COUNT_TO_ALARM..] == late + [p];
      CountedSnoc(late, p);
    }
  }

  lemma CountedSnoc(ps: seq<Probe>, p: Probe)
    ensures Counted(ps + [p]) == Counted(ps) + if p.NotFound? then 0 else 1
  {
    assert (ps + [p])[..|ps|] == ps;
  }

  /** The last n audits failed, the one before them, if any, did not. A prestaging subcloud, or service groups that are
      all listed as active at least once, are a success. */
  ghost predicate FailedLately(ps: seq<Probe>, n: nat) {
    && n <= |ps|
    && (forall i :: |ps| - n <= i < |ps| ==> !Healthy(ps[i]))
    && (n < |ps| ==> Healthy(ps[|ps| - n - 1]))
  }

  predicate Healthy(p: Probe) {
    match p
    case NotFound => false
    case NoClient => false
    case Prestaging => true
    case Groups(None) => false
    case Groups(Some(groups)) =>
      groups != [] && forall i :: 0 <= i < |groups| ==> ServiceGroup(groups[i].name, true) in groups
  }

  lemma SuccessIsHealth(p: Probe)
    ensures Success(p) <==> Healthy(p)
  {
    if p.Groups? && p.groups.Some? {
      var groups := p.groups.value;
      forall i | 0 <= i < |groups|
        ensures Listed(groups, groups[i].name, true) <==> ServiceGroup(groups[i].name, true) in groups
      {
        ListedIs(groups, groups[i].name);
      }
    }
  }

  lemma ListedIs(groups: seq<ServiceGroup>, name: string)
    ensures Listed(groups, name, true) <==> ServiceGroup(name, true) in groups
  {
    if j :| 0 <= j < |groups| && groups[j].name == name && groups[j].active {
      assert groups[j] == ServiceGroup(name, true);
    }
  }

  lemma {:induction false} TrailingIs(ps: seq<Probe>)
    ensures FailedLately(ps, TrailingFailures(ps))
    decreases |ps|
  {
    hide Success, Healthy;
    if ps != [] {
      var last := |ps| - 1;
      SuccessIsHealth(ps[last]);
      TrailingIs(ps[..last]);
    }
  }

  lemma OneLength(ps: seq<Probe>, m: nat, n: nat)
    requires FailedLately(ps, m) && FailedLately(ps, n)
    ensures m == n
  {
    hide Healthy;
  }

  /** The same in terms of what the audits found: offline exactly if the last two of them, or more, failed; the first two
      failures in a row always count, later ones unless the subcloud could not even be found. */
  lemma OfflineExactly(ps: seq<Probe>, n: nat)
    requires FailedLately(ps, n)
    ensures var s := Trace(Stored(true, 0), ps);
      && (s.online <==> n < 2)
      && (n <= 2 ==> s.failCount == n)
      && (n > 2 ==> s.failCount == Min(9999, 2 + Counted(ps[|ps| - n + 2..])))
  {
    TrailingIs(ps);
    hide Healthy;
    Hysteresis(ps);
    OneLength(ps, TrailingFailures(ps), n);
    if n > 2 {
      assert ps[|ps| - n..][2..] == ps[|ps| - n + 2..];
    }
  }

  /** One success forgets everything: whatever was stored, the rest goes as from a healthy subcloud. */
  lemma {:induction false} SuccessForgets(s: Stored, before: seq<Probe>, p: Probe, after: seq<Probe>)
    requires Success(p)
    ensures Trace(s, before + [p] + after) == Trace(Stored(true, 0), after)
    decreases |after|
  {
    var all := before + [p] + after;
    var i := |all| - 1;
    if after == [] {
      assert all[..i] == before && all[i] == p;
    } else {
      assert all[..i] == before + [p] + after[..|after| - 1] && all[i] == after[|after| - 1];
      SuccessForgets(s, before, p, after[..|after| - 1]);
    }
  }

  /** Failures never bring an offline subcloud back. */
  lemma {:induction false} FailuresKeepOffline(s: Stored, ps: seq<Probe>)
    requires !s.online && forall i :: 0 <= i < |ps| ==> !Success(ps[i])
    ensures !Trace(s, ps).online
    decreases |ps|
  {
    if ps != [] {
      FailuresKeepOffline(s, ps[..|ps| - 1]);
    }
  }

  /** The row of the subcloud that the audit worker reads and the state manager writes. */
  class SubcloudAuditWorker {
    var availabilityOnline: bool
    var auditFailCount: int

    function Model(): Stored
      reads this
    {
      Stored(availabilityOnline, auditFailCount)
    }

    constructor ()
      ensures Model() == Stored(true, 0)
    {
      availabilityOnline, auditFailCount := true, 0;
    }

    /** A service group that is only listed as non-active makes the subcloud offline. */
    static method GetSubcloudAvailabilityStatus(svcGroups: Option<seq<ServiceGroup>>) returns (online: bool)
      ensures online <==> svcGroups.Some? && AllActive(svcGroups.value)
      ensures online <==> Healthy(Groups(svcGroups))
    {
      online := false;
      if svcGroups.Some? && svcGroups.value != [] {
        var groups := svcGroups.value;
        var activeSgs, inactiveSgs := [], [];
        var i := 0;
        while i < |groups|
          invariant 0 <= i <= |groups|
          invariant forall name :: name in activeSgs <==> Listed(groups[..i], name, true)
          invariant forall name :: name in inactiveSgs <==> Listed(groups[..i], name, false)
        {
          var sg := groups[i];
          OneMoreGroup(groups, i);
          if !sg.active {
            inactiveSgs := inactiveSgs + [sg.name];
          } else {
            activeSgs := activeSgs + [sg.name];
          }
          i := i + 1;
        }
        var inactiveOnly := false;
        i := 0;
        while i < |inactiveSgs|
          invariant 0 <= i <= |inactiveSgs|
          invariant inactiveOnly <==> exists j :: 0 <= j < i && inactiveSgs[j] !in activeSgs
        {
          if inactiveSgs[i] !in activeSgs {
            inactiveOnly := true;
          }
          i := i + 1;
        }
        online := !inactiveOnly && activeSgs != [];
        assert groups[..|groups|] == groups;
        GroupsAreActive(groups, activeSgs, inactiveSgs);
        SuccessIsHealth(Groups(svcGroups));
      }
    }

    method AuditSubcloud(probe: Probe)
      modifies this
      ensures Model() == Audited(old(Model()), probe)
      ensures Healthy(probe) ==> availabilityOnline && auditFailCount == 0
      ensures !Healthy(probe) ==>
        if probe == NotFound && !old(availabilityOnline) then
          availabilityOnline == old(availabilityOnline) && auditFailCount == old(auditFailCount)
        else
          && auditFailCount == (if old(auditFailCount) < 9999 then old(auditFailCount) + 1 else old(auditFailCount))
          && (availabilityOnline <==> old(availabilityOnline) && auditFailCount < 2)
    {
      SuccessIsHealth(probe);
      var availStatusCurrent, failCount := availabilityOnline, auditFailCount;
      var availToSet := false;
      match probe {
        case NotFound =>
          if !availStatusCurrent {
            return;
          }
        case NoClient =>
        case Prestaging => availToSet := true;
        case Groups(groups) => availToSet := GetSubcloudAvailabilityStatus(groups);
      }
      if !availToSet {
        if failCount < AVAIL_FAIL_COUNT_MAX {
          failCount := failCount + 1;
        }
        if availStatusCurrent && failCount < AVAIL_FAIL_COUNT_TO_ALARM {
          availToSet := true;
        }
      } else {
        failCount := 0;
      }
      if availToSet != availStatusCurrent {
        if availToSet {
          failCount := 0;
        }
        availabilityOnline, auditFailCount := availToSet, failCount;
      } else if failCount != auditFailCount {
        auditFailCount := failCount;
      }
    }

    /** Audits one after the other. */
    method AuditAll(probes: seq<Probe>)
      modifies this
      ensures Model() == Trace(old(Model()), probes)
    {
      ghost var start := Model();
      var i := 0;
      assert probes[..0] == [];
      while i < |probes|
        invariant 0 <= i <= |probes|
        invariant Model() == Trace(start, probes[..i])
      {
        AuditSubcloud(probes[i]);
        assert probes[..i + 1][..i] == probes[..i];
        i := i + 1;
      }
      assert probes[..i] == probes;
    }
  }

  lemma OneMoreGroup(groups: seq<ServiceGroup>, i: nat)
    requires i < |groups|
    ensures forall name, active :: Listed(groups[..i + 1], name, active) <==>
      Listed(groups[..i], name, active) || (groups[i].name == name && groups[i].active == active)
  {
    forall name, active
      ensures Listed(groups[..i + 1], name, active) <==>
        Listed(groups[..i], name, active) || (groups[i].name == name && groups[i].active == active)
    {
      if Listed(groups[..i], name, active) {
        var j :| 0 <= j < i && groups[..i][j].name == name && groups[..i][j].active == active;
        assert groups[..i + 1][j] == groups[..i][j];
      }
      if groups[i].name == name && groups[i].active == active {
        assert groups[..i + 1][i] == groups[i];
      }
    }
  }

  lemma GroupsAreActive(groups: seq<ServiceGroup>, active: seq<string>, inactive: seq<string>)
    requires groups != []
    requires forall name :: name in active <==> Listed(groups, name, true)
    requires forall name :: name in inactive <==> Listed(groups, name, false)
    ensures AllActive(groups) <==> active != [] && forall j :: 0 <= j < |inactive| ==> inactive[j] in active
  {
    if AllActive(groups) {
      assert groups[0].name in active;
      forall j | 0 <= j < |inactive|
        ensures inactive[j] in active
      {
        assert inactive[j] in inactive;
        assert Listed(groups, inactive[j], false);
        var i :| 0 <= i < |groups| && groups[i].name == inactive[j];
        assert Listed(groups, groups[i].name, true);
      }
    } else {
      var i :| 0 <= i < |groups| && !Listed(groups, groups[i].name, true);
      assert !groups[i].active;
      assert Listed(groups, groups[i].name, false);
      assert groups[i].name in inactive && groups[i].name !in active;
    }
  }
}
