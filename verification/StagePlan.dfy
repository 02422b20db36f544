/** Creating a strategy: the validation pass over the subclouds, and the loop that packs the
    eligible ones into numbered stages (dcmanager/orchestrator/sw_update_manager.py). */
module StagePlan {
  import opened Cloud

  datatype StrategyType = Patch | Upgrade | FirmwareUpdate | KubernetesUpgrade | KubeRootcaUpdate | Prestage

  datatype Status = Status(endpoint: Endpoint, sync: SyncStatus)

  /** `prestageable` says whether the subcloud's own prestage check passes. */
  datatype Subcloud = Subcloud(name: string, managed: bool, online: bool, prestageable: bool, statuses: seq<Status>)

  datatype Group = Group(serial: bool, maxParallel: int, subclouds: seq<Subcloud>)

  /** What the user asked for; `serial` and `maxParallel` are None when the group's own values apply.
      `prestageAllowed` says whether the prestage check of the request itself passes. */
  datatype Request = Request(kind: StrategyType, force: bool, cloud: Option<string>,
                             serial: Option<bool>, maxParallel: Option<int>, stopOnFailure: bool,
                             prestageAllowed: bool)

  datatype Placed = Placed(name: string, group: nat, stage: nat)

  datatype CreateError = NoSuchSubcloud | UpdateNotRequired | StatusMissing | StatusUnknown | PrestageRefused

  datatype Validation = Valid | Invalid(error: CreateError)

  // ---------------------------------------------------------------- selection

  function EndpointOf(kind: StrategyType): Endpoint {
    match kind
    case Patch => Patching
    case Upgrade => Load
    case FirmwareUpdate => Firmware
    case KubernetesUpgrade => Kubernetes
    case KubeRootcaUpdate => KubeRootca
    case Prestage => Load
  }

  /** _validate_subcloud_status_sync: does this status row call for a step? */
  predicate ValidateStatusSync(kind: StrategyType, status: Status, force: bool, online: bool) {
    match kind
    case Patch => status.endpoint == Patching && status.sync == OutOfSync
    case Upgrade =>
      if force && !online then status.endpoint == Load && status.sync != InSync
      else status.endpoint == Load && status.sync == OutOfSync
    case FirmwareUpdate => status.endpoint == Firmware && status.sync == OutOfSync
    case KubernetesUpgrade =>
      if force then status.endpoint == Kubernetes && status.sync != Unknown
      else status.endpoint == Kubernetes && status.sync == OutOfSync
    case KubeRootcaUpdate =>
      if force then status.endpoint == KubeRootca && status.sync != Unknown
      else status.endpoint == KubeRootca && status.sync == OutOfSync
    case Prestage => status.endpoint == Load
  }

  /** The subcloud is not skipped by the guards at the head of the allocation loop. */
  predicate InScope(req: Request, sc: Subcloud) {
    && (req.cloud.Some? ==> sc.name == req.cloud.value)
    && sc.managed
    && (sc.online || (req.kind == Upgrade && req.force))
  }

  predicate HasRow(req: Request, sc: Subcloud) {
    exists i :: 0 <= i < |sc.statuses| && ValidateStatusSync(req.kind, sc.statuses[i], req.force, sc.online)
  }

  predicate Eligible(req: Request, sc: Subcloud) {
    InScope(req, sc) && HasRow(req, sc)
  }

  function EligibleOf(req: Request, scs: seq<Subcloud>): (r: seq<Subcloud>)
    ensures |r| <= |scs|
  {
    if scs == [] then []
    else
      var front := EligibleOf(req, scs[..|scs| - 1]);
      var last := scs[|scs| - 1];
      if Eligible(req, last) then front + [last] else front
  }

  lemma EligibleStep(req: Request, scs: seq<Subcloud>, i: nat)
    requires i < |scs|
    ensures EligibleOf(req, scs[..i + 1]) ==
      EligibleOf(req, scs[..i]) + (if Eligible(req, scs[i]) then [scs[i]] else [])
  {
    assert scs[..i + 1][..i] == scs[..i];
  }

  /** The database keeps one status row per endpoint type for a subcloud. */
  predicate OneRowPerEndpoint(statuses: seq<Status>) {
    forall i, j :: 0 <= i < j < |statuses| ==> statuses[i].endpoint != statuses[j].endpoint
  }

  predicate RowsOk(groups: seq<Group>) {
    forall g, i :: 0 <= g < |groups| && 0 <= i < |groups[g].subclouds| ==>
      OneRowPerEndpoint(groups[g].subclouds[i].statuses)
  }

  // ---------------------------------------------------------------- closed form of the stages

  function Serial(req: Request, g: Group): bool {
    if req.serial.Some? then req.serial.value else g.serial
  }

  /** How many steps of the group one stage may hold. A limit below 1 behaves as 1, since the
      loop compares the stage size with the limit only after adding a step. */
  function Limit(serial: bool, maxParallel: int): (c: nat)
    ensures c >= 1
  {
    if serial then 1 else Max(1, maxParallel)
  }

  function Cap(req: Request, g: Group): nat {
    Limit(Serial(req, g), if req.maxParallel.Some? then req.maxParallel.value else g.maxParallel)
  }

  /** Division and remainder by repeated subtraction. */
  function Quot(n: nat, c: nat): nat {
    if c == 0 || n < c then 0 else 1 + Quot(n - c, c)
  }

  function Rem(n: nat, c: nat): nat {
    if c == 0 || n < c then n else Rem(n - c, c)
  }

  /** The j-th eligible subcloud of a group goes to stage base + j / cap. */
  function Place(el: seq<Subcloud>, index: nat, base: nat, cap: nat): seq<Placed> {
    seq(|el|, j requires 0 <= j < |el| => Placed(el[j].name, index, base + Quot(j, cap)))
  }

  lemma StartOfGroup(req: Request, index: nat, base: nat, cap: nat)
    ensures Place(EligibleOf(req, []), index, base, cap) == []
    ensures cap >= 1 ==> Quot(0, cap) == 0 && Rem(0, cap) == 0
  {
  }

  lemma PlaceStep(el: seq<Subcloud>, sc: Subcloud, taken: bool, index: nat, base: nat, cap: nat)
    ensures Place(el + (if taken then [sc] else []), index, base, cap) ==
      Place(el, index, base, cap) + (if taken then [Placed(sc.name, index, base + Quot(|el|, cap))] else [])
  {
    hide Quot;
    if taken {
      var a, b := Place(el + [sc], index, base, cap), Place(el, index, base, cap);
      assert a[..|el|] == b;
      assert a == a[..|el|] + [a[|el|]];
    } else {
      assert el + [] == el;
    }
  }

  function PlanGroup(req: Request, g: Group, index: nat, base: nat): seq<Placed> {
    Place(EligibleOf(req, g.subclouds), index, base, Cap(req, g))
  }

  /** Whether the last subcloud looked at moved the counter itself. */
  function Updated(req: Request, g: Group, before: bool): bool {
    if g.subclouds == [] then before
    else
      && Eligible(req, g.subclouds[|g.subclouds| - 1])
      && Rem(|EligibleOf(req, g.subclouds)|, Cap(req, g)) == 0
  }

  /** The stage counter after the group. A gap appears when a full stage is followed by skipped subclouds. */
  function NextBase(req: Request, g: Group, base: nat, before: bool): nat {
    base + Quot(|EligibleOf(req, g.subclouds)|, Cap(req, g)) + (if Updated(req, g, before) then 0 else 1)
  }

  function PlanFrom(req: Request, groups: seq<Group>, index: nat, base: nat, before: bool): seq<Placed> {
    if groups == [] then []
    else
      PlanGroup(req, groups[0], index, base) +
      PlanFrom(req, groups[1..], index + 1, NextBase(req, groups[0], base, before), Updated(req, groups[0], before))
  }

  function Plan(req: Request, groups: seq<Group>): seq<Placed> {
    PlanFrom(req, groups, 0, 1, false)
  }

  // ---------------------------------------------------------------- the allocation loop

  lemma {:induction false} NextQuotient(n: nat, c: nat)
    requires c >= 1
    ensures Rem(n, c) < c
    ensures Rem(n, c) + 1 >= c ==> Quot(n + 1, c) == Quot(n, c) + 1 && Rem(n + 1, c) == 0
    ensures Rem(n, c) + 1 < c ==> Quot(n + 1, c) == Quot(n, c) && Rem(n + 1, c) == Rem(n, c) + 1
  {
    if n >= c {
      NextQuotient(n - c, c);
    }
  }

  /** The rows that call for a step: at most one, because endpoint types do not repeat. */
  lemma OnlyOneRow(kind: StrategyType, statuses: seq<Status>, force: bool, online: bool, i: nat, j: nat)
    requires OneRowPerEndpoint(statuses)
    requires i < |statuses| && j < |statuses|
    requires ValidateStatusSync(kind, statuses[i], force, online) && ValidateStatusSync(kind, statuses[j], force, online)
    ensures i == j
  {
    if i < j {
    } else if j < i {
    }
  }

  /** The counters of the loop, as they stand after n steps of a group that started at `base`. */
  predicate Counters(serial: bool, cap: nat, base: nat, n: nat, counter: nat, stageSize: nat)
    requires cap >= 1
  {
    counter == base + Quot(n, cap) && (serial || stageSize == Rem(n, cap))
  }

  ghost predicate RowBefore(req: Request, sc: Subcloud, k: nat) {
    exists m :: 0 <= m < k && m < |sc.statuses| && ValidateStatusSync(req.kind, sc.statuses[m], req.force, sc.online)
  }

  /** One turn of the loop over a group's subclouds. */
  method AddSubcloud(req: Request, serial: bool, maxParallel: int, g: nat, subcloud: Subcloud,
                     ghost base: nat, ghost n: nat, counter0: nat, stageSize0: nat)
    returns (added: seq<Placed>, counter: nat, stageSize: nat, stageUpdated: bool)
    requires OneRowPerEndpoint(subcloud.statuses)
    requires Counters(serial, Limit(serial, maxParallel), base, n, counter0, stageSize0)
    ensures added == if Eligible(req, subcloud)
      then [Placed(subcloud.name, g, base + Quot(n, Limit(serial, maxParallel)))] else []
    ensures Counters(serial, Limit(serial, maxParallel), base, n + |added|, counter, stageSize)
    ensures stageUpdated == (Eligible(req, subcloud) && Rem(n + |added|, Limit(serial, maxParallel)) == 0)
  {
    hide Quot, Rem, ValidateStatusSync, InScope;
    added, counter, stageSize, stageUpdated := [], counter0, stageSize0, false;
    if !InScope(req, subcloud) {
      return;
    }
    ghost var cap := Limit(serial, maxParallel);
    NextQuotient(n, cap);
    var k := 0;
    while k < |subcloud.statuses|
      invariant 0 <= k <= |subcloud.statuses|
      invariant added == if RowBefore(req, subcloud, k) then [Placed(subcloud.name, g, base + Quot(n, cap))] else []
      invariant Counters(serial, cap, base, n + |added|, counter, stageSize)
      invariant stageUpdated == (added != [] && Rem(n + |added|, cap) == 0)
    {
      if ValidateStatusSync(req.kind, subcloud.statuses[k], req.force, subcloud.online) {
        if RowBefore(req, subcloud, k) {
          ghost var m :| 0 <= m < k && ValidateStatusSync(req.kind, subcloud.statuses[m], req.force, subcloud.online);
          OnlyOneRow(req.kind, subcloud.statuses, req.force, subcloud.online, m, k);
        }
        added := added + [Placed(subcloud.name, g, counter)];
        stageSize := stageSize + 1;
        if serial {
          stageUpdated := true;
          counter := counter + 1;
        } else if stageSize >= maxParallel {
          stageUpdated := true;
          counter := counter + 1;
          stageSize := 0;
        }
      }
      k := k + 1;
    }
  }

  method AddGroup(req: Request, group: Group, g: nat, base: nat, before: bool)
    returns (added: seq<Placed>, counter: nat, stageUpdated: bool)
    requires forall i :: 0 <= i < |group.subclouds| ==> OneRowPerEndpoint(group.subclouds[i].statuses)
    ensures added == PlanGroup(req, group, g, base)
    ensures counter == base + Quot(|EligibleOf(req, group.subclouds)|, Cap(req, group))
    ensures stageUpdated == Updated(req, group, before)
  {
    hide Eligible, OneRowPerEndpoint, Quot, Rem, EligibleOf, Place;
    var maxParallel := if req.maxParallel.Some? then req.maxParallel.value else group.maxParallel;
    var serial := if req.serial.Some? then req.serial.value else group.serial;
    added, counter, stageUpdated := [], base, before;
    var stageSize := 0;
    ghost var cap := Cap(req, group);
    StartOfGroup(req, g, base, cap);
    var i := 0;
    assert group.subclouds[..0] == [];
    while i < |group.subclouds|
      invariant 0 <= i <= |group.subclouds|
      invariant added == Place(EligibleOf(req, group.subclouds[..i]), g, base, cap)
      invariant |added| == |EligibleOf(req, group.subclouds[..i])|
      invariant Counters(serial, cap, base, |added|, counter, stageSize)
      invariant stageUpdated == if i == 0 then before else
        Eligible(req, group.subclouds[i - 1]) && Rem(|added|, cap) == 0
    {
      ghost var el := EligibleOf(req, group.subclouds[..i]);
      EligibleStep(req, group.subclouds, i);
      PlaceStep(el, group.subclouds[i], Eligible(req, group.subclouds[i]), g, base, cap);
      var more;
      more, counter, stageSize, stageUpdated :=
        AddSubcloud(req, serial, maxParallel, g, group.subclouds[i], base, |added|, counter, stageSize);
      added := added + more;
      i := i + 1;
    }
    assert group.subclouds[..i] == group.subclouds;
  }

  method CreateSteps(req: Request, groups: seq<Group>) returns (steps: seq<Placed>)
    requires RowsOk(groups)
    ensures steps == Plan(req, groups)
  {
    hide PlanGroup, Updated, EligibleOf, Cap, Quot, Rem;
    steps := [];
    var counter: nat := 1;
    var stageUpdated := false;
    var g := 0;
    while g < |groups|
      invariant 0 <= g <= |groups|
      invariant steps + PlanFrom(req, groups[g..], g, counter, stageUpdated) == Plan(req, groups)
    {
      assert groups[g..][0] == groups[g] && groups[g..][1..] == groups[g + 1..];
      var added;
      added, counter, stageUpdated := AddGroup(req, groups[g], g, counter, stageUpdated);
      steps := steps + added;
      if !stageUpdated {
        counter := counter + 1;
      }
      g := g + 1;
    }
    assert groups[g..] == [];
  }

  // ---------------------------------------------------------------- shape of a plan

  predicate Ordered(p: seq<Placed>) {
    forall i, j :: 0 <= i < j < |p| ==> p[i].stage <= p[j].stage
  }

  /** A stage belongs to one group and holds no more steps than that group's limit. */
  predicate Spaced(p: seq<Placed>, caps: seq<nat>) {
    && (forall i :: 0 <= i < |p| ==> p[i].group < |caps|)
    && (forall i, j :: 0 <= i < j < |p| && p[i].stage == p[j].stage ==>
          p[i].group == p[j].group && j - i < caps[p[i].group])
  }

  function Caps(req: Request, groups: seq<Group>): (caps: seq<nat>)
    ensures |caps| == |groups|
    ensures forall i :: 0 <= i < |groups| ==> caps[i] == Cap(req, groups[i])
  {
    seq(|groups|, i requires 0 <= i < |groups| => Cap(req, groups[i]))
  }

  lemma {:induction false} QuotOrder(i: nat, j: nat, c: nat)
    requires c >= 1 && i < j
    ensures Quot(i, c) <= Quot(j, c)
    ensures Quot(i, c) == Quot(j, c) ==> j - i < c
    ensures Rem(j, c) == 0 ==> Quot(i, c) < Quot(j, c)
  {
    if i >= c {
      QuotOrder(i - c, j - c, c);
    } else if j >= c {
    }
  }

  lemma GroupBlock(req: Request, g: Group, index: nat, base: nat, before: bool)
    ensures var p := PlanGroup(req, g, index, base);
      && (forall i :: 0 <= i < |p| ==> p[i].group == index && base <= p[i].stage < NextBase(req, g, base, before))
      && (forall i, j :: 0 <= i < j < |p| ==> p[i].stage <= p[j].stage && (p[i].stage == p[j].stage ==> j - i < Cap(req, g)))
      && base <= NextBase(req, g, base, before)
  {
    hide Quot, Rem, Eligible, Limit;
    var p, n, c := PlanGroup(req, g, index, base), |EligibleOf(req, g.subclouds)|, Cap(req, g);
    forall i | 0 <= i < |p|
      ensures p[i].stage < NextBase(req, g, base, before)
    {
      QuotOrder(i, n, c);
    }
    forall i, j | 0 <= i < j < |p|
      ensures p[i].stage <= p[j].stage && (p[i].stage == p[j].stage ==> j - i < c)
    {
      QuotOrder(i, j, c);
    }
  }

  /** Stages never decrease along the steps, no two groups share a stage, and a stage never
      holds more steps than its group allows. */
  lemma {:induction false} PlanShape(req: Request, groups: seq<Group>, index: nat, base: nat, before: bool, caps: seq<nat>)
    requires index + |groups| == |caps|
    requires forall i :: 0 <= i < |groups| ==> caps[index + i] == Cap(req, groups[i])
    ensures var p := PlanFrom(req, groups, index, base, before);
      Ordered(p) && Spaced(p, caps) && forall i :: 0 <= i < |p| ==> p[i].stage >= base && p[i].group >= index
    decreases |groups|
  {
    hide PlanGroup, NextBase, Updated, Cap;
    if groups != [] {
      GroupBlock(req, groups[0], index, base, before);
      var next, updated := NextBase(req, groups[0], base, before), Updated(req, groups[0], before);
      PlanShape(req, groups[1..], index + 1, next, updated, caps);
    }
  }

  lemma {:induction false} QuotIsDivision(n: nat, c: nat)
    requires c >= 1
    ensures n == Quot(n, c) * c + Rem(n, c) && Rem(n, c) < c
  {
    if n >= c {
      QuotIsDivision(n - c, c);
      assert Quot(n, c) * c == Quot(n - c, c) * c + c;
    }
  }

  lemma QuotUnique(n: nat, c: nat, q: nat)
    requires c >= 1
    ensures Quot(n, c) == q <==> q * c <= n < q * c + c
    decreases n
  {
    if q >= 1 {
      MulSuccessor(q - 1, c);
      if n >= c {
        QuotUnique(n - c, c, q - 1);
      }
    }
  }

  function Ceil(n: nat, c: nat): nat
    requires c >= 1
  {
    if n == 0 then 0 else Quot(n - 1, c) + 1
  }

  lemma StageBounds(n: nat, c: nat, k: nat)
    requires c >= 1 && k < Ceil(n, c)
    ensures k * c < n && (k + 1 < Ceil(n, c) ==> k * c + c <= n) && (k + 1 == Ceil(n, c) ==> n <= k * c + c)
  {
    hide Quot;
    var last := Quot(n - 1, c);
    QuotUnique(n - 1, c, last);
    MulMonotone(k, last, c);
    if k < last {
      MulMonotone(k + 1, last, c);
      MulSuccessor(k, c);
    }
  }

  lemma MulSuccessor(k: nat, c: nat)
    ensures (k + 1) * c == k * c + c
  {
  }

  /** A group of n steps with limit c fills stages base, base + 1, ..., base + ceil(n / c) - 1:
      all but the last hold exactly c consecutive steps, and the last holds what remains. */
  lemma StagesOfGroup(req: Request, g: Group, index: nat, base: nat, k: nat)
    requires k < Ceil(|EligibleOf(req, g.subclouds)|, Cap(req, g))
    ensures var p := PlanGroup(req, g, index, base);
      var n, c := |p|, Cap(req, g);
      var here := set j | 0 <= j < |p| && p[j].stage == base + k;
      && here == Interval(k * c, Min(n, k * c + c))
      && |here| == (if k + 1 < Ceil(n, c) then c else n - k * c)
      && |here| >= 1
    ensures forall j :: 0 <= j < |PlanGroup(req, g, index, base)| ==>
      base <= PlanGroup(req, g, index, base)[j].stage < base + Ceil(|EligibleOf(req, g.subclouds)|, Cap(req, g))
  {
    hide Quot, Rem, EligibleOf, Limit, Interval, Cap;
    var p := PlanGroup(req, g, index, base);
    var n, c := |p|, Cap(req, g);
    CapIsPositive(req, g);
    var here := set j | 0 <= j < |p| && p[j].stage == base + k;
    StageBounds(n, c, k);
    var from := k * c;
    forall j | 0 <= j < n
      ensures p[j].stage == base + k <==> from <= j < from + c
      ensures base <= p[j].stage < base + Ceil(n, c)
    {
      QuotUnique(j, c, k);
      LastStage(n, j, c);
    }
    hide PlanGroup, Ceil;
    assert here == Interval(from, Min(n, from + c)) by {
      IntervalIs(here, from, Min(n, from + c));
    }
    IntervalSize(from, Min(n, from + c));
  }

  lemma IntervalIs(here: set<int>, from: nat, to: nat)
    requires forall j :: j in here <==> from <= j < to
    ensures here == Interval(from, to)
  {
  }

  /** A group takes as many stage numbers as it has stages, and wastes one more exactly when its stages are all
      full and its last subcloud gets no step (or, in an empty group, the counter was not just moved). */
  lemma StageGaps(req: Request, g: Group, base: nat, before: bool)
    ensures var n, c := |EligibleOf(req, g.subclouds)|, Cap(req, g);
      var wasted := NextBase(req, g, base, before) - (base + Ceil(n, c));
      var skippedLast := if g.subclouds == [] then !before else !Eligible(req, g.subclouds[|g.subclouds| - 1]);
      && (wasted == 0 || wasted == 1)
      && (wasted == 1 <==> n == Quot(n, c) * c && skippedLast)
  {
    var n, c := |EligibleOf(req, g.subclouds)|, Cap(req, g);
    QuotIsDivision(n, c);
    if n > 0 {
      NextQuotient(n - 1, c);
    }
  }

  // ---------------------------------------------------------------- stages, as the user asked for them

  function StageNumbers(p: seq<Placed>): (r: seq<nat>)
    ensures |r| == |p| && forall i :: 0 <= i < |p| ==> r[i] == p[i].stage
  {
    seq(|p|, i requires 0 <= i < |p| => p[i].stage)
  }

  /** How many steps the stage holds. */
  function StepsIn(p: seq<Placed>, stage: nat): nat {
    multiset(StageNumbers(p))[stage]
  }

  lemma StepsInConcat(p: seq<Placed>, q: seq<Placed>, stage: nat)
    ensures StepsIn(p + q, stage) == StepsIn(p, stage) + StepsIn(q, stage)
  {
    assert StageNumbers(p + q) == StageNumbers(p) + StageNumbers(q);
  }

  lemma {:induction false} StepsInIsSize(p: seq<Placed>, stage: nat)
    ensures StepsIn(p, stage) == |set j | 0 <= j < |p| && p[j].stage == stage|
    decreases |p|
  {
    var here := set j | 0 <= j < |p| && p[j].stage == stage;
    if p == [] {
      assert here == {};
    } else {
      var last := |p| - 1;
      StepsInIsSize(p[..last], stage);
      StepsInConcat(p[..last], [p[last]], stage);
      assert p == p[..last] + [p[last]];
      var before := set j | 0 <= j < last && p[..last][j].stage == stage;
      assert here == before + (if p[last].stage == stage then {last} else {});
      assert StageNumbers([p[last]]) == [p[last].stage];
    }
  }

  lemma NoneOfStage(p: seq<Placed>, stage: nat)
    requires forall i :: 0 <= i < |p| ==> p[i].stage != stage
    ensures StepsIn(p, stage) == 0
  {
    assert stage !in StageNumbers(p);
  }

  lemma GroupStages(req: Request, g: Group, index: nat, base: nat, i: nat)
    requires i < |PlanGroup(req, g, index, base)|
    ensures var p := PlanGroup(req, g, index, base); var st := p[i].stage;
      && 1 <= StepsIn(p, st) <= Cap(req, g)
      && ((exists j :: 0 <= j < |p| && p[j].stage > st) ==> StepsIn(p, st) == Cap(req, g))
  {
    hide EligibleOf, Cap, StepsIn, Place, Ceil, Interval, Quot;
    var p, c := PlanGroup(req, g, index, base), Cap(req, g);
    CapIsPositive(req, g);
    PlaceLength(EligibleOf(req, g.subclouds), index, base, c);
    PlaceStage(EligibleOf(req, g.subclouds), index, base, c, i);
    var k := p[i].stage - base;
    hide PlanGroup;
    StagesOfGroup(req, g, index, base, k);
    StepsInIsSize(p, p[i].stage);
    StageBounds(|p|, c, k);
  }

  lemma PlaceLength(el: seq<Subcloud>, index: nat, base: nat, c: nat)
    ensures |Place(el, index, base, c)| == |el|
  {
  }

  lemma PlaceStage(el: seq<Subcloud>, index: nat, base: nat, c: nat, i: nat)
    requires c >= 1 && i < |el|
    ensures var p := Place(el, index, base, c);
      && p[i].stage >= base && p[i].stage - base < Ceil(|el|, c)
      && ((exists j :: 0 <= j < |p| && p[j].stage > p[i].stage) ==> p[i].stage - base + 1 < Ceil(|el|, c))
  {
    hide Quot;
    var p := Place(el, index, base, c);
    forall j | 0 <= j < |el|
      ensures Quot(j, c) < Ceil(|el|, c)
    {
      LastStage(|el|, j, c);
    }
  }

  lemma CapIsPositive(req: Request, g: Group)
    ensures Cap(req, g) >= 1
  {
  }

  lemma LastStage(n: nat, i: nat, c: nat)
    requires c >= 1 && i < n
    ensures Quot(i, c) < Ceil(n, c)
  {
    if i < n - 1 {
      QuotOrder(i, n - 1, c);
    }
  }

  /** Every stage of the plan, by the limit used for its group. */
  lemma {:induction false} PlanStages(req: Request, groups: seq<Group>, index: nat, base: nat, before: bool, i: nat)
    requires i < |PlanFrom(req, groups, index, base, before)|
    ensures var p := PlanFrom(req, groups, index, base, before); var st := p[i].stage;
      && index <= p[i].group < index + |groups|
      && var c := Cap(req, groups[p[i].group - index]);
        && 1 <= StepsIn(p, st) <= c
        && ((exists j :: 0 <= j < |p| && p[j].group == p[i].group && p[j].stage > st) ==> StepsIn(p, st) == c)
    decreases |groups|
  {
    hide PlanGroup, NextBase, Updated, Cap, StepsIn, Eligible, Caps;
    var next, updated := NextBase(req, groups[0], base, before), Updated(req, groups[0], before);
    var here, rest := PlanGroup(req, groups[0], index, base), PlanFrom(req, groups[1..], index + 1, next, updated);
    GroupBlock(req, groups[0], index, base, before);
    RestIsLater(req, groups[1..], index + 1, next, updated, rest);
    if i < |here| {
      GroupStages(req, groups[0], index, base, i);
      StageInFront(here, rest, next, index, i);
    } else {
      PlanStages(req, groups[1..], index + 1, next, updated, i - |here|);
      StageBehind(here, rest, next, index, i);
    }
  }

  lemma RestIsLater(req: Request, groups: seq<Group>, index: nat, base: nat, before: bool, p: seq<Placed>)
    requires p == PlanFrom(req, groups, index, base, before)
    ensures forall i :: 0 <= i < |p| ==> p[i].stage >= base && p[i].group >= index
  {
    hide Cap;
    PlanShape(req, groups, index, base, before, seq(index, x => 0) + Caps(req, groups));
  }

  lemma StageInFront(here: seq<Placed>, rest: seq<Placed>, next: nat, index: nat, i: nat)
    requires i < |here|
    requires forall k :: 0 <= k < |here| ==> here[k].group == index && here[k].stage < next
    requires forall k :: 0 <= k < |rest| ==> rest[k].group > index && rest[k].stage >= next
    ensures StepsIn(here + rest, here[i].stage) == StepsIn(here, here[i].stage)
    ensures (exists j :: 0 <= j < |here + rest| && (here + rest)[j].group == index && (here + rest)[j].stage > here[i].stage) ==>
      exists j :: 0 <= j < |here| && here[j].stage > here[i].stage
  {
    hide StepsIn;
    StepsInConcat(here, rest, here[i].stage);
    NoneOfStage(rest, here[i].stage);
  }

  lemma StageBehind(here: seq<Placed>, rest: seq<Placed>, next: nat, index: nat, i: nat)
    requires |here| <= i < |here| + |rest|
    requires forall k :: 0 <= k < |here| ==> here[k].group == index && here[k].stage < next
    requires forall k :: 0 <= k < |rest| ==> rest[k].group > index && rest[k].stage >= next
    ensures var s := rest[i - |here|];
      && (here + rest)[i] == s && StepsIn(here + rest, s.stage) == StepsIn(rest, s.stage)
      && ((exists j :: 0 <= j < |here + rest| && (here + rest)[j].group == s.group && (here + rest)[j].stage > s.stage) ==>
            exists j :: 0 <= j < |rest| && rest[j].group == s.group && rest[j].stage > s.stage)
  {
    hide StepsIn;
    var s := rest[i - |here|];
    StepsInConcat(here, rest, s.stage);
    NoneOfStage(here, s.stage);
    if j :| 0 <= j < |here + rest| && (here + rest)[j].group == s.group && (here + rest)[j].stage > s.stage {
      assert (here + rest)[j] == rest[j - |here|];
    }
  }

  /** The stages of a plan, in the user's terms. With the apply type serial, asked for or, if nothing is asked for, the
      group's own, every stage holds one step. With parallel, a stage holds at most as many steps as the
      user's limit, or if none is given the group's own, says (a limit below one counts as one), and
      every stage of a group but its last holds exactly that many. */
  lemma StageSizes(req: Request, groups: seq<Group>, i: nat)
    requires i < |Plan(req, groups)|
    ensures Plan(req, groups)[i].group < |groups|
    ensures var p := Plan(req, groups); var g := groups[p[i].group];
      var held := StepsIn(p, p[i].stage);
      var another := exists j :: 0 <= j < |p| && p[j].group == p[i].group && p[j].stage > p[i].stage;
      && (req.serial == Some(true) || (req.serial.None? && g.serial) ==> held == 1)
      && (req.serial == Some(false) || (req.serial.None? && !g.serial) ==>
            && (req.maxParallel.Some? ==> held <= Max(1, req.maxParallel.value) && (another ==> held == Max(1, req.maxParallel.value)))
            && (req.maxParallel.None? ==> held <= Max(1, g.maxParallel) && (another ==> held == Max(1, g.maxParallel))))
  {
    hide Plan, StepsIn;
    StagesFromPlan(req, groups, i);
  }

  lemma StagesFromPlan(req: Request, groups: seq<Group>, i: nat)
    requires i < |Plan(req, groups)|
    ensures var p := Plan(req, groups); var st := p[i].stage;
      && p[i].group < |groups|
      && var c := Cap(req, groups[p[i].group]);
        && 1 <= StepsIn(p, st) <= c
        && ((exists j :: 0 <= j < |p| && p[j].group == p[i].group && p[j].stage > st) ==> StepsIn(p, st) == c)
  {
    hide StepsIn, Cap;
    PlanStages(req, groups, 0, 1, false, i);
  }

  /** Groups without subclouds at the front take one stage number each; the numbers begin with 1. */
  lemma {:induction false} EmptyGroupsCount(req: Request, groups: seq<Group>, n: nat)
    requires n <= |groups| && forall g :: 0 <= g < n ==> groups[g].subclouds == []
    requires n < |groups| && EligibleOf(req, groups[n].subclouds) != []
    ensures Plan(req, groups) != [] && Plan(req, groups)[0] == Placed(EligibleOf(req, groups[n].subclouds)[0].name, n, n + 1)
  {
    SkipsEmpty(req, groups, 0, n);
    assert groups[n..][0] == groups[n];
    CapIsPositive(req, groups[n]);
  }

  lemma {:induction false} SkipsEmpty(req: Request, groups: seq<Group>, g: nat, n: nat)
    requires g <= n < |groups| && forall k :: g <= k < n ==> groups[k].subclouds == []
    ensures PlanFrom(req, groups[g..], g, g + 1, false) == PlanFrom(req, groups[n..], n, n + 1, false)
    decreases n - g
  {
    if g < n {
      assert groups[g..][0] == groups[g] && groups[g..][1..] == groups[g + 1..];
      assert EligibleOf(req, groups[g].subclouds) == [];
      CapIsPositive(req, groups[g]);
      SkipsEmpty(req, groups, g + 1, n);
    }
  }

  lemma MulMonotone(a: nat, b: nat, c: nat)
    requires a <= b
    ensures a * c <= b * c
  {
  }

  // ---------------------------------------------------------------- who gets a step

  function Roster(groups: seq<Group>): seq<Subcloud> {
    if groups == [] then [] else groups[0].subclouds + Roster(groups[1..])
  }

  predicate UniqueNames(scs: seq<Subcloud>) {
    forall i, j :: 0 <= i < j < |scs| ==> scs[i].name != scs[j].name
  }

  function Names(scs: seq<Subcloud>): (r: seq<string>)
    ensures |r| == |scs| && forall i :: 0 <= i < |r| ==> r[i] == scs[i].name
  {
    seq(|scs|, i requires 0 <= i < |scs| => scs[i].name)
  }

  function PlacedNames(p: seq<Placed>): (r: seq<string>)
    ensures |r| == |p| && forall i :: 0 <= i < |r| ==> r[i] == p[i].name
  {
    seq(|p|, i requires 0 <= i < |p| => p[i].name)
  }

  lemma {:induction false} EligibleConcat(req: Request, a: seq<Subcloud>, b: seq<Subcloud>)
    ensures EligibleOf(req, a + b) == EligibleOf(req, a) + EligibleOf(req, b)
    decreases |b|
  {
    hide Eligible;
    if b == [] {
      assert a + b == a;
    } else {
      var i := |a + b| - 1;
      assert (a + b)[..i] == a + b[..|b| - 1] && (a + b)[i] == b[|b| - 1];
      EligibleConcat(req, a, b[..|b| - 1]);
    }
  }

  lemma NamesConcat(p: seq<Placed>, q: seq<Placed>, a: seq<Subcloud>, b: seq<Subcloud>)
    ensures PlacedNames(p + q) == PlacedNames(p) + PlacedNames(q)
    ensures Names(a + b) == Names(a) + Names(b)
  {
  }

  lemma PlaceNames(el: seq<Subcloud>, index: nat, base: nat, cap: nat)
    ensures PlacedNames(Place(el, index, base, cap)) == Names(el)
  {
    hide Quot;
  }

  /** The steps, in creation order, are exactly the eligible subclouds of the groups in turn. */
  lemma {:induction false} PlanIsEligibleRoster(req: Request, groups: seq<Group>, index: nat, base: nat, before: bool)
    ensures PlacedNames(PlanFrom(req, groups, index, base, before)) == Names(EligibleOf(req, Roster(groups)))
    decreases |groups|
  {
    hide NextBase, Updated, Cap, Eligible, Quot, Place, PlacedNames, Names, EligibleOf;
    if groups == [] {
      assert PlacedNames([]) == [] == Names(EligibleOf(req, []));
    } else {
      var g, base', updated := groups[0], NextBase(req, groups[0], base, before), Updated(req, groups[0], before);
      var here, rest := EligibleOf(req, g.subclouds), EligibleOf(req, Roster(groups[1..]));
      PlanIsEligibleRoster(req, groups[1..], index + 1, base', updated);
      EligibleConcat(req, g.subclouds, Roster(groups[1..]));
      PlaceNames(here, index, base, Cap(req, g));
      NamesConcat(PlanGroup(req, g, index, base), PlanFrom(req, groups[1..], index + 1, base', updated), here, rest);
    }
  }

  lemma {:induction false} EligibleMembers(req: Request, scs: seq<Subcloud>)
    ensures forall sc :: sc in EligibleOf(req, scs) <==> sc in scs && Eligible(req, sc)
    decreases |scs|
  {
    hide Eligible;
    if scs != [] {
      EligibleMembers(req, scs[..|scs| - 1]);
      assert scs == scs[..|scs| - 1] + [scs[|scs| - 1]];
    }
  }

  lemma {:induction false} EligibleUnique(req: Request, scs: seq<Subcloud>)
    requires UniqueNames(scs)
    ensures UniqueNames(EligibleOf(req, scs))
    decreases |scs|
  {
    hide Eligible;
    if scs != [] {
      var front, last := scs[..|scs| - 1], scs[|scs| - 1];
      EligibleUnique(req, front);
      EligibleMembers(req, front);
      hide EligibleOf;
      forall i | 0 <= i < |EligibleOf(req, front)|
        ensures EligibleOf(req, front)[i].name != last.name
      {
        assert EligibleOf(req, front)[i] in EligibleOf(req, front);
        var k :| 0 <= k < |front| && front[k] == EligibleOf(req, front)[i];
        assert scs[k] == front[k];
      }
      assert scs[..|scs| - 1] == front;
      OneMoreEligible(req, scs);
    }
  }

  lemma OneMoreEligible(req: Request, scs: seq<Subcloud>)
    requires scs != []
    ensures var front := EligibleOf(req, scs[..|scs| - 1]);
      EligibleOf(req, scs) == if Eligible(req, scs[|scs| - 1]) then front + [scs[|scs| - 1]] else front
  {
  }

  // ---------------------------------------------------------------- the validation pass

  const SYSTEM_CONTROLLER_NAME := "SystemController"

  /** The status in the first row of the endpoint, if there is one. */
  function SyncOf(statuses: seq<Status>, e: Endpoint): (sync: Option<SyncStatus>)
    ensures sync.None? <==> forall i :: 0 <= i < |statuses| ==> statuses[i].endpoint != e
  {
    if statuses == [] then None
    else if statuses[0].endpoint == e then Some(statuses[0].sync)
    else SyncOf(statuses[1..], e)
  }

  lemma {:induction false} SyncOfRow(statuses: seq<Status>, i: nat)
    requires OneRowPerEndpoint(statuses) && i < |statuses|
    ensures SyncOf(statuses, statuses[i].endpoint) == Some(statuses[i].sync)
  {
    if i > 0 {
      SyncOfRow(statuses[1..], i - 1);
    }
  }

  lemma {:induction false} SyncOfFound(statuses: seq<Status>, e: Endpoint) returns (i: nat)
    requires SyncOf(statuses, e).Some?
    ensures i < |statuses| && statuses[i] == Status(e, SyncOf(statuses, e).value)
  {
    if statuses[0].endpoint == e {
      i := 0;
    } else {
      i := SyncOfFound(statuses[1..], e);
      i := i + 1;
    }
  }

  predicate ForceIgnoresSync(req: Request) {
    req.force && (req.kind == KubernetesUpgrade || req.kind == KubeRootcaUpdate)
  }

  /** The checks before the loop over the subclouds: of the one that is named, and of a prestage request. */
  function CheckNamed(req: Request, fleet: seq<Subcloud>): Validation {
    if req.cloud.None? || req.cloud.value == SYSTEM_CONTROLLER_NAME then
      if req.kind == Prestage && !req.prestageAllowed then Invalid(PrestageRefused) else Valid
    else
      match Find(fleet, req.cloud.value)
      case None => Invalid(NoSuchSubcloud)
      case Some(sc) =>
        if req.kind == Prestage then if req.prestageAllowed && sc.prestageable then Valid else Invalid(PrestageRefused)
        else if ForceIgnoresSync(req) then Valid
        else
          match SyncOf(sc.statuses, EndpointOf(req.kind))
          case None => Invalid(StatusMissing)
          case Some(sync) => if sync == InSync then Invalid(UpdateNotRequired) else Valid
  }

  function Find(fleet: seq<Subcloud>, name: string): Option<Subcloud> {
    if fleet == [] then None
    else if fleet[0].name == name then Some(fleet[0])
    else Find(fleet[1..], name)
  }

  /** The subcloud stops the creation: it would be updated, is online, and its status is unknown. */
  predicate Blocks(req: Request, sc: Subcloud) {
    && (req.cloud.Some? ==> sc.name == req.cloud.value)
    && sc.managed
    && sc.online
    && req.kind != Prestage
    && Status(EndpointOf(req.kind), Unknown) in sc.statuses
  }

  /** The validation loop, over (subcloud, status) pairs. */
  method ValidateSubclouds(req: Request, fleet: seq<Subcloud>, groups: seq<Group>) returns (v: Validation)
    ensures v == Validate(req, fleet, groups)
  {
    v := CheckNamed(req, fleet);
    if v.Invalid? {
      return;
    }
    var roster := Roster(groups);
    var i := 0;
    while i < |roster|
      invariant 0 <= i <= |roster|
      invariant forall m :: 0 <= m < i ==> !Blocks(req, roster[m])
    {
      var sc := roster[i];
      var k := 0;
      while k < |sc.statuses|
        invariant 0 <= k <= |sc.statuses|
        invariant Blocks(req, sc) ==> Status(EndpointOf(req.kind), Unknown) in sc.statuses[k..]
      {
        var targeted := (req.cloud.Some? ==> sc.name == req.cloud.value) && sc.managed;
        if targeted && sc.online && req.kind != Prestage && sc.statuses[k] == Status(EndpointOf(req.kind), Unknown) {
          return Invalid(StatusUnknown);
        }
        k := k + 1;
      }
      i := i + 1;
    }
  }

  function Validate(req: Request, fleet: seq<Subcloud>, groups: seq<Group>): Validation {
    if CheckNamed(req, fleet).Invalid? then CheckNamed(req, fleet)
    else if exists sc :: sc in Roster(groups) && Blocks(req, sc) then Invalid(StatusUnknown)
    else Valid
  }

  /** The endpoint that says whether a subcloud needs an update of this kind. */
  predicate Concerns(kind: StrategyType, e: Endpoint) {
    || (e == Patching && kind == Patch)
    || (e == Load && (kind == Upgrade || kind == Prestage))
    || (e == Firmware && kind == FirmwareUpdate)
    || (e == Kubernetes && kind == KubernetesUpgrade)
    || (e == KubeRootca && kind == KubeRootcaUpdate)
  }

  /** Independent statement of who should be updated: a managed subcloud that the request does not leave out, online or
      being upgraded by force, which has a status for the update; that status is not in-sync, or force or
      prestage does not ask for it. */
  predicate Wanted(req: Request, sc: Subcloud) {
    && (req.cloud == None || req.cloud == Some(sc.name))
    && sc.managed
    && (!sc.online ==> req.kind == Upgrade && req.force)
    && exists i :: 0 <= i < |sc.statuses| && Calls(req, sc.statuses[i])
  }

  predicate Calls(req: Request, status: Status) {
    && Concerns(req.kind, status.endpoint)
    && (status.sync == InSync ==> req.kind == Prestage || (req.force && req.kind in {KubernetesUpgrade, KubeRootcaUpdate}))
  }

  lemma EligibleIsWanted(req: Request, sc: Subcloud)
    requires OneRowPerEndpoint(sc.statuses) && !Blocks(req, sc)
    ensures Eligible(req, sc) <==> Wanted(req, sc)
  {
    if Eligible(req, sc) {
      var i :| 0 <= i < |sc.statuses| && ValidateStatusSync(req.kind, sc.statuses[i], req.force, sc.online);
      assert Calls(req, sc.statuses[i]);
    }
    if Wanted(req, sc) {
      var i :| 0 <= i < |sc.statuses| && Calls(req, sc.statuses[i]);
      assert sc.statuses[i] in sc.statuses;
      assert ValidateStatusSync(req.kind, sc.statuses[i], req.force, sc.online);
    }
  }

  // ---------------------------------------------------------------- who is refused, and why

  /** The i-th subcloud is the one that the request names; the name of the system controller names none. */
  predicate IsNamed(req: Request, fleet: seq<Subcloud>, i: nat) {
    && i < |fleet| && req.cloud == Some(fleet[i].name) && fleet[i].name != "SystemController"
    && forall j :: 0 <= j < i ==> fleet[j].name != fleet[i].name
  }

  predicate NoRow(kind: StrategyType, sc: Subcloud) {
    forall k :: 0 <= k < |sc.statuses| ==> !Concerns(kind, sc.statuses[k].endpoint)
  }

  /** The first row for the update is in-sync. */
  predicate RowInSync(kind: StrategyType, sc: Subcloud) {
    exists k :: 0 <= k < |sc.statuses| && FirstRow(kind, sc, k) && sc.statuses[k].sync == InSync
  }

  predicate FirstRow(kind: StrategyType, sc: Subcloud, k: nat)
    requires k < |sc.statuses|
  {
    Concerns(kind, sc.statuses[k].endpoint) && forall m :: 0 <= m < k ==> !Concerns(kind, sc.statuses[m].endpoint)
  }

  /** A managed, online subcloud that the request does not leave out has an unknown status for the update. */
  predicate IsUnknown(req: Request, sc: Subcloud) {
    && (req.cloud == None || req.cloud == Some(sc.name)) && sc.managed && sc.online
    && exists k :: 0 <= k < |sc.statuses| && Concerns(req.kind, sc.statuses[k].endpoint) && sc.statuses[k].sync == Unknown
  }

  lemma {:induction false} FindIs(fleet: seq<Subcloud>, name: string) returns (i: nat)
    ensures if Find(fleet, name).None? then forall j :: 0 <= j < |fleet| ==> fleet[j].name != name
      else i < |fleet| && Find(fleet, name) == Some(fleet[i]) && fleet[i].name == name && forall j :: 0 <= j < i ==> fleet[j].name != name
  {
    i := 0;
    if fleet != [] && fleet[0].name != name {
      i := FindIs(fleet[1..], name);
      i := i + 1;
    }
  }

  lemma {:induction false} SyncOfFirst(kind: StrategyType, sc: Subcloud, n: nat) returns (k: nat)
    requires n <= |sc.statuses| && forall m :: 0 <= m < n ==> !Concerns(kind, sc.statuses[m].endpoint)
    ensures SyncOf(sc.statuses[n..], EndpointOf(kind)).None? ==> NoRow(kind, sc)
    ensures SyncOf(sc.statuses[n..], EndpointOf(kind)).Some? ==>
      k < |sc.statuses| && FirstRow(kind, sc, k) && SyncOf(sc.statuses[n..], EndpointOf(kind)) == Some(sc.statuses[k].sync)
    decreases |sc.statuses| - n
  {
    k := n;
    if n < |sc.statuses| {
      assert sc.statuses[n..][0] == sc.statuses[n] && sc.statuses[n..][1..] == sc.statuses[n + 1..];
      if sc.statuses[n].endpoint != EndpointOf(kind) {
        k := SyncOfFirst(kind, sc, n + 1);
      }
    }
  }

  /** Why the checks before the loop refuse a request. */
  ghost predicate Refuses(req: Request, fleet: seq<Subcloud>, error: CreateError) {
    var missing := req.cloud.Some? && req.cloud.value != "SystemController" && forall i :: 0 <= i < |fleet| ==> fleet[i].name != req.cloud.value;
    var needsStatus := req.kind != Prestage && !(req.force && req.kind in {KubernetesUpgrade, KubeRootcaUpdate});
    match error
    case NoSuchSubcloud => missing
    case PrestageRefused =>
      !missing && req.kind == Prestage && (!req.prestageAllowed || exists i: nat :: IsNamed(req, fleet, i) && !fleet[i].prestageable)
    case StatusMissing => needsStatus && exists i: nat :: IsNamed(req, fleet, i) && NoRow(req.kind, fleet[i])
    case UpdateNotRequired => needsStatus && exists i: nat :: IsNamed(req, fleet, i) && RowInSync(req.kind, fleet[i])
    case StatusUnknown => false
  }

  lemma StatusChecked(req: Request, sc: Subcloud)
    ensures var sync := SyncOf(sc.statuses, EndpointOf(req.kind));
      (sync.None? <==> NoRow(req.kind, sc)) && (sync == Some(InSync) <==> RowInSync(req.kind, sc))
  {
    var k := SyncOfFirst(req.kind, sc, 0);
    assert sc.statuses[0..] == sc.statuses;
    if SyncOf(sc.statuses, EndpointOf(req.kind)).Some? {
      assert forall m: nat :: m < |sc.statuses| && FirstRow(req.kind, sc, m) ==> m == k;
    }
  }

  /** The checks of the named subcloud and of a prestage request. */
  lemma CheckedExactly(req: Request, fleet: seq<Subcloud>, error: CreateError)
    ensures CheckNamed(req, fleet) == Invalid(error) <==> Refuses(req, fleet, error)
  {
    hide Find, SyncOf, EndpointOf, Concerns, NoRow, RowInSync;
    if req.cloud.Some? {
      var i := FindIs(fleet, req.cloud.value);
      if Find(fleet, req.cloud.value).Some? && req.cloud != Some("SystemController") {
        assert IsNamed(req, fleet, i);
        assert forall j: nat :: IsNamed(req, fleet, j) ==> j == i;
        StatusChecked(req, fleet[i]);
      }
    }
  }

  /** The whole validation: each refusal for its own reason, and an unknown status only if nothing else is wrong. */
  lemma ValidatedExactly(req: Request, fleet: seq<Subcloud>, groups: seq<Group>, error: CreateError)
    ensures Validate(req, fleet, groups) == Invalid(error) <==>
      || Refuses(req, fleet, error)
      || (&& error == StatusUnknown && req.kind != Prestage
          && (forall e :: !Refuses(req, fleet, e))
          && exists sc :: sc in Roster(groups) && IsUnknown(req, sc))
  {
    hide CheckNamed, Blocks, IsUnknown, Refuses;
    forall e
      ensures CheckNamed(req, fleet) == Invalid(e) <==> Refuses(req, fleet, e)
    {
      CheckedExactly(req, fleet, e);
    }
    forall sc | sc in Roster(groups)
      ensures Blocks(req, sc) <==> req.kind != Prestage && IsUnknown(req, sc)
    {
      BlocksIs(req, sc);
    }
    NeverUnknown(req, fleet);
  }

  lemma NeverUnknown(req: Request, fleet: seq<Subcloud>)
    ensures !Refuses(req, fleet, StatusUnknown)
  {
  }

  lemma BlocksIs(req: Request, sc: Subcloud)
    ensures Blocks(req, sc) <==> req.kind != Prestage && IsUnknown(req, sc)
  {
    if IsUnknown(req, sc) {
      var k :| 0 <= k < |sc.statuses| && Concerns(req.kind, sc.statuses[k].endpoint) && sc.statuses[k].sync == Unknown;
      assert sc.statuses[k] in sc.statuses;
    }
  }

  // ---------------------------------------------------------------- both passes

  lemma RosterRows(groups: seq<Group>, sc: Subcloud)
    requires RowsOk(groups) && sc in Roster(groups)
    ensures OneRowPerEndpoint(sc.statuses)
  {
    if sc in groups[0].subclouds {
      var i :| 0 <= i < |groups[0].subclouds| && groups[0].subclouds[i] == sc;
      assert OneRowPerEndpoint(groups[0].subclouds[i].statuses);
    } else {
      RosterRows(groups[1..], sc);
    }
  }

  /** Over both passes: a strategy that passes validation has one step for every wanted
      subcloud of the groups, and no other step. */
  lemma StepsAreTheWanted(req: Request, fleet: seq<Subcloud>, groups: seq<Group>, sc: Subcloud)
    requires RowsOk(groups) && UniqueNames(Roster(groups))
    requires Validate(req, fleet, groups).Valid?
    requires sc in Roster(groups)
    ensures var names := PlacedNames(Plan(req, groups));
      && (sc.name in names <==> Wanted(req, sc))
      && (forall i, j :: 0 <= i < j < |names| ==> names[i] != names[j])
      && (forall n :: n in names ==> exists o :: o in Roster(groups) && o.name == n && Wanted(req, o))
  {
    hide Eligible, Wanted, Plan;
    var roster := Roster(groups);
    var el := EligibleOf(req, roster);
    assert PlacedNames(Plan(req, groups)) == Names(el) by {
      NamesOfPlan(req, groups);
    }
    EligibleMembers(req, roster);
    EligibleUnique(req, roster);
    forall o | o in roster
      ensures Eligible(req, o) <==> Wanted(req, o)
    {
      RosterRows(groups, o);
      EligibleIsWanted(req, o);
    }
    if sc.name in Names(el) {
      var i :| 0 <= i < |el| && el[i].name == sc.name;
      var a :| 0 <= a < |roster| && roster[a] == sc;
      assert el[i] in el;
      var b :| 0 <= b < |roster| && roster[b] == el[i];
      assert a == b;
    }
    forall n | n in Names(el)
      ensures exists o :: o in roster && o.name == n && Wanted(req, o)
    {
      var i :| 0 <= i < |el| && el[i].name == n;
      assert el[i] in el;
    }
  }

  /** The first pass warns that a subcloud which fails its prestage check is excluded; it gets its step all the same. */
  lemma ExcludedIsPlaced(req: Request, fleet: seq<Subcloud>, groups: seq<Group>, sc: Subcloud)
    requires RowsOk(groups) && UniqueNames(Roster(groups)) && Validate(req, fleet, groups).Valid?
    requires req.kind == Prestage && sc in Roster(groups) && !sc.prestageable
    requires (req.cloud == None || req.cloud == Some(sc.name)) && sc.managed && sc.online
    requires exists i :: 0 <= i < |sc.statuses| && sc.statuses[i].endpoint == Load
    ensures sc.name in PlacedNames(Plan(req, groups))
  {
    var i :| 0 <= i < |sc.statuses| && sc.statuses[i].endpoint == Load;
    assert Calls(req, sc.statuses[i]);
    hide Plan, Roster, RowsOk, Validate, UniqueNames;
    StepsAreTheWanted(req, fleet, groups, sc);
  }

  lemma NamesOfPlan(req: Request, groups: seq<Group>)
    ensures PlacedNames(Plan(req, groups)) == Names(EligibleOf(req, Roster(groups)))
  {
    PlanIsEligibleRoster(req, groups, 0, 1, false);
  }
}
