/** Redistribution of a project's global limits over the regions. Counters keep positive
    counts only, and a missing key counts as zero. */
module Quota {
  import opened Cloud

  type Counts = map<string, int>

  type ProjectUser = (string, Option<string>)

  const VIRTUAL_MASTER_CLOUD := "SystemController"
  const QUOTAS_FOR_MANAGED_RESOURCES := ["key_pairs", "security_group", "security_group_rule"]

  function At(c: Counts, k: string): int {
    if k in c then c[k] else 0
  }

  predicate NonNegative(c: Counts) {
    forall k :: k in c ==> c[k] >= 0
  }

  /** Counter addition. */
  function Plus(a: Counts, b: Counts): Counts {
    map k | k in a.Keys + b.Keys && At(a, k) + At(b, k) > 0 :: At(a, k) + At(b, k)
  }

  /** Counter subtraction. */
  function Minus(a: Counts, b: Counts): Counts {
    map k | k in a.Keys + b.Keys && At(a, k) - At(b, k) > 0 :: At(a, k) - At(b, k)
  }

  // ---------------------------------------------------------------- totals

  /** The regions one after the other, as get_summation adds them up. */
  function Summation(usages: seq<Counts>): Counts {
    if usages == [] then map[] else Plus(Summation(usages[..|usages| - 1]), usages[|usages| - 1])
  }

  function Total(usages: seq<Counts>, k: string): int {
    if usages == [] then 0 else Total(usages[..|usages| - 1], k) + At(usages[|usages| - 1], k)
  }

  lemma {:induction false} SummationIsTotal(usages: seq<Counts>, k: string)
    requires forall i :: 0 <= i < |usages| ==> NonNegative(usages[i])
    ensures At(Summation(usages), k) == Total(usages, k) >= 0
    ensures k in Summation(usages) <==> Total(usages, k) > 0
    decreases |usages|
  {
    if usages != [] {
      SummationIsTotal(usages[..|usages| - 1], k);
    }
  }

  lemma {:induction false} TotalRemove(usages: seq<Counts>, i: nat, k: string)
    requires i < |usages|
    ensures Total(usages, k) == Total(usages[..i] + usages[i + 1..], k) + At(usages[i], k)
    decreases |usages|
  {
    var rest := usages[..i] + usages[i + 1..];
    var last := |usages| - 1;
    if i == last {
      assert rest == usages[..last];
    } else {
      TotalRemove(usages[..last], i, k);
      assert rest[..|rest| - 1] == usages[..last][..i] + usages[..last][i + 1..];
    }
  }

  lemma MultisetWithout<T>(s: seq<T>, i: nat)
    requires i < |s|
    ensures multiset(s) == multiset(s[..i] + s[i + 1..]) + multiset{s[i]}
  {
    var front, rest := s[..i], s[i + 1..];
    assert s == front + ([s[i]] + rest);
    MultisetOfConcat(front, [s[i]] + rest);
    MultisetOfConcat([s[i]], rest);
    MultisetOfConcat(front, rest);
  }

  lemma MultisetOfConcat<T>(a: seq<T>, b: seq<T>)
    ensures multiset(a + b) == multiset(a) + multiset(b)
  {
  }

  /** The last element of a sequence, found in a permutation of it. */
  lemma TakeOut<T>(a: seq<T>, b: seq<T>) returns (i: nat)
    requires a != [] && multiset(a) == multiset(b)
    ensures i < |b| && b[i] == a[|a| - 1]
    ensures multiset(a[..|a| - 1]) == multiset(b[..i] + b[i + 1..])
  {
    var last := |a| - 1;
    assert a[last] in multiset(b);
    i :| 0 <= i < |b| && b[i] == a[last];
    MultisetWithout(a, last);
    MultisetWithout(b, i);
    assert a[..last] + a[last + 1..] == a[..last];
    SameWithout(multiset(a[..last]), multiset(b[..i] + b[i + 1..]), a[last]);
  }

  lemma SameWithout<T>(m: multiset<T>, n: multiset<T>, x: T)
    requires m + multiset{x} == n + multiset{x}
    ensures m == n
  {
    assert m == m + multiset{x} - multiset{x};
    assert n == n + multiset{x} - multiset{x};
  }

  /** The total does not depend on the order of the regions. */
  lemma {:induction false} TotalOfPermutation(a: seq<Counts>, b: seq<Counts>, k: string)
    requires multiset(a) == multiset(b)
    ensures Total(a, k) == Total(b, k)
    decreases |a|
  {
    if a == [] {
      assert |multiset(b)| == 0;
    } else {
      var last := |a| - 1;
      var i := TakeOut(a, b);
      TotalOfPermutation(a[..last], b[..i] + b[i + 1..], k);
      TotalRemove(b, i, k);
    }
  }

  /** Two orders of the same regions give the same totals, resource by resource. */
  lemma SummationIgnoresOrder(a: seq<Counts>, b: seq<Counts>)
    requires multiset(a) == multiset(b)
    requires forall i :: 0 <= i < |a| ==> NonNegative(a[i])
    ensures Summation(a) == Summation(b)
  {
    forall i | 0 <= i < |b|
      ensures NonNegative(b[i])
    {
      assert b[i] in multiset(b);
      assert b[i] in a;
    }
    forall k
      ensures (k in Summation(a) <==> k in Summation(b)) && At(Summation(a), k) == At(Summation(b), k)
    {
      SummationIsTotal(a, k);
      SummationIsTotal(b, k);
      TotalOfPermutation(a, b, k);
    }
    assert Summation(a).Keys == Summation(b).Keys;
    assert forall k :: k in Summation(a) ==> Summation(a)[k] == At(Summation(b), k);
  }

  // ---------------------------------------------------------------- one project and user

  /** What is summed up for a region: managed resources are counted in the master region only. */
  function Counted(region: string, usage: Counts): Counts {
    if region == VIRTUAL_MASTER_CLOUD then usage else map k | k in usage && k !in QUOTAS_FOR_MANAGED_RESOURCES :: usage[k]
  }

  function CountedUsages(usages: map<string, Counts>, order: seq<string>): (r: seq<Counts>)
    requires forall i :: 0 <= i < |order| ==> order[i] in usages
    ensures |r| == |order| && forall i :: 0 <= i < |order| ==> r[i] == Counted(order[i], usages[order[i]])
  {
    seq(|order|, i requires 0 <= i < |order| => Counted(order[i], usages[order[i]]))
  }

  /** The order in which a dictionary of regions is walked. */
  ghost predicate Walks(order: seq<string>, usages: map<string, Counts>) {
    && (forall r :: r in usages <==> r in order)
    && (forall i, j :: 0 <= i < j < |order| ==> order[i] != order[j])
  }

  function TotalUsage(usages: map<string, Counts>, order: seq<string>): Counts
    requires forall i :: 0 <= i < |order| ==> order[i] in usages
  {
    Summation(CountedUsages(usages, order))
  }

  /** The new limits of a region. */
  function NewLimits(limits: Counts, total: Counts, usage: Counts): Counts {
    Plus(Minus(limits, total), usage)
  }

  /** The new limit of every resource is what is left of the global limit, if anything, plus what the region
      uses; a resource whose new limit is zero is left out. */
  lemma NewLimitFormula(limits: Counts, total: Counts, usage: Counts, k: string)
    requires NonNegative(limits) && NonNegative(total) && NonNegative(usage)
    ensures At(NewLimits(limits, total, usage), k) == Max(0, At(limits, k) - At(total, k)) + At(usage, k)
    ensures k in NewLimits(limits, total, usage) <==> At(limits, k) > At(total, k) || At(usage, k) > 0
  {
  }

  lemma {:induction false} TotalBounds(usages: seq<Counts>, i: nat, k: string)
    requires i < |usages| && forall j :: 0 <= j < |usages| ==> NonNegative(usages[j])
    ensures At(usages[i], k) <= Total(usages, k)
    decreases |usages|
  {
    if i == |usages| - 1 {
      SummationIsTotal(usages[..i], k);
    } else {
      TotalBounds(usages[..|usages| - 1], i, k);
    }
  }

  /** The usage that was read for a region; the dictionary answers with nothing for any other region. */
  function UsageOf(usages: map<string, Counts>, region: string): Counts {
    if region in usages then usages[region] else map[]
  }

  /** What a full synchronization writes for the region. */
  ghost function FullSync(limits: Counts, usages: map<string, Counts>, order: seq<string>, region: string): Counts
    requires Walks(order, usages)
  {
    NewLimits(limits, TotalUsage(usages, order), UsageOf(usages, region))
  }

  ghost predicate AllNonNegative(usages: map<string, Counts>) {
    forall r :: r in usages ==> NonNegative(usages[r])
  }

  lemma CountedNonNegative(usages: map<string, Counts>, order: seq<string>)
    requires Walks(order, usages) && AllNonNegative(usages)
    ensures forall i :: 0 <= i < |order| ==> NonNegative(CountedUsages(usages, order)[i])
    ensures NonNegative(TotalUsage(usages, order))
  {
    forall k | k in TotalUsage(usages, order)
      ensures TotalUsage(usages, order)[k] >= 0
    {
      SummationIsTotal(CountedUsages(usages, order), k);
    }
  }

  /** The totals, resource by resource: of a managed resource the usage of the master region, of any other the usage
      of all regions together. */
  lemma TotalsExactly(usages: map<string, Counts>, order: seq<string>, k: string)
    requires Walks(order, usages) && AllNonNegative(usages)
    ensures At(TotalUsage(usages, order), k) ==
      if k == "key_pairs" || k == "security_group" || k == "security_group_rule" then
        if "SystemController" in usages then At(usages["SystemController"], k) else 0
      else Total(Usages(usages, order), k)
  {
    hide Total, Summation;
    CountedNonNegative(usages, order);
    SummationIsTotal(CountedUsages(usages, order), k);
    var managed := ["key_pairs", "security_group", "security_group_rule"];
    assert managed[0] in managed && managed[1] in managed && managed[2] in managed;
    if k == "key_pairs" || k == "security_group" || k == "security_group_rule" {
      assert k in QUOTAS_FOR_MANAGED_RESOURCES;
      OnlyMaster(usages, order, k);
    } else {
      assert k !in QUOTAS_FOR_MANAGED_RESOURCES;
      AllRegions(usages, order, k);
    }
  }

  lemma {:induction false} OnlyMaster(usages: map<string, Counts>, order: seq<string>, k: string)
    requires k in QUOTAS_FOR_MANAGED_RESOURCES
    requires forall i :: 0 <= i < |order| ==> order[i] in usages
    requires forall i, j :: 0 <= i < j < |order| ==> order[i] != order[j]
    ensures Total(CountedUsages(usages, order), k) == if "SystemController" in order then At(usages["SystemController"], k) else 0
    decreases |order|
  {
    if order != [] {
      var last := |order| - 1;
      OnlyMaster(usages, order[..last], k);
      assert CountedUsages(usages, order)[..last] == CountedUsages(usages, order[..last]);
      assert order == order[..last] + [order[last]];
    }
  }

  lemma {:induction false} AllRegions(usages: map<string, Counts>, order: seq<string>, k: string)
    requires k !in QUOTAS_FOR_MANAGED_RESOURCES && forall i :: 0 <= i < |order| ==> order[i] in usages
    ensures Total(CountedUsages(usages, order), k) == Total(Usages(usages, order), k)
    decreases |order|
  {
    if order != [] {
      var last := |order| - 1;
      AllRegions(usages, order[..last], k);
      assert CountedUsages(usages, order)[..last] == CountedUsages(usages, order[..last]);
      assert Usages(usages, order)[..last] == Usages(usages, order[..last]);
    }
  }

  predicate CountsIn(region: string, k: string) {
    region == VIRTUAL_MASTER_CLOUD || k !in QUOTAS_FOR_MANAGED_RESOURCES
  }

  lemma RegionFormula(limits: Counts, usages: map<string, Counts>, order: seq<string>, region: string, k: string)
    requires NonNegative(limits) && AllNonNegative(usages) && Walks(order, usages)
    ensures var t := Total(CountedUsages(usages, order), k);
      && t >= 0 && At(UsageOf(usages, region), k) >= 0 && At(limits, k) >= 0
      && At(FullSync(limits, usages, order, region), k) == Max(0, At(limits, k) - t) + At(UsageOf(usages, region), k)
  {
    hide Total, Summation, NewLimits, NonNegative;
    CountedNonNegative(usages, order);
    assert NonNegative(UsageOf(usages, region)) by {
      NothingIsNonNegative();
    }
    hide CountedUsages, Counted, UsageOf;
    SummationIsTotal(CountedUsages(usages, order), k);
    NewLimitFormula(limits, TotalUsage(usages, order), UsageOf(usages, region), k);
    NotBelowZero(limits, k);
    NotBelowZero(UsageOf(usages, region), k);
  }

  lemma NothingIsNonNegative()
    ensures NonNegative(map[])
  {
  }

  lemma NotBelowZero(c: Counts, k: string)
    requires NonNegative(c)
    ensures At(c, k) >= 0
  {
  }

  lemma UsageIsCounted(usages: map<string, Counts>, order: seq<string>, region: string, k: string)
    requires AllNonNegative(usages) && Walks(order, usages) && CountsIn(region, k)
    ensures At(UsageOf(usages, region), k) <= Total(CountedUsages(usages, order), k)
  {
    hide Total, Summation;
    CountedNonNegative(usages, order);
    if region in usages {
      var i :| 0 <= i < |order| && order[i] == region;
      TotalBounds(CountedUsages(usages, order), i, k);
    } else {
      SummationIsTotal(CountedUsages(usages, order), k);
    }
  }

  /** The limits a region gets, whatever the order of the regions: never below its own usage; above
      the global limit exactly when the region uses more than the smaller of limit and total,
      which cannot be for a resource that counts in this region and whose total fits. If the
      region alone then uses its new limit up, the counted total is the larger of limit and total. */
  lemma RegionLimits(limits: Counts, usages: map<string, Counts>, order: seq<string>, region: string, k: string)
    requires NonNegative(limits) && AllNonNegative(usages) && Walks(order, usages)
    ensures var t := Total(CountedUsages(usages, order), k); var u := At(UsageOf(usages, region), k);
      var granted := At(FullSync(limits, usages, order, region), k);
      && granted == Max(0, At(limits, k) - t) + u
      && granted >= u
      && (granted > At(limits, k) <==> u > Min(At(limits, k), t))
      && (CountsIn(region, k) && t <= At(limits, k) ==> granted <= At(limits, k))
      && t - u + granted == Max(At(limits, k), t)
  {
    hide FullSync, Total, CountedUsages, NonNegative, AllNonNegative, Walks, CountsIn;
    RegionFormula(limits, usages, order, region, k);
    if CountsIn(region, k) {
      UsageIsCounted(usages, order, region, k);
    }
  }

  lemma SameRegions(a: seq<string>, b: seq<string>)
    requires forall r :: r in a <==> r in b
    requires forall i, j :: 0 <= i < j < |a| ==> a[i] != a[j]
    requires forall i, j :: 0 <= i < j < |b| ==> b[i] != b[j]
    ensures multiset(a) == multiset(b)
  {
    Distinct(a);
    Distinct(b);
    forall r
      ensures multiset(a)[r] == multiset(b)[r]
    {
      assert r in a <==> r in multiset(a);
      assert r in b <==> r in multiset(b);
    }
  }

  lemma {:induction false} Distinct(a: seq<string>)
    requires forall i, j :: 0 <= i < j < |a| ==> a[i] != a[j]
    ensures forall r :: multiset(a)[r] <= 1
    decreases |a|
  {
    if a != [] {
      var last := |a| - 1;
      Distinct(a[..last]);
      assert a == a[..last] + [a[last]];
      assert a[last] !in a[..last];
    }
  }

  lemma {:induction false} CountedPermutes(usages: map<string, Counts>, a: seq<string>, b: seq<string>)
    requires multiset(a) == multiset(b) && forall i :: 0 <= i < |a| ==> a[i] in usages
    requires forall i :: 0 <= i < |b| ==> b[i] in usages
    ensures multiset(CountedUsages(usages, a)) == multiset(CountedUsages(usages, b))
    decreases |a|
  {
    if a == [] {
      assert |multiset(b)| == 0;
      assert CountedUsages(usages, a) == CountedUsages(usages, b);
    } else {
      var last := |a| - 1;
      var i := TakeOut(a, b);
      var rest := b[..i] + b[i + 1..];
      CountedPermutes(usages, a[..last], rest);
      var c := CountedUsages(usages, b);
      assert CountedUsages(usages, a) == CountedUsages(usages, a[..last]) + [c[i]];
      assert CountedUsages(usages, rest) == c[..i] + c[i + 1..];
      assert c == c[..i] + [c[i]] + c[i + 1..];
    }
  }

  /** The new limits do not depend on the order in which the regions are walked. */
  lemma LimitsIgnoreOrder(limits: Counts, usages: map<string, Counts>, a: seq<string>, b: seq<string>, region: string)
    requires Walks(a, usages) && Walks(b, usages) && AllNonNegative(usages)
    ensures FullSync(limits, usages, a, region) == FullSync(limits, usages, b, region)
  {
    SameRegions(a, b);
    CountedPermutes(usages, a, b);
    CountedNonNegative(usages, a);
    SummationIgnoresOrder(CountedUsages(usages, a), CountedUsages(usages, b));
  }

  // ---------------------------------------------------------------- the cached calculation

  /** A region's cached usage, trimmed to the resources of the new limits. Nothing is cached before the
      first audit; a cached usage that misses one of the resources makes the addition raise. */
  function Trimmed(limits: Counts, usage: Option<Counts>): Option<Counts> {
    if usage.None? then Some(map[])
    else if limits.Keys <= usage.value.Keys then Some(map k | k in limits :: usage.value[k])
    else None
  }

  /** With a cached usage, the calculation succeeds exactly when that usage holds all limited resources, and
      then it agrees with a full synchronization on them. Without one, it agrees exactly on the
      resources of which the region uses nothing. */
  lemma CachedAgrees(limits: Counts, total: Counts, usage: Counts, k: string)
    requires NonNegative(limits) && NonNegative(total) && NonNegative(usage) && k in limits
    ensures var t := Trimmed(limits, Some(usage));
      && (t.Some? <==> limits.Keys <= usage.Keys)
      && (t.Some? ==> At(NewLimits(limits, total, t.value), k) == At(NewLimits(limits, total, usage), k))
    ensures At(NewLimits(limits, total, Trimmed(limits, None).value), k) == At(NewLimits(limits, total, usage), k)
      <==> At(usage, k) == 0
  {
    NewLimitFormula(limits, total, usage, k);
    NewLimitFormula(limits, total, map[], k);
    if limits.Keys <= usage.Keys {
      NewLimitFormula(limits, total, Trimmed(limits, Some(usage)).value, k);
    }
  }

  lemma TrimmedSucceeds(limits: Counts, usage: Counts)
    ensures Trimmed(limits, Some(usage)).Some? <==> limits.Keys <= usage.Keys
  {
  }

  lemma CachedIsFull(limits: Counts, usages: map<string, Counts>, order: seq<string>, region: string, k: string)
    requires NonNegative(limits) && AllNonNegative(usages) && Walks(order, usages) && region in usages && k in limits
    ensures var t := Trimmed(limits, Some(usages[region]));
      t.Some? ==> At(NewLimits(limits, TotalUsage(usages, order), t.value), k) == At(FullSync(limits, usages, order, region), k)
  {
    CountedNonNegative(usages, order);
    CachedAgrees(limits, TotalUsage(usages, order), usages[region], k);
  }

  lemma CachedFormula(limits: Counts, total: Counts, usage: Counts, trimmed: Counts, k: string)
    requires NonNegative(limits) && NonNegative(total) && NonNegative(usage)
    requires (forall r :: r in trimmed ==> r in limits && r in usage && trimmed[r] == usage[r]) && (k in limits ==> At(trimmed, k) == At(usage, k))
    ensures At(Plus(Minus(limits, total), trimmed), k) == Max(0, At(limits, k) - At(total, k)) + if k in limits then At(usage, k) else 0
  {
    NewLimitFormula(limits, total, trimmed, k);
  }

  // ---------------------------------------------------------------- the manager

  class QuotaManager {
    // the caches, by project and user
    var totalProjectUsages: map<ProjectUser, Counts>
    var regionsUsageDict: map<ProjectUser, map<string, Counts>>

    constructor ()
      ensures totalProjectUsages == map[] && regionsUsageDict == map[]
    {
      totalProjectUsages, regionsUsageDict := map[], map[];
    }

    static method GetSummation(regionsDict: map<string, Counts>, order: seq<string>) returns (resultantDict: Counts)
      requires forall i :: 0 <= i < |order| ==> order[i] in regionsDict
      ensures resultantDict == Summation(Usages(regionsDict, order))
    {
      resultantDict := map[];
      ghost var usages := Usages(regionsDict, order);
      assert usages[..0] == [];
      for i := 0 to |order|
        invariant resultantDict == Summation(usages[..i])
      {
        resultantDict := Plus(resultantDict, regionsDict[order[i]]);
        assert usages[..i + 1][..i] == usages[..i];
      }
      assert usages[..|order|] == usages;
    }

    /** Takes the managed resources out of every region but the master one. */
    static method PopManaged(usages: map<string, Counts>, order: seq<string>) returns (copied: map<string, Counts>)
      requires Walks(order, usages)
      ensures copied.Keys == usages.Keys
      ensures forall r :: r in usages ==> copied[r] == Counted(r, usages[r])
    {
      copied := usages;
      for i := 0 to |order|
        invariant copied.Keys == usages.Keys
        invariant forall j :: 0 <= j < i ==> copied[order[j]] == Counted(order[j], usages[order[j]])
        invariant forall j :: i <= j < |order| ==> copied[order[j]] == usages[order[j]]
      {
        var region := order[i];
        if region != VIRTUAL_MASTER_CLOUD {
          var popped := PopAll(copied[region]);
          copied := copied[region := popped];
        }
      }
    }

    static method PopAll(usage: Counts) returns (popped: Counts)
      ensures popped == map k | k in usage && k !in QUOTAS_FOR_MANAGED_RESOURCES :: usage[k]
    {
      popped := usage;
      for i := 0 to |QUOTAS_FOR_MANAGED_RESOURCES|
        invariant popped == map k | k in usage && k !in QUOTAS_FOR_MANAGED_RESOURCES[..i] :: usage[k]
      {
        popped := popped - {QUOTAS_FOR_MANAGED_RESOURCES[i]};
      }
    }

    /** Sums up the usage that was read and remembers it; nothing happens if none could be read. */
    method QuotaUsageUpdate(key: ProjectUser, regionsUsage: map<string, Counts>, order: seq<string>)
      returns (total: Option<Counts>)
      requires Walks(order, regionsUsage)
      modifies this
      ensures total == if regionsUsage == map[] then None else Some(TotalUsage(regionsUsage, order))
      ensures total.Some? && AllNonNegative(regionsUsage) ==>
        (forall k :: At(total.value, k) ==
          if k == "key_pairs" || k == "security_group" || k == "security_group_rule" then
            if "SystemController" in regionsUsage then At(regionsUsage["SystemController"], k) else 0
          else Total(Usages(regionsUsage, order), k))
      ensures total.None? ==> totalProjectUsages == old(totalProjectUsages) && regionsUsageDict == old(regionsUsageDict)
      ensures total.Some? ==>
        && totalProjectUsages == old(totalProjectUsages)[key := total.value]
        && regionsUsageDict == old(regionsUsageDict)[key := regionsUsage]
    {
      if regionsUsage == map[] {
        return None;
      }
      var copied := PopManaged(regionsUsage, order);
      var sum := GetSummation(copied, order);
      assert Usages(copied, order) == CountedUsages(regionsUsage, order);
      totalProjectUsages := totalProjectUsages[key := sum];
      regionsUsageDict := regionsUsageDict[key := regionsUsage];
      total := Some(sum);
      if AllNonNegative(regionsUsage) {
        forall k {
          TotalsExactly(regionsUsage, order, k);
        }
      }
    }

    /** The new limits, for all regions of the list but the master one and those in which the project is not found;
        without the master region in the list, the caches are updated and an exception ends it. */
    method QuotaSyncForProject(key: ProjectUser, limits: Counts, regionsUsage: map<string, Counts>, order: seq<string>,
                               regionLists: seq<string>, withProject: set<string>)
      returns (written: seq<(string, Counts)>, raised: bool)
      requires Walks(order, regionsUsage)
      modifies this
      ensures regionsUsage == map[] ==>
        written == [] && !raised && totalProjectUsages == old(totalProjectUsages) && regionsUsageDict == old(regionsUsageDict)
      ensures regionsUsage != map[] ==>
        && raised == (VIRTUAL_MASTER_CLOUD !in regionLists)
        && written == (if raised then []
             else Synced(limits, regionsUsage, order, WithoutFirst(regionLists, VIRTUAL_MASTER_CLOUD), withProject))
        && totalProjectUsages == old(totalProjectUsages)[key := TotalUsage(regionsUsage, order)]
        && regionsUsageDict == old(regionsUsageDict)[key := regionsUsage]
      ensures regionsUsage != map[] && !raised ==>
        && (forall r :: r in WithoutFirst(regionLists, "SystemController") && r in withProject <==> exists i :: 0 <= i < |written| && written[i].0 == r)
        && (NonNegative(limits) && AllNonNegative(regionsUsage) ==>
              forall i, k :: 0 <= i < |written| ==>
                At(written[i].1, k) == Max(0, At(limits, k) - At(totalProjectUsages[key], k))
                  + if written[i].0 in regionsUsage then At(regionsUsage[written[i].0], k) else 0)
    {
      written, raised := [], false;
      var total := QuotaUsageUpdate(key, regionsUsage, order);
      if total.None? {
        return;
      }
      var unusedGlobalLimits := Minus(limits, total.value);
      if VIRTUAL_MASTER_CLOUD !in regionLists {
        raised := true;
        return;
      }
      var regions := RemoveFirst(regionLists, VIRTUAL_MASTER_CLOUD);
      assert regions[..0] == [];
      for i := 0 to |regions|
        invariant written == Synced(limits, regionsUsage, order, regions[..i], withProject)
      {
        assert regions[..i + 1][..i] == regions[..i];
        var regionNewLimits := Plus(unusedGlobalLimits, UsageOf(regionsUsage, regions[i]));
        if regions[i] !in withProject {
          continue;
        }
        written := written + [(regions[i], regionNewLimits)];
      }
      assert regions[..|regions|] == regions;
      hide Synced, Walks, NonNegative, AllNonNegative, TotalUsage, At;
      forall r {
        SyncedRegions(limits, regionsUsage, order, regions, withProject, r);
      }
      if NonNegative(limits) && AllNonNegative(regionsUsage) {
        forall i: nat, k | i < |written| {
          SyncedLimits(limits, regionsUsage, order, regions, withProject, i, k);
        }
      }
    }

    static method RemoveFirst(xs: seq<string>, x: string) returns (r: seq<string>)
      requires x in xs
      ensures r == WithoutFirst(xs, x)
    {
      var i := 0;
      while xs[i] != x
        invariant 0 <= i < |xs| && x !in xs[..i]
        invariant x in xs[i..]
        decreases |xs| - i
      {
        i := i + 1;
      }
      r := xs[..i] + xs[i + 1..];
      FirstAt(xs, x, i);
    }

    /** From the caches; before the first audit of the project they hold nothing. */
    method CalculateSubcloudProjectQuotas(key: ProjectUser, newGlobalQuotas: Counts, subcloud: string)
      returns (regionNewLimits: Option<Counts>)
      ensures var total := if key in totalProjectUsages then totalProjectUsages[key] else map[];
        var usage := if key in regionsUsageDict && subcloud in regionsUsageDict[key] then Some(regionsUsageDict[key][subcloud]) else None;
        var trimmed := Trimmed(newGlobalQuotas, usage);
        regionNewLimits == if trimmed.Some? then Some(NewLimits(newGlobalQuotas, total, trimmed.value)) else None
      ensures var total := if key in totalProjectUsages then totalProjectUsages[key] else map[];
        var usage := if key in regionsUsageDict && subcloud in regionsUsageDict[key] then regionsUsageDict[key][subcloud] else map[];
        && (regionNewLimits.None? <==> key in regionsUsageDict && subcloud in regionsUsageDict[key] && exists k :: k in newGlobalQuotas && k !in usage)
        && (regionNewLimits.Some? && NonNegative(newGlobalQuotas) && NonNegative(total) && NonNegative(usage) ==>
              forall k :: At(regionNewLimits.value, k) ==
                Max(0, At(newGlobalQuotas, k) - At(total, k)) + if k in newGlobalQuotas then At(usage, k) else 0)
    {
      var regions := if key in regionsUsageDict then regionsUsageDict[key] else map[];
      var total := if key in totalProjectUsages then totalProjectUsages[key] else map[];
      var unusedGlobalLimits := Minus(newGlobalQuotas, total);
      var regionUsage: Counts := map[];
      if subcloud in regions {
        if exists k :: k in newGlobalQuotas && k !in regions[subcloud] {
          return None;
        }
        regionUsage := map k | k in newGlobalQuotas :: regions[subcloud][k];
      }
      regionNewLimits := Some(Plus(unusedGlobalLimits, regionUsage));
      ghost var usage := if subcloud in regions then regions[subcloud] else map[];
      if NonNegative(newGlobalQuotas) && NonNegative(total) && NonNegative(usage) {
        forall k {
          CachedFormula(newGlobalQuotas, total, usage, regionUsage, k);
        }
      }
    }

    /** A synchronization followed by the calculation from the cache: if the region reports all
        limited resources, both give it the same limits for them. */
    method SyncThenCalculate(key: ProjectUser, limits: Counts, regionsUsage: map<string, Counts>, order: seq<string>,
                             region: string)
      returns (regionNewLimits: Option<Counts>)
      requires Walks(order, regionsUsage) && region in regionsUsage
      requires NonNegative(limits) && AllNonNegative(regionsUsage)
      modifies this
      ensures regionNewLimits.Some? <==> limits.Keys <= regionsUsage[region].Keys
      ensures regionNewLimits.Some? ==>
        forall k :: k in limits ==> At(regionNewLimits.value, k) == At(FullSync(limits, regionsUsage, order, region), k)
    {
      hide Synced, WithoutFirst, FullSync, Trimmed, NewLimits, TotalUsage, Walks, NonNegative, AllNonNegative;
      var written, raised := QuotaSyncForProject(key, limits, regionsUsage, order, [VIRTUAL_MASTER_CLOUD, region], {region});
      regionNewLimits := CalculateSubcloudProjectQuotas(key, limits, region);
      TrimmedSucceeds(limits, regionsUsage[region]);
      if regionNewLimits.Some? {
        forall k | k in limits
          ensures At(regionNewLimits.value, k) == At(FullSync(limits, regionsUsage, order, region), k)
        {
          CachedIsFull(limits, regionsUsage, order, region, k);
        }
      }
    }
  }

  /** The list without the first occurrence of x. */
  function WithoutFirst(xs: seq<string>, x: string): seq<string>
    requires x in xs
  {
    if xs[0] == x then xs[1..] else [xs[0]] + WithoutFirst(xs[1..], x)
  }

  lemma {:induction false} FirstAt(xs: seq<string>, x: string, i: nat)
    requires i < |xs| && xs[i] == x && x !in xs[..i]
    ensures WithoutFirst(xs, x) == xs[..i] + xs[i + 1..]
    decreases i
  {
    if i > 0 {
      var rest := xs[1..];
      assert xs[..i][0] == xs[0] && rest[..i - 1] == xs[..i][1..];
      FirstAt(rest, x, i - 1);
      hide WithoutFirst;
      assert [xs[0]] + (rest[..i - 1] + rest[i..]) == xs[..i] + xs[i + 1..];
    }
  }

  /** The regions that are written, in order, with their limits. */
  ghost function Synced(limits: Counts, usages: map<string, Counts>, order: seq<string>, regions: seq<string>, withProject: set<string>):
      seq<(string, Counts)>
    requires Walks(order, usages)
  {
    if regions == [] then []
    else
      var last := regions[|regions| - 1];
      Synced(limits, usages, order, regions[..|regions| - 1], withProject)
        + if last in withProject then [(last, FullSync(limits, usages, order, last))] else []
  }

  /** Exactly the regions that know the project are written. */
  lemma {:induction false} SyncedRegions(limits: Counts, usages: map<string, Counts>, order: seq<string>, regions: seq<string>,
                                         withProject: set<string>, r: string)
    requires Walks(order, usages)
    ensures var written := Synced(limits, usages, order, regions, withProject);
      r in regions && r in withProject <==> exists i :: 0 <= i < |written| && written[i].0 == r
    decreases |regions|
  {
    if regions != [] {
      hide FullSync, Walks;
      var last := |regions| - 1;
      var written := Synced(limits, usages, order, regions, withProject);
      var before := Synced(limits, usages, order, regions[..last], withProject);
      SyncedRegions(limits, usages, order, regions[..last], withProject, r);
      assert regions == regions[..last] + [regions[last]];
      assert forall i :: 0 <= i < |before| ==> written[i] == before[i];
      if regions[last] in withProject {
        assert |written| == |before| + 1 && written[|before|].0 == regions[last];
      } else {
        assert written == before;
      }
    }
  }

  /** Each gets the limits of the formula. */
  lemma {:induction false} SyncedLimits(limits: Counts, usages: map<string, Counts>, order: seq<string>, regions: seq<string>,
                                        withProject: set<string>, i: nat, k: string)
    requires Walks(order, usages) && NonNegative(limits) && AllNonNegative(usages)
    requires i < |Synced(limits, usages, order, regions, withProject)|
    ensures var (r, granted) := Synced(limits, usages, order, regions, withProject)[i];
      At(granted, k) == Max(0, At(limits, k) - At(TotalUsage(usages, order), k)) + if r in usages then At(usages[r], k) else 0
    decreases |regions|
  {
    hide FullSync, NonNegative, AllNonNegative, Walks, TotalUsage;
    var last := |regions| - 1;
    if i < |Synced(limits, usages, order, regions[..last], withProject)| {
      SyncedLimits(limits, usages, order, regions[..last], withProject, i, k);
    } else {
      FullSyncAt(limits, usages, order, regions[last], k);
    }
  }

  lemma FullSyncAt(limits: Counts, usages: map<string, Counts>, order: seq<string>, region: string, k: string)
    requires NonNegative(limits) && AllNonNegative(usages) && Walks(order, usages)
    ensures At(FullSync(limits, usages, order, region), k) == Max(0, At(limits, k) - At(TotalUsage(usages, order), k))
      + if region in usages then At(usages[region], k) else 0
  {
    CountedNonNegative(usages, order);
    NothingIsNonNegative();
    hide TotalUsage, NewLimits;
    NewLimitFormula(limits, TotalUsage(usages, order), UsageOf(usages, region), k);
  }

  function Usages(regions: map<string, Counts>, order: seq<string>): (r: seq<Counts>)
    requires forall i :: 0 <= i < |order| ==> order[i] in regions
    ensures |r| == |order| && forall i :: 0 <= i < |order| ==> r[i] == regions[order[i]]
  {
    seq(|order|, i requires 0 <= i < |order| => regions[order[i]])
  }
}
