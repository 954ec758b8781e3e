/** getResourceUtilization: per resource id, the FTE summed over all its
    months and allocations, the FTE per month, and the mean over ALL its
    months (zeros included) as a rounded percentage. */
module Utilization {
  import opened Basics
  import opened Dict
  import opened Types
  import opened Engine
  import Allocations
  import Resources

  datatype ResourceUtilization = ResourceUtilization(
    resourceName: string,
    totalAllocation: real,
    avgUtilization: int,
    monthlyBreakdown: Dict<real>)

  /** The entry created the first time a resource id is seen. */
  function NewEntry(resourceName: string): ResourceUtilization {
    ResourceUtilization(resourceName, 0.0, 0, [])
  }

  /** One month entry of an allocation: the FTE is added to the total and
      to that month's value, a month not yet present counting as 0. */
  function AddMonth(u: ResourceUtilization, month: string, fte: real): ResourceUtilization {
    u.(totalAllocation := u.totalAllocation + fte,
       monthlyBreakdown := AddTo(u.monthlyBreakdown, month, fte))
  }

  /** The month entries of one allocation added in order. */
  function AddMonths(u: ResourceUtilization, entries: MonthValues): ResourceUtilization {
    if entries == [] then u
    else
      var (month, fte) := entries[|entries| - 1];
      AddMonth(AddMonths(u, entries[..|entries| - 1]), month, fte)
  }

  /** One step of the allocations `forEach`: create the resource's entry if
      absent, then add the allocation's months to it. */
  function Register(s: Dict<ResourceUtilization>, a: ProjectAllocation): Dict<ResourceUtilization> {
    var created := if Get(s, a.resourceId).None? then Put(s, a.resourceId, NewEntry(a.resourceName)) else s;
    Put(created, a.resourceId, AddMonths(Get(created, a.resourceId).value, a.monthlyAllocations))
  }

  function Totals(allocs: seq<ProjectAllocation>): Dict<ResourceUtilization> {
    if allocs == [] then []
    else Register(Totals(allocs[..|allocs| - 1]), allocs[|allocs| - 1])
  }

  /** The averages pass for one entry: with at least one month, the mean
      of all its month values as a rounded percentage; otherwise the entry
      keeps 0. */
  function Averaged(u: ResourceUtilization): ResourceUtilization {
    if u.monthlyBreakdown == [] then u
    else u.(avgUtilization := Round(Mean(Values(u.monthlyBreakdown)) * 100.0))
  }

  /** The averages pass over every entry, keeping the keys and their order. */
  function AverageAll(d: Dict<ResourceUtilization>): (r: Dict<ResourceUtilization>)
    ensures |r| == |d|
    ensures forall i :: 0 <= i < |d| ==> r[i] == (d[i].0, Averaged(d[i].1))
  {
    seq(|d|, i requires 0 <= i < |d| => (d[i].0, Averaged(d[i].1)))
  }

  /** What getResourceUtilization returns for a planning roster. */
  function ResourceUtilizationOf(planning: seq<PlanningEntry>): Dict<ResourceUtilization> {
    AverageAll(Totals(Allocations.GetProjectAllocations(planning)))
  }

  /** getResourceUtilization: the allocations `forEach`, then the averages
      pass. */
  method GetResourceUtilization(planning: seq<PlanningEntry>) returns (utilization: Dict<ResourceUtilization>)
    ensures utilization == ResourceUtilizationOf(planning)
  {
    var allocations := Allocations.GetProjectAllocations(planning);
    utilization := RegisterAllocations(allocations);
    utilization := AverageUtilizations(utilization);
  }

  /** The allocations `forEach` of getResourceUtilization. */
  method RegisterAllocations(allocations: seq<ProjectAllocation>) returns (utilization: Dict<ResourceUtilization>)
    ensures utilization == Totals(allocations)
  {
    utilization := [];
    var i := 0;
    while i < |allocations|
      invariant 0 <= i <= |allocations|
      invariant utilization == Totals(allocations[..i])
    {
      TotalsSnoc(allocations, i);
      utilization := RegisterAllocation(utilization, allocations[i]);
      i := i + 1;
    }
    assert allocations[..i] == allocations;
  }

  /** The callback of that `forEach` for one allocation. */
  method RegisterAllocation(utilization: Dict<ResourceUtilization>, allocation: ProjectAllocation)
    returns (out: Dict<ResourceUtilization>)
    ensures out == Register(utilization, allocation)
  {
    out := utilization;
    if Get(out, allocation.resourceId).None? {
      out := Put(out, allocation.resourceId, NewEntry(allocation.resourceName));
    }
    ghost var created := out;
    var util := Get(out, allocation.resourceId).value;
    util := AddAllocationMonths(util, allocation.monthlyAllocations);
    out := Put(out, allocation.resourceId, util);
    assert out == Put(created, allocation.resourceId, AddMonths(Get(created, allocation.resourceId).value, allocation.monthlyAllocations));
  }

  /** The inner `forEach` over `Object.entries(allocation.monthlyAllocations)`. */
  method AddAllocationMonths(util: ResourceUtilization, entries: MonthValues) returns (out: ResourceUtilization)
    ensures out == AddMonths(util, entries)
  {
    out := util;
    var j := 0;
    while j < |entries|
      invariant 0 <= j <= |entries|
      invariant out == AddMonths(util, entries[..j])
    {
      var (month, fte) := entries[j];
      AddMonthsSnoc(util, entries, j);
      out := out.(totalAllocation := out.totalAllocation + fte);
      out := out.(monthlyBreakdown := AddTo(out.monthlyBreakdown, month, fte));
      j := j + 1;
    }
    assert entries[..j] == entries;
  }

  /** Allocation `i` is registered after those before it. */
  lemma TotalsSnoc(allocations: seq<ProjectAllocation>, i: nat)
    requires i < |allocations|
    ensures Totals(allocations[..i + 1]) == Register(Totals(allocations[..i]), allocations[i])
  {
    assert allocations[..i + 1][..i] == allocations[..i];
  }

  /** Month entry `j` is added after those before it. */
  lemma AddMonthsSnoc(u: ResourceUtilization, entries: MonthValues, j: nat)
    requires j < |entries|
    ensures AddMonths(u, entries[..j + 1]) == AddMonth(AddMonths(u, entries[..j]), entries[j].0, entries[j].1)
  {
    assert entries[..j + 1][..j] == entries[..j];
  }

  /** The `Object.values(utilization).forEach` that sets each average. */
  method AverageUtilizations(utilization: Dict<ResourceUtilization>) returns (out: Dict<ResourceUtilization>)
    ensures out == AverageAll(utilization)
  {
    out := utilization;
    var i := 0;
    while i < |out|
      invariant 0 <= i <= |out| == |utilization|
      invariant forall j :: 0 <= j < i ==> out[j] == (utilization[j].0, Averaged(utilization[j].1))
      invariant forall j :: i <= j < |out| ==> out[j] == utilization[j]
    {
      var (key, util) := out[i];
      var months := Values(util.monthlyBreakdown);
      if |months| > 0 {
        util := util.(avgUtilization := Round(Sum(months) / |months| as real * 100.0));
      }
      out := out[i := (key, util)];
      i := i + 1;
    }
  }

  // --------------------------------------------------------------- lemmas

  /** The resource id column of the allocations. */
  function ResourceIds(allocs: seq<ProjectAllocation>): (ids: seq<string>)
    ensures |ids| == |allocs|
    ensures forall i :: 0 <= i < |allocs| ==> ids[i] == allocs[i].resourceId
  {
    seq(|allocs|, i requires 0 <= i < |allocs| => allocs[i].resourceId)
  }

  lemma ResourceIdsPrefix(allocs: seq<ProjectAllocation>)
    requires allocs != []
    ensures ResourceIds(allocs) == ResourceIds(allocs[..|allocs| - 1]) + [allocs[|allocs| - 1].resourceId]
  {
  }

  /** Adding an allocation's months keeps the name and the average, adds
      the sum of their FTEs to the total, and adds the same sum to the
      monthly breakdown. */
  lemma {:induction false} AddMonthsEffect(u: ResourceUtilization, entries: MonthValues)
    ensures var r := AddMonths(u, entries);
      && r.resourceName == u.resourceName
      && r.avgUtilization == u.avgUtilization
      && r.totalAllocation == u.totalAllocation + Sum(Values(entries))
      && Sum(Values(r.monthlyBreakdown)) == Sum(Values(u.monthlyBreakdown)) + Sum(Values(entries))
  {
    if entries != [] {
      var prefix, last := entries[..|entries| - 1], entries[|entries| - 1];
      AddMonthsEffect(u, prefix);
      assert entries == prefix + [last];
      ValuesAppend(prefix, last.0, last.1);
      SumAppend(Values(prefix), [last.1]);
      SumAddTo(AddMonths(u, prefix).monthlyBreakdown, last.0, last.1);
    }
  }

  /** Adding to a key not yet present appends it. */
  lemma {:induction false} AddToAbsent(d: Dict<real>, k: string, x: real)
    requires k !in Keys(d)
    ensures AddTo(d, k, x) == d + [(k, x)]
  {
    if d != [] {
      assert Keys(d)[0] == d[0].0;
      assert Keys(d[1..]) == Keys(d)[1..];
      AddToAbsent(d[1..], k, x);
      assert d == [d[0]] + d[1..];
    }
  }

  /** Months with distinct keys, added to a fresh entry, become its monthly
      breakdown unchanged, zero months included. */
  lemma {:induction false} AddMonthsFresh(name: string, entries: MonthValues)
    requires Distinct(Keys(entries))
    ensures AddMonths(NewEntry(name), entries).monthlyBreakdown == entries
  {
    if entries != [] {
      var prefix, last := entries[..|entries| - 1], entries[|entries| - 1];
      DistinctKeysLast(entries);
      AddMonthsFresh(name, prefix);
      var u := AddMonths(NewEntry(name), prefix);
      assert AddMonths(NewEntry(name), entries) == AddMonth(u, last.0, last.1);
      AddToAbsent(prefix, last.0, last.1);
      assert entries == prefix + [last];
    }
  }

  /** Without its last month, a month list with distinct keys still has
      distinct keys, none of them the last month's. */
  lemma DistinctKeysLast(entries: MonthValues)
    requires Distinct(Keys(entries)) && entries != []
    ensures Distinct(Keys(entries[..|entries| - 1]))
    ensures entries[|entries| - 1].0 !in Keys(entries[..|entries| - 1])
  {
    KeysPrefix(entries, |entries| - 1);
    DistinctLast(Keys(entries));
  }

  /** Registering an allocation sets its resource's entry and leaves every
      other entry alone. */
  lemma RegisterEffect(s: Dict<ResourceUtilization>, a: ProjectAllocation, k: string)
    ensures Keys(Register(s, a)) == AddKey(Keys(s), a.resourceId)
    ensures Get(Register(s, a), k) ==
              if k != a.resourceId then Get(s, k)
              else if Get(s, k).Some? then Some(AddMonths(Get(s, k).value, a.monthlyAllocations))
              else Some(AddMonths(NewEntry(a.resourceName), a.monthlyAllocations))
  {
    var created := if Get(s, a.resourceId).None? then Put(s, a.resourceId, NewEntry(a.resourceName)) else s;
    assert Keys(created) == AddKey(Keys(s), a.resourceId);
    GetPut(s, a.resourceId, NewEntry(a.resourceName), k);
    GetPut(created, a.resourceId, AddMonths(Get(created, a.resourceId).value, a.monthlyAllocations), k);
  }

  /** One entry per distinct resource id, in order of first appearance. */
  lemma {:induction false} TotalsKeys(allocs: seq<ProjectAllocation>)
    ensures Keys(Totals(allocs)) == Dedup(ResourceIds(allocs))
  {
    if allocs != [] {
      var prefix := allocs[..|allocs| - 1];
      TotalsKeys(prefix);
      RegisterEffect(Totals(prefix), allocs[|allocs| - 1], "");
      ResourceIdsPrefix(allocs);
    }
  }

  /** After the allocations pass every entry's total is the sum of its
      monthly breakdown, and no average is set yet. */
  lemma {:induction false} TotalsConsistent(allocs: seq<ProjectAllocation>, k: string)
    requires Get(Totals(allocs), k).Some?
    ensures var e := Get(Totals(allocs), k).value;
      && e.totalAllocation == Sum(Values(e.monthlyBreakdown))
      && e.avgUtilization == 0
  {
    var prefix, a := allocs[..|allocs| - 1], allocs[|allocs| - 1];
    RegisterEffect(Totals(prefix), a, k);
    if k == a.resourceId {
      var base := if Get(Totals(prefix), k).Some? then Get(Totals(prefix), k).value else NewEntry(a.resourceName);
      if Get(Totals(prefix), k).Some? {
        TotalsConsistent(prefix, k);
      }
      AddMonthsEffect(base, a.monthlyAllocations);
    } else {
      TotalsConsistent(prefix, k);
    }
  }

  /** With distinct resource ids (as getProjectAllocations produces), the
      entry of allocation `i`'s resource holds exactly that allocation's
      months. */
  lemma {:induction false} TotalsRow(allocs: seq<ProjectAllocation>, i: nat)
    requires Distinct(ResourceIds(allocs))
    requires i < |allocs|
    ensures Get(Totals(allocs), allocs[i].resourceId)
         == Some(AddMonths(NewEntry(allocs[i].resourceName), allocs[i].monthlyAllocations))
  {
    if i == |allocs| - 1 {
      TotalsRowLast(allocs);
    } else {
      var prefix, a := allocs[..|allocs| - 1], allocs[|allocs| - 1];
      DistinctIdsPrefix(allocs);
      assert allocs[i] == prefix[i];
      assert ResourceIds(allocs)[i] != ResourceIds(allocs)[|allocs| - 1];
      TotalsRow(prefix, i);
      assert Totals(allocs) == Register(Totals(prefix), a);
      RegisterEffect(Totals(prefix), a, allocs[i].resourceId);
    }
  }

  /** Distinct resource ids stay distinct without the last allocation, whose
      id none of the others carries. */
  lemma DistinctIdsPrefix(allocs: seq<ProjectAllocation>)
    requires Distinct(ResourceIds(allocs))
    requires allocs != []
    ensures Distinct(ResourceIds(allocs[..|allocs| - 1]))
    ensures allocs[|allocs| - 1].resourceId !in ResourceIds(allocs[..|allocs| - 1])
  {
    var prefix, a := allocs[..|allocs| - 1], allocs[|allocs| - 1];
    var ids, prefixIds := ResourceIds(allocs), ResourceIds(prefix);
    ResourceIdsPrefix(allocs);
    forall j, j' | 0 <= j < j' < |prefixIds|
      ensures prefixIds[j] != prefixIds[j']
    {
      assert ids[j] == prefixIds[j] && ids[j'] == prefixIds[j'];
    }
    forall j | 0 <= j < |prefixIds|
      ensures prefixIds[j] != a.resourceId
    {
      assert ids[j] == prefixIds[j];
    }
  }

  /** The last allocation's resource id is new, so its entry holds only
      that allocation's months. */
  lemma TotalsRowLast(allocs: seq<ProjectAllocation>)
    requires Distinct(ResourceIds(allocs))
    requires allocs != []
    ensures var a := allocs[|allocs| - 1];
      Get(Totals(allocs), a.resourceId) == Some(AddMonths(NewEntry(a.resourceName), a.monthlyAllocations))
  {
    var prefix, a := allocs[..|allocs| - 1], allocs[|allocs| - 1];
    DistinctIdsPrefix(allocs);
    var t := Totals(prefix);
    TotalsKeys(prefix);
    assert a.resourceId !in Keys(t);
    assert Totals(allocs) == Register(t, a);
    RegisterEffect(t, a, a.resourceId);
  }

  /** The averages pass keeps the keys and averages each entry. */
  lemma {:induction false} AverageAllGet(d: Dict<ResourceUtilization>, k: string)
    ensures Keys(AverageAll(d)) == Keys(d)
    ensures Get(AverageAll(d), k) == if Get(d, k).None? then None else Some(Averaged(Get(d, k).value))
  {
    if d != [] {
      assert AverageAll(d)[1..] == AverageAll(d[1..]);
      AverageAllGet(d[1..], k);
    }
  }

  /** The resources of getResourceUtilization are the distinct resource ids
      of the allocations, in order. */
  lemma UtilizationKeys(planning: seq<PlanningEntry>)
    ensures Keys(ResourceUtilizationOf(planning)) == Dedup(ResourceIds(Allocations.GetProjectAllocations(planning)))
  {
    var allocs := Allocations.GetProjectAllocations(planning);
    TotalsKeys(allocs);
    AverageAllGet(Totals(allocs), "");
  }

  /** The averages pass changes only the average: the sum of the months
      over their number, as a rounded percentage. */
  lemma AveragedEffect(u: ResourceUtilization)
    ensures var r := Averaged(u);
      && r.resourceName == u.resourceName
      && r.totalAllocation == u.totalAllocation
      && r.monthlyBreakdown == u.monthlyBreakdown
      && r.avgUtilization ==
           if u.monthlyBreakdown == [] then u.avgUtilization
           else Round(Sum(Values(u.monthlyBreakdown)) / |u.monthlyBreakdown| as real * 100.0)
  {
  }

  /** An entry after the averages pass: its total is the sum of its
      months, and its average is that total over the number of months,
      zero months included, as a rounded percentage (0 without months). */
  ghost predicate AveragesItsMonths(e: ResourceUtilization) {
    && e.totalAllocation == Sum(Values(e.monthlyBreakdown))
    && e.avgUtilization ==
         if e.monthlyBreakdown == [] then 0
         else Round(e.totalAllocation / |e.monthlyBreakdown| as real * 100.0)
  }

  lemma AveragedOfConsistent(u: ResourceUtilization)
    requires u.totalAllocation == Sum(Values(u.monthlyBreakdown))
    requires u.avgUtilization == 0
    ensures AveragesItsMonths(Averaged(u))
  {
  }

  /** Every entry of getResourceUtilization averages its own months. */
  lemma UtilizationEntry(planning: seq<PlanningEntry>, k: string)
    requires Get(ResourceUtilizationOf(planning), k).Some?
    ensures AveragesItsMonths(Get(ResourceUtilizationOf(planning), k).value)
  {
    var allocs := Allocations.GetProjectAllocations(planning);
    var d := Totals(allocs);
    AverageAllGet(d, k);
    TotalsConsistent(allocs, k);
    AveragedOfConsistent(Get(d, k).value);
  }

  /** Planning row `i` has its own entry under `resource-(i+1)`: its
      name, its month map as given, zero months included, the sum of its
      FTEs as the total, and their mean over all months as the average. */
  lemma UtilizationOfRow(planning: seq<PlanningEntry>, i: nat)
    requires i < |planning|
    requires Distinct(Keys(planning[i].allocations))
    ensures Get(ResourceUtilizationOf(planning), Resources.ResourceId(i + 1)).Some?
    ensures var e := Get(ResourceUtilizationOf(planning), Resources.ResourceId(i + 1)).value;
      && e.resourceName == planning[i].name
      && e.monthlyBreakdown == planning[i].allocations
      && AveragesItsMonths(e)
  {
    var allocs := Allocations.GetProjectAllocations(planning);
    var ids := ResourceIds(allocs);
    forall j, j' | 0 <= j < j' < |ids|
      ensures ids[j] != ids[j']
    {
      Allocations.AllocationIdsUnique(planning, j, j');
    }
    var name, months := planning[i].name, planning[i].allocations;
    TotalsRow(allocs, i);
    var u := AddMonths(NewEntry(name), months);
    AddMonthsEffect(NewEntry(name), months);
    AddMonthsFresh(name, months);
    AveragedOfConsistent(u);
    var d := Totals(allocs);
    assert Get(d, Resources.ResourceId(i + 1)) == Some(u);
    AverageAllGet(d, Resources.ResourceId(i + 1));
  }

  /** One month at 1.0 and eleven at 0 hold one FTE-month in all. */
  lemma OneInTwelve(vs: seq<real>, m: nat)
    requires |vs| == 12 && m < 12
    requires vs[m] == 1.0
    requires forall j :: 0 <= j < 12 && j != m ==> vs[j] == 0.0
    ensures Sum(vs) == 1.0
  {
    var before, after := vs[..m], vs[m + 1..];
    forall j | 0 <= j < |before|
      ensures before[j] == 0.0
    {
      assert before[j] == vs[j];
    }
    forall j | 0 <= j < |after|
      ensures after[j] == 0.0
    {
      assert after[j] == vs[m + 1 + j];
    }
    SumConstant(before, 0.0);
    SumConstant(after, 0.0);
    assert vs[m..][1..] == after;
    assert vs == before + vs[m..];
    SumAppend(before, vs[m..]);
  }

  /** One FTE-month over twelve months: 8.33%, rounded to 8. */
  lemma OneTwelfth(total: real, months: int)
    requires total == 1.0 && months == 12
    ensures Round(total / months as real * 100.0) == 8
  {
    assert total / months as real * 100.0 == 100.0 / 12.0;
    RoundUnique(100.0 / 12.0, 8);
  }

  /** The two utilization bases disagree: a resource at 1.0 FTE in one month
      and 0 in eleven averages 8% in getResourceUtilization, which counts
      every month, but 100% in calculateUtilization, which counts only the
      positive ones. */
  lemma UtilizationBasesDiffer(planning: seq<PlanningEntry>, i: nat, m: nat, period: Period)
    requires i < |planning|
    requires Distinct(Keys(planning[i].allocations))
    requires |planning[i].allocations| == 12 && m < 12
    requires planning[i].allocations[m].1 == 1.0
    requires forall j :: 0 <= j < 12 && j != m ==> planning[i].allocations[j].1 == 0.0
    ensures Get(ResourceUtilizationOf(planning), Resources.ResourceId(i + 1)).Some?
    ensures Get(ResourceUtilizationOf(planning), Resources.ResourceId(i + 1)).value.avgUtilization == 8
    ensures CalculateUtilization(planning[i].allocations, period) == 100
  {
    var vs := Values(planning[i].allocations);
    OneInTwelve(vs, m);
    UtilizationOfRow(planning, i);
    var e := Get(ResourceUtilizationOf(planning), Resources.ResourceId(i + 1)).value;
    OneMonthAverage(e);
    OneFullMonth(planning[i].allocations, m, period);
  }

  /** An entry averaging twelve months that hold one FTE-month in all
      reports 8. */
  lemma OneMonthAverage(e: ResourceUtilization)
    requires AveragesItsMonths(e)
    requires |e.monthlyBreakdown| == 12 && Sum(Values(e.monthlyBreakdown)) == 1.0
    ensures e.avgUtilization == 8
  {
    OneTwelfth(e.totalAllocation, |e.monthlyBreakdown|);
  }

  /** Months at 1.0 or at most 0, one of them at 1.0, make
      calculateUtilization report 100. */
  lemma OneFullMonth(months: MonthValues, m: nat, period: Period)
    requires m < |months| && months[m].1 == 1.0
    requires forall j :: 0 <= j < |months| && j != m ==> months[j].1 == 0.0
    ensures CalculateUtilization(months, period) == 100
  {
    var vs := Values(months);
    assert vs[m] in vs;
    forall v | v in vs
      ensures v <= 0.0 || v == 1.0
    {
      var j :| 0 <= j < |vs| && vs[j] == v;
    }
    UtilizationOfUniform(months, 1.0, period);
  }
}
