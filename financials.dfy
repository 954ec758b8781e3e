/** getFinancialData: one cost record per allocation and month with a
    positive FTE, in allocation order and, within an allocation, in the
    order of its month keys. */
module Financials {
  import opened Basics
  import opened Dict
  import opened Types
  import opened Engine
  import Allocations

  /** `allocation.monthlyWorkdays[month] || 20`: a missing or zero workday
      count falls back to 20. */
  function WorkdaysFor(a: ProjectAllocation, month: string): (workdays: real)
    ensures workdays != 0.0
    ensures Get(a.monthlyWorkdays, month).GetOr(0.0) != 0.0 ==> workdays == Get(a.monthlyWorkdays, month).value
    ensures Get(a.monthlyWorkdays, month).GetOr(0.0) == 0.0 ==> workdays == 20.0
  {
    var w := Get(a.monthlyWorkdays, month);
    if w.Some? && w.value != 0.0 then w.value else 20.0
  }

  /** The record pushed for allocation `a` in `month` at `fte`. */
  function MonthRecord(a: ProjectAllocation, month: string, fte: real): FinancialData {
    var workdays := WorkdaysFor(a, month);
    FinancialData(
      resourceId := a.resourceId,
      projectId := a.projectId,
      month := month,
      fte := fte,
      workdays := workdays,
      hourlyRate := a.hourlyRate,
      monthlyCost := CalculateMonthlyCost(a.hourlyRate, fte, workdays))
  }

  /** The records of allocation `a` for the given month entries. */
  function MonthRecords(a: ProjectAllocation, entries: MonthValues): seq<FinancialData> {
    if entries == [] then []
    else
      var (month, fte) := entries[|entries| - 1];
      MonthRecords(a, entries[..|entries| - 1]) + (if fte > 0.0 then [MonthRecord(a, month, fte)] else [])
  }

  /** The records of one allocation, over all its months. */
  function AllocationRecords(a: ProjectAllocation): seq<FinancialData> {
    MonthRecords(a, a.monthlyAllocations)
  }

  /** The records of the given allocations, in order. */
  function FinancialRecords(allocs: seq<ProjectAllocation>): seq<FinancialData> {
    if allocs == [] then []
    else FinancialRecords(allocs[..|allocs| - 1]) + AllocationRecords(allocs[|allocs| - 1])
  }

  /** What getFinancialData returns for a planning roster. */
  function FinancialDataOf(planning: seq<PlanningEntry>): seq<FinancialData> {
    FinancialRecords(Allocations.GetProjectAllocations(planning))
  }

  /** getFinancialData: the outer `forEach` over the allocations. */
  method GetFinancialData(planning: seq<PlanningEntry>) returns (financialData: seq<FinancialData>)
    ensures financialData == FinancialDataOf(planning)
    ensures forall r :: r in financialData ==>
              0.0 < r.fte && r.workdays != 0.0
              && r.monthlyCost == CalculateMonthlyCost(r.hourlyRate, r.fte, r.workdays)
  {
    financialData := [];
    var allocations := Allocations.GetProjectAllocations(planning);
    var i := 0;
    while i < |allocations|
      invariant 0 <= i <= |allocations|
      invariant financialData == FinancialRecords(allocations[..i])
    {
      financialData := PushMonthRecords(financialData, allocations[i]);
      assert allocations[..i + 1][..i] == allocations[..i];
      i := i + 1;
    }
    assert allocations[..i] == allocations;
    RecordsWellFormed(allocations);
  }

  /** The inner `forEach` over `Object.entries(allocation.monthlyAllocations)`:
      pushes one record per month with a positive FTE. */
  method PushMonthRecords(financialData: seq<FinancialData>, allocation: ProjectAllocation)
    returns (out: seq<FinancialData>)
    ensures out == financialData + AllocationRecords(allocation)
  {
    out := financialData;
    var entries := allocation.monthlyAllocations;
    var j := 0;
    while j < |entries|
      invariant 0 <= j <= |entries|
      invariant out == financialData + MonthRecords(allocation, entries[..j])
    {
      var (month, fte) := entries[j];
      MonthRecordsSnoc(allocation, entries, j);
      out := PushMonthRecord(out, allocation, month, fte);
      j := j + 1;
    }
    assert entries[..j] == entries;
  }

  /** Month `j` adds its record, if any, after those of the months before. */
  lemma MonthRecordsSnoc(a: ProjectAllocation, entries: MonthValues, j: nat)
    requires j < |entries|
    ensures MonthRecords(a, entries[..j + 1]) == MonthRecords(a, entries[..j])
              + (if entries[j].1 > 0.0 then [MonthRecord(a, entries[j].0, entries[j].1)] else [])
  {
    assert entries[..j + 1][..j] == entries[..j];
  }

  /** The callback of that `forEach` for one month: a positive FTE pushes
      the month's record, priced on the month's workdays or 20. */
  method PushMonthRecord(financialData: seq<FinancialData>, allocation: ProjectAllocation, month: string, fte: real)
    returns (out: seq<FinancialData>)
    ensures out == financialData + (if fte > 0.0 then [MonthRecord(allocation, month, fte)] else [])
  {
    out := financialData;
    if fte > 0.0 {
      var workdays := Get(allocation.monthlyWorkdays, month).GetOr(0.0);
      if workdays == 0.0 {
        workdays := 20.0;
      }
      var monthlyCost := CalculateMonthlyCost(allocation.hourlyRate, fte, workdays);
      out := out + [FinancialData(
        resourceId := allocation.resourceId,
        projectId := allocation.projectId,
        month := month,
        fte := fte,
        workdays := workdays,
        hourlyRate := allocation.hourlyRate,
        monthlyCost := monthlyCost)];
    }
  }

  // --------------------------------------------------------------- lemmas

  /** Record `r` is the one allocation `a` yields for one of its months with
      a positive FTE. */
  ghost predicate RecordOf(r: FinancialData, a: ProjectAllocation) {
    && (r.month, r.fte) in a.monthlyAllocations
    && 0.0 < r.fte
    && r == MonthRecord(a, r.month, r.fte)
  }

  lemma {:induction false} MonthRecordsSound(a: ProjectAllocation, entries: MonthValues)
    ensures forall r :: r in MonthRecords(a, entries) ==>
              (r.month, r.fte) in entries && 0.0 < r.fte && r == MonthRecord(a, r.month, r.fte)
  {
    if entries != [] {
      var prefix, last := entries[..|entries| - 1], entries[|entries| - 1];
      MonthRecordsSound(a, prefix);
      assert entries == prefix + [last];
      var r := MonthRecord(a, last.0, last.1);
      assert (r.month, r.fte) == last;
    }
  }

  lemma {:induction false} MonthRecordsComplete(a: ProjectAllocation, entries: MonthValues)
    ensures forall month, fte :: (month, fte) in entries && 0.0 < fte ==> MonthRecord(a, month, fte) in MonthRecords(a, entries)
  {
    if entries != [] {
      var prefix := entries[..|entries| - 1];
      MonthRecordsComplete(a, prefix);
      assert entries == prefix + [entries[|entries| - 1]];
    }
  }

  /** One record per month entry with a positive FTE. */
  lemma {:induction false} MonthRecordsCount(a: ProjectAllocation, entries: MonthValues)
    ensures |MonthRecords(a, entries)| == |Positives(Values(entries))|
  {
    if entries != [] {
      var prefix, last := entries[..|entries| - 1], entries[|entries| - 1];
      MonthRecordsCount(a, prefix);
      assert entries == prefix + [last];
      assert MonthRecords(a, entries)
          == MonthRecords(a, prefix) + (if last.1 > 0.0 then [MonthRecord(a, last.0, last.1)] else []);
      ValuesAppend(prefix, last.0, last.1);
      PositivesAppend(Values(prefix), [last.1]);
      assert Positives([last.1]) == if last.1 > 0.0 then [last.1] else [];
    }
  }

  /** Every record comes from one allocation's month with a positive FTE and
      is priced by calculateMonthlyCost at that allocation's rate, on the
      month's workdays or 20. */
  lemma {:induction false} RecordsSound(allocs: seq<ProjectAllocation>)
    ensures forall r :: r in FinancialRecords(allocs) ==> exists i :: 0 <= i < |allocs| && RecordOf(r, allocs[i])
  {
    if allocs != [] {
      var prefix, a := allocs[..|allocs| - 1], allocs[|allocs| - 1];
      RecordsSound(prefix);
      MonthRecordsSound(a, a.monthlyAllocations);
      forall r | r in FinancialRecords(allocs)
        ensures exists i :: 0 <= i < |allocs| && RecordOf(r, allocs[i])
      {
        if r in FinancialRecords(prefix) {
          var i :| 0 <= i < |prefix| && RecordOf(r, prefix[i]);
          assert allocs[i] == prefix[i];
        } else {
          assert RecordOf(r, allocs[|allocs| - 1]);
        }
      }
    }
  }

  /** The shape every record has: positive FTE, non-zero workdays, and the
      monthly cost formula applied to its own rate, FTE and workdays. */
  lemma RecordsWellFormed(allocs: seq<ProjectAllocation>)
    ensures forall r :: r in FinancialRecords(allocs) ==>
              0.0 < r.fte && r.workdays != 0.0
              && r.monthlyCost == CalculateMonthlyCost(r.hourlyRate, r.fte, r.workdays)
  {
    RecordsSound(allocs);
    forall r | r in FinancialRecords(allocs)
      ensures 0.0 < r.fte && r.workdays != 0.0
    {
      var i :| 0 <= i < |allocs| && RecordOf(r, allocs[i]);
    }
  }

  /** Every allocation month with a positive FTE has its record. */
  lemma {:induction false} RecordsComplete(allocs: seq<ProjectAllocation>, i: nat, month: string, fte: real)
    requires i < |allocs|
    requires (month, fte) in allocs[i].monthlyAllocations && 0.0 < fte
    ensures MonthRecord(allocs[i], month, fte) in FinancialRecords(allocs)
  {
    var prefix := allocs[..|allocs| - 1];
    if i < |allocs| - 1 {
      assert allocs[i] == prefix[i];
      RecordsComplete(prefix, i, month, fte);
    } else {
      MonthRecordsComplete(allocs[i], allocs[i].monthlyAllocations);
    }
  }

  /** The number of month entries with a positive FTE over all allocations. */
  function PositiveMonths(allocs: seq<ProjectAllocation>): nat {
    if allocs == [] then 0
    else PositiveMonths(allocs[..|allocs| - 1]) + |Positives(Values(allocs[|allocs| - 1].monthlyAllocations))|
  }

  /** Exactly one record per allocation month with a positive FTE. */
  lemma {:induction false} RecordsCount(allocs: seq<ProjectAllocation>)
    ensures |FinancialRecords(allocs)| == PositiveMonths(allocs)
  {
    if allocs != [] {
      var a := allocs[|allocs| - 1];
      RecordsCount(allocs[..|allocs| - 1]);
      MonthRecordsCount(a, a.monthlyAllocations);
    }
  }
}
