/** getProjectFinancialSummary: per project, the number of allocations and
    the total, quarterly and monthly cost of its financial records. */
module Summary {
  import opened Basics
  import opened Dict
  import opened Types
  import opened Engine
  import Allocations
  import Financials

  /** `quarterlyBreakdown`, created as `{ 1: 0, 2: 0, 3: 0, 4: 0 }`. */
  datatype Quarters = Quarters(q1: real, q2: real, q3: real, q4: real) {
    function Get(q: int): real
      requires 1 <= q <= 4
    {
      if q == 1 then q1 else if q == 2 then q2 else if q == 3 then q3 else q4
    }

    /** `quarterlyBreakdown[q] += x`. */
    function Add(q: int, x: real): (r: Quarters)
      requires 1 <= q <= 4
      ensures r.Get(q) == Get(q) + x
      ensures forall q' :: 1 <= q' <= 4 && q' != q ==> r.Get(q') == Get(q')
      ensures r.Total() == Total() + x
    {
      if q == 1 then this.(q1 := q1 + x)
      else if q == 2 then this.(q2 := q2 + x)
      else if q == 3 then this.(q3 := q3 + x)
      else this.(q4 := q4 + x)
    }

    function Total(): real {
      q1 + q2 + q3 + q4
    }
  }

  const NoQuarters := Quarters(0.0, 0.0, 0.0, 0.0)

  datatype ProjectSummary = ProjectSummary(
    projectName: string,
    totalCost: real,
    quarterlyBreakdown: Quarters,
    monthlyBreakdown: Dict<real>,
    resourceCount: nat)

  /** The entry created for a project the first time one of its
      allocations is seen. */
  function NewSummary(projectName: string): ProjectSummary {
    ProjectSummary(projectName, 0.0, NoQuarters, [], 0)
  }

  function Bump(e: ProjectSummary): ProjectSummary {
    e.(resourceCount := e.resourceCount + 1)
  }

  // ------------------------------------------------ first pass: allocations

  /** One step of the allocations `forEach`: create the project's entry if
      absent, then count the allocation against it. */
  function CountStep(s: Dict<ProjectSummary>, a: ProjectAllocation): Dict<ProjectSummary> {
    var created := if Get(s, a.projectId).None? then Put(s, a.projectId, NewSummary(a.projectName)) else s;
    Put(created, a.projectId, Bump(Get(created, a.projectId).value))
  }

  function CountAll(allocs: seq<ProjectAllocation>): Dict<ProjectSummary> {
    if allocs == [] then []
    else CountStep(CountAll(allocs[..|allocs| - 1]), allocs[|allocs| - 1])
  }

  /** The project id column of the allocations. */
  function ProjectIds(allocs: seq<ProjectAllocation>): (ids: seq<string>)
    ensures |ids| == |allocs|
    ensures forall i :: 0 <= i < |allocs| ==> ids[i] == allocs[i].projectId
  {
    seq(|allocs|, i requires 0 <= i < |allocs| => allocs[i].projectId)
  }

  lemma ProjectIdsPrefix(allocs: seq<ProjectAllocation>)
    requires allocs != []
    ensures ProjectIds(allocs) == ProjectIds(allocs[..|allocs| - 1]) + [allocs[|allocs| - 1].projectId]
  {
  }

  lemma CountIdsStep(allocs: seq<ProjectAllocation>, k: string)
    requires allocs != []
    ensures Count(ProjectIds(allocs), k)
         == Count(ProjectIds(allocs[..|allocs| - 1]), k) + (if allocs[|allocs| - 1].projectId == k then 1 else 0)
  {
    ProjectIdsPrefix(allocs);
    assert ProjectIds(allocs)[..|allocs| - 1] == ProjectIds(allocs[..|allocs| - 1]);
  }

  /** Only the allocation's project changes: it is created with a count of
      one or has its count raised by one. */
  lemma CountStepEffect(s: Dict<ProjectSummary>, a: ProjectAllocation, k: string)
    ensures Keys(CountStep(s, a)) == AddKey(Keys(s), a.projectId)
    ensures Get(CountStep(s, a), k) ==
              if k != a.projectId then Get(s, k)
              else if Get(s, k).Some? then Some(Bump(Get(s, k).value))
              else Some(Bump(NewSummary(a.projectName)))
  {
    var created := if Get(s, a.projectId).None? then Put(s, a.projectId, NewSummary(a.projectName)) else s;
    assert Keys(created) == AddKey(Keys(s), a.projectId);
    GetPut(s, a.projectId, NewSummary(a.projectName), k);
    GetPut(created, a.projectId, Bump(Get(created, a.projectId).value), k);
  }

  lemma {:induction false} CountAllKeys(allocs: seq<ProjectAllocation>)
    ensures Keys(CountAll(allocs)) == Dedup(ProjectIds(allocs))
  {
    if allocs != [] {
      var prefix := allocs[..|allocs| - 1];
      CountAllKeys(prefix);
      ProjectIdsPrefix(allocs);
      CountStepEffect(CountAll(prefix), allocs[|allocs| - 1], "");
      assert ProjectIds(allocs)[..|allocs| - 1] == ProjectIds(prefix);
    }
  }

  /** Allocation `i` is the first with project id `k`. */
  ghost predicate FirstAllocOf(allocs: seq<ProjectAllocation>, k: string, i: nat) {
    && i < |allocs|
    && allocs[i].projectId == k
    && forall j :: 0 <= j < i ==> allocs[j].projectId != k
  }

  /** An entry after the first pass: no cost yet, one count per allocation
      of the project. */
  ghost predicate Counted(e: ProjectSummary, allocs: seq<ProjectAllocation>, k: string) {
    && e.totalCost == 0.0
    && e.quarterlyBreakdown == NoQuarters
    && e.monthlyBreakdown == []
    && e.resourceCount == Count(ProjectIds(allocs), k)
  }

  /** The entry is named after the first allocation of the project. */
  ghost predicate NamedFirst(e: ProjectSummary, allocs: seq<ProjectAllocation>, k: string) {
    exists i: nat :: FirstAllocOf(allocs, k, i) && e.projectName == allocs[i].projectName
  }

  lemma {:induction false} CountAllEntry(allocs: seq<ProjectAllocation>, k: string)
    requires k in ProjectIds(allocs)
    ensures Get(CountAll(allocs), k).Some?
    ensures Counted(Get(CountAll(allocs), k).value, allocs, k)
    ensures NamedFirst(Get(CountAll(allocs), k).value, allocs, k)
  {
    var prefix := allocs[..|allocs| - 1];
    ProjectIdsPrefix(allocs);
    if k in ProjectIds(prefix) {
      CountAllEntry(prefix, k);
      SeenProjectCount(allocs, k);
      SeenProjectName(allocs, k);
    } else {
      NewProjectStep(allocs, k);
    }
  }

  lemma SeenProjectCount(allocs: seq<ProjectAllocation>, k: string)
    requires allocs != []
    requires var prefix := allocs[..|allocs| - 1];
      && Get(CountAll(prefix), k).Some?
      && Counted(Get(CountAll(prefix), k).value, prefix, k)
    ensures Get(CountAll(allocs), k).Some?
    ensures Counted(Get(CountAll(allocs), k).value, allocs, k)
  {
    var prefix := allocs[..|allocs| - 1];
    assert CountAll(allocs) == CountStep(CountAll(prefix), allocs[|allocs| - 1]);
    CountStepEffect(CountAll(prefix), allocs[|allocs| - 1], k);
    CountIdsStep(allocs, k);
  }

  /** The first allocation of a project stays its first as allocations are
      appended. */
  lemma FirstAllocExtends(allocs: seq<ProjectAllocation>, k: string, i: nat)
    requires allocs != []
    requires FirstAllocOf(allocs[..|allocs| - 1], k, i)
    ensures FirstAllocOf(allocs, k, i)
  {
  }

  lemma SeenProjectName(allocs: seq<ProjectAllocation>, k: string)
    requires allocs != []
    requires var prefix := allocs[..|allocs| - 1];
      && Get(CountAll(prefix), k).Some?
      && NamedFirst(Get(CountAll(prefix), k).value, prefix, k)
    ensures Get(CountAll(allocs), k).Some?
    ensures NamedFirst(Get(CountAll(allocs), k).value, allocs, k)
  {
    var prefix := allocs[..|allocs| - 1];
    assert CountAll(allocs) == CountStep(CountAll(prefix), allocs[|allocs| - 1]);
    CountStepEffect(CountAll(prefix), allocs[|allocs| - 1], k);
    var old_ := Get(CountAll(prefix), k).value;
    var i: nat :| FirstAllocOf(prefix, k, i) && old_.projectName == prefix[i].projectName;
    FirstAllocExtends(allocs, k, i);
    assert prefix[i] == allocs[i];
  }

  lemma NewProjectStep(allocs: seq<ProjectAllocation>, k: string)
    requires k in ProjectIds(allocs)
    requires k !in ProjectIds(allocs[..|allocs| - 1])
    ensures Get(CountAll(allocs), k).Some?
    ensures Counted(Get(CountAll(allocs), k).value, allocs, k)
    ensures NamedFirst(Get(CountAll(allocs), k).value, allocs, k)
  {
    var n := |allocs|;
    NewProjectEntry(allocs, k);
    NewProjectCount(allocs, k);
    NewProjectFirstAlloc(allocs, k);
    var e := Get(CountAll(allocs), k).value;
    assert e == Bump(NewSummary(allocs[n - 1].projectName));
    assert FirstAllocOf(allocs, k, n - 1) && e.projectName == allocs[n - 1].projectName;
  }

  /** The allocation that first names a project is the last one. */
  lemma NewProjectIsLast(allocs: seq<ProjectAllocation>, k: string)
    requires k in ProjectIds(allocs)
    requires k !in ProjectIds(allocs[..|allocs| - 1])
    ensures allocs != [] && allocs[|allocs| - 1].projectId == k
  {
    ProjectIdsPrefix(allocs);
  }

  /** The project first named by the last allocation is created by it. */
  lemma NewProjectEntry(allocs: seq<ProjectAllocation>, k: string)
    requires k in ProjectIds(allocs)
    requires k !in ProjectIds(allocs[..|allocs| - 1])
    ensures allocs != []
    ensures Get(CountAll(allocs), k) == Some(Bump(NewSummary(allocs[|allocs| - 1].projectName)))
  {
    NewProjectIsLast(allocs, k);
    var prefix, a := allocs[..|allocs| - 1], allocs[|allocs| - 1];
    var s := CountAll(prefix);
    assert CountAll(allocs) == CountStep(s, a);
    CountAllKeys(prefix);
    assert Get(s, k).None?;
    CountStepEffect(s, a, k);
  }

  /** ... which counts it once. */
  lemma NewProjectCount(allocs: seq<ProjectAllocation>, k: string)
    requires k in ProjectIds(allocs)
    requires k !in ProjectIds(allocs[..|allocs| - 1])
    ensures Count(ProjectIds(allocs), k) == 1
  {
    NewProjectIsLast(allocs, k);
    CountIdsStep(allocs, k);
    CountPositive(ProjectIds(allocs[..|allocs| - 1]), k);
  }

  /** ... and is its first allocation. */
  lemma NewProjectFirstAlloc(allocs: seq<ProjectAllocation>, k: string)
    requires k in ProjectIds(allocs)
    requires k !in ProjectIds(allocs[..|allocs| - 1])
    ensures FirstAllocOf(allocs, k, |allocs| - 1)
  {
    NewProjectIsLast(allocs, k);
    var n := |allocs|;
    var prefix := allocs[..n - 1];
    forall j | 0 <= j < n - 1
      ensures allocs[j].projectId != k
    {
      assert ProjectIds(prefix)[j] == allocs[j].projectId;
    }
  }

  // ---------------------------------------------- second pass: the records

  /** Every record's month is a "YYYY-MM" key. */
  ghost predicate MonthKeyed(data: seq<FinancialData>) {
    forall d :: d in data ==> IsMonthKey(d.month)
  }

  /** One record added to its project's entry: total, month and quarter
      each grow by the record's cost. */
  function AddCost(e: ProjectSummary, d: FinancialData): ProjectSummary
    requires IsMonthKey(d.month)
  {
    e.(totalCost := e.totalCost + d.monthlyCost,
       monthlyBreakdown := AddTo(e.monthlyBreakdown, d.month, d.monthlyCost),
       quarterlyBreakdown := e.quarterlyBreakdown.Add(QuarterOf(d.month), d.monthlyCost))
  }

  /** One step of the records `forEach`; a record of a project without an
      entry is skipped. */
  function AddRecord(s: Dict<ProjectSummary>, d: FinancialData): Dict<ProjectSummary>
    requires IsMonthKey(d.month)
  {
    if Get(s, d.projectId).Some? then Put(s, d.projectId, AddCost(Get(s, d.projectId).value, d)) else s
  }

  function AccumulateAll(s: Dict<ProjectSummary>, data: seq<FinancialData>): Dict<ProjectSummary>
    requires MonthKeyed(data)
  {
    if data == [] then s
    else AddRecord(AccumulateAll(s, data[..|data| - 1]), data[|data| - 1])
  }

  /** The summary built from a list of allocations. */
  function SummaryOf(allocs: seq<ProjectAllocation>): Dict<ProjectSummary>
    requires MonthKeyed(Financials.FinancialRecords(allocs))
  {
    AccumulateAll(CountAll(allocs), Financials.FinancialRecords(allocs))
  }

  /** Every month with a positive FTE is keyed "YYYY-MM". */
  ghost predicate WellKeyed(planning: seq<PlanningEntry>) {
    forall p, month, fte :: p in planning && (month, fte) in p.allocations && 0.0 < fte ==> IsMonthKey(month)
  }

  lemma WellKeyedRecords(planning: seq<PlanningEntry>)
    requires WellKeyed(planning)
    ensures MonthKeyed(Financials.FinancialDataOf(planning))
  {
    var allocs := Allocations.GetProjectAllocations(planning);
    Financials.RecordsSound(allocs);
    forall d | d in Financials.FinancialRecords(allocs)
      ensures IsMonthKey(d.month)
    {
      var i :| 0 <= i < |allocs| && Financials.RecordOf(d, allocs[i]);
      assert planning[i] in planning;
    }
  }

  /** getProjectFinancialSummary: count the allocations per project, then
      add every record's cost to its project's entry. */
  method GetProjectFinancialSummary(planning: seq<PlanningEntry>) returns (summary: Dict<ProjectSummary>)
    requires WellKeyed(planning)
    ensures MonthKeyed(Financials.FinancialDataOf(planning))
    ensures summary == SummaryOf(Allocations.GetProjectAllocations(planning))
  {
    var financialData := Financials.GetFinancialData(planning);
    var allocations := Allocations.GetProjectAllocations(planning);
    WellKeyedRecords(planning);
    assert financialData == Financials.FinancialRecords(allocations);
    summary := CountAllocations(allocations);
    summary := AccumulateRecords(summary, financialData);
  }

  /** The allocations `forEach` of getProjectFinancialSummary. */
  method CountAllocations(allocations: seq<ProjectAllocation>) returns (summary: Dict<ProjectSummary>)
    ensures summary == CountAll(allocations)
  {
    summary := [];
    var i := 0;
    while i < |allocations|
      invariant 0 <= i <= |allocations|
      invariant summary == CountAll(allocations[..i])
    {
      assert allocations[..i + 1][..i] == allocations[..i];
      summary := CountAllocation(summary, allocations[i]);
      i := i + 1;
    }
    assert allocations[..i] == allocations;
  }

  /** The allocations `forEach` callback: create the project's entry if it
      is new, then raise its count. */
  method CountAllocation(summary: Dict<ProjectSummary>, allocation: ProjectAllocation)
    returns (out: Dict<ProjectSummary>)
    ensures out == CountStep(summary, allocation)
  {
    out := summary;
    if Get(out, allocation.projectId).None? {
      out := Put(out, allocation.projectId, NewSummary(allocation.projectName));
    }
    ghost var created := out;
    var entry := Get(out, allocation.projectId).value;
    entry := entry.(resourceCount := entry.resourceCount + 1);
    assert entry == Bump(Get(created, allocation.projectId).value);
    out := Put(out, allocation.projectId, entry);
  }

  /** The records `forEach` of getProjectFinancialSummary. */
  method AccumulateRecords(counted: Dict<ProjectSummary>, financialData: seq<FinancialData>)
    returns (summary: Dict<ProjectSummary>)
    requires MonthKeyed(financialData)
    ensures summary == AccumulateAll(counted, financialData)
  {
    summary := counted;
    var i := 0;
    while i < |financialData|
      invariant 0 <= i <= |financialData|
      invariant MonthKeyed(financialData[..i])
      invariant summary == AccumulateAll(counted, financialData[..i])
    {
      assert financialData[i] in financialData;
      assert financialData[..i + 1] == financialData[..i] + [financialData[i]];
      ApplyRecordSnoc(counted, financialData[..i], financialData[i]);
      summary := AddFinancialRecord(summary, financialData[i]);
      i := i + 1;
    }
    assert financialData[..i] == financialData;
  }

  /** A record appended to the folded records is folded last. */
  lemma ApplyRecordSnoc(s: Dict<ProjectSummary>, prefix: seq<FinancialData>, d: FinancialData)
    requires MonthKeyed(prefix) && IsMonthKey(d.month)
    ensures MonthKeyed(prefix + [d])
    ensures AccumulateAll(s, prefix + [d]) == AddRecord(AccumulateAll(s, prefix), d)
  {
    assert (prefix + [d])[..|prefix|] == prefix;
  }

  /** The records `forEach` callback: a record of a project with an entry
      raises its total, its month and its quarter by the record's cost. */
  method AddFinancialRecord(summary: Dict<ProjectSummary>, data: FinancialData)
    returns (out: Dict<ProjectSummary>)
    requires IsMonthKey(data.month)
    ensures out == AddRecord(summary, data)
  {
    out := summary;
    var projectId := data.projectId;
    if Get(out, projectId).Some? {
      var entry := Get(out, projectId).value;
      entry := entry.(totalCost := entry.totalCost + data.monthlyCost);
      entry := entry.(monthlyBreakdown := AddTo(entry.monthlyBreakdown, data.month, data.monthlyCost));
      var monthNum := MonthNumber(data.month);
      var quarter := (monthNum + 2) / 3;
      assert quarter == QuarterOf(data.month);
      entry := entry.(quarterlyBreakdown := entry.quarterlyBreakdown.Add(quarter, data.monthlyCost));
      assert entry == AddCost(Get(summary, projectId).value, data);
      out := Put(out, projectId, entry);
    }
  }

  // --------------------------------------------------------------- lemmas

  /** The records of project `k`, in order. */
  function ProjectRecords(data: seq<FinancialData>, k: string): (out: seq<FinancialData>)
    ensures forall d :: d in out <==> d in data && d.projectId == k
  {
    if data == [] then []
    else
      var prefix, d := data[..|data| - 1], data[|data| - 1];
      assert data == prefix + [d];
      ProjectRecords(prefix, k) + (if d.projectId == k then [d] else [])
  }

  lemma {:induction false} ProjectRecordsEmpty(data: seq<FinancialData>, k: string)
    requires forall d :: d in data ==> d.projectId != k
    ensures ProjectRecords(data, k) == []
  {
    if data != [] {
      ProjectRecordsEmpty(data[..|data| - 1], k);
      assert data[|data| - 1] in data;
    }
  }

  /** The entry after adding the given records to `e`, in order. */
  function ApplyCosts(e: ProjectSummary, records: seq<FinancialData>): ProjectSummary
    requires MonthKeyed(records)
  {
    if records == [] then e
    else AddCost(ApplyCosts(e, records[..|records| - 1]), records[|records| - 1])
  }

  /** The last record of a month-keyed list is month-keyed, and so is the
      rest of the list. */
  lemma MonthKeyedPrefix(data: seq<FinancialData>)
    requires data != [] && MonthKeyed(data)
    ensures MonthKeyed(data[..|data| - 1]) && IsMonthKey(data[|data| - 1].month)
  {
    assert data[|data| - 1] in data;
    forall d | d in data[..|data| - 1]
      ensures IsMonthKey(d.month)
    {
      assert d in data;
    }
  }

  /** The last record of a list is applied last and counted last. */
  lemma ApplyCostsLast(e: ProjectSummary, records: seq<FinancialData>)
    requires records != [] && MonthKeyed(records)
    ensures MonthKeyed(records[..|records| - 1]) && IsMonthKey(records[|records| - 1].month)
    ensures ApplyCosts(e, records) == AddCost(ApplyCosts(e, records[..|records| - 1]), records[|records| - 1])
    ensures SumCosts(records) == SumCosts(records[..|records| - 1]) + records[|records| - 1].monthlyCost
  {
    var prefix, d := records[..|records| - 1], records[|records| - 1];
    MonthKeyedPrefix(records);
    assert records == prefix + [d];
    SumCostsSnoc(prefix, d);
  }

  lemma ApplyCostsSnoc(e: ProjectSummary, prefix: seq<FinancialData>, d: FinancialData)
    requires MonthKeyed(prefix) && IsMonthKey(d.month)
    ensures MonthKeyed(prefix + [d])
    ensures ApplyCosts(e, prefix + [d]) == AddCost(ApplyCosts(e, prefix), d)
  {
    assert (prefix + [d])[..|prefix|] == prefix;
  }

  /** Adding a record keeps the set of projects. */
  lemma AddRecordKeys(s: Dict<ProjectSummary>, d: FinancialData)
    requires IsMonthKey(d.month)
    ensures Keys(AddRecord(s, d)) == Keys(s)
  {
    if Get(s, d.projectId).Some? {
      assert Keys(s) == AddKey(Keys(s), d.projectId);
    }
  }

  /** Adding a record changes only its own project's entry. */
  lemma AddRecordGet(s: Dict<ProjectSummary>, d: FinancialData, k: string)
    requires IsMonthKey(d.month)
    ensures Get(AddRecord(s, d), k) ==
              if k == d.projectId && Get(s, k).Some? then Some(AddCost(Get(s, k).value, d)) else Get(s, k)
  {
    if Get(s, d.projectId).Some? {
      GetPut(s, d.projectId, AddCost(Get(s, d.projectId).value, d), k);
    }
  }

  /** The records pass keeps the set of projects the first pass created. */
  lemma {:induction false} AccumulateKeys(s: Dict<ProjectSummary>, data: seq<FinancialData>)
    requires MonthKeyed(data)
    ensures Keys(AccumulateAll(s, data)) == Keys(s)
  {
    if data != [] {
      var prefix, d := data[..|data| - 1], data[|data| - 1];
      MonthKeyedPrefix(data);
      AccumulateKeys(s, prefix);
      AddRecordKeys(AccumulateAll(s, prefix), d);
    }
  }

  /** After the records pass, a project's entry is its first-pass entry with
      exactly that project's records added, in order. */
  lemma {:induction false} AccumulateGet(s: Dict<ProjectSummary>, data: seq<FinancialData>, k: string)
    requires MonthKeyed(data)
    ensures MonthKeyed(ProjectRecords(data, k))
    ensures Get(AccumulateAll(s, data), k) ==
              if Get(s, k).None? then None else Some(ApplyCosts(Get(s, k).value, ProjectRecords(data, k)))
  {
    if data != [] {
      var prefix, d := data[..|data| - 1], data[|data| - 1];
      MonthKeyedPrefix(data);
      AccumulateGet(s, prefix, k);
      var before := AccumulateAll(s, prefix);
      assert AccumulateAll(s, data) == AddRecord(before, d);
      AddRecordGet(before, d, k);
      var recs := ProjectRecords(prefix, k);
      if d.projectId == k {
        assert ProjectRecords(data, k) == recs + [d];
        if Get(s, k).Some? {
          ApplyCostsSnoc(Get(s, k).value, recs, d);
        }
      } else {
        assert ProjectRecords(data, k) == recs + [];
        assert recs + [] == recs;
      }
    }
  }

  /** `s` restricted to the records in the quarter `q` by their month number. */
  function InQuarter(records: seq<FinancialData>, q: int): seq<FinancialData>
    requires MonthKeyed(records)
  {
    if records == [] then []
    else
      var prefix, d := records[..|records| - 1], records[|records| - 1];
      assert d in records;
      InQuarter(prefix, q) + (if QuarterOf(d.month) == q then [d] else [])
  }

  /** The records whose month is `month`. */
  function InMonth(records: seq<FinancialData>, month: string): seq<FinancialData> {
    if records == [] then []
    else
      var prefix, d := records[..|records| - 1], records[|records| - 1];
      InMonth(prefix, month) + (if d.month == month then [d] else [])
  }

  lemma SumCostsSnoc(prefix: seq<FinancialData>, d: FinancialData)
    ensures SumCosts(prefix + [d]) == SumCosts(prefix) + d.monthlyCost
  {
    SumCostsAppend(prefix, [d]);
  }

  /** One record's effect on the monthly breakdown: its total grows by the
      record's cost. */
  lemma AddCostMonthTotal(r: ProjectSummary, d: FinancialData)
    requires IsMonthKey(d.month)
    ensures Sum(Values(AddCost(r, d).monthlyBreakdown)) == Sum(Values(r.monthlyBreakdown)) + d.monthlyCost
  {
    SumAddTo(r.monthlyBreakdown, d.month, d.monthlyCost);
  }

  /** One record's effect on the monthly breakdown: its own month grows by
      its cost, every other month keeps its value. */
  lemma AddCostMonth(r: ProjectSummary, d: FinancialData, month: string)
    requires IsMonthKey(d.month)
    ensures Get(AddCost(r, d).monthlyBreakdown, month).GetOr(0.0)
         == Get(r.monthlyBreakdown, month).GetOr(0.0) + (if month == d.month then d.monthlyCost else 0.0)
  {
    GetAddTo(r.monthlyBreakdown, d.month, d.monthlyCost, month);
  }

  /** Applying records to an entry keeps its name and count and grows its
      total by their costs; no records leave it as it was. */
  lemma {:induction false} ApplyCostsTotal(e: ProjectSummary, records: seq<FinancialData>)
    requires MonthKeyed(records)
    ensures var r := ApplyCosts(e, records);
      && r.projectName == e.projectName
      && r.resourceCount == e.resourceCount
      && r.totalCost == e.totalCost + SumCosts(records)
      && (records == [] ==> r == e)
  {
    if records != [] {
      var prefix, d := records[..|records| - 1], records[|records| - 1];
      ApplyCostsLast(e, records);
      ApplyCostsTotal(e, prefix);
    }
  }

  /** The four quarters together grow by the records' costs. */
  lemma {:induction false} ApplyCostsQuarterTotal(e: ProjectSummary, records: seq<FinancialData>)
    requires MonthKeyed(records)
    ensures ApplyCosts(e, records).quarterlyBreakdown.Total() == e.quarterlyBreakdown.Total() + SumCosts(records)
  {
    if records != [] {
      var prefix, d := records[..|records| - 1], records[|records| - 1];
      ApplyCostsLast(e, records);
      ApplyCostsQuarterTotal(e, prefix);
    }
  }

  /** The months of the breakdown together grow by the records' costs. */
  lemma {:induction false} ApplyCostsMonthTotal(e: ProjectSummary, records: seq<FinancialData>)
    requires MonthKeyed(records)
    ensures Sum(Values(ApplyCosts(e, records).monthlyBreakdown)) == Sum(Values(e.monthlyBreakdown)) + SumCosts(records)
  {
    if records != [] {
      var prefix, d := records[..|records| - 1], records[|records| - 1];
      ApplyCostsLast(e, records);
      ApplyCostsMonthTotal(e, prefix);
      AddCostMonthTotal(ApplyCosts(e, prefix), d);
    }
  }

  /** Each quarter grows by the costs of the records whose month falls in it. */
  lemma {:induction false} ApplyCostsQuarter(e: ProjectSummary, records: seq<FinancialData>, q: int)
    requires MonthKeyed(records)
    requires 1 <= q <= 4
    ensures ApplyCosts(e, records).quarterlyBreakdown.Get(q) == e.quarterlyBreakdown.Get(q) + SumCosts(InQuarter(records, q))
  {
    if records != [] {
      var prefix, d := records[..|records| - 1], records[|records| - 1];
      MonthKeyedPrefix(records);
      ApplyCostsQuarter(e, prefix, q);
      var head := if QuarterOf(d.month) == q then [d] else [];
      assert InQuarter(records, q) == InQuarter(prefix, q) + head;
      SumCostsAppend(InQuarter(prefix, q), head);
    }
  }

  /** Each month of the breakdown grows by the costs of the records dated in
      it (0 standing for a month never set). */
  lemma {:induction false} ApplyCostsMonth(e: ProjectSummary, records: seq<FinancialData>, month: string)
    requires MonthKeyed(records)
    ensures Get(ApplyCosts(e, records).monthlyBreakdown, month).GetOr(0.0)
         == Get(e.monthlyBreakdown, month).GetOr(0.0) + SumCosts(InMonth(records, month))
  {
    if records != [] {
      var prefix, d := records[..|records| - 1], records[|records| - 1];
      MonthKeyedPrefix(records);
      ApplyCostsMonth(e, prefix, month);
      var head := if d.month == month then [d] else [];
      assert InMonth(records, month) == InMonth(prefix, month) + head;
      SumCostsAppend(InMonth(prefix, month), head);
      AddCostMonth(ApplyCosts(e, prefix), d, month);
    }
  }

  /** The summary has one entry per distinct project id, in order of first
      appearance among the allocations. */
  lemma SummaryKeys(allocs: seq<ProjectAllocation>)
    requires MonthKeyed(Financials.FinancialRecords(allocs))
    ensures Keys(SummaryOf(allocs)) == Dedup(ProjectIds(allocs))
  {
    CountAllKeys(allocs);
    AccumulateKeys(CountAll(allocs), Financials.FinancialRecords(allocs));
  }

  /** A project's entry in the summary is its first-pass entry with its own
      records applied. */
  lemma SummaryGet(allocs: seq<ProjectAllocation>, k: string)
    requires MonthKeyed(Financials.FinancialRecords(allocs))
    requires k in ProjectIds(allocs)
    ensures Get(CountAll(allocs), k).Some?
    ensures MonthKeyed(ProjectRecords(Financials.FinancialRecords(allocs), k))
    ensures Get(SummaryOf(allocs), k)
         == Some(ApplyCosts(Get(CountAll(allocs), k).value, ProjectRecords(Financials.FinancialRecords(allocs), k)))
  {
    CountAllEntry(allocs, k);
    AccumulateGet(CountAll(allocs), Financials.FinancialRecords(allocs), k);
  }

  /** A project's entry: named after its first allocation, counting every
      allocation of the project (the same person twice counts twice), and
      totalling exactly its records' costs; the quarterly and monthly
      breakdowns add up to the same total. */
  lemma SummaryEntry(allocs: seq<ProjectAllocation>, k: string)
    requires MonthKeyed(Financials.FinancialRecords(allocs))
    requires k in ProjectIds(allocs)
    ensures Get(SummaryOf(allocs), k).Some?
    ensures var e, recs := Get(SummaryOf(allocs), k).value, ProjectRecords(Financials.FinancialRecords(allocs), k);
      && NamedFirst(e, allocs, k)
      && e.resourceCount == Count(ProjectIds(allocs), k)
      && e.totalCost == CalculateYearlyCost(recs)
      && e.quarterlyBreakdown.Total() == e.totalCost
      && Sum(Values(e.monthlyBreakdown)) == e.totalCost
  {
    var recs := ProjectRecords(Financials.FinancialRecords(allocs), k);
    CountAllEntry(allocs, k);
    SummaryGet(allocs, k);
    var first := Get(CountAll(allocs), k).value;
    ApplyCostsTotal(first, recs);
    ApplyCostsQuarterTotal(first, recs);
    ApplyCostsMonthTotal(first, recs);
  }

  /** Each quarter of a project's entry holds the costs of its records in
      the months of that quarter, by month number. */
  lemma SummaryQuarter(allocs: seq<ProjectAllocation>, k: string, q: int)
    requires MonthKeyed(Financials.FinancialRecords(allocs))
    requires k in ProjectIds(allocs)
    requires 1 <= q <= 4
    ensures Get(SummaryOf(allocs), k).Some?
    ensures MonthKeyed(ProjectRecords(Financials.FinancialRecords(allocs), k))
    ensures Get(SummaryOf(allocs), k).value.quarterlyBreakdown.Get(q)
         == SumCosts(InQuarter(ProjectRecords(Financials.FinancialRecords(allocs), k), q))
  {
    var recs := ProjectRecords(Financials.FinancialRecords(allocs), k);
    CountAllEntry(allocs, k);
    SummaryGet(allocs, k);
    var first := Get(CountAll(allocs), k).value;
    assert first.quarterlyBreakdown.Get(q) == 0.0;
    ApplyCostsQuarter(first, recs, q);
  }

  /** Each month of a project's breakdown holds the costs of its records in
      that month (0 standing for a month never set). */
  lemma SummaryMonth(allocs: seq<ProjectAllocation>, k: string, month: string)
    requires MonthKeyed(Financials.FinancialRecords(allocs))
    requires k in ProjectIds(allocs)
    ensures Get(SummaryOf(allocs), k).Some?
    ensures Get(Get(SummaryOf(allocs), k).value.monthlyBreakdown, month).GetOr(0.0)
         == SumCosts(InMonth(ProjectRecords(Financials.FinancialRecords(allocs), k), month))
  {
    var recs := ProjectRecords(Financials.FinancialRecords(allocs), k);
    CountAllEntry(allocs, k);
    SummaryGet(allocs, k);
    ApplyCostsMonth(Get(CountAll(allocs), k).value, recs, month);
  }

  /** For records dated in the planning year, the month-number quarter
      agrees with calculateQuarterlyCost's table. */
  lemma {:induction false} InQuarterIsTable(records: seq<FinancialData>, q: int)
    requires forall d :: d in records ==> d.month in MonthKeys
    requires q in QuarterMonths
    ensures MonthKeyed(records)
    ensures SumCosts(InQuarter(records, q)) == CalculateQuarterlyCost(records, q).value
  {
    if records != [] {
      var prefix, d := records[..|records| - 1], records[|records| - 1];
      assert records == prefix + [d];
      InQuarterIsTable(prefix, q);
      var months := QuarterMonths[q];
      var head := FilterMonths([d], months);
      QuarterFilterOne(d, q);
      assert InQuarter(records, q) == InQuarter(prefix, q) + head;
      SumCostsAppend(InQuarter(prefix, q), head);
      FilterMonthsAppend(prefix, [d], months);
      SumCostsAppend(FilterMonths(prefix, months), head);
    }
  }

  /** A record dated in the planning year passes quarter `q`'s month filter
      exactly when its month number falls in quarter `q`. */
  lemma QuarterFilterOne(d: FinancialData, q: int)
    requires d.month in MonthKeys && q in QuarterMonths
    ensures IsMonthKey(d.month)
    ensures FilterMonths([d], QuarterMonths[q]) == if QuarterOf(d.month) == q then [d] else []
  {
    MonthKeyQuarter(d.month);
    FilterOne(d, QuarterMonths[q]);
  }

  /** One record passes the month filter exactly when its month is listed. */
  lemma FilterOne(d: FinancialData, months: seq<string>)
    ensures FilterMonths([d], months) == if d.month in months then [d] else []
  {
    assert [d][1..] == [];
  }

  /** A project with no month of positive FTE still has its entry, with a
      zero total, zero quarters and an empty monthly breakdown. */
  lemma ZeroFteProject(allocs: seq<ProjectAllocation>, k: string)
    requires MonthKeyed(Financials.FinancialRecords(allocs))
    requires k in ProjectIds(allocs)
    requires forall a, month, fte :: a in allocs && a.projectId == k && (month, fte) in a.monthlyAllocations ==> fte <= 0.0
    ensures Get(SummaryOf(allocs), k).Some?
    ensures var e := Get(SummaryOf(allocs), k).value;
      && e.totalCost == 0.0
      && e.quarterlyBreakdown == NoQuarters
      && e.monthlyBreakdown == []
      && e.resourceCount == Count(ProjectIds(allocs), k)
  {
    var data := Financials.FinancialRecords(allocs);
    Financials.RecordsSound(allocs);
    forall d | d in data
      ensures d.projectId != k
    {
      var i :| 0 <= i < |allocs| && Financials.RecordOf(d, allocs[i]);
      assert allocs[i] in allocs;
    }
    ProjectRecordsEmpty(data, k);
    CountAllEntry(allocs, k);
    SummaryGet(allocs, k);
    ApplyCostsTotal(Get(CountAll(allocs), k).value, []);
  }
}
