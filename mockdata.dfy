/** The service's built-in data: the SFDC resource roster and the 2026
    planning roster, with facts about what the engine makes of them. */
module MockData {
  import opened Basics
  import opened Dict
  import opened Types
  import opened Engine
  import Resources
  import Allocations
  import Financials
  import Summary
  import Utilization

  /** The SFDC resource roster. */
  const Roster: seq<RosterEntry> := [
    RosterEntry("Pragya Porwal", Some("Salesforce"), "CapGemini", "India", "Services",
      Some("OneSupport Portal"), "2025-07-31", Some("ZSP (eContract)")),
    RosterEntry("Saurabh Nagpal", Some("Salesforce"), "CapGemini", "India", "Services",
      Some("Services DevOps"), "Business Extended", Some("Business Funded")),
    RosterEntry("Akhila Gundu", Some("Salesforce"), "CapGemini", "India", "Marketing",
      Some("Marketing DevOps"), "ENDED", None),
    RosterEntry("Dhatchinamoorthy", Some("Salesforce"), "CapGemini", "India", "Marketing",
      Some("Marketing DevOps"), "2025-12-31", None),
    RosterEntry("Isha Parekh", Some("Salesforce"), "Infosys", "India", "Marketing",
      None, "2026-01-31", None),
    RosterEntry("Lavanya Bhambri", Some("Salesforce"), "Infosys", "India", "Sales",
      Some("Zendesk"), "2025-07-31", None),
    RosterEntry("Mishra", Some("Salesforce"), "Infosys", "India", "Channels",
      Some("NG"), "2026-06-30", None),
    RosterEntry("Yadav", Some("Salesforce"), "Infosys", "India", "Channels",
      Some("NG"), "2026-06-30", None)]

  /** The workdays of every month of 2026, the same for every row. */
  const Workdays2026: MonthValues := [
    ("2026-01", 21.0), ("2026-02", 19.0), ("2026-03", 22.0), ("2026-04", 21.0), ("2026-05", 20.0), ("2026-06", 20.0),
    ("2026-07", 23.0), ("2026-08", 20.0), ("2026-09", 22.0), ("2026-10", 22.0), ("2026-11", 21.0), ("2026-12", 21.0)]

  const DevanshuMishra: PlanningEntry := PlanningEntry(
    "Devanshu Mishra", "NGPC", "Channels", 34.5, "SFDC - Developer", "Offshore", "Infosys",
    [
      ("2026-01", 0.0), ("2026-02", 1.0), ("2026-03", 1.0), ("2026-04", 1.0), ("2026-05", 1.0), ("2026-06", 1.0),
      ("2026-07", 0.0), ("2026-08", 0.0), ("2026-09", 0.0), ("2026-10", 0.0), ("2026-11", 0.0), ("2026-12", 0.0)],
    Workdays2026)

  const VinodKumarYadav: PlanningEntry := PlanningEntry(
    "Vinod Kumar Yadav", "NGPC", "Channels", 34.5, "SFDC - Developer", "Offshore", "Infosys",
    [
      ("2026-01", 0.5), ("2026-02", 1.0), ("2026-03", 1.0), ("2026-04", 1.0), ("2026-05", 1.0), ("2026-06", 1.0),
      ("2026-07", 0.0), ("2026-08", 0.0), ("2026-09", 0.0), ("2026-10", 0.0), ("2026-11", 0.0), ("2026-12", 0.0)],
    Workdays2026)

  const SahanaSS: PlanningEntry := PlanningEntry(
    "Sahana SS", "NGPC", "Channels", 34.5, "SFDC - Developer", "Offshore", "Infosys",
    [
      ("2026-01", 0.5), ("2026-02", 1.0), ("2026-03", 1.0), ("2026-04", 1.0), ("2026-05", 1.0), ("2026-06", 1.0),
      ("2026-07", 1.0), ("2026-08", 0.5), ("2026-09", 0.0), ("2026-10", 0.0), ("2026-11", 0.0), ("2026-12", 0.0)],
    Workdays2026)

  const PragyaPorwal: PlanningEntry := PlanningEntry(
    "Pragya Porwal", "Services", "Services", 42.5, "SFDC - Senior Developer", "Offshore", "CapGemini",
    [
      ("2026-01", 1.0), ("2026-02", 1.0), ("2026-03", 1.0), ("2026-04", 0.75), ("2026-05", 0.75), ("2026-06", 0.75),
      ("2026-07", 0.5), ("2026-08", 0.5), ("2026-09", 0.25), ("2026-10", 0.0), ("2026-11", 0.0), ("2026-12", 0.0)],
    Workdays2026)

  const SaurabhNagpal: PlanningEntry := PlanningEntry(
    "Saurabh Nagpal", "Services", "Services", 42.5, "SFDC - Senior Developer", "Offshore", "CapGemini",
    [
      ("2026-01", 1.0), ("2026-02", 1.0), ("2026-03", 1.0), ("2026-04", 1.0), ("2026-05", 1.0), ("2026-06", 1.0),
      ("2026-07", 1.0), ("2026-08", 1.0), ("2026-09", 0.5), ("2026-10", 0.25), ("2026-11", 0.0), ("2026-12", 0.0)],
    Workdays2026)

  /** The 2026 planning roster. */
  const Planning: seq<PlanningEntry> := [DevanshuMishra, VinodKumarYadav, SahanaSS, PragyaPorwal, SaurabhNagpal]

  /** February of the first planning row costs 34.5 * 1 * 19 * 8 = 5244. */
  lemma FirstRowFebruaryCost()
    ensures Financials.MonthRecord(Allocations.GetProjectAllocations(Planning)[0], "2026-02", 1.0).monthlyCost == 5244.0
  {
    assert Allocations.GetProjectAllocations(Planning)[0].monthlyWorkdays == Workdays2026;
  }

  /** Every planning row's allocation refers to a project getProjects lists. */
  lemma PlanningProjectsCatalogued()
    ensures forall a :: a in Allocations.GetProjectAllocations(Planning) ==>
              exists p :: p in Allocations.GetProjects() && p.id == a.projectId
  {
    Allocations.AllocationsReferToProjects(Planning);
  }

  /** The positional join on the built-in data: allocation 0 is Devanshu
      Mishra's, yet its resourceId names roster row 0, Pragya Porwal. */
  lemma PositionalJoinMismatch()
    ensures var r := Resources.Resources(Roster, Planning);
      && 0 < |r|
      && Allocations.GetProjectAllocations(Planning)[0].resourceId == r[0].id
      && Allocations.GetProjectAllocations(Planning)[0].resourceName == "Devanshu Mishra"
      && r[0].name == "Pragya Porwal"
  {
    Allocations.PositionalJoin(Roster, Planning, 0);
  }

  /** The twelve month keys of 2026 are pairwise distinct. */
  lemma MonthKeysDistinct()
    ensures Distinct(MonthKeys)
  {
  }

  /** The FTE of Devanshu Mishra's row, January to December. */
  const FirstRowFtes: seq<real> := [0.0, 1.0, 1.0, 1.0, 1.0, 1.0, 0.0, 0.0, 0.0, 0.0, 0.0, 0.0]

  /** Devanshu Mishra's row holds 1.0 FTE from February to June and 0
      otherwise ... */
  lemma FirstRowValues()
    ensures Values(DevanshuMishra.allocations) == FirstRowFtes
  {
    ValuesPointwise(DevanshuMishra.allocations, FirstRowFtes);
  }

  /** ... and so five FTE-months in all. */
  lemma FirstRowTotal()
    ensures Sum(Values(DevanshuMishra.allocations)) == 5.0
  {
    FirstRowValues();
    assert Sum(FirstRowFtes) == 5.0;
  }

  /** Five FTE-months over twelve months: 41.67%, rounded to 42. */
  lemma FiveTwelfths(total: real, months: int)
    requires total == 5.0 && months == 12
    ensures Round(total / months as real * 100.0) == 42
  {
    assert total / months as real * 100.0 == 500.0 / 12.0;
    RoundUnique(500.0 / 12.0, 42);
  }

  /** The planning row of resource number `n` (row `n - 1`), with twelve
      distinct months holding five FTE-months in all, has a utilization
      summary averaging 5/12, which rounds to 42. */
  lemma FiveOfTwelve(planning: seq<PlanningEntry>, n: nat)
    requires 1 <= n <= |planning|
    requires Distinct(Keys(planning[n - 1].allocations)) && |planning[n - 1].allocations| == 12
    requires Sum(Values(planning[n - 1].allocations)) == 5.0
    ensures Get(Utilization.ResourceUtilizationOf(planning), Resources.ResourceId(n)).Some?
    ensures Get(Utilization.ResourceUtilizationOf(planning), Resources.ResourceId(n)).value.avgUtilization == 42
  {
    var i := n - 1;
    Utilization.UtilizationOfRow(planning, i);
    assert Resources.ResourceId(i + 1) == Resources.ResourceId(n);
    var e := Get(Utilization.ResourceUtilizationOf(planning), Resources.ResourceId(i + 1)).value;
    FiveMonthsAverage(e);
  }

  /** An entry that averages its twelve months, five FTE-months in all,
      reports 42. */
  lemma FiveMonthsAverage(e: Utilization.ResourceUtilization)
    requires Utilization.AveragesItsMonths(e)
    requires |e.monthlyBreakdown| == 12 && Sum(Values(e.monthlyBreakdown)) == 5.0
    ensures e.avgUtilization == 42
  {
    FiveTwelfths(e.totalAllocation, |e.monthlyBreakdown|);
  }

  /** The first resource id is "resource-1". */
  lemma FirstResourceId()
    ensures Resources.ResourceId(1) == "resource-1"
  {
  }

  /** Devanshu Mishra's row, with 1.0 FTE in five of twelve months, first in
      the planning roster (as it is in `Planning`): the utilization summary
      entry of its id, "resource-1" (`FirstResourceId`), averages all twelve
      months, 5/12 rounding to 42. */
  lemma FirstRowSummaryUtilization(planning: seq<PlanningEntry>)
    requires 0 < |planning| && planning[0] == DevanshuMishra
    ensures Get(Utilization.ResourceUtilizationOf(planning), Resources.ResourceId(1)).Some?
    ensures Get(Utilization.ResourceUtilizationOf(planning), Resources.ResourceId(1)).value.avgUtilization == 42
  {
    KeysPointwise(DevanshuMishra.allocations, MonthKeys);
    FirstRowTotal();
    MonthKeysDistinct();
    FiveOfTwelve(planning, 1);
  }

  /** The same row under calculateUtilization, which averages only the five
      positive months: 100. */
  lemma FirstRowCalculatedUtilization(period: Period)
    ensures CalculateUtilization(DevanshuMishra.allocations, period) == 100
  {
    FirstRowValues();
    FullMonthsOnly(DevanshuMishra.allocations, period);
  }

  /** Any months carrying the FTE pattern of Devanshu Mishra's row (five at
      1.0, seven at 0): calculateUtilization reports 100. */
  lemma FullMonthsOnly(allocations: MonthValues, period: Period)
    requires Values(allocations) == FirstRowFtes
    ensures CalculateUtilization(allocations, period) == 100
  {
    var vs := Values(allocations);
    assert vs[1] == 1.0;
    forall v | v in vs
      ensures v <= 0.0 || v == 1.0
    {
    }
    UtilizationOfUniform(allocations, 1.0, period);
  }

  /** Rows keyed by the twelve months of 2026 meet the summary's demand that
      every month be keyed "YYYY-MM". */
  lemma {:induction false} RowsKeyedByMonths(planning: seq<PlanningEntry>)
    requires forall p :: p in planning ==> Keys(p.allocations) == MonthKeys
    ensures Summary.WellKeyed(planning)
  {
    forall p, month, fte | p in planning && (month, fte) in p.allocations && 0.0 < fte
      ensures IsMonthKey(month)
    {
      var i :| 0 <= i < |p.allocations| && p.allocations[i] == (month, fte);
      assert Keys(p.allocations)[i] == month;
      MonthKeyQuarter(month);
    }
  }

  /** Every row of the planning roster is keyed by the twelve months of 2026. */
  lemma PlanningRowKeys(i: nat)
    requires i < |Planning|
    ensures Keys(Planning[i].allocations) == MonthKeys
  {
    KeysPointwise(Planning[i].allocations, MonthKeys);
  }

  /** So the planning roster's financial summary is well defined. */
  lemma PlanningWellKeyed()
    ensures Summary.WellKeyed(Planning)
  {
    forall p | p in Planning
      ensures Keys(p.allocations) == MonthKeys
    {
      var i :| 0 <= i < |Planning| && Planning[i] == p;
      PlanningRowKeys(i);
    }
    RowsKeyedByMonths(Planning);
  }
}
