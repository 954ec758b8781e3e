/** getProjectAllocations and getProjects: one allocation per planning row,
    and the fixed project catalogue. */
module Allocations {
  import opened Basics
  import opened Text
  import opened Types
  import Resources

  /** `allocation-${n}`. */
  function AllocationId(n: nat): string {
    "allocation-" + NatToString(n)
  }

  /** `project-${project}`. */
  function ProjectId(project: string): string {
    "project-" + project
  }

  /** The allocation built from planning row `index` (0-based). Its resource
      id is taken from the row's position, not looked up by name. */
  function ToAllocation(p: PlanningEntry, index: nat): ProjectAllocation {
    ProjectAllocation(
      id := AllocationId(index + 1),
      resourceId := Resources.ResourceId(index + 1),
      resourceName := p.name,
      projectId := ProjectId(p.project),
      projectName := p.project,
      role := p.role,
      vendor := p.vendor,
      hourlyRate := p.hourlyRate,
      functionalTeam := p.functionalTeam,
      location := p.location,
      monthlyAllocations := p.allocations,
      monthlyWorkdays := p.workdays,
      startDate := "2026-01-01",
      endDate := "2026-12-31")
  }

  /** getProjectAllocations: one allocation per planning row, in order, with
      positional ids and the row's month maps passed through unchanged. */
  function GetProjectAllocations(planning: seq<PlanningEntry>): (allocs: seq<ProjectAllocation>)
    ensures |allocs| == |planning|
    ensures forall i :: 0 <= i < |planning| ==>
              && allocs[i].id == AllocationId(i + 1)
              && allocs[i].resourceId == Resources.ResourceId(i + 1)
              && allocs[i].resourceName == planning[i].name
              && allocs[i].projectId == ProjectId(planning[i].project)
              && allocs[i].projectName == planning[i].project
              && allocs[i].hourlyRate == planning[i].hourlyRate
              && allocs[i].monthlyAllocations == planning[i].allocations
              && allocs[i].monthlyWorkdays == planning[i].workdays
  {
    seq(|planning|, i requires 0 <= i < |planning| => ToAllocation(planning[i], i))
  }

  /** Allocation ids are pairwise distinct, and so are their resource ids. */
  lemma AllocationIdsUnique(planning: seq<PlanningEntry>, i: nat, j: nat)
    requires i < j < |planning|
    ensures GetProjectAllocations(planning)[i].id != GetProjectAllocations(planning)[j].id
    ensures GetProjectAllocations(planning)[i].resourceId != GetProjectAllocations(planning)[j].resourceId
  {
    var allocs := GetProjectAllocations(planning);
    if allocs[i].id == allocs[j].id {
      PrefixedNumberInjective("allocation-", i + 1, j + 1);
    }
    if allocs[i].resourceId == allocs[j].resourceId {
      Resources.ResourceIdInjective(i + 1, j + 1);
    }
  }

  /** The join between allocations and resources is by position: allocation
      `i` names the resource at position `i` of getResources, which for a
      roster-sized prefix is roster row `i`, whoever the planning row names. */
  lemma PositionalJoin(roster: seq<RosterEntry>, planning: seq<PlanningEntry>, i: nat)
    requires i < |planning| && i < |roster|
    ensures var r := Resources.Resources(roster, planning);
      && i < |r|
      && GetProjectAllocations(planning)[i].resourceId == r[i].id
      && GetProjectAllocations(planning)[i].resourceName == planning[i].name
      && r[i].name == roster[i].name
  {
    Resources.RosterResources(roster, planning, i);
    Resources.ResourceIdsPositional(roster, planning);
  }

  /** getProjects: the two fixed projects, each identified by
      `project-${code}`, both active. */
  function GetProjects(): (projects: seq<Project>)
    ensures |projects| == 2
    ensures forall p :: p in projects ==> p.id == ProjectId(p.code) && p.status == ProjectActive
    ensures projects[0].code == "NGPC" && projects[1].code == "Services"
  {
    [ Project(
        id := "project-NGPC",
        name := "NG (Next Generation)",
        code := "NGPC",
        budget := "NGPC",
        sowReference := "ZSP (eContract)",
        description := Some("Next Generation Salesforce Implementation"),
        status := ProjectActive),
      Project(
        id := "project-Services",
        name := "Services",
        code := "Services",
        budget := "Services",
        sowReference := "Business Funded",
        description := Some("Services and Support Projects"),
        status := ProjectActive) ]
  }

  /** Every allocation of a planning row on one of the catalogued projects
      refers to a project that getProjects lists. */
  lemma AllocationsReferToProjects(planning: seq<PlanningEntry>)
    requires forall p :: p in planning ==> p.project == "NGPC" || p.project == "Services"
    ensures forall a :: a in GetProjectAllocations(planning) ==>
              exists p :: p in GetProjects() && p.id == a.projectId
  {
    var projects := GetProjects();
    forall a | a in GetProjectAllocations(planning)
      ensures exists p :: p in projects && p.id == a.projectId
    {
      var i :| 0 <= i < |planning| && GetProjectAllocations(planning)[i] == a;
      assert planning[i] in planning;
      if planning[i].project == "NGPC" {
        assert projects[0] in projects;
      } else {
        assert projects[1] in projects;
      }
    }
  }
}
