/** The records the engine reads and produces. JavaScript numbers are exact
    reals here; an optional (`?`) or nullable field is an Option. */
module Types {
  import opened Basics
  import opened Dict

  /** FTE fraction or workday count per month key ("2026-01", ...), in the
      order the source object lists them. */
  type MonthValues = Dict<real>

  /** One row of the personnel roster. `technology`, `projectTiedTo` and
      `sowBilledUnder` may be missing or null; all three are None then. */
  datatype RosterEntry = RosterEntry(
    name: string,
    technology: Option<string>,
    company: string,
    location: string,
    bu: string,
    projectTiedTo: Option<string>,
    endDate: string,
    sowBilledUnder: Option<string>)

  /** One row of the 2026 planning roster: a person on a project with a rate
      and per-month FTE and workdays. */
  datatype PlanningEntry = PlanningEntry(
    name: string,
    project: string,
    functionalTeam: string,
    hourlyRate: real,
    role: string,
    location: string,
    vendor: string,
    allocations: MonthValues,
    workdays: MonthValues)

  datatype ResourceStatus = Active | Ending | Ended | Planned

  datatype Resource = Resource(
    id: string,
    name: string,
    technology: seq<string>,
    company: string,
    location: string,
    businessUnit: string,
    currentProject: string,
    endDate: string,
    startDate: string,
    sowBilledUnder: string,
    skills: seq<string>,
    role: Option<string>,
    vendor: Option<string>,
    hourlyRate: Option<real>,
    status: ResourceStatus)

  datatype ProjectAllocation = ProjectAllocation(
    id: string,
    resourceId: string,
    resourceName: string,
    projectId: string,
    projectName: string,
    role: string,
    vendor: string,
    hourlyRate: real,
    functionalTeam: string,
    location: string,
    monthlyAllocations: MonthValues,
    monthlyWorkdays: MonthValues,
    startDate: string,
    endDate: string)

  datatype ProjectStatus = ProjectActive | ProjectPlanned | ProjectCompleted

  datatype Project = Project(
    id: string,
    name: string,
    code: string,
    budget: string,
    sowReference: string,
    description: Option<string>,
    status: ProjectStatus)

  datatype Vendor = Vendor(id: string, name: string, location: string, resourceCount: nat)

  /** The cost of one allocation in one month. The optional `quarterly` and
      `yearly` fields of the source's interface are never set by the engine. */
  datatype FinancialData = FinancialData(
    resourceId: string,
    projectId: string,
    month: string,
    fte: real,
    workdays: real,
    hourlyRate: real,
    monthlyCost: real)

  /** The averaging period accepted (and ignored) by calculateUtilization. */
  datatype Period = Month | Quarter | Year
}
