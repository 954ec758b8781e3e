# Resource allocation cost and utilization engine

A Dafny model of the calculation engine and data generators of the
resource-planning dashboard's mock data service (`src/services/mockData.ts`).
The service turns two built-in datasets into the records every page reads:

- a personnel roster (who is engaged, for which company and project, until when);
- a 2026 planning roster: one row per person and project, with an hourly
  rate and, for each month key `"2026-01"` … `"2026-12"`, an FTE fraction
  and a workday count.

It derives:

- **resources**: the roster rows, enriched by or extended with the planning
  rows matched by first name;
- **allocations**: one per planning row;
- **projects** and **vendors**;
- **financial records**: one per allocation-month with a positive FTE,
  costed at `rate × FTE × workdays × 8`;
- a **per-project financial summary** (total, quarterly and monthly costs,
  allocation count);
- a **per-resource utilization summary**: total FTE, monthly FTE, and the
  average over all months as a rounded percentage.

A standalone helper averages only the positive months. The model keeps the
two averaging bases apart.

The modules:

| module | file | contents |
|---|---|---|
| `Basics` | `basics.dfy` | `Option`, sums and means of reals, `Math.round` |
| `Text` | `text.dfy` | `toLowerCase`, `split(" ")[0]`, `includes`, decimal rendering of indices |
| `Dict` | `dict.dfy` | insertion-ordered string-keyed objects: `Object.keys`, `Object.values`, lookup, assignment and `d[k] = (d[k] \|\| 0) + x` |
| `Types` | `types.dfy` | the roster rows, planning rows, resources, allocations, projects, vendors and financial records |
| `Engine` | `engine.dfy` | `calculateMonthlyCost`, `calculateQuarterlyCost`, `calculateYearlyCost`, `calculateUtilization` |
| `Resources` | `resources.dfy` | `getResources` |
| `Allocations` | `allocations.dfy` | `getProjectAllocations`, `getProjects` |
| `Financials` | `financials.dfy` | `getFinancialData` |
| `Vendors` | `vendors.dfy` | `getVendors` |
| `Summary` | `summary.dfy` | `getProjectFinancialSummary` |
| `Utilization` | `utilization.dfy` | `getResourceUtilization` |
| `MockData` | `mockdata.dfy` | the two built-in datasets, and facts about what the engine makes of them |

How the source is modelled:

- **Pure functions** (the four `calculate*` functions, `getProjectAllocations`,
  `getProjects`) are Dafny functions.
- **Generators that build a result step by step** (`getResources`,
  `getVendors`, `getFinancialData`, `getProjectFinancialSummary`,
  `getResourceUtilization`) are methods with `while` loops, one method per
  `forEach` callback. Each method is proved equal to a specification
  function, and the properties are lemmas about that function.
- **Datasets** are parameters of every generator. The module-level literals
  are constants in `MockData`.
- **Numbers**: JavaScript numbers are exact reals, and `Math.round(x)` is
  `⌊x + 0.5⌋`.
- **Objects and `Map`s** are association lists in insertion order, because the
  order of `Object.values` and `Map.values` is visible in the results.

## Model

| member | source | states |
|---|---|---|
| `Basics.Round` | src/services/mockData.ts:400 | `Math.round`: the result is the integer within half a unit of `x`, a half going up |
| `Basics.RoundUnique` | src/services/mockData.ts:400 | any integer in the half-open window around `x` is `Math.round(x)` |
| `Text.ToLower` | src/services/mockData.ts:427 | `toLowerCase` keeps the length and lowers each character |
| `Text.FirstToken` | src/services/mockData.ts:427 | `split(" ")[0]`: a prefix free of spaces, followed by a space or the end of the name |
| `Text.FirstTokenUnique` | src/services/mockData.ts:427 | that characterisation of `split(" ")[0]` has exactly one solution |
| `Text.ContainsAt` | src/services/mockData.ts:427 | `includes` holds iff the key occurs at some position |
| `Text.NatToString` | src/services/mockData.ts:410 | an index renders as a non-empty digit string, one digit iff below 10 |
| `Text.NatToStringInjective` | src/services/mockData.ts:410 | distinct indices render differently |
| `Text.PrefixedNumberInjective` | src/services/mockData.ts:410 | `` `prefix-${n}` `` ids are distinct for distinct `n` |
| `Dict.Get` | src/services/mockData.ts:578 | a lookup finds a value iff the key is present |
| `Dict.Put` | src/services/mockData.ts:578-586 | assignment: the key order gains the key at the end if new, and the key then maps to the value |
| `Dict.GetPut` | src/services/mockData.ts:578-586 | assignment changes only the assigned key |
| `Dict.AddTo` | src/services/mockData.ts:594-596 | `d[k] = (d[k] \|\| 0) + x` keeps the key order, appending a new key |
| `Dict.GetAddTo` | src/services/mockData.ts:594-596 | it raises key `k` by `x` (a missing key counting as 0) and leaves every other key's value alone |
| `Dict.SumAddTo` | src/services/mockData.ts:594-596 | it raises the sum of all values by exactly `x` |
| `Dict.Dedup` | src/services/mockData.ts:577-587 | the first-occurrence key order is duplicate-free and has the same members |
| `Engine.CalculateMonthlyCost` | src/services/mockData.ts:352-358 | the cost is 0 iff the rate, the FTE or the workdays are 0; it is non-negative on non-negative inputs; nothing is clamped |
| `Engine.MonthlyCostLinearInFte` | src/services/mockData.ts:352-358 | the cost is linear in the FTE |
| `Engine.QuarterOf` | src/services/mockData.ts:599-600 | `Math.ceil(parseInt(month) / 3)` lies in 1..4 and brackets the month: 3(q−1) < m ≤ 3q |
| `Engine.MonthKeyQuarter` | src/services/mockData.ts:367-372 | each 2026 month key parses, and lies in the quarter table's row for its computed quarter and in no other row |
| `Engine.FilterMonths` | src/services/mockData.ts:375 | the filter keeps exactly the records whose month is in the quarter's row |
| `Engine.CalculateQuarterlyCost` | src/services/mockData.ts:363-377 | throws (None) iff there is a record and the quarter is not 1..4; with no records the cost is 0 |
| `Engine.QuarterlyCostStep` | src/services/mockData.ts:374-376 | a record raises a quarter's cost by its own cost iff its month is in that quarter's row |
| `Engine.SumCostsAppend` | src/services/mockData.ts:382-384 | the yearly sum of two record lists joined is the sum of their yearly sums |
| `Engine.QuarterWithinYear` | src/services/mockData.ts:363-384 | calculateYearlyCost sums every record whatever its month, so with no negative costs each quarterly cost lies between 0 and the yearly cost |
| `Engine.QuartersSumToYear` | src/services/mockData.ts:363-384 | when every record is dated in 2026, the four quarterly costs add up to the yearly cost |
| `Engine.Positives` | src/services/mockData.ts:393 | the filter keeps exactly the positive values, and only positive values |
| `Engine.CalculateUtilization` | src/services/mockData.ts:389-401 | 0 when no value is positive; between 0 and 100 when no value exceeds 1 |
| `Engine.PositiveFractionsAverage` | src/services/mockData.ts:393-398 | positive values of at most 1 average to a fraction in (0, 1] |
| `Engine.UtilizationIgnoresNonPositive` | src/services/mockData.ts:393 | adding a zero or negative month leaves `calculateUtilization` unchanged |
| `Engine.UtilizationOfUniform` | src/services/mockData.ts:393-400 | when every positive month holds the same value `c`, the result is `Math.round(c × 100)` |
| `Resources.StatusOf` | src/services/mockData.ts:421 | the status is ended iff the end date is the literal "ENDED", and active otherwise |
| `Resources.MaterializeRoster` | src/services/mockData.ts:409-422 | one resource per roster row, in order, each built from that row and its index |
| `Resources.FindMatch` | src/services/mockData.ts:426-428 | `find`: the first resource whose lower-cased name contains the key, or none when no resource matches |
| `Resources.MergeEntry` | src/services/mockData.ts:425-453 | an entry either patches rate, vendor and role of the first match and changes nothing else, or, iff nothing matches, appends a new resource |
| `Resources.ResourceIdInjective` | src/services/mockData.ts:410 | distinct indices give distinct resource ids |
| `Resources.GetResources` | src/services/mockData.ts:408-456 | the loop returns the specified resources; their count lies between the roster's and the roster's plus the planning rows'; ids run `resource-1`, `resource-2`, … |
| `Resources.MergePlanningEntry` | src/services/mockData.ts:425-453 | one planning row: the first resource whose lower-cased name contains the row's lower-cased first name is given the row's rate, vendor and role; with no match a resource with the next positional id is pushed |
| `Resources.MergeAllKeepsPositionalIds` | src/services/mockData.ts:436 | merging keeps ids positional |
| `Resources.ResourceIdsPositional` | src/services/mockData.ts:408-456 | resource `i` has id `resource-(i+1)` |
| `Resources.ResourceIdsUnique` | src/services/mockData.ts:408-456 | resource ids are pairwise distinct |
| `Resources.MergeAllLength` | src/services/mockData.ts:425-453 | the merge adds exactly one resource per unmatched entry |
| `Resources.ResourcesLength` | src/services/mockData.ts:408-456 | the final count is the roster's count plus the number of unmatched planning rows |
| `Resources.MergeAllKeepsPrefix` | src/services/mockData.ts:430-433 | merging never reorders, removes or edits an earlier resource beyond rate, vendor and role |
| `Resources.RosterResources` | src/services/mockData.ts:409-422 | roster resources come first, in order, each as the roster map built it |
| `Resources.RosterDefaults` | src/services/mockData.ts:409-422 | roster resource `i`: id `resource-(i+1)`, the row's name, "Unassigned" and "N/A" for a missing project and billing, and the status rule |
| `Resources.MergeAllEnrichment` | src/services/mockData.ts:430-433 | a resource's rate, vendor and role are all missing, or all come from one planning row |
| `Resources.ResourcesEnrichment` | src/services/mockData.ts:408-456 | the same for every resource getResources returns |
| `Resources.FirstTokenMatchesOneWay` | src/services/mockData.ts:426-428 | "Vinod Kumar Yadav" does not match a resource named "Yadav" (the key is the first name), so that entry is appended |
| `Resources.VinodKey` | src/services/mockData.ts:427 | the match key of "Vinod Kumar Yadav" is "vinod" |
| `Resources.YadavLacksVinod` | src/services/mockData.ts:427 | "yadav" does not contain "vinod" |
| `Allocations.GetProjectAllocations` | src/services/mockData.ts:461-478 | one allocation per planning row, in order: positional allocation and resource ids, `project-${project}`, and the month maps passed through unchanged |
| `Allocations.AllocationIdsUnique` | src/services/mockData.ts:463-464 | allocation ids and resource ids differ between rows |
| `Allocations.PositionalJoin` | src/services/mockData.ts:464 | allocation `i` carries the id of resource `i`, which for a roster-sized prefix is roster row `i`, whoever the planning row names |
| `Allocations.GetProjects` | src/services/mockData.ts:483-504 | two active projects, NGPC and Services, each with id `project-${code}` |
| `Allocations.AllocationsReferToProjects` | src/services/mockData.ts:466 | allocations of NGPC or Services rows refer to a project that getProjects lists |
| `Financials.WorkdaysFor` | src/services/mockData.ts:538 | `workdays[month] \|\| 20`: a present, non-zero count is used, otherwise 20; never 0 |
| `Financials.GetFinancialData` | src/services/mockData.ts:531-559 | the loop returns the specified records; every record has a positive FTE, non-zero workdays and the monthly cost of its rate, FTE and workdays |
| `Financials.PushMonthRecords` | src/services/mockData.ts:536-556 | the inner loop appends exactly the allocation's records |
| `Financials.PushMonthRecord` | src/services/mockData.ts:536-555 | a month with a positive FTE appends its record, priced by `calculateMonthlyCost` on the month's workdays or 20; any other month appends nothing |
| `Financials.MonthRecordsSound` | src/services/mockData.ts:536-556 | every record of an allocation comes from one of its month entries with a positive FTE, costed by the rule |
| `Financials.MonthRecordsComplete` | src/services/mockData.ts:536-556 | every month entry with a positive FTE yields its record |
| `Financials.MonthRecordsCount` | src/services/mockData.ts:536-556 | an allocation yields exactly as many records as it has positive months |
| `Financials.RecordsSound` | src/services/mockData.ts:531-559 | every record belongs to some allocation |
| `Financials.RecordsWellFormed` | src/services/mockData.ts:531-559 | every record has a positive FTE, non-zero workdays and the cost of `calculateMonthlyCost` |
| `Financials.RecordsComplete` | src/services/mockData.ts:531-559 | every positive (allocation, month) pair has its record |
| `Financials.RecordsCount` | src/services/mockData.ts:531-559 | there is exactly one record per allocation-month with a positive FTE |
| `Vendors.VendorStepEffect` | src/services/mockData.ts:512-523 | one row changes only its vendor, which is created with a count of 1 or has its count raised by 1 |
| `Vendors.VendorMapKeys` | src/services/mockData.ts:509-526 | the vendors are the distinct vendor names, in first-appearance order |
| `Vendors.VendorMapEntry` | src/services/mockData.ts:509-526 | each vendor has id `vendor-${name}`, its name, the location of its first row, and one count per row naming it |
| `Vendors.NewVendorStep` | src/services/mockData.ts:513-520 | a vendor's first row creates it with that row's location and a count of 1 |
| `Vendors.SeenVendorStep` | src/services/mockData.ts:521-522 | a later row keeps its vendor's record exact: same id, name and first location, one more count |
| `Vendors.VendorsContents` | src/services/mockData.ts:525 | `Array.from(values())` lists one correct record per distinct vendor, in order |
| `Vendors.GetVendors` | src/services/mockData.ts:509-526 | the loop returns the specified vendors: one record per distinct vendor, with id, name, first location and row count |
| `Vendors.CountVendors` | src/services/mockData.ts:512-524 | the rows loop builds the specified vendor map |
| `Vendors.CountVendor` | src/services/mockData.ts:512-523 | one row: its vendor is created with the row's location and a zero count if new, then its count is raised |
| `Summary.CountStepEffect` | src/services/mockData.ts:577-587 | one allocation changes only its project's entry: it is created empty with a count of 1, or has its count raised by 1 |
| `Summary.CountAllKeys` | src/services/mockData.ts:577-587 | the first pass has one key per distinct project id, in first-appearance order |
| `Summary.CountAllEntry` | src/services/mockData.ts:577-587 | after the first pass, each entry has no cost, is named after its first allocation, and counts every allocation of its project |
| `Summary.WellKeyedRecords` | src/services/mockData.ts:536-549 | planning rows with "YYYY-MM" keys yield records with "YYYY-MM" months |
| `Summary.GetProjectFinancialSummary` | src/services/mockData.ts:572-606 | the two loops return the specified summary |
| `Summary.CountAllocations` | src/services/mockData.ts:577-588 | the allocations loop builds the specified per-project counts |
| `Summary.CountAllocation` | src/services/mockData.ts:578-587 | one allocation: its project's entry is created with the project name, zero totals and empty breakdowns if absent, then its count is raised |
| `Summary.AccumulateRecords` | src/services/mockData.ts:590-603 | the records loop folds every record into the summary as specified |
| `Summary.AddFinancialRecord` | src/services/mockData.ts:591-602 | one record of a listed project raises its total, its month and its quarter `ceil(m/3)` by the record's cost; a record of an unlisted project changes nothing |
| `Summary.ProjectRecords` | src/services/mockData.ts:591-592 | the records that reach a project's entry are exactly those with its id |
| `Summary.AddRecordKeys` | src/services/mockData.ts:590-603 | the second pass adds no key; a record of an unknown project is dropped |
| `Summary.AddRecordGet` | src/services/mockData.ts:590-603 | a record changes only its own project's entry |
| `Summary.AccumulateKeys` | src/services/mockData.ts:590-603 | the keys after folding all records are the keys before |
| `Summary.AccumulateGet` | src/services/mockData.ts:590-603 | each entry ends as its first-pass value with exactly its project's records applied |
| `Summary.AddCostMonthTotal` | src/services/mockData.ts:594-596 | a record raises the sum of the monthly breakdown by its cost |
| `Summary.AddCostMonth` | src/services/mockData.ts:594-596 | a record raises its own month by its cost and no other month |
| `Summary.ApplyCostsTotal` | src/services/mockData.ts:593 | applying records keeps name and count and raises the total by their cost |
| `Summary.ApplyCostsQuarterTotal` | src/services/mockData.ts:599-601 | applying records raises the four quarters together by their cost |
| `Summary.ApplyCostsMonthTotal` | src/services/mockData.ts:594-596 | applying records raises the monthly breakdown's sum by their cost |
| `Summary.ApplyCostsQuarter` | src/services/mockData.ts:599-601 | quarter `q` grows by the cost of the records dated in `q` |
| `Summary.ApplyCostsMonth` | src/services/mockData.ts:594-596 | each month grows by the cost of the records dated in it |
| `Summary.SummaryKeys` | src/services/mockData.ts:572-606 | the summary has one key per distinct project id, in first-appearance order |
| `Summary.SummaryGet` | src/services/mockData.ts:572-606 | each project's entry is its first-pass entry with all of its records applied |
| `Summary.SummaryEntry` | src/services/mockData.ts:572-606 | entry: named after its first allocation; count = the project's allocations; total = the yearly cost of its records = the sum of its quarters = the sum of its months |
| `Summary.SummaryQuarter` | src/services/mockData.ts:599-601 | quarter `q` is the cost of the project's records whose month lies in `q` |
| `Summary.SummaryMonth` | src/services/mockData.ts:594-596 | each month holds the cost of the project's records dated in that month |
| `Summary.InQuarterIsTable` | src/services/mockData.ts:367-376 | for 2026 months, bucketing by `ceil(m/3)` agrees with `calculateQuarterlyCost`'s table |
| `Summary.ZeroFteProject` | src/services/mockData.ts:577-587 | a project with no positive month still appears, with zero cost, empty breakdowns and its allocation count |
| `Utilization.AverageAll` | src/services/mockData.ts:641-648 | the averages pass keeps every key in place and averages each entry |
| `Utilization.GetResourceUtilization` | src/services/mockData.ts:618-651 | the loops return the specified utilization summary |
| `Utilization.RegisterAllocations` | src/services/mockData.ts:622-639 | the allocations loop builds the specified totals |
| `Utilization.RegisterAllocation` | src/services/mockData.ts:623-638 | one allocation: create the entry if absent, then add its months |
| `Utilization.AddAllocationMonths` | src/services/mockData.ts:633-637 | the month loop adds every month entry in order |
| `Utilization.AverageUtilizations` | src/services/mockData.ts:641-648 | the averages loop gives the specified averages |
| `Utilization.AddMonthsEffect` | src/services/mockData.ts:633-637 | adding months keeps name and average, and raises both the total and the breakdown's sum by the FTE added |
| `Utilization.AddToAbsent` | src/services/mockData.ts:635-636 | a month not yet present is appended with its FTE |
| `Utilization.AddMonthsFresh` | src/services/mockData.ts:633-637 | a fresh entry fed distinct months has exactly those months as its breakdown |
| `Utilization.RegisterEffect` | src/services/mockData.ts:622-638 | one allocation changes only its resource's entry |
| `Utilization.TotalsKeys` | src/services/mockData.ts:622-639 | there is one entry per distinct resource id, in first-appearance order |
| `Utilization.TotalsConsistent` | src/services/mockData.ts:622-639 | before averaging, every total equals the sum of its monthly breakdown, and the average is 0 |
| `Utilization.TotalsRow` | src/services/mockData.ts:622-639 | with positional (distinct) resource ids, row `i`'s entry is built from row `i` alone |
| `Utilization.AverageAllGet` | src/services/mockData.ts:641-648 | averaging keeps the keys, and each entry is its own average |
| `Utilization.UtilizationKeys` | src/services/mockData.ts:618-651 | the summary has one key per distinct resource id |
| `Utilization.AveragedEffect` | src/services/mockData.ts:642-647 | averaging changes only the average: the mean of all months × 100, rounded, or 0 left as is when there are no months |
| `Utilization.AveragedOfConsistent` | src/services/mockData.ts:641-648 | a consistent total averages to `round(total / months × 100)` |
| `Utilization.UtilizationEntry` | src/services/mockData.ts:618-651 | every entry's total is its months' sum, and its average is `round(total / months × 100)`, zero months included |
| `Utilization.UtilizationOfRow` | src/services/mockData.ts:618-651 | row `i`'s resource: the row's name, the row's months as breakdown, averaged over all of them |
| `Utilization.UtilizationBasesDiffer` | src/services/mockData.ts:389-401 | any one of twelve months at 1.0 and the other eleven at 0: the summary's average is 8, `calculateUtilization`'s is 100 |
| `MockData.FirstRowFebruaryCost` | src/services/mockData.ts:160-196 | February of the first planning row costs 34.5 × 1 × 19 × 8 = 5244 |
| `MockData.PlanningProjectsCatalogued` | src/services/mockData.ts:158-344 | every planning row's allocation refers to a listed project |
| `MockData.PositionalJoinMismatch` | src/services/mockData.ts:80-196 | allocation 0 (Devanshu Mishra) carries the id of resource 0, Pragya Porwal |
| `MockData.FirstRowValues` | src/services/mockData.ts:167-180 | the first row's FTE is 1.0 from February to June and 0 otherwise |
| `MockData.FirstRowTotal` | src/services/mockData.ts:167-180 | the first row holds five FTE-months |
| `MockData.FiveOfTwelve` | src/services/mockData.ts:641-648 | the row of resource `n`, with twelve distinct months holding five FTE-months, averages 42 |
| `MockData.FirstRowSummaryUtilization` | src/services/mockData.ts:618-651 | with the first row first, its resource (`resource-1`, by `MockData.FirstResourceId`) averages 42 in the utilization summary |
| `MockData.FirstRowCalculatedUtilization` | src/services/mockData.ts:389-401 | `calculateUtilization` on the first row's months gives 100 |
| `MockData.FullMonthsOnly` | src/services/mockData.ts:389-401 | any months with that FTE pattern give 100 |
| `MockData.RowsKeyedByMonths` | src/services/mockData.ts:599-600 | rows keyed by the 2026 months give the quarter bucketing well-formed months |
| `MockData.PlanningRowKeys` | src/services/mockData.ts:158-344 | every planning row is keyed by the twelve 2026 months, in order |
| `MockData.PlanningWellKeyed` | src/services/mockData.ts:158-344 | so the built-in planning roster meets the summary's month-key precondition |

## Left out

- The React pages, the BigQuery API route, the configuration files and all display formatting are not part of this model. They only consume the engine's results.
- IEEE-754 arithmetic is not modelled: numbers are exact reals, so there is no rounding error, overflow or NaN.
- `toLowerCase` is modelled for ASCII letters only.
- The `_period` argument of `calculateUtilization` is accepted and ignored, as in the source.
- `calculateQuarterlyCost` takes an integer quarter. Fractional and non-numeric quarters are not modelled: they throw like any quarter outside 1..4.
- Summary.GetProjectFinancialSummary: requires every month with a positive FTE to be keyed "YYYY-MM" (`Summary.WellKeyed`).
  - This is stronger than the source needs. The source reads the second '-' segment with `parseInt` and buckets any key whose month parses to 1..12, such as "2026-5" or "2026-05-15". The model does not cover those keys.
  - The built-in roster meets the requirement (`MockData.PlanningWellKeyed`).
- In-place updates are modelled on values; aliasing is not:
  - `existingResource.hourlyRate = …`, `vendor.resourceCount += 1` and `summary[id].totalCost += …` update records that the call itself created. No reference to them escapes before the call returns.
  - The model therefore replaces the record in the result sequence or dictionary.
- The datasets are parameters of every generator. Facts about the built-in literals are stated on single rows (`MockData`) rather than over whole generator results, to keep the proofs small.
- The source applies "N/A" and "Unassigned" in `getResources` itself (lines 416 and 419). The model follows the code.
- `getResources` is modelled as a function of its two datasets. The module-level constants it reads are passed in.
- Start and end dates are kept as the free-form strings the source copies. Only the literal "ENDED" is interpreted, as in the source.
