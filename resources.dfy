/** getResources: the personnel roster materialised into resources with ids
    `resource-1..n`, then each planning entry merged in by first-name match
    (enriching the first matching resource) or appended as a new resource. */
module Resources {
  import opened Basics
  import opened Text
  import opened Types

  /** `resource-${n}`. */
  function ResourceId(n: nat): string {
    "resource-" + NatToString(n)
  }

  lemma ResourceIdInjective(a: nat, b: nat)
    requires ResourceId(a) == ResourceId(b)
    ensures a == b
  {
    PrefixedNumberInjective("resource-", a, b);
  }

  /** `x || fallback` on an optional string: missing, null and "" fall back. */
  function OrElse(x: Option<string>, fallback: string): string {
    if x.Some? && x.value != "" then x.value else fallback
  }

  /** `x ? [x] : []` on an optional string. */
  function AsList(x: Option<string>): seq<string> {
    if x.Some? && x.value != "" then [x.value] else []
  }

  /** The status classification: only the literal end date "ENDED" ends a
      contract; every other end date, whatever it says, is active. */
  function StatusOf(endDate: string): (status: ResourceStatus)
    ensures status == Ended <==> endDate == "ENDED"
    ensures status != Ended ==> status == Active
  {
    if endDate == "ENDED" then Ended else Active
  }

  /** The resource for roster row `index` (0-based). */
  function FromRoster(item: RosterEntry, index: nat): Resource {
    Resource(
      id := ResourceId(index + 1),
      name := item.name,
      technology := AsList(item.technology),
      company := item.company,
      location := item.location,
      businessUnit := item.bu,
      currentProject := OrElse(item.projectTiedTo, "Unassigned"),
      endDate := item.endDate,
      startDate := "2025-01-01",
      sowBilledUnder := OrElse(item.sowBilledUnder, "N/A"),
      skills := AsList(item.technology),
      role := None,
      vendor := None,
      hourlyRate := None,
      status := StatusOf(item.endDate))
  }

  /** `resourceListData.map(...)`. */
  function MaterializeRoster(roster: seq<RosterEntry>): (rs: seq<Resource>)
    ensures |rs| == |roster|
    ensures forall i :: 0 <= i < |rs| ==> rs[i] == FromRoster(roster[i], i)
  {
    seq(|roster|, i requires 0 <= i < |roster| => FromRoster(roster[i], i))
  }

  /** The lower-cased first space-separated token of a planning name. */
  function MatchKey(name: string): string {
    ToLower(FirstToken(name))
  }

  /** The predicate given to `find`: the resource's lower-cased name contains
      the key. */
  predicate NameMatches(r: Resource, key: string) {
    Contains(ToLower(r.name), key)
  }

  /** `resources.find(...)` as a position: the first matching resource, or
      `|rs|` when none matches. */
  function FindMatch(rs: seq<Resource>, key: string): (i: nat)
    ensures i <= |rs|
    ensures i < |rs| ==> NameMatches(rs[i], key)
    ensures forall j :: 0 <= j < i ==> !NameMatches(rs[j], key)
  {
    if rs == [] then 0
    else if NameMatches(rs[0], key) then 0
    else 1 + FindMatch(rs[1..], key)
  }

  /** The three fields a matching planning entry overwrites. */
  function Enrich(r: Resource, p: PlanningEntry): Resource {
    r.(hourlyRate := Some(p.hourlyRate), vendor := Some(p.vendor), role := Some(p.role))
  }

  /** The resource appended for a planning entry nobody matched, at 0-based
      position `n`. The company is inferred from the vendor. */
  function FromPlanning(p: PlanningEntry, n: nat): Resource {
    Resource(
      id := ResourceId(n + 1),
      name := p.name,
      technology := ["Salesforce"],
      company := if p.vendor == "Infosys" then "Infosys" else "CapGemini",
      location := p.location,
      businessUnit := p.functionalTeam,
      currentProject := p.project,
      endDate := "2026-12-31",
      startDate := "2026-01-01",
      sowBilledUnder := p.project,
      skills := ["Salesforce", p.role],
      role := Some(p.role),
      vendor := Some(p.vendor),
      hourlyRate := Some(p.hourlyRate),
      status := Active)
  }

  /** One step of the planning `forEach`. Either the first resource whose
      name matches is enriched and nothing else changes, or no resource
      matches and a new one is appended. */
  function MergeEntry(rs: seq<Resource>, p: PlanningEntry): (out: seq<Resource>)
    ensures |out| == |rs| || |out| == |rs| + 1
    ensures |out| == |rs| + 1 <==> forall j :: 0 <= j < |rs| ==> !NameMatches(rs[j], MatchKey(p.name))
    ensures |out| == |rs| + 1 ==> out == rs + [FromPlanning(p, |rs|)]
    ensures |out| == |rs| ==>
              exists j :: 0 <= j < |rs| && NameMatches(rs[j], MatchKey(p.name))
                && (forall i :: 0 <= i < j ==> !NameMatches(rs[i], MatchKey(p.name)))
                && out == rs[j := Enrich(rs[j], p)]
  {
    var i := FindMatch(rs, MatchKey(p.name));
    if i < |rs| then rs[i := Enrich(rs[i], p)] else rs + [FromPlanning(p, |rs|)]
  }

  /** The planning entries merged in order into `rs`. */
  function MergeAll(rs: seq<Resource>, planning: seq<PlanningEntry>): seq<Resource> {
    if planning == [] then rs
    else MergeEntry(MergeAll(rs, planning[..|planning| - 1]), planning[|planning| - 1])
  }

  /** What getResources returns. */
  function Resources(roster: seq<RosterEntry>, planning: seq<PlanningEntry>): seq<Resource> {
    MergeAll(MaterializeRoster(roster), planning)
  }

  /** getResources, step by step: the roster is materialised, then every
      planning entry either patches the found resource in place or is
      pushed as a new one. */
  method GetResources(roster: seq<RosterEntry>, planning: seq<PlanningEntry>) returns (resources: seq<Resource>)
    ensures resources == Resources(roster, planning)
    ensures |roster| <= |resources| <= |roster| + |planning|
    ensures forall i :: 0 <= i < |resources| ==> resources[i].id == ResourceId(i + 1)
  {
    resources := MaterializeRoster(roster);
    var i := 0;
    while i < |planning|
      invariant 0 <= i <= |planning|
      invariant resources == MergeAll(MaterializeRoster(roster), planning[..i])
    {
      assert planning[..i + 1][..i] == planning[..i];
      assert MergeAll(MaterializeRoster(roster), planning[..i + 1])
          == MergeEntry(MergeAll(MaterializeRoster(roster), planning[..i]), planning[i]);
      resources := MergePlanningEntry(resources, planning[i]);
      i := i + 1;
    }
    assert planning[..|planning|] == planning;
    ResourceIdsPositional(roster, planning);
    ResourcesLength(roster, planning);
  }

  /** The callback of the planning `forEach` for one entry: patch the first
      resource whose name matches, or push a new one. */
  method MergePlanningEntry(resources: seq<Resource>, entry: PlanningEntry) returns (out: seq<Resource>)
    ensures out == MergeEntry(resources, entry)
  {
    out := resources;
    var found := FindMatch(out, MatchKey(entry.name));
    if found < |out| {
      var existing := out[found];
      existing := existing.(hourlyRate := Some(entry.hourlyRate));
      existing := existing.(vendor := Some(entry.vendor));
      existing := existing.(role := Some(entry.role));
      out := out[found := existing];
    } else {
      out := out + [FromPlanning(entry, |out|)];
    }
  }

  // --------------------------------------------------------------- lemmas

  /** Every resource sits at the position its id names. */
  ghost predicate PositionalIds(rs: seq<Resource>) {
    forall i :: 0 <= i < |rs| ==> rs[i].id == ResourceId(i + 1)
  }

  lemma {:induction false} MergeAllKeepsPositionalIds(rs: seq<Resource>, planning: seq<PlanningEntry>)
    requires PositionalIds(rs)
    ensures PositionalIds(MergeAll(rs, planning))
  {
    if planning != [] {
      MergeAllKeepsPositionalIds(rs, planning[..|planning| - 1]);
      MergeEntryKeepsPositionalIds(MergeAll(rs, planning[..|planning| - 1]), planning[|planning| - 1]);
    }
  }

  /** One merge step keeps the ids positional: an enriched resource keeps
      its id, an appended one takes the next number. */
  lemma MergeEntryKeepsPositionalIds(rs: seq<Resource>, p: PlanningEntry)
    requires PositionalIds(rs)
    ensures PositionalIds(MergeEntry(rs, p))
  {
    var i := FindMatch(rs, MatchKey(p.name));
    if i < |rs| {
      assert MergeEntry(rs, p) == rs[i := Enrich(rs[i], p)];
    } else {
      assert MergeEntry(rs, p) == rs + [FromPlanning(p, |rs|)];
    }
  }

  /** Ids stay `resource-1 .. resource-k` in position order: a roster
      resource keeps its id when enriched, and an appended resource takes
      the next number. */
  lemma ResourceIdsPositional(roster: seq<RosterEntry>, planning: seq<PlanningEntry>)
    ensures forall i :: 0 <= i < |Resources(roster, planning)| ==>
              Resources(roster, planning)[i].id == ResourceId(i + 1)
  {
    MergeAllKeepsPositionalIds(MaterializeRoster(roster), planning);
  }

  /** No two resources share an id. */
  lemma ResourceIdsUnique(roster: seq<RosterEntry>, planning: seq<PlanningEntry>, i: nat, j: nat)
    requires i < j < |Resources(roster, planning)|
    ensures Resources(roster, planning)[i].id != Resources(roster, planning)[j].id
  {
    ResourceIdsPositional(roster, planning);
    if Resources(roster, planning)[i].id == Resources(roster, planning)[j].id {
      ResourceIdInjective(i + 1, j + 1);
    }
  }

  /** Does planning entry `p` find no resource among `rs`? */
  predicate Unmatched(rs: seq<Resource>, p: PlanningEntry) {
    FindMatch(rs, MatchKey(p.name)) == |rs|
  }

  /** How many planning entries found no match in the resources merged so
      far (earlier appended resources included). */
  function UnmatchedCount(rs: seq<Resource>, planning: seq<PlanningEntry>): nat {
    if planning == [] then 0
    else
      var prefix := planning[..|planning| - 1];
      UnmatchedCount(rs, prefix)
        + (if Unmatched(MergeAll(rs, prefix), planning[|planning| - 1]) then 1 else 0)
  }

  lemma {:induction false} MergeAllLength(rs: seq<Resource>, planning: seq<PlanningEntry>)
    ensures |MergeAll(rs, planning)| == |rs| + UnmatchedCount(rs, planning)
    ensures UnmatchedCount(rs, planning) <= |planning|
  {
    if planning != [] {
      MergeAllLength(rs, planning[..|planning| - 1]);
    }
  }

  /** The result holds the roster plus one resource per unmatched planning
      entry. */
  lemma ResourcesLength(roster: seq<RosterEntry>, planning: seq<PlanningEntry>)
    ensures |Resources(roster, planning)| == |roster| + UnmatchedCount(MaterializeRoster(roster), planning)
    ensures |roster| <= |Resources(roster, planning)| <= |roster| + |planning|
  {
    MergeAllLength(MaterializeRoster(roster), planning);
  }

  /** A resource with its planning-derived fields cleared. */
  function Unenriched(r: Resource): Resource {
    r.(hourlyRate := None, vendor := None, role := None)
  }

  lemma {:induction false} MergeAllKeepsPrefix(rs: seq<Resource>, planning: seq<PlanningEntry>)
    ensures |rs| <= |MergeAll(rs, planning)|
    ensures forall i :: 0 <= i < |rs| ==> Unenriched(MergeAll(rs, planning)[i]) == Unenriched(rs[i])
  {
    if planning != [] {
      MergeAllKeepsPrefix(rs, planning[..|planning| - 1]);
    }
  }

  /** The first |roster| resources are the roster rows in order: merging
      changes at most their rate, vendor and role. */
  lemma RosterResources(roster: seq<RosterEntry>, planning: seq<PlanningEntry>, i: nat)
    requires i < |roster|
    ensures i < |Resources(roster, planning)|
    ensures Unenriched(Resources(roster, planning)[i]) == FromRoster(roster[i], i)
  {
    MergeAllKeepsPrefix(MaterializeRoster(roster), planning);
  }

  /** The defaults of a roster resource: "Unassigned" without a tied
      project, "N/A" without a billing SOW, and "ended" exactly when the end
      date is the literal "ENDED". */
  lemma RosterDefaults(roster: seq<RosterEntry>, planning: seq<PlanningEntry>, i: nat)
    requires i < |roster|
    ensures i < |Resources(roster, planning)|
    ensures var r := Resources(roster, planning)[i];
      && r.id == ResourceId(i + 1)
      && r.name == roster[i].name
      && (roster[i].projectTiedTo == None ==> r.currentProject == "Unassigned")
      && (roster[i].sowBilledUnder == None ==> r.sowBilledUnder == "N/A")
      && (r.status == Ended <==> roster[i].endDate == "ENDED")
      && (r.status != Ended ==> r.status == Active)
  {
    RosterResources(roster, planning, i);
  }

  /** Rate, vendor and role are set together and always from one planning
      entry: a resource either has none of them or carries all three of
      some entry. */
  ghost predicate EnrichedFrom(r: Resource, planning: seq<PlanningEntry>) {
    || (r.hourlyRate == None && r.vendor == None && r.role == None)
    || exists p :: p in planning && r.hourlyRate == Some(p.hourlyRate)
                 && r.vendor == Some(p.vendor) && r.role == Some(p.role)
  }

  lemma {:induction false} MergeAllEnrichment(rs: seq<Resource>, planning: seq<PlanningEntry>)
    requires forall r :: r in rs ==> r.hourlyRate == None && r.vendor == None && r.role == None
    ensures forall r :: r in MergeAll(rs, planning) ==> EnrichedFrom(r, planning)
  {
    if planning != [] {
      var prefix, p := planning[..|planning| - 1], planning[|planning| - 1];
      MergeAllEnrichment(rs, prefix);
      var before := MergeAll(rs, prefix);
      forall r | r in MergeAll(rs, planning)
        ensures EnrichedFrom(r, planning)
      {
        assert p in planning;
        if r in before {
          assert EnrichedFrom(r, prefix);
          if r.hourlyRate != None || r.vendor != None || r.role != None {
            var q :| q in prefix && r.hourlyRate == Some(q.hourlyRate)
                     && r.vendor == Some(q.vendor) && r.role == Some(q.role);
            assert q in planning;
          }
        }
      }
    }
  }

  /** Every resource of getResources is either untouched by the planning
      roster or carries the rate, vendor and role of one planning entry. */
  lemma ResourcesEnrichment(roster: seq<RosterEntry>, planning: seq<PlanningEntry>)
    ensures forall r :: r in Resources(roster, planning) ==> EnrichedFrom(r, planning)
  {
    MergeAllEnrichment(MaterializeRoster(roster), planning);
  }

  /** The match runs one way: the planning entry's first token must occur in
      the resource's name. "Vinod Kumar Yadav" does not merge into a
      resource named "Yadav", although that name is one of its tokens. */
  lemma FirstTokenMatchesOneWay(rs: seq<Resource>, p: PlanningEntry)
    requires p.name == "Vinod Kumar Yadav"
    requires forall r :: r in rs ==> r.name == "Yadav"
    ensures MergeEntry(rs, p) == rs + [FromPlanning(p, |rs|)]
  {
    VinodKey();
    YadavLacksVinod();
    forall j | 0 <= j < |rs|
      ensures !NameMatches(rs[j], MatchKey(p.name))
    {
      assert rs[j] in rs;
    }
  }

  lemma VinodKey()
    ensures MatchKey("Vinod Kumar Yadav") == "vinod"
  {
    FirstTokenUnique("Vinod Kumar Yadav", "Vinod");
    var r := ToLower("Vinod");
    assert r[0] == LowerChar('V') == 'v';
    assert r == "vinod";
  }

  lemma YadavLacksVinod()
    ensures !Contains(ToLower("Yadav"), "vinod")
  {
    var s := ToLower("Yadav");
    assert s == "yadav";
    assert s[0] != "vinod"[0];
    ContainsNeedsRoom(s[1..], "vinod");
  }
}
