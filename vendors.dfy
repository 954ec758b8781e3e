/** getVendors: the distinct vendors of the planning roster, in order of
    first appearance, each with the number of planning rows naming it. */
module Vendors {
  import opened Basics
  import opened Dict
  import opened Types

  /** `vendor-${name}`. */
  function VendorId(name: string): string {
    "vendor-" + name
  }

  /** The record created the first time a vendor is seen; it takes the
      location of that planning row. */
  function NewVendor(p: PlanningEntry): Vendor {
    Vendor(VendorId(p.vendor), p.vendor, p.location, 0)
  }

  /** One step of the `forEach`: register the vendor if new, then count the
      row against it. */
  function VendorStep(d: Dict<Vendor>, p: PlanningEntry): Dict<Vendor> {
    var seen := if Get(d, p.vendor).None? then Put(d, p.vendor, NewVendor(p)) else d;
    var v := Get(seen, p.vendor).value;
    Put(seen, p.vendor, Bump(v))
  }

  /** The `uniqueVendors` map after the given rows. */
  function VendorMap(planning: seq<PlanningEntry>): Dict<Vendor> {
    if planning == [] then []
    else VendorStep(VendorMap(planning[..|planning| - 1]), planning[|planning| - 1])
  }

  /** What getVendors returns: `Array.from(uniqueVendors.values())`. */
  function Vendors(planning: seq<PlanningEntry>): seq<Vendor> {
    Values(VendorMap(planning))
  }

  /** The vendor column of the planning roster. */
  function VendorNames(planning: seq<PlanningEntry>): (names: seq<string>)
    ensures |names| == |planning|
    ensures forall i :: 0 <= i < |planning| ==> names[i] == planning[i].vendor
  {
    seq(|planning|, i requires 0 <= i < |planning| => planning[i].vendor)
  }

  /** Row `i` is the first planning row with vendor `k`. */
  ghost predicate FirstRowOf(planning: seq<PlanningEntry>, k: string, i: nat) {
    && i < |planning|
    && planning[i].vendor == k
    && forall j :: 0 <= j < i ==> planning[j].vendor != k
  }

  /** The record getVendors holds for vendor `k`: id `vendor-k`, name `k`,
      one count per row naming `k`, and the location of the first row
      naming `k`. */
  ghost predicate VendorOf(v: Vendor, planning: seq<PlanningEntry>, k: string) {
    VendorCounted(v, planning, k) && VendorLocated(v, planning, k)
  }

  ghost predicate VendorCounted(v: Vendor, planning: seq<PlanningEntry>, k: string) {
    && v.id == VendorId(k)
    && v.name == k
    && v.resourceCount == Count(VendorNames(planning), k)
  }

  ghost predicate VendorLocated(v: Vendor, planning: seq<PlanningEntry>, k: string) {
    exists i: nat :: FirstRowOf(planning, k, i) && v.location == planning[i].location
  }

  /** One more count for a vendor. */
  function Bump(v: Vendor): Vendor {
    v.(resourceCount := v.resourceCount + 1)
  }

  /** Registering and counting one row: only that row's vendor changes;
      it is created with a count of one or has its count raised by one. */
  lemma VendorStepEffect(d: Dict<Vendor>, p: PlanningEntry, k: string)
    ensures Keys(VendorStep(d, p)) == AddKey(Keys(d), p.vendor)
    ensures Get(VendorStep(d, p), k) ==
              if k != p.vendor then Get(d, k)
              else if Get(d, k).Some? then Some(Bump(Get(d, k).value))
              else Some(Bump(NewVendor(p)))
  {
    var seen := if Get(d, p.vendor).None? then Put(d, p.vendor, NewVendor(p)) else d;
    assert Keys(seen) == AddKey(Keys(d), p.vendor);
    GetPut(d, p.vendor, NewVendor(p), k);
    GetPut(seen, p.vendor, Bump(Get(seen, p.vendor).value), k);
  }

  lemma VendorNamesPrefix(planning: seq<PlanningEntry>)
    requires planning != []
    ensures VendorNames(planning) == VendorNames(planning[..|planning| - 1]) + [planning[|planning| - 1].vendor]
  {
  }

  /** The vendor map has one key per distinct vendor, in order of first
      appearance. */
  lemma {:induction false} VendorMapKeys(planning: seq<PlanningEntry>)
    ensures Keys(VendorMap(planning)) == Dedup(VendorNames(planning))
  {
    if planning != [] {
      var prefix := planning[..|planning| - 1];
      VendorMapKeys(prefix);
      VendorNamesPrefix(planning);
      VendorStepEffect(VendorMap(prefix), planning[|planning| - 1], "");
      assert VendorNames(planning)[..|planning| - 1] == VendorNames(prefix);
    }
  }

  lemma CountNamesStep(planning: seq<PlanningEntry>, k: string)
    requires planning != []
    ensures Count(VendorNames(planning), k)
         == Count(VendorNames(planning[..|planning| - 1]), k) + (if planning[|planning| - 1].vendor == k then 1 else 0)
  {
    VendorNamesPrefix(planning);
    assert VendorNames(planning)[..|planning| - 1] == VendorNames(planning[..|planning| - 1]);
  }

  /** The first row naming `k` stays the first when rows are appended. */
  lemma FirstRowExtends(planning: seq<PlanningEntry>, k: string, i: nat)
    requires planning != []
    requires FirstRowOf(planning[..|planning| - 1], k, i)
    ensures FirstRowOf(planning, k, i)
  {
  }

  /** Each vendor of the roster holds its record in the vendor map. */
  lemma {:induction false} VendorMapEntry(planning: seq<PlanningEntry>, k: string)
    requires k in VendorNames(planning)
    ensures Get(VendorMap(planning), k).Some?
    ensures VendorOf(Get(VendorMap(planning), k).value, planning, k)
  {
    var prefix := planning[..|planning| - 1];
    VendorNamesPrefix(planning);
    if k in VendorNames(prefix) {
      VendorMapEntry(prefix, k);
      SeenVendorStep(planning, k);
    } else {
      NewVendorStep(planning, k);
    }
  }

  /** A vendor already seen keeps its record, with one more count when the
      new row names it. */
  lemma SeenVendorStep(planning: seq<PlanningEntry>, k: string)
    requires planning != []
    requires var prefix := planning[..|planning| - 1];
      && Get(VendorMap(prefix), k).Some?
      && VendorOf(Get(VendorMap(prefix), k).value, prefix, k)
    ensures Get(VendorMap(planning), k).Some?
    ensures VendorOf(Get(VendorMap(planning), k).value, planning, k)
  {
    SeenVendorCount(planning, k);
    SeenVendorLocation(planning, k);
  }

  lemma SeenVendorCount(planning: seq<PlanningEntry>, k: string)
    requires planning != []
    requires var prefix := planning[..|planning| - 1];
      && Get(VendorMap(prefix), k).Some?
      && VendorCounted(Get(VendorMap(prefix), k).value, prefix, k)
    ensures Get(VendorMap(planning), k).Some?
    ensures VendorCounted(Get(VendorMap(planning), k).value, planning, k)
  {
    var n := |planning|;
    var prefix, p := planning[..n - 1], planning[n - 1];
    var d := VendorMap(prefix);
    assert VendorMap(planning) == VendorStep(d, p);
    VendorStepEffect(d, p, k);
    CountNamesStep(planning, k);
  }

  lemma SeenVendorLocation(planning: seq<PlanningEntry>, k: string)
    requires planning != []
    requires var prefix := planning[..|planning| - 1];
      && Get(VendorMap(prefix), k).Some?
      && VendorLocated(Get(VendorMap(prefix), k).value, prefix, k)
    ensures Get(VendorMap(planning), k).Some?
    ensures VendorLocated(Get(VendorMap(planning), k).value, planning, k)
  {
    var n := |planning|;
    var prefix, p := planning[..n - 1], planning[n - 1];
    var d := VendorMap(prefix);
    assert VendorMap(planning) == VendorStep(d, p);
    VendorStepEffect(d, p, k);
    var old_ := Get(d, k).value;
    var i: nat :| FirstRowOf(prefix, k, i) && old_.location == prefix[i].location;
    FirstRowExtends(planning, k, i);
    assert prefix[i] == planning[i];
  }

  /** A vendor first named by the last row gets a fresh record with that
      row's location and a count of one. */
  lemma NewVendorStep(planning: seq<PlanningEntry>, k: string)
    requires k in VendorNames(planning)
    requires k !in VendorNames(planning[..|planning| - 1])
    ensures Get(VendorMap(planning), k).Some?
    ensures Get(VendorMap(planning), k).value.id == VendorId(k)
    ensures Get(VendorMap(planning), k).value.name == k
    ensures Get(VendorMap(planning), k).value.resourceCount == Count(VendorNames(planning), k)
    ensures exists i: nat :: FirstRowOf(planning, k, i) && Get(VendorMap(planning), k).value.location == planning[i].location
  {
    var n := |planning|;
    NewVendorEntry(planning, k);
    NewVendorCount(planning, k);
    NewVendorFirstRow(planning, k);
    var v := Get(VendorMap(planning), k).value;
    assert v == Bump(NewVendor(planning[n - 1]));
    assert FirstRowOf(planning, k, n - 1) && v.location == planning[n - 1].location;
  }

  /** The row that first names a vendor is the last row of the roster. */
  lemma NewVendorIsLast(planning: seq<PlanningEntry>, k: string)
    requires k in VendorNames(planning)
    requires k !in VendorNames(planning[..|planning| - 1])
    ensures planning != [] && planning[|planning| - 1].vendor == k
  {
    VendorNamesPrefix(planning);
  }

  /** The vendor first named by the last row is created by it. */
  lemma NewVendorEntry(planning: seq<PlanningEntry>, k: string)
    requires k in VendorNames(planning)
    requires k !in VendorNames(planning[..|planning| - 1])
    ensures planning != []
    ensures Get(VendorMap(planning), k) == Some(Bump(NewVendor(planning[|planning| - 1])))
  {
    NewVendorIsLast(planning, k);
    var prefix, p := planning[..|planning| - 1], planning[|planning| - 1];
    var d := VendorMap(prefix);
    assert VendorMap(planning) == VendorStep(d, p);
    VendorMapKeys(prefix);
    assert Get(d, k).None?;
    VendorStepEffect(d, p, k);
  }

  /** ... which names it once. */
  lemma NewVendorCount(planning: seq<PlanningEntry>, k: string)
    requires k in VendorNames(planning)
    requires k !in VendorNames(planning[..|planning| - 1])
    ensures Count(VendorNames(planning), k) == 1
  {
    NewVendorIsLast(planning, k);
    CountNamesStep(planning, k);
    CountPositive(VendorNames(planning[..|planning| - 1]), k);
  }

  /** ... and is its first row. */
  lemma NewVendorFirstRow(planning: seq<PlanningEntry>, k: string)
    requires k in VendorNames(planning)
    requires k !in VendorNames(planning[..|planning| - 1])
    ensures FirstRowOf(planning, k, |planning| - 1)
  {
    NewVendorIsLast(planning, k);
    var n := |planning|;
    var prefix := planning[..n - 1];
    forall j | 0 <= j < n - 1
      ensures planning[j].vendor != k
    {
      assert VendorNames(prefix)[j] == planning[j].vendor;
    }
  }

  /** getVendors lists each distinct vendor once, in order of first
      appearance, with its id, the location of its first row and the number
      of rows naming it. */
  lemma VendorsContents(planning: seq<PlanningEntry>)
    ensures |Vendors(planning)| == |Dedup(VendorNames(planning))|
    ensures forall i :: 0 <= i < |Vendors(planning)| ==>
              VendorOf(Vendors(planning)[i], planning, Dedup(VendorNames(planning))[i])
  {
    var d := VendorMap(planning);
    VendorMapKeys(planning);
    forall i | 0 <= i < |d|
      ensures VendorOf(Vendors(planning)[i], planning, Dedup(VendorNames(planning))[i])
    {
      GetAt(d, i);
      assert Keys(d)[i] in Dedup(VendorNames(planning));
      VendorMapEntry(planning, Keys(d)[i]);
    }
  }

  /** getVendors, step by step over the planning rows. */
  method GetVendors(planning: seq<PlanningEntry>) returns (vendors: seq<Vendor>)
    ensures vendors == Vendors(planning)
    ensures |vendors| == |Dedup(VendorNames(planning))|
    ensures forall i :: 0 <= i < |vendors| ==>
              VendorOf(vendors[i], planning, Dedup(VendorNames(planning))[i])
  {
    var uniqueVendors := CountVendors(planning);
    vendors := Values(uniqueVendors);
    VendorsContents(planning);
  }

  /** The `forEach` of getVendors over the planning rows. */
  method CountVendors(planning: seq<PlanningEntry>) returns (uniqueVendors: Dict<Vendor>)
    ensures uniqueVendors == VendorMap(planning)
  {
    uniqueVendors := [];
    var i := 0;
    while i < |planning|
      invariant 0 <= i <= |planning|
      invariant uniqueVendors == VendorMap(planning[..i])
    {
      assert planning[..i + 1][..i] == planning[..i];
      uniqueVendors := CountVendor(uniqueVendors, planning[i]);
      i := i + 1;
    }
    assert planning[..|planning|] == planning;
  }

  /** The `forEach` callback: register the row's vendor if it is new, then
      raise its count. */
  method CountVendor(uniqueVendors: Dict<Vendor>, item: PlanningEntry) returns (out: Dict<Vendor>)
    ensures out == VendorStep(uniqueVendors, item)
  {
    out := uniqueVendors;
    if Get(out, item.vendor).None? {
      out := Put(out, item.vendor, NewVendor(item));
    }
    ghost var seen := out;
    var vendor := Get(out, item.vendor).value;
    vendor := vendor.(resourceCount := vendor.resourceCount + 1);
    assert vendor == Bump(Get(seen, item.vendor).value);
    out := Put(out, item.vendor, vendor);
  }
}
