/** Which snapshot class a snapshot of a claim gets: the cached mapping from storage classes
    to snapshot classes, and the resolution rule over it. */
module Mapping {
  import opened Base
  import opened Filters

  const INFRA_SNAPSHOT_CLASS_PARAMETER := "infraSnapshotClassName"

  /** A VolumeSnapshotClass of the tenant cluster. */
  datatype TenantClass = TenantClass(name: string, parameters: map<string, string>)

  datatype InfraTenant = InfraTenant(infra: string, tenant: string)

  /** One group of the built mapping. */
  datatype Entry = Entry(snapshotClasses: seq<InfraTenant>, storageClasses: seq<string>)

  predicate PointsTo(t: TenantClass, infra: string) {
    "infraSnapshotClassName" in t.parameters && t.parameters["infraSnapshotClassName"] == infra
  }

  /** The name of the first tenant class pointing to `infra`, or empty. */
  function FirstTenant(tenants: seq<TenantClass>, infra: string): string {
    if tenants == [] then ""
    else if PointsTo(tenants[0], infra) then tenants[0].name
    else FirstTenant(tenants[1..], infra)
  }

  lemma {:induction false} FirstTenantIs(tenants: seq<TenantClass>, infra: string, k: nat)
    requires k <= |tenants| && forall j :: 0 <= j < k ==> !PointsTo(tenants[j], infra)
    ensures k < |tenants| && PointsTo(tenants[k], infra) ==> FirstTenant(tenants, infra) == tenants[k].name
    ensures k == |tenants| ==> FirstTenant(tenants, infra) == ""
  {
    if k > 0 {
      FirstTenantIs(tenants[1..], infra, k - 1);
    }
  }

  function Paired(infraClasses: seq<string>, tenants: seq<TenantClass>): (r: seq<InfraTenant>)
    ensures |r| == |infraClasses|
    ensures forall i :: 0 <= i < |r| ==> r[i] == InfraTenant(infraClasses[i], FirstTenant(tenants, infraClasses[i]))
  {
    if infraClasses == [] then []
    else [InfraTenant(infraClasses[0], FirstTenant(tenants, infraClasses[0]))] + Paired(infraClasses[1..], tenants)
  }

  /** appendVolumeSnapshotInfraTenantMapping. */
  method AppendMapping(infraClasses: seq<string>, tenants: seq<TenantClass>) returns (r: seq<InfraTenant>)
    ensures r == Paired(infraClasses, tenants)
  {
    r := [];
    for i := 0 to |infraClasses|
      invariant |r| == i
      invariant forall j :: 0 <= j < i ==> r[j] == InfraTenant(infraClasses[j], FirstTenant(tenants, infraClasses[j]))
    {
      var tenant := "";
      var k := 0;
      while k < |tenants|
        invariant 0 <= k <= |tenants| && tenant == ""
        invariant forall j :: 0 <= j < k ==> !PointsTo(tenants[j], infraClasses[i])
      {
        if INFRA_SNAPSHOT_CLASS_PARAMETER in tenants[k].parameters {
          if tenants[k].parameters[INFRA_SNAPSHOT_CLASS_PARAMETER] == infraClasses[i] {
            tenant := tenants[k].name;
            break;
          }
        }
        k := k + 1;
      }
      FirstTenantIs(tenants, infraClasses[i], k);
      r := r + [InfraTenant(infraClasses[i], tenant)];
    }
  }

  /** The mapping that the configured groups and the tenant's classes call for. */
  function Built(groups: seq<Group>, tenants: seq<TenantClass>): (r: seq<Entry>)
    ensures |r| == |groups|
    ensures forall i :: 0 <= i < |r| ==>
              r[i] == Entry(Paired(groups[i].snapshotClasses, tenants), groups[i].storageClasses)
  {
    if groups == [] then []
    else [Entry(Paired(groups[0].snapshotClasses, tenants), groups[0].storageClasses)] + Built(groups[1..], tenants)
  }

  /** buildStorageClassSnapshotClassMapping; `list` is the tenant API's answer. */
  method BuildMapping(groups: seq<Group>, list: Result<seq<TenantClass>>) returns (r: Result<seq<Entry>>)
    ensures r == if list.Ok? then Ok(Built(groups, list.value)) else Err(list.kind)
  {
    if list.Err? {
      return Err(list.kind);
    }
    var mapping := [];
    for i := 0 to |groups|
      invariant |mapping| == i
      invariant forall j :: 0 <= j < i ==>
                  mapping[j] == Entry(Paired(groups[j].snapshotClasses, list.value), groups[j].storageClasses)
    {
      var classes := AppendMapping(groups[i].snapshotClasses, list.value);
      mapping := mapping + [Entry(classes, groups[i].storageClasses)];
    }
    assert mapping == Built(groups, list.value);
    r := Ok(mapping);
  }

  // ----- Looking a storage class up -----

  function Infras(pairs: seq<InfraTenant>): (r: seq<string>)
    ensures |r| == |pairs| && forall i :: 0 <= i < |r| ==> r[i] == pairs[i].infra
  {
    if pairs == [] then [] else [pairs[0].infra] + Infras(pairs[1..])
  }

  /** The pairs of the first entry with that storage class; none if there is no such entry. */
  function FirstEntry(mapping: seq<Entry>, storageClass: string): seq<InfraTenant> {
    if mapping == [] then []
    else if storageClass in mapping[0].storageClasses then mapping[0].snapshotClasses
    else FirstEntry(mapping[1..], storageClass)
  }

  /** What the configuration alone says: the snapshot classes of the first group with that
      storage class. */
  function Configured(groups: seq<Group>, storageClass: string): seq<string> {
    if groups == [] then []
    else if storageClass in groups[0].storageClasses then groups[0].snapshotClasses
    else Configured(groups[1..], storageClass)
  }

  lemma {:induction false} FirstEntryIs(mapping: seq<Entry>, storageClass: string, k: nat)
    requires k <= |mapping| && forall j :: 0 <= j < k ==> storageClass !in mapping[j].storageClasses
    ensures k < |mapping| && storageClass in mapping[k].storageClasses ==>
            FirstEntry(mapping, storageClass) == mapping[k].snapshotClasses
    ensures k == |mapping| ==> FirstEntry(mapping, storageClass) == []
  {
    if k > 0 {
      FirstEntryIs(mapping[1..], storageClass, k - 1);
    }
  }

  /** It is the first group's, and nothing if there is none. */
  lemma {:induction false} ConfiguredIs(groups: seq<Group>, storageClass: string, k: nat)
    requires k <= |groups| && forall j :: 0 <= j < k ==> storageClass !in groups[j].storageClasses
    ensures k < |groups| && storageClass in groups[k].storageClasses ==>
            Configured(groups, storageClass) == groups[k].snapshotClasses
    ensures k == |groups| ==> Configured(groups, storageClass) == []
  {
    if k > 0 {
      ConfiguredIs(groups[1..], storageClass, k - 1);
    }
  }

  /** The mapping refines the configuration: whatever classes the tenant has, its infra
      lookup is the configured one, and each tenant name is the first match or empty. */
  lemma {:induction false} LookupRefinesConfig(groups: seq<Group>, tenants: seq<TenantClass>, storageClass: string)
    ensures var pairs := FirstEntry(Built(groups, tenants), storageClass);
            && Infras(pairs) == Configured(groups, storageClass)
            && pairs == Paired(Configured(groups, storageClass), tenants)
  {
    if groups != [] {
      assert Built(groups, tenants)[1..] == Built(groups[1..], tenants);
      LookupRefinesConfig(groups[1..], tenants, storageClass);
    }
  }

  /** The nested loops of the two class lookups. */
  method LookUpClass(mapping: seq<Entry>, storageClass: string) returns (r: seq<InfraTenant>)
    ensures r == FirstEntry(mapping, storageClass)
  {
    for i := 0 to |mapping|
      invariant forall j :: 0 <= j < i ==> storageClass !in mapping[j].storageClasses
    {
      for k := 0 to |mapping[i].storageClasses|
        invariant forall j :: 0 <= j < k ==> mapping[i].storageClasses[j] != storageClass
      {
        if mapping[i].storageClasses[k] == storageClass {
          FirstEntryIs(mapping, storageClass, i);
          return mapping[i].snapshotClasses;
        }
      }
    }
    FirstEntryIs(mapping, storageClass, |mapping|);
    return [];
  }

  // ----- The cache -----

  class MappingCache {
    const groups: seq<Group>
    var mapping: seq<Entry>
    var populated: bool

    /** A populated cache holds what some answer of the tenant API called for. */
    ghost predicate Valid()
      reads this
    {
      populated ==> exists tenants :: mapping == Built(groups, tenants)
    }

    constructor (groups: seq<Group>)
      ensures Valid() && this.groups == groups && !populated
    {
      this.groups, mapping, populated := groups, [], false;
    }

    /** getStorageSnapshotMapping, under its lock; `list` is what the tenant API would
        answer now. */
    method Get(list: Result<seq<TenantClass>>) returns (r: Result<seq<Entry>>)
      requires Valid()
      modifies this
      ensures Valid() && populated == (old(populated) || list.Ok?)
      ensures old(populated) ==> mapping == old(mapping)
      ensures !old(populated) && list.Ok? ==> mapping == Built(groups, list.value)
      ensures r == if populated then Ok(mapping) else Err(list.kind)
    {
      if !populated {
        var built := BuildMapping(groups, list);
        if built.Err? {
          return Err(built.kind);
        }
        mapping, populated := built.value, true;
      }
      r := Ok(mapping);
    }
  }

  /** Any order of callers, any failed loads: up to the first good load each caller gets its
      own error; from then on all get the mapping of that load. */
  method RunCallers(cache: MappingCache, lists: seq<Result<seq<TenantClass>>>)
    returns (seen: seq<Result<seq<Entry>>>, ghost first: nat)
    requires cache.Valid() && !cache.populated
    modifies cache
    ensures |seen| == |lists| && first <= |lists|
    ensures forall i :: 0 <= i < first ==> lists[i].Err? && seen[i] == Err(lists[i].kind)
    ensures forall i :: first <= i < |lists| ==>
              lists[first].Ok? && seen[i] == Ok(Built(cache.groups, lists[first].value))
  {
    seen, first := [], 0;
    for i := 0 to |lists|
      invariant cache.Valid() && |seen| == i && first <= i
      invariant cache.populated <==> first < i
      invariant cache.populated ==> lists[first].Ok? && cache.mapping == Built(cache.groups, lists[first].value)
      invariant forall k :: 0 <= k < first ==> lists[k].Err? && seen[k] == Err(lists[k].kind)
      invariant forall k :: first <= k < i ==> seen[k] == Ok(cache.mapping)
    {
      var r := cache.Get(lists[i]);
      seen := seen + [r];
      if !cache.populated { first := i + 1; }
    }
  }

  // ----- Resolution -----

  /** The claim was read, no default is allowed, and its storage class is permitted. */
  predicate MustMap(e: Enforcement, claim: Result<Option<string>>) {
    && claim.Ok? && !e.allowDefault
    && claim.value.Some? && claim.value.value != ""
    && (claim.value.value in e.allowList || e.allowAll)
  }

  /** Some class, possibly the infra default, can be settled on. */
  predicate Resolvable(e: Enforcement, claim: Result<Option<string>>, mapped: bool, requested: string) {
    claim.Ok? && (e.allowDefault ||
      (MustMap(e, claim) && mapped && (requested in Configured(e.groups, claim.value.value) || e.allowAll)))
  }

  /** getSnapshotClassNameFromVolumeClaimName, exactly: `claim` is the claim's storage class
      as read, `list` what the tenant API would answer. The requested class comes back iff it
      belongs to the first group of a permitted storage class; the empty class iff defaults
      are allowed, or all is allowed and the request is not in the group, or the request
      is itself empty and in the group; anything else is an error. */
  method ResolveSnapshotClass(e: Enforcement, cache: MappingCache, claim: Result<Option<string>>,
                              list: Result<seq<TenantClass>>, requested: string) returns (r: Result<string>)
    requires cache.Valid() && cache.groups == e.groups
    modifies cache
    ensures cache.Valid()
    ensures var classes := if MustMap(e, claim) then Configured(e.groups, claim.value.value) else [];
            var mapped := MustMap(e, claim) && (old(cache.populated) || list.Ok?);
            && (r.Ok? && r.value != "" <==> requested != "" && mapped && requested in classes)
            && (r.Ok? && r.value != "" ==> r.value == requested)
            && (r == Ok("") <==>
                  || (claim.Ok? && e.allowDefault)
                  || (mapped && (if requested in classes then requested == "" else e.allowAll)))
    ensures r.Ok? <==> Resolvable(e, claim, old(cache.populated) || list.Ok?, requested)
  {
    if claim.Err? {
      return Err(Other);
    }
    var storageClass := if claim.value.Some? then claim.value.value else "";
    if e.allowDefault {
      return Ok("");
    }
    if storageClass == "" {
      return Err(Other);
    } else if storageClass !in e.allowList && !e.allowAll {
      return Err(Other);
    }
    var mapping := cache.Get(list);
    if mapping.Err? {
      return Err(mapping.kind);
    }
    var pairs := LookUpClass(mapping.value, storageClass);
    ghost var tenants :| cache.mapping == Built(cache.groups, tenants);
    LookupRefinesConfig(e.groups, tenants, storageClass);
    var infras := Infras(pairs);
    if requested in infras {
      return Ok(requested);
    }
    if !e.allowAll && !e.allowDefault {
      return Err(Other);
    }
    r := Ok("");
  }
}
