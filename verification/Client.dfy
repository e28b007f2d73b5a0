/** The client's polls and lookups on the attach surfaces. */
module Client {
  import opened Base
  import opened Infra
  import opened ClusterApi
  import opened Filters

  method GetDataVolume(c: Cluster, cfg: Config, name: string) returns (r: Result<DataVolume>, ghost did: seq<Label>)
    requires c.Valid()
    modifies c
    ensures c.Valid() && c.tick == old(c.tick) + 1
    ensures did == c.Before(old(c.tick)) && c.Grew(old(c.now), old(c.trail), did)
    ensures var got := ReadOf(c.now.dvs, name, c.plan(old(c.tick)).fate);
            r == if got.Ok? && !Owned(cfg, name, got.value.labels) then Err(Other) else got
    ensures r.Ok? ==> cfg.prefix <= name && forall k :: k in cfg.labels ==> Lookup(r.value.labels, k) == cfg.labels[k]
  {
    r, did := c.GetDv(name);
    if r.Ok? {
      var ours := ContainsLabels(r.value.labels, cfg.labels);
      if !ours || !(cfg.prefix <= name) {
        r := Err(Other);
      }
    }
  }

  method GetVolumeSnapshot(c: Cluster, cfg: Config, name: string) returns (r: Result<Snapshot>, ghost did: seq<Label>)
    requires c.Valid()
    modifies c
    ensures c.Valid() && c.tick == old(c.tick) + 1
    ensures did == c.Before(old(c.tick)) && c.Grew(old(c.now), old(c.trail), did)
    ensures var got := ReadOf(c.now.snaps, name, c.plan(old(c.tick)).fate);
            r == if got.Ok? && !Matches(got.value.labels, cfg.labels) then Err(Other) else got
    ensures r.Ok? ==> forall k :: k in cfg.labels ==> Lookup(r.value.labels, k) == cfg.labels[k]
  {
    r, did := c.GetSnap(name);
    if r.Ok? {
      var ours := ContainsLabels(r.value.labels, cfg.labels);
      if !ours {
        r := Err(Other);
      }
    }
  }

  method EnsureVolumeAvailableVm(c: Cluster, vm: string, vol: string) returns (r: Result<bool>, ghost did: seq<Label>)
    requires c.Valid()
    modifies c
    ensures c.Valid() && c.tick == old(c.tick) + 1
    ensures did == c.Before(old(c.tick)) && c.Grew(old(c.now), old(c.trail), did)
    ensures r == if c.plan(old(c.tick)).fate.Succeeds? then Ok(SpecBacks(c.now, vm, vol)) else Err(Other)
  {
    var got;
    got, did := c.GetVm(vm);
    if got.Err? {
      return if got.kind == NotFound then Ok(false) else Err(got.kind), did;
    }
    for i := 0 to |got.value|
      invariant forall j :: 0 <= j < i ==> !(got.value[j].Backed() && got.value[j].name == vol)
    {
      if got.value[i].pvc || got.value[i].dv.Some? {
        if got.value[i].name == vol {
          return Ok(true), did;
        }
      }
    }
    r := Ok(false);
  }

  method EnsureVolumeRemovedVm(c: Cluster, vm: string, vol: string) returns (r: Result<bool>, ghost did: seq<Label>)
    requires c.Valid()
    modifies c
    ensures c.Valid() && c.tick == old(c.tick) + 1
    ensures did == c.Before(old(c.tick)) && c.Grew(old(c.now), old(c.trail), did)
    ensures r == if c.plan(old(c.tick)).fate.Succeeds? then Ok(!SpecBacks(c.now, vm, vol)) else Err(Other)
  {
    var got;
    got, did := c.GetVm(vm);
    if got.Err? {
      return if got.kind == NotFound then Ok(true) else Err(got.kind), did;
    }
    for i := 0 to |got.value|
      invariant forall j :: 0 <= j < i ==> !(got.value[j].Backed() && got.value[j].name == vol)
    {
      if got.value[i].pvc || got.value[i].dv.Some? {
        if got.value[i].name == vol {
          return Ok(false), did;
        }
      }
    }
    r := Ok(true);
  }

  method EnsureVolumeRemovedVmi(c: Cluster, vm: string, vol: string) returns (r: Result<bool>, ghost did: seq<Label>)
    requires c.Valid()
    modifies c
    ensures c.Valid() && c.tick == old(c.tick) + 1
    ensures did == c.Before(old(c.tick)) && c.Grew(old(c.now), old(c.trail), did)
    ensures r == if c.plan(old(c.tick)).fate.Succeeds? then Ok(!StatusHot(c.now, vm, vol)) else Err(Other)
  {
    var got;
    got, did := c.GetVmi(vm);
    if got.Err? {
      return if got.kind == NotFound then Ok(true) else Err(got.kind), did;
    }
    for i := 0 to |got.value|
      invariant forall j :: 0 <= j < i ==> !(got.value[j].hotplug && got.value[j].name == vol)
    {
      if got.value[i].hotplug {
        if got.value[i].name == vol {
          return Ok(false), did;
        }
      }
    }
    r := Ok(true);
  }
}
