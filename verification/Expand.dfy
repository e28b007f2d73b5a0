/** ControllerExpandVolume: raise a claim's request and wait for its volume to follow. */
module Expand {
  import opened Base
  import opened Infra
  import opened ClusterApi
  import opened Filters

  method GetPersistentVolumeClaim(c: Cluster, cfg: Config, name: string)
    returns (r: Result<Claim>, ghost did: seq<Label>)
    requires c.Valid()
    modifies c
    ensures c.Valid() && c.tick == old(c.tick) + 1
    ensures did == c.Before(old(c.tick)) && c.Grew(old(c.now), old(c.trail), did)
    ensures var got := ReadOf(c.now.claims, name, c.plan(old(c.tick)).fate);
            r == if got.Ok? && !Owned(cfg, name, got.value.labels) then Err(Other) else got
  {
    r, did := c.GetClaim(name);
    if r.Ok? {
      var ours := ContainsLabels(r.value.labels, cfg.labels);
      if !ours || !(cfg.prefix <= name) {
        r := Err(Other);
      }
    }
  }

  /** Nobody else writes the claim. */
  predicate NoClaimEdits(run: seq<Label>, name: string) {
    forall l :: l in run && l.Env? ==> !(l.act.OtherClaim? && l.act.name == name)
  }

  lemma {:induction false} ClaimStays(s: Infra, run: seq<Label>, name: string)
    requires AllEnv(run) && NoClaimEdits(run, name) && name in s.claims
    ensures name in Replay(s, run).claims && Replay(s, run).claims[name] == s.claims[name]
  {
    if run != [] {
      assert run == run[..|run| - 1] + [run[|run| - 1]];
      ClaimStays(s, run[..|run| - 1], name);
    }
  }

  lemma {:induction false} NoClaimStays(s: Infra, run: seq<Label>, name: string)
    requires AllEnv(run) && NoClaimEdits(run, name) && name !in s.claims
    ensures name !in Replay(s, run).claims
  {
    if run != [] {
      assert run == run[..|run| - 1] + [run[|run| - 1]];
      NoClaimStays(s, run[..|run| - 1], name);
    }
  }

  lemma Patched(s: Infra, name: string, bytes: int)
    requires name in s.claims
    ensures var s' := Apply(s, ClaimPatched(name, bytes));
            name in s'.claims && s'.claims[name] == s.claims[name].(request := bytes)
  {
  }

  function Max(a: int, b: int): int {
    if a < b then b else a
  }

  /** With nobody else writing the claim it stays there, and its request is the old one or
      the larger of the old and the desired one. */
  ghost predicate Raises(s: Infra, s': Infra, name: string, desired: int, done: bool) {
    name in s.claims ==>
      && name in s'.claims
      && (|| s'.claims[name].request == Max(s.claims[name].request, desired)
          || (!done && s'.claims[name] == s.claims[name]))
      && s'.claims[name] == s.claims[name].(request := s'.claims[name].request)
  }

  method ExpandPersistentVolumeClaim(c: Cluster, cfg: Config, name: string, desired: int)
    returns (r: Result<()>, ghost did: seq<Label>)
    requires c.Valid()
    modifies c
    ensures c.Valid() && c.Grew(old(c.now), old(c.trail), did) && c.tick >= old(c.tick)
    ensures forall l :: l in did ==> l.Env? || l == ClaimPatched(name, desired)
    ensures FaultFree(c, old(c.tick)) && NoClaimEdits(did, name) && name !in old(c.now).claims ==> r == Err(NotFound)
    ensures NoClaimEdits(did, name) ==> Raises(old(c.now), c.now, name, desired, r.Ok?)
    ensures r.Ok? && NoClaimEdits(did, name) && name in old(c.now).claims ==>
            Owned(cfg, name, old(c.now).claims[name].labels)
    ensures FaultFree(c, old(c.tick)) && NoClaimEdits(did, name) && Expandable(old(c.now), cfg, name) ==> r.Ok?
  {
    hide Apply, Replay, Cluster.Planned, Owned;
    ghost var s, d := c.now, [];
    var claim;
    claim, did := GetPersistentVolumeClaim(c, cfg, name);
    if NoClaimEdits(did, name) && name in s.claims { ClaimStays(s, did, name); }
    if NoClaimEdits(did, name) && name !in s.claims { NoClaimStays(s, did, name); }
    if claim.Err? {
      return Err(claim.kind), did;
    }
    if claim.value.request >= desired {
      return Ok(()), did;
    }
    ghost var s1, env := c.now, c.Before(c.tick);
    r, d := c.PatchClaim(name, desired);
    c.Chain(s, old(c.trail), did, d);
    if NoClaimEdits(d, name) && name in s1.claims {
      assert NoClaimEdits(env, name);
      ClaimStays(s1, env, name);
      if d != env {
        ReplaySnoc(s1, env, ClaimPatched(name, desired));
        Patched(Replay(s1, env), name, desired);
      }
    }
    did := did + d;
  }

  /** The claim's volume has at least that capacity. */
  ghost predicate HasCapacity(s: Infra, name: string, bytes: int) {
    name in s.claims && s.claims[name].pv in s.pvs && s.pvs[s.claims[name].pv] >= bytes
  }

  /** The claim is the driver's and bound to a volume. */
  ghost predicate Expandable(s: Infra, cfg: Config, name: string) {
    name in s.claims && Owned(cfg, name, s.claims[name].labels) && s.claims[name].pv in s.pvs
  }

  lemma {:induction false} PvStays(s: Infra, run: seq<Label>, pv: string)
    requires pv in s.pvs
    ensures pv in Replay(s, run).pvs
  {
    if run != [] {
      assert run == run[..|run| - 1] + [run[|run| - 1]];
      PvStays(s, run[..|run| - 1], pv);
    }
  }

  /** Polls the claim's volume until its capacity covers the request. */
  method EnsureControllerResize(c: Cluster, cfg: Config, name: string) returns (r: Result<()>, ghost did: seq<Label>)
    requires c.Valid()
    modifies c
    ensures c.Valid() && AllEnv(did) && c.Grew(old(c.now), old(c.trail), did)
    ensures r.Ok? && NoClaimEdits(did, name) && name in old(c.now).claims ==>
            HasCapacity(c.now, name, old(c.now).claims[name].request)
    ensures FaultFree(c, old(c.tick)) && NoClaimEdits(did, name) && Expandable(old(c.now), cfg, name) ==>
            (r.Ok? <==> HasCapacity(c.now, name, old(c.now).claims[name].request))
  {
    hide Apply, Replay, Cluster.Planned;
    ghost var s, d := c.now, [];
    var claim;
    claim, did := GetPersistentVolumeClaim(c, cfg, name);
    if NoClaimEdits(did, name) && name in s.claims { ClaimStays(s, did, name); }
    if claim.Err? {
      return Err(claim.kind), did;
    }
    var i := 0;
    while i < c.polls
      invariant c.Valid() && AllEnv(did) && c.Grew(s, old(c.trail), did) && c.tick >= old(c.tick)
      invariant NoClaimEdits(did, name) && name in s.claims ==> claim == Ok(s.claims[name])
      invariant i > 0 && NoClaimEdits(did, name) && name in s.claims ==> !HasCapacity(c.now, name, claim.value.request)
    {
      var pv;
      pv, d := c.GetPv(claim.value.pv);
      c.Chain(s, old(c.trail), did, d);
      did := did + d;
      if name in s.claims && s.claims[name].pv in s.pvs { PvStays(s, did, s.claims[name].pv); }
      if NoClaimEdits(did, name) && name in s.claims { ClaimStays(s, did, name); }
      if pv.Err? {
        return Err(Other), did;
      }
      if pv.value >= claim.value.request {
        return Ok(()), did;
      }
      i := i + 1;
    }
    r := Err(Timeout);
  }

  /** The requested bytes, and whether the node must grow the file system too. */
  datatype Expanded = Expanded(capacity: int, nodeExpansion: bool)

  method ControllerExpandVolume(c: Cluster, cfg: Config, name: string, size: int, isBlock: bool)
    returns (r: Result<Expanded>, ghost did: seq<Label>)
    requires c.Valid()
    modifies c
    ensures c.Valid() && c.Grew(old(c.now), old(c.trail), did)
    ensures forall l :: l in did ==> l.Env? || l == ClaimPatched(name, size)
    ensures r.Ok? ==> r.value == Expanded(size, !isBlock)
    ensures name == "" ==> r == Err(InvalidArgument) && did == []
    ensures name != "" && FaultFree(c, old(c.tick)) && NoClaimEdits(did, name) && name !in old(c.now).claims ==>
            r == Err(NotFound)
    ensures NoClaimEdits(did, name) ==> Raises(old(c.now), c.now, name, size, r.Ok?)
    ensures r.Ok? && NoClaimEdits(did, name) && name in old(c.now).claims ==>
            HasCapacity(c.now, name, c.now.claims[name].request) && c.now.claims[name].request >= size
    ensures name != "" && FaultFree(c, old(c.tick)) && NoClaimEdits(did, name) && Expandable(old(c.now), cfg, name) ==>
            (r.Ok? <==> name in c.now.claims && HasCapacity(c.now, name, c.now.claims[name].request))
  {
    hide Apply, Replay, Cluster.Planned;
    c.Unmoved();
    did := [];
    if name == "" {
      return Err(InvalidArgument), did;
    }
    var step;
    step, did := ExpandPersistentVolumeClaim(c, cfg, name, size);
    if step.Err? {
      return Err(if step.kind == NotFound then NotFound else Other), did;
    }
    ghost var s1, d := c.now, [];
    step, d := EnsureControllerResize(c, cfg, name);
    c.Chain(old(c.now), old(c.trail), did, d);
    ghost var a := did;
    did := did + d;
    if NoClaimEdits(did, name) && name in s1.claims {
      assert NoClaimEdits(a, name) && NoClaimEdits(d, name);
      ClaimStays(s1, d, name);
    }
    if name in old(c.now).claims && old(c.now).claims[name].pv in old(c.now).pvs {
      PvStays(old(c.now), a, old(c.now).claims[name].pv);
    }
    if step.Err? {
      return Err(step.kind), did;
    }
    r := Ok(Expanded(size, !isBlock));
  }

  /** The largest of the initial request and the sizes. */
  function MaxOf(initial: int, sizes: seq<int>): (m: int)
    ensures m >= initial && forall size :: size in sizes ==> m >= size
    ensures m == initial || m in sizes
  {
    if sizes == [] then initial
    else
      assert sizes == sizes[..|sizes| - 1] + [sizes[|sizes| - 1]];
      Max(MaxOf(initial, sizes[..|sizes| - 1]), sizes[|sizes| - 1])
  }

  /** EXPANSION IS A RUNNING MAXIMUM. Over any serial expands, with nobody else writing the
      claim, its request never shrinks and never exceeds the largest size asked for; if all
      succeed it is exactly the maximum of the initial and requested sizes, and the volume
      was seen to have at least that capacity. */
  method RunExpands(c: Cluster, cfg: Config, name: string, sizes: seq<int>) returns (allOk: bool, ghost did: seq<Label>)
    requires c.Valid() && name in c.now.claims
    modifies c
    ensures c.Valid() && c.Grew(old(c.now), old(c.trail), did)
    ensures NoClaimEdits(did, name) ==>
            name in c.now.claims &&
            var initial := old(c.now).claims[name].request;
            && initial <= c.now.claims[name].request <= MaxOf(initial, sizes)
            && (allOk ==> c.now.claims[name].request == MaxOf(initial, sizes))
            && (allOk && sizes != [] ==> HasCapacity(c.now, name, c.now.claims[name].request))
  {
    hide Apply, Replay, Cluster.Planned;
    c.Unmoved();
    did, allOk := [], true;
    ghost var initial := c.now.claims[name].request;
    for i := 0 to |sizes|
      invariant c.Valid() && c.Grew(old(c.now), old(c.trail), did)
      invariant NoClaimEdits(did, name) ==>
                  && name in c.now.claims
                  && initial <= c.now.claims[name].request <= MaxOf(initial, sizes[..i])
                  && (allOk ==> c.now.claims[name].request == MaxOf(initial, sizes[..i]))
                  && (allOk && i > 0 ==> HasCapacity(c.now, name, c.now.claims[name].request))
    {
      assert sizes[..i + 1][..i] == sizes[..i];
      ghost var d;
      var r;
      r, d := ControllerExpandVolume(c, cfg, name, sizes[i], false);
      c.Chain(old(c.now), old(c.trail), did, d);
      did := did + d;
      allOk := allOk && r.Ok?;
    }
    assert sizes[..|sizes|] == sizes;
  }
}
