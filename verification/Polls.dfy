/** The client's bounded polls: read until the surfaces have converged. */
module Polls {
  import opened Base
  import opened Infra
  import opened ClusterApi
  import opened Steady
  import opened Surfaces
  import opened Client

  /** Polls the VMI status for a ready entry, then the spec. With a calm environment that
      syncs within `lag` turns, and a poll longer than that, it succeeds; a pending unplug
      costs one lag more. */
  method EnsureVolumeAvailable(c: Cluster, vm: string, vol: string, ghost lag: nat)
    returns (r: Result<()>, ghost did: seq<Label>)
    requires c.Valid()
    modifies c
    ensures c.Valid() && AllEnv(did) && c.Grew(old(c.now), old(c.trail), did) && c.tick >= old(c.tick)
    ensures r.Ok? ==> SawReady(old(c.now), did, vm, vol) && SpecBacks(c.now, vm, vol)
    ensures r.Err? ==> r.kind != FailedPrecondition
    ensures AttachInTime(c, old(c.tick), lag, old(c.now), vm, vol) && Desired(old(c.now), vm, vol) ==> r.Ok?
  {
    hide Apply, Replay, Cluster.Planned, CalmTurn;
    c.Unmoved();
    did := [];
    ghost var hope := AttachInTime(c, c.tick, lag, c.now, vm, vol) && Desired(c.now, vm, vol);
    ghost var u: nat, a: nat, b: nat := 0, 0, 0;
    if hope { u, a, b := Schedule(c, c.tick, lag, c.now, vm, vol); }
    var i := 0;
    while i < c.polls
      invariant c.Valid() && AllEnv(did) && c.Grew(old(c.now), old(c.trail), did) && c.tick >= old(c.tick)
      invariant hope ==> c.tick >= old(c.tick) + i && Coming(c.now, c.tick, u, a, b, vm, vol)
      invariant hope ==> old(c.tick) + i <= b + 1
    {
      ghost var s, t, n := c.now, c.trail, c.tick;
      var got, d := c.GetVmi(vm);
      c.Chain(old(c.now), old(c.trail), did, d);
      did := did + d;
      ghost var s1 := c.now;
      if hope { OnTurn(c, n, s, vm, vol, u, a, b); }
      if got.Err? {
        return Err(got.kind), did;
      }
      var ready := HasReady(got.value, vol);
      if ready {
        var there;
        n := c.tick;
        ghost var seen := did;
        ReadyNow(old(c.now), seen, vm, vol);
        there, d := EnsureVolumeAvailableVm(c, vm, vol);
        c.Chain(old(c.now), old(c.trail), did, d);
        did := did + d;
        SawReadyExtends(old(c.now), seen, d, vm, vol);
        if hope { OnTurn(c, n, s1, vm, vol, u, a, b); }
        if there.Err? {
          return Err(there.kind), did;
        }
        if there.value {
          return Ok(()), did;
        }
      }
      i := i + 1;
    }
    r := Err(Timeout);
  }

  /** The turns of a pending unplug (before `u`), of the sync (`a`) and of the ready mark (`b`). */
  ghost predicate Rounds(c: Cluster, from: nat, u: nat, a: nat, b: nat, vm: string, vol: string) {
    && from <= u <= a < b && (u == from || Occurs(c.plan, u - 1, SyncDetach(vm, vol)))
    && Occurs(c.plan, a, SyncAttach(vm, vol)) && Occurs(c.plan, b, MarkReady(vm, vol))
  }

  lemma Schedule(c: Cluster, from: nat, lag: nat, s: Infra, vm: string, vol: string) returns (u: nat, a: nat, b: nat)
    requires AttachInTime(c, from, lag, s, vm, vol)
    ensures Rounds(c, from, u, a, b, vm, vol) && b + 1 < from + c.polls
    ensures u == from ==> NoneLeaving(s, vm, vol)
  {
    u := from;
    if !NoneLeaving(s, vm, vol) {
      assert DetachRound(c.plan, from, lag, vm, vol);
      var x: nat :| from <= x < from + lag && Occurs(c.plan, x, SyncDetach(vm, vol));
      u := x + 1;
    }
    assert AttachRound(c.plan, u, lag, vm, vol);
    a, b :| u <= a < b < u + lag && Occurs(c.plan, a, SyncAttach(vm, vol)) && Occurs(c.plan, b, MarkReady(vm, vol));
  }

  /** How far the volume has come before turn `n`. */
  predicate Coming(s: Infra, n: nat, u: nat, a: nat, b: nat, vm: string, vol: string) {
    && Desired(s, vm, vol) && (n >= u ==> NoneLeaving(s, vm, vol))
    && (n > a ==> StatusNames(s, vm, vol)) && (n > b ==> StatusReady(s, vm, vol))
  }

  method HasReady(status: seq<StatusVolume>, vol: string) returns (r: bool)
    ensures r <==> exists e :: e in status && e.name == vol && e.ready
  {
    for i := 0 to |status|
      invariant forall j :: 0 <= j < i ==> !(status[j].name == vol && status[j].ready)
    {
      if status[i].name == vol && status[i].ready {
        return true;
      }
    }
    return false;
  }

  /** What turn `n` of a calm plan does for a desired volume. */
  lemma OnTurn(c: Cluster, n: nat, s: Infra, vm: string, vol: string, u: nat, a: nat, b: nat)
    requires CalmTurn(c.plan(n), vm, vol) && Coming(s, n, u, a, b, vm, vol) && u <= a < b
    requires Occurs(c.plan, a, SyncAttach(vm, vol)) && Occurs(c.plan, b, MarkReady(vm, vol))
    requires n + 1 == u ==> Occurs(c.plan, n, SyncDetach(vm, vol))
    ensures c.plan(n).fate.Succeeds? && Coming(Replay(s, c.Before(n)), n + 1, u, a, b, vm, vol)
  {
    hide Apply, Replay;
    CalmBefore(c, n, vm, vol);
    DesiredRun(s, c.Before(n), vm, vol);
    if n + 1 == u { OccursBefore(c, n, SyncDetach(vm, vol)); }
    if n >= u { PluggingRun(s, c.Before(n), vm, vol); }
    if n == a { OccursBefore(c, n, SyncAttach(vm, vol)); }
    if n == b { OccursBefore(c, n, MarkReady(vm, vol)); }
  }

  /** Polls until the VMI (if there is one) reports no entry and the spec backs none. */
  method EnsureVolumeRemoved(c: Cluster, vm: string, vol: string, ghost lag: nat)
    returns (r: Result<()>, ghost did: seq<Label>)
    requires c.Valid()
    modifies c
    ensures r != Err(Panic)
    ensures c.Valid() && AllEnv(did) && c.Grew(old(c.now), old(c.trail), did) && c.tick >= old(c.tick)
    ensures r.Ok? ==> Saw(OnSpec, old(c.now), did, vm, vol) && Saw(OnStatus, old(c.now), did, vm, vol)
    ensures r.Ok? ==> !SpecBacks(c.now, vm, vol)
    ensures DetachConverges(c, old(c.tick), lag, vm, vol) && Released(old(c.now), vm, vol) ==> r.Ok?
  {
    hide Apply, Replay, Cluster.Planned, CalmTurn, Saw, Released;
    c.Unmoved();
    did := [];
    ghost var hope := DetachConverges(c, c.tick, lag, vm, vol) && Released(c.now, vm, vol);
    ghost var a: nat := 0;
    if hope {
      assert DetachRound(c.plan, c.tick, lag, vm, vol);
      a :| c.tick <= a < c.tick + lag && Occurs(c.plan, a, SyncDetach(vm, vol));
    }
    var i := 0;
    while i < c.polls
      invariant c.Valid() && AllEnv(did) && c.Grew(old(c.now), old(c.trail), did) && c.tick >= old(c.tick)
      invariant hope ==> i <= lag && c.tick >= old(c.tick) + i && Released(c.now, vm, vol)
      invariant hope && c.tick > a ==> !StatusNames(c.now, vm, vol)
    {
      ghost var s, n := c.now, c.tick;
      var got, d := c.GetVmi(vm);
      c.Chain(old(c.now), old(c.trail), did, d);
      did := did + d;
      if hope { OffTurn(c, n, s, vm, vol, a); }
      if got.Err? && got.kind != NotFound {
        return Err(got.kind), did;
      }
      var reported := false;
      if got.Ok? {
        reported := HasEntry(got.value, vol);
      }
      if !reported {
        SawNow(OnStatus, old(c.now), did, vm, vol);
        ghost var seen := did;
        var gone;
        s, n := c.now, c.tick;
        gone, d := EnsureVolumeRemovedVm(c, vm, vol);
        c.Chain(old(c.now), old(c.trail), did, d);
        did := did + d;
        if hope { OffTurn(c, n, s, vm, vol, a); }
        SawExtends(OnStatus, old(c.now), seen, d, vm, vol);
        if gone.Err? {
          return Err(gone.kind), did;
        }
        if gone.value {
          SawNow(OnSpec, old(c.now), did, vm, vol);
          return Ok(()), did;
        }
      }
      i := i + 1;
    }
    r := Err(Timeout);
  }

  method HasEntry(status: seq<StatusVolume>, vol: string) returns (r: bool)
    ensures r <==> Reports(status, vol)
  {
    for i := 0 to |status|
      invariant forall j :: 0 <= j < i ==> status[j].name != vol
    {
      if status[i].name == vol {
        return true;
      }
    }
    return false;
  }

  /** What turn `n` of a calm plan does for a released volume. */
  lemma OffTurn(c: Cluster, n: nat, s: Infra, vm: string, vol: string, a: nat)
    requires CalmTurn(c.plan(n), vm, vol) && Released(s, vm, vol)
    requires Occurs(c.plan, a, SyncDetach(vm, vol))
    requires n > a ==> !StatusNames(s, vm, vol)
    ensures c.plan(n).fate.Succeeds?
    ensures var s' := Replay(s, c.Before(n));
            && Released(s', vm, vol) && !SpecBacks(s', vm, vol)
            && (n + 1 > a ==> !StatusNames(s', vm, vol))
  {
    hide Apply, Replay, Cluster.Planned;
    CalmBefore(c, n, vm, vol);
    ReleasedRun(s, c.Before(n), vm, vol);
    if n == a { OccursBefore(c, n, SyncDetach(vm, vol)); }
  }
}
