/** ControllerUnpublishVolume: detach a DataVolume from a VM, or from a VMI that outlives
    its VM. */
module Detach {
  import opened Base
  import opened Infra
  import opened ClusterApi
  import opened Steady
  import opened Surfaces
  import opened Client
  import opened Polls
  import opened Attach
  import Codecs

  /** Everything an unpublish call may leave in a run. */
  predicate UnpublishSteps(did: seq<Label>, vm: string, vol: string) {
    forall l :: l in did ==> l.Env? || l == RemovedFromVm(vm, vol) || l == RemovedFromVmi(vm, vol)
  }

  /** The volume is on the machine only as hot-plugged disks, and what the VMI reports while
      the spec still asks for it is there because the spec asks. */
  predicate Removable(s: Infra, vm: string, vol: string) {
    && HotOnly(s, vm, vol)
    && (vm in s.vmis ==> forall e :: e in s.vmis[vm] && e.name == vol ==>
          e.hotplug && (SpecNames(s, vm, vol) ==> e.managed || e.leaving))
  }

  lemma RemovableStep(s: Infra, a: EnvAction, vm: string, vol: string)
    requires Removable(s, vm, vol) && !Disturbs(a, vm, vol)
    ensures Removable(Apply(s, Env(a)), vm, vol)
  {
    hide DvsAfter, SnapsAfter, ClaimsAfter, PvsAfter, SpecsAfter;
    CalmSpecStep(s, a, vm, vol);
    SpecStep(s, Env(a), vm, vol);
    match a
    case MarkReady(m, w) =>
    case SyncAttach(m, w) =>
    case SyncDetach(m, w) =>
    case _ =>
  }

  lemma {:induction false} RemovableRun(s: Infra, run: seq<Label>, vm: string, vol: string)
    requires Removable(s, vm, vol) && CalmRun(run, vm, vol)
    ensures Removable(Replay(s, run), vm, vol)
  {
    hide Apply;
    if run != [] {
      var front, last := run[..|run| - 1], run[|run| - 1];
      assert run == front + [last];
      assert last in run;
      RemovableRun(s, front, vm, vol);
      RemovableStep(Replay(s, front), last.act, vm, vol);
    }
  }

  /** All that a calm run means for a detach. */
  lemma CalmRunKeeps(s: Infra, run: seq<Label>, vm: string, vol: string)
    requires CalmRun(run, vm, vol)
    ensures var s' := Replay(s, run);
            && (Removable(s, vm, vol) ==> Removable(s', vm, vol)) && (Released(s, vm, vol) ==> Released(s', vm, vol))
            && (vm in s'.vms <==> vm in s.vms) && (vm in s'.vmis <==> vm in s.vmis)
            && (SpecHot(s', vm, vol) <==> SpecHot(s, vm, vol))
            && (SpecNames(s', vm, vol) <==> SpecNames(s, vm, vol))
            && (SpecBacks(s', vm, vol) <==> SpecBacks(s, vm, vol))
            && (!SpecHot(s, vm, vol) && !StatusHot(s, vm, vol) ==> !StatusHot(s', vm, vol))
  {
    hide Apply, Replay;
    CalmKeeps(s, run, vm, vol);
    if Removable(s, vm, vol) { RemovableRun(s, run, vm, vol); }
    if Released(s, vm, vol) { ReleasedRun(s, run, vm, vol); }
    if !SpecHot(s, vm, vol) { UnhotStays(s, run, vm, vol); }
  }

  lemma RemovedFromVmEffect(s: Infra, vm: string, vol: string)
    requires vm in s.vms
    ensures var s' := Apply(s, RemovedFromVm(vm, vol));
            && s' == s.(vms := s.vms[vm := Without(s.vms[vm], vol)]) && !SpecNames(s', vm, vol)
            && (Removable(s, vm, vol) && SpecNames(s, vm, vol) ==> Released(s', vm, vol))
            && (Removable(s, vm, vol) ==> Removable(s', vm, vol)) && !SpecHot(s', vm, vol)
  {
  }

  lemma RemovedFromVmiEffect(s: Infra, vm: string, vol: string)
    requires vm in s.vmis
    ensures var s' := Apply(s, RemovedFromVmi(vm, vol));
            && s'.vms == s.vms && (!SpecNames(s, vm, vol) ==> Released(s', vm, vol))
            && (Removable(s, vm, vol) && !SpecNames(s, vm, vol) ==> StillPlain(s, s', vm, vol))
  {
  }

  /** With no hot-plugged entry on either surface nothing is left to request. */
  lemma NothingHot(s: Infra, vm: string, vol: string)
    requires !StatusHot(s, vm, vol)
    ensures Removable(s, vm, vol) && !SpecNames(s, vm, vol) ==> Released(s, vm, vol)
  {
  }

  predicate Unbacked(s: Infra, vm: string, vol: string) {
    vm in s.vms && !SpecBacks(s, vm, vol)
  }

  /** How many calls an unpublish makes before it starts to remove. */
  function Looks(s: Infra, vm: string, vol: string): nat {
    if Unbacked(s, vm, vol) then 3 else 2
  }

  /** The first half of volumeStillAttached: does a VM that exists still back the volume? */
  method VmStillBacks(c: Cluster, vm: string, vol: string) returns (r: Result<bool>, ghost did: seq<Label>)
    requires c.Valid()
    modifies c
    ensures r != Err(Panic)
    ensures c.Valid() && c.Grew(old(c.now), old(c.trail), did) && c.tick >= old(c.tick) && AllEnv(did)
    ensures r.Ok? ==> r.value == SpecBacks(c.now, vm, vol)
    ensures CalmFor(c.plan, old(c.tick), 2, vm, vol) ==>
            && CalmRun(did, vm, vol) && r == Ok(SpecBacks(old(c.now), vm, vol))
            && c.tick == old(c.tick) + (if vm in old(c.now).vms then 2 else 1)
            && (vm !in old(c.now).vms ==> did == c.Before(old(c.tick)))
  {
    hide Apply, Replay, Cluster.Planned, Disturbs, SpecBacks, CalmTurn;
    ghost var s, n, calm := c.now, c.tick, CalmFor(c.plan, c.tick, 2, vm, vol);
    var machine;
    machine, did := c.GetVm(vm);
    if calm { CalmBefore(c, n, vm, vol); CalmRunKeeps(s, did, vm, vol); }
    NoVmNoBack(c.now, vm, vol);
    if machine.Err? {
      return if machine.kind == NotFound then Ok(false) else Err(machine.kind), did;
    }
    var removed;
    ghost var d;
    removed, d := EnsureVolumeRemovedVm(c, vm, vol);
    c.Chain(s, old(c.trail), did, d);
    did := did + d;
    if calm { CalmBefore(c, n + 1, vm, vol); CalmRunKeeps(s, did, vm, vol); }
    r := if removed.Err? then Err(removed.kind) else Ok(!removed.value);
  }

  lemma NoVmNoBack(s: Infra, vm: string, vol: string)
    ensures vm !in s.vms ==> !SpecBacks(s, vm, vol)
  {
  }

  lemma UnbackedUnhot(s: Infra, vm: string, vol: string)
    ensures !SpecBacks(s, vm, vol) ==> !SpecHot(s, vm, vol)
  {
  }

  /** volumeStillAttached. */
  method VolumeStillAttached(c: Cluster, vm: string, vol: string) returns (r: Result<bool>, ghost did: seq<Label>)
    requires c.Valid()
    modifies c
    ensures r != Err(Panic)
    ensures c.Valid() && c.Grew(old(c.now), old(c.trail), did) && c.tick >= old(c.tick) && AllEnv(did)
    ensures r == Ok(false) ==>
            && Saw(OnSpec, old(c.now), did, vm, vol) && Saw(OnStatus, old(c.now), did, vm, vol)
            && !StatusHot(c.now, vm, vol)
    ensures r == Ok(false) && HotOnly(old(c.now), vm, vol) && NoSpecGain(did, vm, vol) ==> !SpecNames(c.now, vm, vol)
    ensures CalmFor(c.plan, old(c.tick), Looks(old(c.now), vm, vol), vm, vol) ==>
            && r.Ok? && CalmRun(did, vm, vol) && c.tick == old(c.tick) + Looks(old(c.now), vm, vol)
            && (IsDetached(old(c.now), vm, vol) ==> r == Ok(false))
            && (vm !in old(c.now).vms ==>
                  did == c.Before(old(c.tick)) + c.Before(old(c.tick) + 1) && r == Ok(StatusHot(c.now, vm, vol)))
  {
    hide Apply, Replay, Cluster.Planned, Disturbs, Removable, Released, CalmTurn;
    hide SpecBacks, SpecHot, StatusHot, SpecNames, HotOnly, NoSpecGain, Saw;
    ghost var s, calm := c.now, CalmFor(c.plan, c.tick, Looks(c.now, vm, vol), vm, vol);
    r, did := VmStillBacks(c, vm, vol);
    if calm { CalmRunKeeps(s, did, vm, vol); }
    UnbackedUnhot(s, vm, vol);
    NoVmNoBack(s, vm, vol);
    if r.Err? || r.value {
      return;
    }
    ghost var seen, n, d := did, c.tick, [];
    var gone;
    gone, d := EnsureVolumeRemovedVmi(c, vm, vol);
    c.Chain(s, old(c.trail), seen, d);
    did := seen + d;
    if calm { CalmBefore(c, n, vm, vol); CalmRunKeeps(s, did, vm, vol); }
    if gone.Err? {
      return Err(gone.kind), did;
    }
    SpecThenStatus(s, seen, d, gone.value, vm, vol);
    r := Ok(!gone.value);
  }

  /** Spec seen clear first, status perhaps second. */
  lemma SpecThenStatus(s: Infra, a: seq<Label>, b: seq<Label>, gone: bool, vm: string, vol: string)
    requires !SpecBacks(Replay(s, a), vm, vol)
    requires gone <==> !StatusHot(Replay(s, a + b), vm, vol)
    ensures Saw(OnSpec, s, a + b, vm, vol) && (gone ==> Saw(OnStatus, s, a + b, vm, vol))
    ensures HotOnly(s, vm, vol) && NoSpecGain(a + b, vm, vol) ==> !SpecNames(Replay(s, a + b), vm, vol)
  {
    hide Apply, Replay;
    SawNow(OnSpec, s, a, vm, vol);
    SawExtends(OnSpec, s, a, b, vm, vol);
    if gone { SawNow(OnStatus, s, a + b, vm, vol); }
    if HotOnly(s, vm, vol) && NoSpecGain(a + b, vm, vol) {
      HotOnlyStays(s, a, vm, vol);
      ReplayConcat(s, a, b);
      UnnamedStays(Replay(s, a), b, vm, vol);
    }
  }

  /** One attempt of an unpublish, or all of them: when it succeeds, no hot-plugged entry left
      in the spec, and none at all if all were; and the exact spec when nobody else edits
      specs. */
  ghost predicate Removes(s: Infra, did: seq<Label>, ok: bool, vm: string, vol: string) {
    var s' := Replay(s, did);
    && (ok && NoSpecGain(did, vm, vol) ==> !SpecHot(s', vm, vol))
    && (ok && HotOnly(s, vm, vol) && NoSpecGain(did, vm, vol) ==> !SpecNames(s', vm, vol))
    && (SpecQuiet(did) ==>
          s'.vms == s.vms || (vm in s.vms && s'.vms == s.vms[vm := Without(s.vms[vm], vol)]))
  }

  lemma NamedIsHot(s: Infra, vm: string, vol: string)
    ensures Removable(s, vm, vol) ==> (SpecNames(s, vm, vol) <==> SpecHot(s, vm, vol))
  {
  }

  lemma NothingRemoved(s: Infra, vm: string, vol: string)
    ensures Removes(s, [], false, vm, vol)
  {
  }

  /** The hot-plug test of removeVolumeFromVm, which looks at every entry. */
  method HasHot(vols: seq<SpecVolume>, vol: string) returns (r: bool)
    ensures r <==> exists e :: e in vols && e.Hot() && e.name == vol
  {
    r := false;
    for i := 0 to |vols|
      invariant r <==> exists e :: e in vols[..i] && e.Hot() && e.name == vol
    {
      assert vols[..i + 1] == vols[..i] + [vols[i]];
      if vols[i].dv.Some? {
        if vols[i].dv.value.hotpluggable && vols[i].name == vol {
          r := true;
        }
      }
    }
    assert vols[..|vols|] == vols;
  }

  method HasHotStatus(status: seq<StatusVolume>, vol: string) returns (r: bool)
    ensures r <==> exists e :: e in status && e.hotplug && e.name == vol
  {
    r := false;
    for i := 0 to |status|
      invariant r <==> exists e :: e in status[..i] && e.hotplug && e.name == vol
    {
      assert status[..i + 1] == status[..i] + [status[i]];
      if status[i].hotplug && status[i].name == vol {
        r := true;
      }
    }
    assert status[..|status|] == status;
  }

  /** No label of the run but the environment's writes a VM spec. */
  predicate SpecUnwritten(run: seq<Label>) {
    forall l :: l in run ==> l.Env? || l.RemovedFromVmi?
  }

  lemma {:induction false} QuietUnwritten(s: Infra, run: seq<Label>)
    requires SpecUnwritten(run) && SpecQuiet(run)
    ensures Replay(s, run).vms == s.vms
  {
    if run != [] {
      assert run == run[..|run| - 1] + [run[|run| - 1]];
      QuietUnwritten(s, run[..|run| - 1]);
    }
  }

  /** Attempts that wrote no spec: fine if some read found no hot-plugged entry in it. */
  lemma RemovesUnwritten(s: Infra, a: seq<Label>, b: seq<Label>, ok: bool, vm: string, vol: string)
    requires ok ==> !SpecHot(Replay(s, a), vm, vol)
    requires SpecUnwritten(a + b)
    ensures Removes(s, a + b, ok, vm, vol)
  {
    hide Apply, Replay;
    ReplayConcat(s, a, b);
    if ok && NoSpecGain(a + b, vm, vol) {
      UnhotStays(Replay(s, a), b, vm, vol);
      if HotOnly(s, vm, vol) {
        HotOnlyStays(s, a, vm, vol);
        assert !SpecNames(Replay(s, a), vm, vol);
        UnnamedStays(Replay(s, a), b, vm, vol);
      }
    }
    if SpecQuiet(a + b) { QuietUnwritten(s, a + b); }
  }

  lemma RemovesWritten(s: Infra, env: seq<Label>, ok: bool, vm: string, vol: string)
    requires AllEnv(env) && vm in Replay(s, env).vms
    ensures Removes(s, env + [RemovedFromVm(vm, vol)], ok, vm, vol)
  {
    hide Apply, Replay;
    ReplaySnoc(s, env, RemovedFromVm(vm, vol));
    RemovedFromVmEffect(Replay(s, env), vm, vol);
    if SpecQuiet(env + [RemovedFromVm(vm, vol)]) {
      assert SpecQuiet(env);
      QuietSpecs(s, env);
    }
  }

  lemma WithoutTwice(vols: seq<SpecVolume>, vol: string)
    ensures Without(Without(vols, vol), vol) == Without(vols, vol)
  {
  }

  /** A failed attempt, then another one. */
  lemma RemovesAgain(s: Infra, a: seq<Label>, b: seq<Label>, ok: bool, vm: string, vol: string)
    requires Removes(s, a, false, vm, vol) && Removes(Replay(s, a), b, ok, vm, vol)
    ensures Removes(s, a + b, ok, vm, vol)
  {
    hide Apply, Replay;
    ReplayConcat(s, a, b);
    if ok && NoSpecGain(a + b, vm, vol) {
      assert NoSpecGain(a, vm, vol) && NoSpecGain(b, vm, vol);
      if HotOnly(s, vm, vol) { HotOnlyStays(s, a, vm, vol); }
    }
    if SpecQuiet(a + b) {
      assert SpecQuiet(a) && SpecQuiet(b);
      if vm in s.vms { WithoutTwice(s.vms[vm], vol); }
    }
  }

  // ----- The backoff -----

  /** Whether up to `left` removal attempts from turn `n` on may all fail; `hot` if the spec
      hot-plugs the volume. An attempt reads the VM and requests the removal there, or else
      reads the VMI and requests it there if the VMI still reports the hot-plug. */
  ghost predicate MayGiveUp(plan: nat -> Turn, n: nat, hot: bool, left: nat)
    decreases left
  {
    left == 0 ||
    if !plan(n).fate.Succeeds? then MayGiveUp(plan, n + 1, hot, left - 1)
    else if hot then !plan(n + 1).fate.Succeeds? && MayGiveUp(plan, n + 2, plan(n + 1).fate.FailsClean?, left - 1)
    else if !plan(n + 1).fate.Succeeds? then MayGiveUp(plan, n + 2, false, left - 1)
    else !plan(n + 2).fate.Succeeds? && MayGiveUp(plan, n + 3, false, left - 1)
  }

  /** Whether `end` may be the turn after the first attempt that succeeds. */
  ghost predicate MayEnd(plan: nat -> Turn, n: nat, hot: bool, left: nat, end: nat)
    decreases left
  {
    left > 0 &&
    if !plan(n).fate.Succeeds? then MayEnd(plan, n + 1, hot, left - 1, end)
    else if hot then
      if plan(n + 1).fate.Succeeds? then end == n + 2
      else MayEnd(plan, n + 2, plan(n + 1).fate.FailsClean?, left - 1, end)
    else if !plan(n + 1).fate.Succeeds? then MayEnd(plan, n + 2, false, left - 1, end)
    else end == n + 2 ||
         if plan(n + 2).fate.Succeeds? then end == n + 3 else MayEnd(plan, n + 3, false, left - 1, end)
  }

  lemma FirstThree(plan: nat -> Turn, n: nat, more: nat)
    ensures Faults(plan, n, 1 + more) == Fault(plan, n) + Faults(plan, n + 1, more)
    ensures Faults(plan, n, 2 + more) == Fault(plan, n) + Fault(plan, n + 1) + Faults(plan, n + 2, more)
    ensures Faults(plan, n, 3 + more)
         == Fault(plan, n) + Fault(plan, n + 1) + Fault(plan, n + 2) + Faults(plan, n + 3, more)
  {
    OneTurn(plan, n);
    OneTurn(plan, n + 1);
    OneTurn(plan, n + 2);
    FaultsConcat(plan, n, 1, more);
    FaultsConcat(plan, n, 1, 1 + more);
    FaultsConcat(plan, n, 1, 2 + more);
    FaultsConcat(plan, n + 1, 1, more);
    FaultsConcat(plan, n + 1, 1, 1 + more);
    FaultsConcat(plan, n + 2, 1, more);
  }

  ghost function Fault(plan: nat -> Turn, n: nat): nat {
    if plan(n).fate.Succeeds? then 0 else 1
  }

  lemma OneTurn(plan: nat -> Turn, n: nat)
    ensures Faults(plan, n, 1) == Fault(plan, n)
  {
    assert Faults(plan, n, 0) == 0;
  }

  lemma MoreFaults(plan: nat -> Turn, n: nat, a: nat, b: nat)
    requires a <= b
    ensures Faults(plan, n, a) <= Faults(plan, n, b)
  {
    FaultsConcat(plan, n, a, b - a);
  }

  /** Giving up takes as many failed calls as there are attempts, among the three each can
      make: fewer are survived. */
  lemma {:induction false} RemovalsTolerate(plan: nat -> Turn, n: nat, hot: bool, left: nat)
    ensures Faults(plan, n, 3 * left) < left ==> !MayGiveUp(plan, n, hot, left)
    decreases left
  {
    if left > 0 {
      var rest := 3 * (left - 1);
      FirstThree(plan, n, rest);
      MoreFaults(plan, n, 1 + rest, 3 + rest);
      MoreFaults(plan, n, 2 + rest, 3 + rest);
      RemovalsTolerate(plan, n + 1, hot, left - 1);
      RemovalsTolerate(plan, n + 2, false, left - 1);
      RemovalsTolerate(plan, n + 2, true, left - 1);
      RemovalsTolerate(plan, n + 3, false, left - 1);
    }
  }

  /** One attempt from turn `n` to `m` on an undisturbed machine, that did not panic. */
  ghost predicate Tried(plan: nat -> Turn, n: nat, m: nat, hot: bool, hot': bool, ok: bool) {
    if !plan(n).fate.Succeeds? then !ok && m == n + 1 && hot' == hot
    else if hot then m == n + 2 && ok == plan(n + 1).fate.Succeeds? && hot' == plan(n + 1).fate.FailsClean?
    else !hot' && TriedVmi(plan, n + 1, m, ok)
  }

  /** The part of it at the VMI: a read, and a request if the read calls for one. */
  ghost predicate TriedVmi(plan: nat -> Turn, n: nat, m: nat, ok: bool) {
    || (m == n + 1 && ok == plan(n).fate.Succeeds?)
    || (m == n + 2 && plan(n).fate.Succeeds? && ok == plan(n + 1).fate.Succeeds?)
  }

  /** How the backoff stands before turn `m`. */
  ghost predicate Removing(plan: nat -> Turn, n: nat, m: nat, hot: bool, hot': bool, left: nat) {
    && (MayGiveUp(plan, m, hot', left) ==> MayGiveUp(plan, n, hot, 5))
    && (forall end :: MayEnd(plan, m, hot', left, end) ==> MayEnd(plan, n, hot, 5, end))
  }

  lemma TriedAgain(plan: nat -> Turn, n: nat, m: nat, m': nat, hot: bool, hot': bool, hot'': bool, ok: bool, left: nat)
    requires Removing(plan, n, m, hot, hot', left) && left >= 1 && Tried(plan, m, m', hot', hot'', ok)
    ensures ok ==> MayEnd(plan, n, hot, 5, m')
    ensures !ok ==> Removing(plan, n, m', hot, hot'', left - 1)
  {
    if ok {
      assert MayEnd(plan, m, hot', left, m');
    } else {
      assert MayGiveUp(plan, m', hot'', left - 1) ==> MayGiveUp(plan, m, hot', left);
      forall end | MayEnd(plan, m', hot'', left - 1, end) ensures MayEnd(plan, n, hot, 5, end) {
        assert MayEnd(plan, m, hot', left, end);
      }
    }
  }

  /** removeVolumeFromVm's request at the VM. */
  method UnplugVm(c: Cluster, vm: string, vol: string) returns (r: Result<()>, ghost did: seq<Label>)
    requires c.Valid()
    modifies c
    ensures c.Valid() && c.Grew(old(c.now), old(c.trail), did) && c.tick == old(c.tick) + 1
    ensures r != Err(Panic)
    ensures UnpublishSteps(did, vm, vol) && Removes(old(c.now), did, r.Ok?, vm, vol)
    ensures var fate := c.plan(old(c.tick)).fate;
            Undisturbed(c.plan, old(c.tick), vm, vol)
            && Removable(old(c.now), vm, vol) && SpecHot(old(c.now), vm, vol) ==>
            && (r.Ok? <==> fate.Succeeds?) && (SpecHot(c.now, vm, vol) <==> fate.FailsClean?)
            && (r.Ok? ==> Released(c.now, vm, vol))
            && Removable(c.now, vm, vol) && (vm in c.now.vms <==> vm in old(c.now).vms)
    ensures Undisturbed(c.plan, old(c.tick), vm, vol) && vm in old(c.now).vms && r.Err? ==>
            Failed(c.plan, old(c.tick), c.tick, 1)
  {
    hide Apply, Replay, Cluster.Planned, Undisturbed, Failed, Disturbs, CalmRun, SameFor;
    hide Removes, Removable, Released, SpecNames;
    ghost var s, n, env := c.now, c.tick, c.Before(c.tick);
    r, did := c.RemoveVolumeFromVm(vm, vol);
    if Undisturbed(c.plan, n, vm, vol) {
      UndisturbedTurn(c, n, s, vm, vol);
      CalmRunKeeps(s, env, vm, vol);
      OneFault(c.plan, n, n);
      NamedIsHot(s, vm, vol);
    }
    if did == env {
      RemovesUnwritten(s, did, [], false, vm, vol);
      assert did + [] == did;
    } else {
      ReplaySnoc(s, env, RemovedFromVm(vm, vol));
      RemovedFromVmEffect(Replay(s, env), vm, vol);
      RemovesWritten(s, env, r.Ok?, vm, vol);
    }
  }

  /** removeVolumeFromVm's request at the VMI. */
  method RequestUnplug(c: Cluster, vm: string, vol: string) returns (r: Result<()>, ghost did: seq<Label>)
    requires c.Valid()
    modifies c
    ensures c.Valid() && c.Grew(old(c.now), old(c.trail), did) && c.tick == old(c.tick) + 1
    ensures r != Err(Panic)
    ensures UnpublishSteps(did, vm, vol) && SpecUnwritten(did)
    ensures Undisturbed(c.plan, old(c.tick), vm, vol) && Removable(old(c.now), vm, vol)
            && vm in old(c.now).vmis && !SpecNames(old(c.now), vm, vol) ==>
            && (r.Ok? <==> c.plan(old(c.tick)).fate.Succeeds?) && (r.Ok? ==> Released(c.now, vm, vol))
            && StillPlain(old(c.now), c.now, vm, vol)
    ensures Undisturbed(c.plan, old(c.tick), vm, vol) && vm in old(c.now).vmis && r.Err? ==>
            Failed(c.plan, old(c.tick), c.tick, 1)
  {
    hide Apply, Replay, Cluster.Planned, Undisturbed, Failed, CalmRun, SameFor;
    hide Removable, Released, SpecNames, SpecHot, StatusHot;
    ghost var s, n, env := c.now, c.tick, c.Before(c.tick);
    r, did := c.RemoveVolumeFromVmi(vm, vol);
    if Undisturbed(c.plan, n, vm, vol) {
      UndisturbedTurn(c, n, s, vm, vol);
      CalmRunKeeps(s, env, vm, vol);
      OneFault(c.plan, n, n);
    }
    if did != env {
      ReplaySnoc(s, env, RemovedFromVmi(vm, vol));
      RemovedFromVmiEffect(Replay(s, env), vm, vol);
    }
  }

  /** Removable as before, and still not in the spec. */
  predicate StillPlain(s: Infra, s': Infra, vm: string, vol: string) {
    Removable(s', vm, vol) && !SpecNames(s', vm, vol) && (vm in s'.vms <==> vm in s.vms)
  }

  /** The rest of removeVolumeFromVm, for a volume that VM.spec does not hot-plug. */
  method UnplugVmi(c: Cluster, vm: string, vol: string) returns (r: Result<()>, ghost did: seq<Label>)
    requires c.Valid()
    modifies c
    ensures c.Valid() && c.Grew(old(c.now), old(c.trail), did) && old(c.tick) <= c.tick <= old(c.tick) + 2
    ensures r != Err(Panic)
    ensures UnpublishSteps(did, vm, vol) && SpecUnwritten(did)
    ensures Undisturbed(c.plan, old(c.tick), vm, vol) && Removable(old(c.now), vm, vol)
            && !SpecNames(old(c.now), vm, vol) ==>
            && TriedVmi(c.plan, old(c.tick), c.tick, r.Ok?) && (r.Ok? ==> Released(c.now, vm, vol))
            && StillPlain(old(c.now), c.now, vm, vol)
    ensures Undisturbed(c.plan, old(c.tick), vm, vol) && r.Err? ==> Failed(c.plan, old(c.tick), c.tick, 1)
  {
    hide Apply, Replay, Cluster.Planned, Undisturbed, Failed, CalmRun, SameFor;
    hide Removable, Released, SpecNames, SpecHot;
    ghost var s, n, steady := c.now, c.tick, Undisturbed(c.plan, c.tick, vm, vol);
    var instance;
    instance, did := c.GetVmi(vm);
    if steady {
      UndisturbedTurn(c, n, s, vm, vol);
      CalmRunKeeps(s, did, vm, vol);
      UndisturbedLater(c.plan, n, n + 1, vm, vol);
    }
    OneFault(c.plan, n, n);
    if !StatusHot(c.now, vm, vol) { NothingHot(c.now, vm, vol); }
    if instance.Err? {
      return if instance.kind == NotFound then Ok(()) else Err(instance.kind), did;
    }
    var reported := HasHotStatus(instance.value, vol);
    if reported {
      ghost var d;
      r, d := RequestUnplug(c, vm, vol);
      c.Chain(s, old(c.trail), did, d);
      did := did + d;
      if steady && r.Err? { FailedWithin(c.plan, n, c.tick); }
      return;
    }
    r := Ok(());
  }

  /** The VM is gone, and its getter hides that: `removeVolumeFromVm` then looks into an
      empty VM, which has no template. */
  predicate Trips(c: Cluster, s: Infra, vm: string) {
    c.getter.EmptyOnNotFound? && vm !in s.vms
  }

  /** What an attempt that does not panic comes to on an undisturbed machine. */
  ghost predicate Advances(c: Cluster, n: nat, s: Infra, m: nat, s': Infra, ok: bool, vm: string, vol: string) {
    && Tried(c.plan, n, m, SpecHot(s, vm, vol), SpecHot(s', vm, vol), ok)
    && Removable(s', vm, vol) && (vm in s'.vms <==> vm in s.vms) && (ok ==> Released(s', vm, vol))
  }

  /** removeVolumeFromVm: one attempt. It panics exactly if its read finds no VM and the getter
      hands out an empty one; else it fails only with a failed call if nobody disturbs the
      machine. */
  method RemoveVolume(c: Cluster, vm: string, vol: string) returns (r: Result<()>, ghost did: seq<Label>)
    requires c.Valid()
    modifies c
    ensures c.Valid() && c.Grew(old(c.now), old(c.trail), did) && old(c.tick) <= c.tick <= old(c.tick) + 3
    ensures UnpublishSteps(did, vm, vol) && Removes(old(c.now), did, r.Ok?, vm, vol)
    ensures var seen := Replay(old(c.now), c.Before(old(c.tick)));
            r == Err(Panic) <==> c.plan(old(c.tick)).fate.Succeeds? && Trips(c, seen, vm)
    ensures Undisturbed(c.plan, old(c.tick), vm, vol) ==>
            (r == Err(Panic) <==> c.plan(old(c.tick)).fate.Succeeds? && Trips(c, old(c.now), vm))
    ensures Undisturbed(c.plan, old(c.tick), vm, vol) && Removable(old(c.now), vm, vol) && r != Err(Panic) ==>
            Advances(c, old(c.tick), old(c.now), c.tick, c.now, r.Ok?, vm, vol)
    ensures Undisturbed(c.plan, old(c.tick), vm, vol) && r.Err? && r != Err(Panic) ==>
            Failed(c.plan, old(c.tick), c.tick, 1)
  {
    hide Apply, Replay, Cluster.Planned, Undisturbed, Failed, CalmRun, SameFor, TriedVmi;
    hide Removes, Released, Removable, SpecNames, StatusHot;
    ghost var s, n := c.now, c.tick;
    ghost var steady := Undisturbed(c.plan, n, vm, vol);
    var machine;
    machine, did := c.GetVm(vm);
    if steady {
      UndisturbedTurn(c, n, s, vm, vol);
      CalmRunKeeps(s, did, vm, vol);
      UndisturbedLater(c.plan, n, n + 1, vm, vol);
    }
    OneFault(c.plan, n, n);
    NamedIsHot(c.now, vm, vol);
    ghost var a, d := did, [];
    assert a + d == a;
    RemovesUnwritten(s, a, d, false, vm, vol);
    if machine.Err? && machine.kind != NotFound {
      return Err(machine.kind), did;
    }
    if machine.Err? && c.getter.EmptyOnNotFound? {
      return Err(Panic), did;
    }
    if machine.Ok? {
      var hot := HasHot(machine.value, vol);
      if hot {
        r, d := UnplugVm(c, vm, vol);
        c.Chain(s, old(c.trail), did, d);
        did := did + d;
        RemovesAgain(s, a, d, r.Ok?, vm, vol);
        if steady && r.Err? { FailedWithin(c.plan, n, c.tick); }
        return;
      }
    }
    r, d := UnplugVmi(c, vm, vol);
    c.Chain(s, old(c.trail), did, d);
    did := did + d;
    if steady && r.Err? { FailedWithin(c.plan, n, c.tick); }
    RemovesUnwritten(s, a, d, r.Ok?, vm, vol);
    NamedIsHot(c.now, vm, vol);
  }

  /** The unpublish backoff: it makes at most five attempts, and gives up only after five
      failed calls if nobody disturbs the machine; a panic leaves it at once. */
  method RemoveWithBackoff(c: Cluster, vm: string, vol: string) returns (r: Result<()>, ghost did: seq<Label>)
    requires c.Valid()
    modifies c
    ensures c.Valid() && c.Grew(old(c.now), old(c.trail), did) && old(c.tick) <= c.tick <= old(c.tick) + 15
    ensures UnpublishSteps(did, vm, vol) && Removes(old(c.now), did, r.Ok?, vm, vol)
    ensures r.Err? ==> r.kind == Timeout || (r.kind == Panic && c.getter.EmptyOnNotFound?)
    ensures Undisturbed(c.plan, old(c.tick), vm, vol) && Removable(old(c.now), vm, vol) ==>
            var hot := SpecHot(old(c.now), vm, vol);
            && (r == Err(Timeout) ==> MayGiveUp(c.plan, old(c.tick), hot, 5))
            && (if Trips(c, old(c.now), vm) then r.Err? else r != Err(Panic))
            && (r.Ok? ==> MayEnd(c.plan, old(c.tick), hot, 5, c.tick) && Released(c.now, vm, vol))
    ensures Undisturbed(c.plan, old(c.tick), vm, vol) && r == Err(Timeout) ==> Failed(c.plan, old(c.tick), c.tick, 5)
  {
    hide Apply, Replay, Cluster.Planned, Failed, Undisturbed, Removes, Removable, Released, SpecHot, Tried;
    hide MayGiveUp, MayEnd;
    c.Unmoved();
    did := [];
    ghost var s, n, steady := c.now, c.tick, Undisturbed(c.plan, c.tick, vm, vol);
    ghost var able := steady && Removable(s, vm, vol);
    NoneFailed(c.plan, n);
    NothingRemoved(s, vm, vol);
    for step := 0 to BACKOFF_STEPS
      invariant c.Valid() && c.Grew(s, old(c.trail), did) && n <= c.tick <= n + 3 * step
      invariant UnpublishSteps(did, vm, vol) && Removes(s, did, false, vm, vol)
      invariant steady ==> Failed(c.plan, n, c.tick, step)
      invariant able ==> Removable(c.now, vm, vol) && (vm in c.now.vms <==> vm in s.vms)
      invariant able ==> Removing(c.plan, n, c.tick, SpecHot(s, vm, vol), SpecHot(c.now, vm, vol), 5 - step)
    {
      ghost var d, m, hot := [], c.tick, SpecHot(c.now, vm, vol);
      if steady { UndisturbedLater(c.plan, n, m, vm, vol); }
      r, d := RemoveVolume(c, vm, vol);
      c.Chain(s, old(c.trail), did, d);
      RemovesAgain(s, did, d, r.Ok?, vm, vol);
      did := did + d;
      if able && r != Err(Panic) {
        TriedAgain(c.plan, n, m, c.tick, SpecHot(s, vm, vol), hot, SpecHot(c.now, vm, vol), r.Ok?, 5 - step);
      }
      if able && Trips(c, s, vm) && r.Ok? { NotTripped(c, m, c.tick, hot, SpecHot(c.now, vm, vol)); }
      if r.Ok? || r == Err(Panic) {
        return;
      }
      if steady { FailedAgain(c.plan, n, m, c.tick, step, 1); }
    }
    NoneLeft(c.plan, c.tick, SpecHot(c.now, vm, vol));
    r := Err(Timeout);
  }

  lemma NotTripped(c: Cluster, n: nat, m: nat, hot: bool, hot': bool)
    requires Tried(c.plan, n, m, hot, hot', true)
    ensures c.plan(n).fate.Succeeds?
  {
  }

  lemma NoneLeft(plan: nat -> Turn, n: nat, hot: bool)
    ensures MayGiveUp(plan, n, hot, 0)
  {
  }

  /** What a successful unpublish has seen, and what it leaves clear. */
  ghost predicate Detached(s: Infra, did: seq<Label>, vm: string, vol: string) {
    var s' := Replay(s, did);
    && Saw(OnSpec, s, did, vm, vol) && Saw(OnStatus, s, did, vm, vol)
    && (NoSpecGain(did, vm, vol) ==> !SpecBacks(s', vm, vol) && !StatusHot(s', vm, vol))
    && (HotOnly(s, vm, vol) && NoSpecGain(did, vm, vol) ==> !SpecNames(s', vm, vol))
    && (SpecQuiet(did) ==> !SpecBacks(s', vm, vol))
  }

  /** The fast path's two observations make the volume detached. */
  lemma FastDetached(s: Infra, did: seq<Label>, vm: string, vol: string)
    requires AllEnv(did) && Saw(OnSpec, s, did, vm, vol) && Saw(OnStatus, s, did, vm, vol)
    requires !StatusHot(Replay(s, did), vm, vol)
    requires HotOnly(s, vm, vol) && NoSpecGain(did, vm, vol) ==> !SpecNames(Replay(s, did), vm, vol)
    ensures Detached(s, did, vm, vol)
  {
    hide Apply, Replay;
    if NoSpecGain(did, vm, vol) { SeenClearIsClear(OnSpec, s, did, vm, vol); }
    if SpecQuiet(did) {
      var i :| 0 <= i <= |did| && Clear(OnSpec, Replay(s, did[..i]), vm, vol);
      QuietSpecs(s, did);
      QuietSpecs(s, did[..i]);
    }
  }

  /** And so do the slow path's removal (b) and final poll (d). */
  lemma SlowDetached(s: Infra, a: seq<Label>, b: seq<Label>, d: seq<Label>, vm: string, vol: string)
    requires Removes(Replay(s, a), b, true, vm, vol) && !SpecBacks(Replay(s, a + b + d), vm, vol)
    requires Saw(OnSpec, Replay(s, a + b), d, vm, vol) && Saw(OnStatus, Replay(s, a + b), d, vm, vol)
    ensures Detached(s, a + b + d, vm, vol)
  {
    hide Apply, Replay;
    var did, s1, s2 := a + b + d, Replay(s, a), Replay(s, a + b);
    SawExtends(OnSpec, s, a + b, d, vm, vol);
    SawExtends(OnStatus, s, a + b, d, vm, vol);
    if NoSpecGain(did, vm, vol) {
      assert NoSpecGain(a, vm, vol) && NoSpecGain(b, vm, vol) && NoSpecGain(d, vm, vol);
      ReplayConcat(s, a, b);
      ReplayConcat(s, a + b, d);
      SeenClearIsClear(OnStatus, s2, d, vm, vol);
      if HotOnly(s, vm, vol) {
        HotOnlyStays(s, a, vm, vol);
        UnnamedStays(s2, d, vm, vol);
      }
    }
  }

  /** The machine stays undisturbed, the backoff's attempts cannot all fail, and from wherever
      it may end calls succeed and the volume is unplugged in time. */
  ghost predicate UnplugsInTime(c: Cluster, n: nat, lag: nat, s: Infra, vm: string, vol: string) {
    var hot := SpecHot(s, vm, vol);
    && Undisturbed(c.plan, n, vm, vol) && !MayGiveUp(c.plan, n, hot, 5)
    && forall end: nat :: MayEnd(c.plan, n, hot, 5, end) ==> DetachConverges(c, end, lag, vm, vol)
  }

  lemma UnplugsAfter(c: Cluster, n: nat, lag: nat, s: Infra, s': Infra, vm: string, vol: string)
    requires UnplugsInTime(c, n, lag, s, vm, vol) && (SpecHot(s', vm, vol) <==> SpecHot(s, vm, vol))
    ensures UnplugsInTime(c, n, lag, s', vm, vol)
  {
  }

  lemma {:induction false} EndsLater(plan: nat -> Turn, n: nat, hot: bool, left: nat, end: nat)
    requires MayEnd(plan, n, hot, left, end)
    ensures end > n
    decreases left
  {
    if !plan(n).fate.Succeeds? {
      EndsLater(plan, n + 1, hot, left - 1, end);
    } else if hot {
      if !plan(n + 1).fate.Succeeds? { EndsLater(plan, n + 2, plan(n + 1).fate.FailsClean?, left - 1, end); }
    } else if !plan(n + 1).fate.Succeeds? {
      EndsLater(plan, n + 2, false, left - 1, end);
    } else if end != n + 2 && !plan(n + 2).fate.Succeeds? {
      EndsLater(plan, n + 3, false, left - 1, end);
    }
  }

  /** Without failed calls that is: unplugged in time. */
  lemma CalmUnplugs(c: Cluster, from: nat, n: nat, lag: nat, s: Infra, vm: string, vol: string)
    requires from <= n && DetachConverges(c, from, lag, vm, vol)
    ensures UnplugsInTime(c, n, lag, s, vm, vol) && CalmFor(c.plan, from, Looks(s, vm, vol), vm, vol)
    ensures Undisturbed(c.plan, from, vm, vol)
  {
    var hot := SpecHot(s, vm, vol);
    assert CalmTurn(c.plan(n), vm, vol) && CalmTurn(c.plan(n + 1), vm, vol) && CalmTurn(c.plan(n + 2), vm, vol);
    forall end: nat | MayEnd(c.plan, n, hot, 5, end) ensures DetachConverges(c, end, lag, vm, vol) {
      EndsLater(c.plan, n, hot, 5, end);
    }
  }

  predicate IsDetached(s: Infra, vm: string, vol: string) {
    !SpecBacks(s, vm, vol) && !StatusHot(s, vm, vol)
  }

  method ControllerUnpublishVolume(c: Cluster, volume: string, node: string, ghost lag: nat)
    returns (r: Result<()>, ghost did: seq<Label>)
    requires c.Valid()
    modifies c
    ensures c.Valid() && c.Grew(old(c.now), old(c.trail), did) && c.tick >= old(c.tick)
    ensures TargetOf(volume, node).Err? ==> r == Err(TargetOf(volume, node).kind) && did == []
    ensures TargetOf(volume, node).Ok? ==>
            var vm := TargetOf(volume, node).value;
            && UnpublishSteps(did, vm, volume)
            && (r.Ok? ==> Detached(old(c.now), did, vm, volume))
            && (SpecQuiet(did) ==>
                  c.now.vms == old(c.now).vms ||
                  (vm in old(c.now).vms && c.now.vms == old(c.now).vms[vm := Without(old(c.now).vms[vm], volume)]))
    ensures r == Err(Panic) ==> c.getter.EmptyOnNotFound?
    // idempotence, then progress, exactly
    ensures TargetOf(volume, node).Ok? ==>
            var vm := TargetOf(volume, node).value;
            var looks := Looks(old(c.now), vm, volume);
            var seen := Replay(old(c.now), c.Before(old(c.tick)) + c.Before(old(c.tick) + 1));
            CalmFor(c.plan, old(c.tick), looks, vm, volume) ==>
            && (IsDetached(old(c.now), vm, volume) ==> r.Ok? && AllEnv(did))
            && (Removable(old(c.now), vm, volume)
                && UnplugsInTime(c, old(c.tick) + looks, lag, old(c.now), vm, volume) ==>
                  && (r.Ok? || r == Err(Panic))
                  && (r == Err(Panic) <==> Trips(c, old(c.now), vm) && StatusHot(seen, vm, volume)))
  {
    hide Apply, Replay, Cluster.Planned, Detached, Removable, Released, HotOnly, Disturbs, IsDetached;
    hide CalmFor, CalmRun, UnplugsInTime, SpecHot, Looks, Removes, Saw, SpecBacks;
    c.Unmoved();
    did := [];
    if volume == "" || node == "" {
      return Err(InvalidArgument), did;
    }
    var key := Codecs.SplitKey(node);
    if key.Err? {
      return Err(key.kind), did;
    }
    var vm := key.value.1;
    ghost var s := c.now;
    var attached;
    attached, did := VolumeStillAttached(c, vm, volume);
    if SpecQuiet(did) { QuietSpecs(s, did); }
    if CalmFor(c.plan, old(c.tick), Looks(s, vm, volume), vm, volume) {
      CalmRunKeeps(s, did, vm, volume);
      if UnplugsInTime(c, c.tick, lag, s, vm, volume) { UnplugsAfter(c, c.tick, lag, s, c.now, vm, volume); }
    }
    if attached.Err? {
      return Err(attached.kind), did;
    }
    if !attached.value {
      FastDetached(s, did, vm, volume);
      return Ok(()), did;
    }
    ghost var a, b, d, ok := did, [], [], false;
    r, b, d, ok := DetachFrom(c, vm, volume, lag);
    c.Chain(s, old(c.trail), a, b + d);
    assert a + (b + d) == a + b + d;
    did := a + b + d;
    QuietAround(s, a, b, d, ok, vm, volume);
    if r.Ok? {
      ReplayConcat(s, a, b);
      SlowDetached(s, a, b, d, vm, volume);
    }
  }

  /** The slow path: remove with retries (`b`, successfully if `ok`), then wait until both
      surfaces are clear (`d`). */
  method DetachFrom(c: Cluster, vm: string, vol: string, ghost lag: nat)
    returns (r: Result<()>, ghost b: seq<Label>, ghost d: seq<Label>, ghost ok: bool)
    requires c.Valid()
    modifies c
    ensures c.Valid() && c.Grew(old(c.now), old(c.trail), b + d) && c.tick >= old(c.tick)
    ensures UnpublishSteps(b, vm, vol) && AllEnv(d) && Removes(old(c.now), b, ok, vm, vol)
    ensures r.Ok? ==>
            && ok && !SpecBacks(c.now, vm, vol)
            && Saw(OnSpec, Replay(old(c.now), b), d, vm, vol) && Saw(OnStatus, Replay(old(c.now), b), d, vm, vol)
    ensures r == Err(Panic) ==> c.getter.EmptyOnNotFound?
    ensures UnplugsInTime(c, old(c.tick), lag, old(c.now), vm, vol) && Removable(old(c.now), vm, vol) ==>
            if Trips(c, old(c.now), vm) then r == Err(Panic) else r.Ok?
  {
    hide Apply, Replay, Cluster.Planned, Removes, Removable, Released, Undisturbed;
    hide MayGiveUp, MayEnd, DetachConverges, SpecHot, SpecBacks, Saw;
    d := [];
    r, b := RemoveWithBackoff(c, vm, vol);
    ok := r.Ok?;
    assert b + d == b;
    if r.Err? {
      return;
    }
    r, d := EnsureVolumeRemoved(c, vm, vol, lag);
    c.Chain(old(c.now), old(c.trail), b, d);
  }

  /** Reads before and after a removal leave its spec frame. */
  lemma QuietAround(s: Infra, a: seq<Label>, b: seq<Label>, d: seq<Label>, ok: bool, vm: string, vol: string)
    requires AllEnv(a) && AllEnv(d) && Removes(Replay(s, a), b, ok, vm, vol)
    ensures var s' := Replay(s, a + b + d);
            SpecQuiet(a + b + d) ==>
            s'.vms == s.vms || (vm in s.vms && s'.vms == s.vms[vm := Without(s.vms[vm], vol)])
  {
    hide Apply, Replay;
    if SpecQuiet(a + b + d) {
      assert SpecQuiet(a) && SpecQuiet(b) && SpecQuiet(d);
      QuietSpecs(s, a);
      ReplayConcat(s, a, b);
      QuietSpecs(Replay(s, a + b), d);
      ReplayConcat(s, a + b, d);
    }
  }

  // ----- A VMI that outlives its VM -----

  /** No call fails; from turn 2 on the VMI of "a" finishes what unplugs it was asked for. */
  function OrphanPlan(t: nat): Turn {
    Turn(if t < 2 then [] else [SyncDetach("a", "v")], Succeeds, "")
  }

  /** The VM "a" is gone, and its VMI still has the hot-plugged volume. */
  function Orphan(): Infra {
    Infra(map[], map["a" := [StatusVolume("v", "u", true, true, true, false)]], map[], map[], map[], map[])
  }

  lemma OrphanConverges(c: Cluster)
    requires c.plan == OrphanPlan && c.polls == 4
    ensures DetachConverges(c, 0, 3, "a", "v")
  {
    forall t: nat ensures DetachRound(c.plan, t, 3, "a", "v") {
      assert Occurs(c.plan, t + 2, SyncDetach("a", "v")) by {
        assert OrphanPlan(t + 2).before[0] == SyncDetach("a", "v");
      }
    }
  }

  lemma OrphanStart(c: Cluster)
    requires c.plan == OrphanPlan
    ensures Removable(Orphan(), "a", "v") && StatusHot(Orphan(), "a", "v")
    ensures Replay(Orphan(), c.Before(0) + c.Before(1)) == Orphan()
  {
    assert Orphan().vmis["a"][0] in Orphan().vmis["a"];
    assert c.Before(0) + c.Before(1) == [];
  }

  /** So it happens: with a getter that hands out an empty VM, the unpublish that should
      release the volume of an orphaned VMI panics; with the other one it succeeds. */
  method UnpublishOrphan(getter: Getter) returns (r: Result<()>)
    ensures (r == Err(Panic) <==> getter.EmptyOnNotFound?) && (r.Ok? <==> getter.NothingOnNotFound?)
  {
    hide Apply, Replay, Removable, StatusHot, DetachConverges, UnplugsInTime, CalmFor;
    var c := new Cluster(OrphanPlan, 4, getter, Orphan());
    Codecs.SplitAt("ns", "a", '/');
    Codecs.SplitPlain("a", '/');
    assert "ns" + ['/'] + "a" == "ns/a";
    OrphanConverges(c);
    OrphanStart(c);
    assert Looks(Orphan(), "a", "v") == 2;
    CalmUnplugs(c, 0, 2, 3, Orphan(), "a", "v");
    assert TargetOf("v", "ns/a") == Ok("a");
    ghost var did;
    r, did := ControllerUnpublishVolume(c, "v", "ns/a", 3);
  }
}
