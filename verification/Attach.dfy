/** ControllerPublishVolume: attach a DataVolume to a VM. */
module Attach {
  import opened Base
  import opened Infra
  import opened ClusterApi
  import opened Filters
  import opened Discipline
  import opened Steady
  import opened Surfaces
  import opened Client
  import opened Polls
  import Codecs

  datatype AccessMode =
    | Unknown
    | SingleNodeWriter | SingleNodeReaderOnly | SingleNodeSingleWriter | SingleNodeMultiWriter
    | MultiNodeReaderOnly | MultiNodeSingleWriter | MultiNodeMultiWriter

  /** hasRWXCapabiltyAccessMode. */
  function IsRwx(mode: AccessMode): Result<bool> {
    match mode
    case SingleNodeWriter | SingleNodeReaderOnly | SingleNodeSingleWriter | SingleNodeMultiWriter => Ok(false)
    case MultiNodeReaderOnly | MultiNodeSingleWriter | MultiNodeMultiWriter => Ok(true)
    case Unknown => Err(Other)
  }

  lemma ModesApart(mode: AccessMode)
    ensures IsRwx(mode) == Ok(true) <==> mode in MULTI_NODE_MODES
    ensures IsRwx(mode) == Ok(false) <==> mode in SINGLE_NODE_MODES
    ensures IsRwx(mode).Err? <==> mode.Unknown?
  {
  }

  const SINGLE_NODE_MODES: set<AccessMode> :=
    {SingleNodeWriter, SingleNodeReaderOnly, SingleNodeSingleWriter, SingleNodeMultiWriter}

  const MULTI_NODE_MODES: set<AccessMode> :=
    {MultiNodeReaderOnly, MultiNodeSingleWriter, MultiNodeMultiWriter}

  datatype PublishRequest = PublishRequest(volume: string, node: string, mode: AccessMode, serial: string, bus: string)

  /** The request's volume and node are there, and the node names a machine. */
  function TargetOf(volume: string, node: string): Result<string> {
    if volume == "" || node == "" then Err(InvalidArgument)
    else
      var key := Codecs.SplitKey(node);
      if key.Ok? then Ok(key.value.1) else Err(key.kind)
  }

  const BACKOFF_STEPS := 5

  /** The calls between the guard and the first attempt. */
  const LOOKUPS := 3

  /** The entry virt-api adds for a publish request. */
  function HotPlugOf(req: PublishRequest): SpecVolume {
    SpecVolume(req.volume, false, Some(DvRef(req.volume, true)), req.serial, req.bus)
  }

  /** Everything a publish call may leave in a run. */
  predicate PublishSteps(did: seq<Label>, vm: string, e: SpecVolume) {
    forall l :: l in did ==> l.Env? || l == Listed(e.name, vm) || l == Added(vm, e)
  }

  predicate NoAdd(did: seq<Label>) {
    forall l :: l in did ==> !l.Added?
  }

  /** No label of the run but the driver's own writes a VM spec. */
  predicate SpecQuiet(run: seq<Label>) {
    forall l :: l in run && l.Env? ==>
      !l.act.CreateVm? && !l.act.DeleteVm? && !l.act.OtherAdds? && !l.act.OtherRemoves?
  }

  lemma {:induction false} QuietSpecs(s: Infra, run: seq<Label>)
    requires AllEnv(run) && SpecQuiet(run)
    ensures Replay(s, run).vms == s.vms
  {
    if run != [] {
      assert run == run[..|run| - 1] + [run[|run| - 1]];
      QuietSpecs(s, run[..|run| - 1]);
    }
  }

  /** Whatever backs the volume in the machine's spec is a hot-plugged DataVolume. */
  predicate BackedIsHot(s: Infra, vm: string, vol: string) {
    vm in s.vms ==> forall e :: e in s.vms[vm] && e.Backed() && e.name == vol ==> e.Hot()
  }

  lemma BackedIsHotStep(s: Infra, l: Label, vm: string, vol: string)
    requires BackedIsHot(s, vm, vol)
    requires l.Env? ==> !ForeignTo(l.act, vol)
    requires l.Added? && l.entry.name == vol ==> l.entry.Hot()
    ensures BackedIsHot(Apply(s, l), vm, vol)
  {
    hide DvsAfter, SnapsAfter, ClaimsAfter, PvsAfter, StatusesAfter;
    match l
    case Env(CreateVm(m, vols)) =>
    case Env(OtherAdds(m, e)) =>
    case Env(OtherRemoves(m, w)) =>
    case Added(m, e) =>
    case RemovedFromVm(m, w) =>
    case _ =>
  }

  lemma UnbackedStep(s: Infra, l: Label, vm: string, vol: string)
    requires l.Env? && !ForeignTo(l.act, vol) && !SpecBacks(s, vm, vol)
    ensures !SpecBacks(Apply(s, l), vm, vol)
  {
    hide DvsAfter, SnapsAfter, ClaimsAfter, PvsAfter, StatusesAfter;
    match l
    case Env(CreateVm(m, vols)) =>
    case Env(OtherAdds(m, e)) =>
    case Env(OtherRemoves(m, w)) =>
    case _ =>
  }

  lemma {:induction false} SerialEnv(s: Infra, run: seq<Label>, vm: string, vol: string)
    requires AllEnv(run) && Serial(run, vol)
    ensures BackedIsHot(s, vm, vol) ==> BackedIsHot(Replay(s, run), vm, vol)
    ensures !SpecBacks(s, vm, vol) ==> !SpecBacks(Replay(s, run), vm, vol)
  {
    hide Apply;
    if run != [] {
      var front, l := run[..|run| - 1], run[|run| - 1];
      assert run == front + [l];
      assert l in run;
      SerialEnv(s, front, vm, vol);
      if BackedIsHot(s, vm, vol) { BackedIsHotStep(Replay(s, front), l, vm, vol); }
      if !SpecBacks(s, vm, vol) { UnbackedStep(Replay(s, front), l, vm, vol); }
    }
  }

  lemma AddedEffect(s: Infra, vm: string, e: SpecVolume)
    requires vm in s.vms
    ensures var s' := Apply(s, Added(vm, e));
            && s' == s.(vms := s.vms[vm := s.vms[vm] + [e]])
            && (e.Backed() ==> SpecBacks(s', vm, e.name)) && (e.Hot() ==> SpecHot(s', vm, e.name))
  {
    var s' := Apply(s, Added(vm, e));
    assert s'.vms[vm][|s.vms[vm]|] == e;
    assert e in s'.vms[vm];
  }

  /** IsVolumeAttachedToOtherVMI. */
  method AttachedElsewhere(c: Cluster, vol: string, vm: string) returns (r: Result<bool>, ghost did: seq<Label>)
    requires c.Valid()
    modifies c
    ensures c.Valid() && c.tick == old(c.tick) + 1
    ensures did == c.Before(old(c.tick)) && c.Grew(old(c.now), old(c.trail), did)
    ensures r == if c.plan(old(c.tick)).fate.Succeeds? then Ok(!ReportedOnlyBy(c.now, vm, vol)) else Err(Other)
  {
    var got;
    got, did := c.ListVmis();
    if got.Err? {
      return Err(got.kind), did;
    }
    var names := got.value.Keys;
    while names != {}
      modifies {}
      invariant names <= got.value.Keys
      invariant forall n :: n in got.value && n !in names && n != vm ==> !Reports(got.value[n], vol)
      decreases names
    {
      var n :| n in names;
      names := names - {n};
      if n != vm {
        var reported := HasEntry(got.value[n], vol);
        if reported {
          assert StatusNames(c.now, n, vol);
          return Ok(true), did;
        }
      }
    }
    r := Ok(false);
  }

  /** isVolumeAttached. */
  method IsVolumeAttached(c: Cluster, vol: string, vm: string) returns (r: Result<bool>, ghost did: seq<Label>)
    requires c.Valid()
    modifies c
    ensures c.Valid() && c.tick == old(c.tick) + 1
    ensures did == c.Before(old(c.tick)) && c.Grew(old(c.now), old(c.trail), did)
    ensures r == if !c.plan(old(c.tick)).fate.Succeeds? then Err(Other)
                 else if vm in c.now.vms then Ok(SpecHot(c.now, vm, vol)) else Err(NotFound)
  {
    var got;
    got, did := c.GetVm(vm);
    if got.Err? {
      return Err(got.kind), did;
    }
    for i := 0 to |got.value|
      invariant forall j :: 0 <= j < i ==> !(got.value[j].Hot() && got.value[j].name == vol)
    {
      if got.value[i].dv.Some? {
        if got.value[i].dv.value.hotpluggable && got.value[i].name == vol {
          return Ok(true), did;
        }
      }
    }
    r := Ok(false);
  }

  ghost predicate KeptGuarded(start: Infra, t: seq<Label>, did: seq<Label>, vm: string, vol: string) {
    Serial(did, vol) && BackedIsHot(Replay(start, t), vm, vol) ==>
      && BackedIsHot(Replay(start, t + did), vm, vol)
      && (Guarded(start, t, vol) ==> Guarded(start, t + did, vol))
  }

  ghost predicate KeptScreened(start: Infra, t: seq<Label>, did: seq<Label>, vm: string, vol: string) {
    Cleared(t, vol) == Some(vm) ==>
      && Cleared(t + did, vol) == Some(vm)
      && (Screened(start, t, vol) ==> Screened(start, t + did, vol))
  }

  ghost predicate KeptSpecs(start: Infra, t: seq<Label>, did: seq<Label>, vm: string, e: SpecVolume) {
    var s, s' := Replay(start, t), Replay(start, t + did);
    SpecQuiet(did) ==>
      s'.vms == s.vms || (!SpecHot(s, vm, e.name) && vm in s.vms && s'.vms == s.vms[vm := s.vms[vm] + [e]])
  }

  /** What the steps `did` after the run `t` keep: the discipline of their volume, and the
      exact spec when nobody else edits specs. */
  ghost predicate Kept(start: Infra, t: seq<Label>, did: seq<Label>, vm: string, e: SpecVolume) {
    && KeptGuarded(start, t, did, vm, e.name)
    && KeptScreened(start, t, did, vm, e.name)
    && KeptSpecs(start, t, did, vm, e)
  }

  lemma EnvKeeps(start: Infra, t: seq<Label>, did: seq<Label>, vm: string, e: SpecVolume)
    requires AllEnv(did)
    ensures Kept(start, t, did, vm, e)
  {
    hide Apply, Replay;
    ReplayConcat(start, t, did);
    Unconcerned(start, t, did, e.name);
    if Serial(did, e.name) { SerialEnv(Replay(start, t), did, vm, e.name); }
    if SpecQuiet(did) { QuietSpecs(Replay(start, t), did); }
  }

  lemma KeptChain(start: Infra, t: seq<Label>, a: seq<Label>, b: seq<Label>, vm: string, e: SpecVolume)
    requires e.Hot() && Kept(start, t, a, vm, e) && Kept(start, t + a, b, vm, e)
    ensures Kept(start, t, a + b, vm, e)
  {
    hide Apply, Replay;
    assert t + a + b == t + (a + b);
    var s, s1 := Replay(start, t), Replay(start, t + a);
    if SpecQuiet(a + b) {
      assert SpecQuiet(a) && SpecQuiet(b);
      if s1.vms != s.vms {
        assert e in s1.vms[vm];
        assert SpecHot(s1, vm, e.name);
      } else {
        assert SpecHot(s1, vm, e.name) == SpecHot(s, vm, e.name);
      }
    }
  }

  /** An add right after a read that found no hot-plugged entry. */
  lemma AddKeeps(start: Infra, t: seq<Label>, env: seq<Label>, vm: string, e: SpecVolume)
    requires AllEnv(env) && e.Hot() && !SpecHot(Replay(start, t), vm, e.name)
    requires vm in Replay(start, t + env).vms
    ensures Kept(start, t, env + [Added(vm, e)], vm, e)
  {
    hide Apply, Replay, KeptGuarded, KeptScreened, KeptSpecs;
    AddKeepsGuarded(start, t, env, vm, e);
    AddKeepsScreened(start, t, env, vm, e);
    AddKeepsSpecs(start, t, env, vm, e);
  }

  lemma AddKeepsGuarded(start: Infra, t: seq<Label>, env: seq<Label>, vm: string, e: SpecVolume)
    requires AllEnv(env) && e.Hot() && !SpecHot(Replay(start, t), vm, e.name)
    ensures KeptGuarded(start, t, env + [Added(vm, e)], vm, e.name)
  {
    hide Apply, Replay, Guarded, Screened, Cleared;
    var l, s := Added(vm, e), Replay(start, t);
    assert t + (env + [l]) == t + env + [l];
    if Serial(env + [l], e.name) && BackedIsHot(s, vm, e.name) {
      assert Serial(env, e.name);
      assert !SpecBacks(s, vm, e.name);
      SerialEnv(s, env, vm, e.name);
      ReplayConcat(start, t, env);
      BackedIsHotStep(Replay(start, t + env), l, vm, e.name);
      ReplaySnoc(start, t + env, l);
      Unconcerned(start, t, env, e.name);
      Snoc(start, t + env, l, e.name);
    }
  }

  lemma AddKeepsScreened(start: Infra, t: seq<Label>, env: seq<Label>, vm: string, e: SpecVolume)
    requires AllEnv(env)
    ensures KeptScreened(start, t, env + [Added(vm, e)], vm, e.name)
  {
    hide Apply, Replay, Guarded, Screened, Cleared;
    var l := Added(vm, e);
    assert t + (env + [l]) == t + env + [l];
    Unconcerned(start, t, env, e.name);
    Snoc(start, t + env, l, e.name);
  }

  lemma AddKeepsSpecs(start: Infra, t: seq<Label>, env: seq<Label>, vm: string, e: SpecVolume)
    requires AllEnv(env) && !SpecHot(Replay(start, t), vm, e.name) && vm in Replay(start, t + env).vms
    ensures KeptSpecs(start, t, env + [Added(vm, e)], vm, e)
  {
    hide Apply, Replay;
    var l := Added(vm, e);
    if SpecQuiet(env + [l]) {
      assert SpecQuiet(env);
      assert t + (env + [l]) == t + env + [l];
      ReplayConcat(start, t, env);
      QuietSpecs(Replay(start, t), env);
      ReplaySnoc(start, t + env, l);
      AddedEffect(Replay(start, t + env), vm, e);
    }
  }

  // ----- The backoff -----

  /** The turn after the first attempt that succeeds, from turn `n` on and with `left`
      attempts left; `found` if the spec already hot-plugs the volume. An attempt is a read,
      and an add unless the read found the volume. */
  ghost function Attempts(plan: nat -> Turn, n: nat, found: bool, left: nat): Option<nat>
    decreases left
  {
    if left == 0 then None
    else if !plan(n).fate.Succeeds? then Attempts(plan, n + 1, found, left - 1)
    else if found then Some(n + 1)
    else if plan(n + 1).fate.Succeeds? then Some(n + 2)
    else Attempts(plan, n + 2, plan(n + 1).fate.FailsAfterEffect?, left - 1)
  }

  /** The backoff survives any `left - 1` failed calls among those it can make. */
  lemma {:induction false} AttemptsTolerate(plan: nat -> Turn, n: nat, found: bool, left: nat)
    ensures Faults(plan, n, 2 * left) < left ==> Attempts(plan, n, found, left).Some?
    decreases left
  {
    if left > 0 {
      FaultsConcat(plan, n, 1, 2 * left - 1);
      FaultsConcat(plan, n + 1, 2 * left - 2, 1);
      FaultsConcat(plan, n, 2, 2 * left - 2);
      FirstFaults(plan, n);
      AttemptsTolerate(plan, n + 1, found, left - 1);
      AttemptsTolerate(plan, n + 2, plan(n + 1).fate.FailsAfterEffect?, left - 1);
    }
  }

  lemma FirstFaults(plan: nat -> Turn, n: nat)
    ensures Faults(plan, n, 1) == if plan(n).fate.Succeeds? then 0 else 1
    ensures Faults(plan, n, 2) == Faults(plan, n, 1) + if plan(n + 1).fate.Succeeds? then 0 else 1
  {
    assert Faults(plan, n, 0) == 0;
  }

  lemma CalmAttempts(plan: nat -> Turn, n: nat, found: bool, vm: string, vol: string)
    requires Calm(plan, n, vm, vol)
    ensures Undisturbed(plan, n, vm, vol)
    ensures Attempts(plan, n, found, 5) == Some(if found then n + 1 else n + 2)
  {
    assert CalmTurn(plan(n), vm, vol) && CalmTurn(plan(n + 1), vm, vol);
  }

  /** The machine as undisturbed turns leave it. */
  predicate SameMachine(s: Infra, s': Infra, vm: string, vol: string) {
    && (vm in s'.vms <==> vm in s.vms) && (vm in s'.vmis <==> vm in s.vmis)
    && (NoneLeaving(s, vm, vol) ==> NoneLeaving(s', vm, vol))
  }

  /** What an add call at turn `n` comes to on an undisturbed machine. */
  ghost predicate Plugged(plan: nat -> Turn, n: nat, s: Infra, s': Infra, ok: bool, vm: string, vol: string) {
    && SameMachine(s, s', vm, vol) && ok == plan(n).fate.Succeeds?
    && (SpecHot(s', vm, vol) <==> !plan(n).fate.FailsClean?)
  }

  lemma AddedMachine(s: Infra, s1: Infra, vm: string, e: SpecVolume)
    requires SameFor(s, s1, vm, e.name) && vm in s.vms && !SpecHot(s, vm, e.name) && e.Hot()
    ensures SameMachine(s, s1, vm, e.name) && !SpecHot(s1, vm, e.name)
    ensures var s' := Apply(s1, Added(vm, e)); SameMachine(s, s', vm, e.name) && SpecHot(s', vm, e.name)
  {
    hide Apply;
    AddedEffect(s1, vm, e);
  }

  /** The add call of addVolumeToVm. */
  method PlugIn(c: Cluster, vm: string, e: SpecVolume) returns (r: Result<()>, ghost did: seq<Label>)
    requires c.Valid() && e.Hot() && !SpecHot(c.now, vm, e.name)
    modifies c
    ensures c.Valid() && c.Grew(old(c.now), old(c.trail), did) && c.tick == old(c.tick) + 1
    ensures forall l :: l in did ==> l.Env? || l == Added(vm, e)
    ensures Kept(c.start, old(c.trail), did, vm, e)
    ensures Undisturbed(c.plan, old(c.tick), vm, e.name) && vm in old(c.now).vms ==>
            Plugged(c.plan, old(c.tick), old(c.now), c.now, r.Ok?, vm, e.name)
  {
    hide Apply, Replay, Cluster.Planned, Kept, Undisturbed, SpecNames, SpecHot, SameFor, SameMachine;
    ghost var s, t, n, env := c.now, c.trail, c.tick, c.Before(c.tick);
    r, did := c.AddVolume(vm, e);
    ReplayConcat(c.start, t, env);
    if did == env {
      EnvKeeps(c.start, t, did, vm, e);
    } else {
      AddKeeps(c.start, t, env, vm, e);
      ReplaySnoc(s, env, Added(vm, e));
    }
    if Undisturbed(c.plan, n, vm, e.name) && vm in s.vms {
      UndisturbedTurn(c, n, s, vm, e.name);
      SameThere(s, Replay(s, env), vm, e.name);
      AddedMachine(s, Replay(s, env), vm, e);
    }
  }

  lemma SameThere(s: Infra, s': Infra, vm: string, vol: string)
    requires SameFor(s, s', vm, vol)
    ensures SameMachine(s, s', vm, vol) && (vm in s'.vms <==> vm in s.vms)
    ensures SpecHot(s', vm, vol) <==> SpecHot(s, vm, vol)
  {
  }

  /** What one attempt from turn `n` to `m` comes to on an undisturbed machine. */
  ghost predicate Attempted(plan: nat -> Turn, n: nat, m: nat, s: Infra, s': Infra, ok: bool, vm: string, vol: string) {
    && SameMachine(s, s', vm, vol)
    && (if !plan(n).fate.Succeeds? then !ok && m == n + 1 && (SpecHot(s', vm, vol) <==> SpecHot(s, vm, vol))
        else if SpecHot(s, vm, vol) then ok && m == n + 1 && SpecHot(s', vm, vol)
        else m == n + 2 && ok == plan(n + 1).fate.Succeeds? &&
             (SpecHot(s', vm, vol) <==> !plan(n + 1).fate.FailsClean?))
  }

  /** addVolumeToVm: one attempt, exactly on an undisturbed machine. */
  method AddVolumeToVm(c: Cluster, vm: string, e: SpecVolume) returns (r: Result<()>, ghost did: seq<Label>)
    requires c.Valid() && e.Hot()
    modifies c
    ensures c.Valid() && c.Grew(old(c.now), old(c.trail), did) && old(c.tick) <= c.tick <= old(c.tick) + 2
    ensures forall l :: l in did ==> l.Env? || l == Added(vm, e)
    ensures Kept(c.start, old(c.trail), did, vm, e)
    ensures Undisturbed(c.plan, old(c.tick), vm, e.name) && vm in old(c.now).vms ==>
            Attempted(c.plan, old(c.tick), c.tick, old(c.now), c.now, r.Ok?, vm, e.name)
  {
    hide Apply, Replay, Cluster.Planned, Kept, Undisturbed, SpecNames, SpecHot, SameFor;
    ghost var s, t, n := c.now, c.trail, c.tick;
    ghost var steady := Undisturbed(c.plan, n, vm, e.name);
    var found;
    found, did := IsVolumeAttached(c, e.name, vm);
    EnvKeeps(c.start, t, did, vm, e);
    if steady {
      UndisturbedTurn(c, n, s, vm, e.name);
      UndisturbedLater(c.plan, n, n + 1, vm, e.name);
      SameThere(s, c.now, vm, e.name);
    }
    if found.Err? {
      return Err(found.kind), did;
    }
    r := Ok(());
    if !found.value {
      ghost var d;
      r, d := PlugIn(c, vm, e);
      c.Chain(s, t, did, d);
      KeptChain(c.start, t, did, d, vm, e);
      did := did + d;
    }
  }

  /** A failed attempt holds a failed call, and leaves the rest of the attempts to do. */
  lemma AttemptFails(plan: nat -> Turn, n: nat, m: nat, s: Infra, s': Infra, ok: bool, left: nat,
                     vm: string, vol: string)
    requires Attempted(plan, n, m, s, s', ok, vm, vol) && left >= 1
    ensures ok ==> Attempts(plan, n, SpecHot(s, vm, vol), left) == Some(m) && SpecHot(s', vm, vol)
    ensures !ok ==> Failed(plan, n, m, 1)
    ensures !ok ==> Attempts(plan, n, SpecHot(s, vm, vol), left) == Attempts(plan, m, SpecHot(s', vm, vol), left - 1)
  {
    hide SpecHot;
    OneFault(plan, n, n);
    OneFault(plan, n, n + 1);
  }

  /** How the backoff stands before turn `m`, with `left` attempts left. */
  ghost predicate Retrying(plan: nat -> Turn, n: nat, m: nat, s: Infra, s': Infra, left: nat, vm: string, vol: string) {
    && left <= 5 && Failed(plan, n, m, 5 - left) && SameMachine(s, s', vm, vol)
    && Attempts(plan, n, SpecHot(s, vm, vol), 5) == Attempts(plan, m, SpecHot(s', vm, vol), left)
  }

  lemma Retried(plan: nat -> Turn, n: nat, m: nat, m': nat, s: Infra, s': Infra, s'': Infra, ok: bool, left: nat,
                vm: string, vol: string)
    requires Retrying(plan, n, m, s, s', left, vm, vol) && left >= 1 && Attempted(plan, m, m', s', s'', ok, vm, vol)
    ensures SameMachine(s, s'', vm, vol)
    ensures ok ==> Attempts(plan, n, SpecHot(s, vm, vol), 5) == Some(m') && SpecHot(s'', vm, vol)
    ensures !ok ==> Retrying(plan, n, m', s, s'', left - 1, vm, vol)
  {
    hide SpecHot, NoneLeaving, Attempts, Failed;
    AttemptFails(plan, m, m', s', s'', ok, left, vm, vol);
    if !ok { FailedAgain(plan, n, m, m', 5 - left, 1); }
  }

  lemma StartRetrying(plan: nat -> Turn, n: nat, s: Infra, vm: string, vol: string)
    ensures Retrying(plan, n, n, s, s, 5, vm, vol)
  {
    NoneFailed(plan, n);
  }

  /** The publish backoff: it makes at most five attempts, and on an existing undisturbed
      machine ends exactly with the first that succeeds; giving up means five failed calls. */
  method AddWithBackoff(c: Cluster, vm: string, e: SpecVolume) returns (r: Result<()>, ghost did: seq<Label>)
    requires c.Valid() && e.Hot()
    modifies c
    ensures c.Valid() && c.Grew(old(c.now), old(c.trail), did)
    ensures old(c.tick) <= c.tick <= old(c.tick) + 10
    ensures forall l :: l in did ==> l.Env? || l == Added(vm, e)
    ensures Kept(c.start, old(c.trail), did, vm, e)
    ensures r.Err? ==> r.kind == Timeout
    ensures Undisturbed(c.plan, old(c.tick), vm, e.name) && vm in old(c.now).vms ==>
            var end := Attempts(c.plan, old(c.tick), SpecHot(old(c.now), vm, e.name), 5);
            && (r.Ok? <==> end.Some?)
            && (r.Ok? ==> end == Some(c.tick) && SpecHot(c.now, vm, e.name))
            && (r.Ok? ==> SameMachine(old(c.now), c.now, vm, e.name))
            && (r.Err? ==> Failed(c.plan, old(c.tick), c.tick, 5))
  {
    hide Apply, Replay, Cluster.Planned, Failed, Undisturbed, Kept, SpecHot, NoneLeaving, Attempted;
    c.Unmoved();
    did := [];
    ghost var s, n, steady := c.now, c.tick, Undisturbed(c.plan, c.tick, vm, e.name) && vm in c.now.vms;
    StartRetrying(c.plan, n, s, vm, e.name);
    EnvKeeps(c.start, c.trail, did, vm, e);
    for step := 0 to BACKOFF_STEPS
      invariant c.Valid() && c.Grew(s, old(c.trail), did) && n <= c.tick <= n + 2 * step
      invariant forall l :: l in did ==> l.Env? || l == Added(vm, e)
      invariant Kept(c.start, old(c.trail), did, vm, e)
      invariant steady ==> vm in c.now.vms
      invariant steady ==> Retrying(c.plan, n, c.tick, s, c.now, 5 - step, vm, e.name)
    {
      ghost var d, m, s' := [], c.tick, c.now;
      if steady { UndisturbedLater(c.plan, n, m, vm, e.name); }
      r, d := AddVolumeToVm(c, vm, e);
      c.Chain(s, old(c.trail), did, d);
      KeptChain(c.start, old(c.trail), did, d, vm, e);
      did := did + d;
      if steady { Retried(c.plan, n, m, c.tick, s, s', c.now, r.Ok?, 5 - step, vm, e.name); }
      if r.Ok? {
        return;
      }
    }
    r := Err(Timeout);
  }

  /** The machine runs undisturbed, the backoff's attempts do not all fail, and from its end
      on calls succeed and the volume is synced in time. */
  ghost predicate PlugsInTime(c: Cluster, n: nat, lag: nat, s: Infra, vm: string, vol: string) {
    && vm in s.vms && vm in s.vmis && Undisturbed(c.plan, n, vm, vol)
    && var end := Attempts(c.plan, n, SpecHot(s, vm, vol), 5);
    end.Some? && AttachInTime(c, end.value, lag, s, vm, vol)
  }

  /** Without failed calls that is: running, and synced in time. */
  lemma CalmPlugs(c: Cluster, n: nat, m: nat, lag: nat, s: Infra, vm: string, vol: string)
    requires n <= m && vm in s.vms && vm in s.vmis && AttachInTime(c, n, lag, s, vm, vol)
    ensures PlugsInTime(c, m, lag, s, vm, vol)
  {
    CalmAttempts(c.plan, m, SpecHot(s, vm, vol), vm, vol);
  }

  /** The slow path: add the volume, then wait until the VMI reports it ready. */
  method HotPlug(c: Cluster, vm: string, e: SpecVolume, ghost lag: nat) returns (r: Result<()>, ghost did: seq<Label>)
    requires c.Valid() && e.Hot()
    modifies c
    ensures c.Valid() && c.Grew(old(c.now), old(c.trail), did) && c.tick >= old(c.tick)
    ensures forall l :: l in did ==> l.Env? || l == Added(vm, e)
    ensures Kept(c.start, old(c.trail), did, vm, e)
    ensures r.Ok? ==> SawReady(old(c.now), did, vm, e.name) && SpecBacks(c.now, vm, e.name)
    ensures r.Err? ==> r.kind != FailedPrecondition
    ensures PlugsInTime(c, old(c.tick), lag, old(c.now), vm, e.name) ==> r.Ok?
  {
    hide Apply, Replay, Cluster.Planned, Kept, NoneLeaving, Attempts, Undisturbed;
    r, did := AddWithBackoff(c, vm, e);
    if r.Err? {
      return;
    }
    ghost var d, t := [], c.trail;
    r, d := EnsureVolumeAvailable(c, vm, e.name, lag);
    c.Chain(old(c.now), old(c.trail), did, d);
    EnvKeeps(c.start, t, d, vm, e);
    KeptChain(c.start, old(c.trail), did, d, vm, e);
    if r.Ok? { SawReadyExtends(old(c.now), did, d, vm, e.name); }
    did := did + d;
  }

  /** What a publish keeps once its guard is passed. */
  ghost predicate Careful(start: Infra, t: seq<Label>, did: seq<Label>, vm: string, e: SpecVolume) {
    var s, s' := Replay(start, t), Replay(start, t + did);
    && (Serial(did, e.name) && Guarded(start, t, e.name) ==> Guarded(start, t + did, e.name))
    && (Cleared(t, e.name) == Some(vm) && Screened(start, t, e.name) ==> Screened(start, t + did, e.name))
    && (SpecQuiet(did) ==>
          s'.vms == s.vms || (!SpecBacks(s, vm, e.name) && vm in s.vms && s'.vms == s.vms[vm := s.vms[vm] + [e]]))
  }

  /** Reads alone are careful, and so are adds after a read that found nothing backed. */
  lemma CarefulPaths(start: Infra, t: seq<Label>, env: seq<Label>, more: seq<Label>, vm: string, e: SpecVolume)
    requires AllEnv(env) && e.Hot()
    ensures Careful(start, t, env, vm, e)
    ensures !SpecBacks(Replay(start, t + env), vm, e.name) && Kept(start, t + env, more, vm, e) ==>
            Careful(start, t, env + more, vm, e)
  {
    hide Apply, Replay;
    EnvKeeps(start, t, env, vm, e);
    Unconcerned(start, t, env, e.name);
    ReplayConcat(start, t, env);
    assert t + env + more == t + (env + more);
    if SpecQuiet(env) { QuietSpecs(Replay(start, t), env); }
    if SpecQuiet(env + more) { assert SpecQuiet(env) && SpecQuiet(more); }
    if Serial(env + more, e.name) { assert Serial(env, e.name) && Serial(more, e.name); }
  }

  /** What the lookups find in a state that calm turns leave alone. */
  ghost function Verdict(s: Infra, cfg: Config, vm: string, vol: string): Result<bool> {
    if vol !in s.dvs then Err(NotFound)
    else if !Owned(cfg, vol, s.dvs[vol].labels) then Err(Other)
    else if vm !in s.vms then Err(NotFound)
    else Ok(SpecBacks(s, vm, vol))
  }

  lemma SameForSame(s: Infra, vm: string, vol: string)
    ensures SameFor(s, s, vm, vol)
  {
  }

  /** A calm turn's read succeeds and keeps what the lookups look at. */
  lemma CalmLookUp(c: Cluster, t: nat, s0: Infra, s: Infra, vm: string, vol: string)
    requires CalmTurn(c.plan(t), vm, vol) && SameFor(s0, s, vm, vol)
    ensures c.plan(t).fate.Succeeds?
    ensures var s' := Replay(s, c.Before(t));
            && SameFor(s0, s', vm, vol)
            && (vm in s'.vms <==> vm in s0.vms) && (SpecBacks(s', vm, vol) <==> SpecBacks(s0, vm, vol))
            && (vol in s'.dvs <==> vol in s0.dvs) && (vol in s0.dvs ==> s'.dvs[vol] == s0.dvs[vol])
  {
    hide Apply, Replay, Cluster.Planned, CalmRun, SpecBacks, SpecNames, SpecHot, HeldOnlyBy, NoneLeaving;
    CalmBefore(c, t, vm, vol);
    CalmKeeps(s, c.Before(t), vm, vol);
  }

  /** The lookups after the guard; `attached` is the fast path's answer. */
  method LookUp(c: Cluster, cfg: Config, vm: string, vol: string)
    returns (attached: Result<bool>, ghost did: seq<Label>)
    requires c.Valid()
    modifies c
    ensures c.Valid() && c.Grew(old(c.now), old(c.trail), did) && c.tick >= old(c.tick) && AllEnv(did)
    ensures attached.Ok? ==> attached.value == SpecBacks(c.now, vm, vol) && c.tick == old(c.tick) + LOOKUPS
    ensures attached.Err? ==> attached.kind != FailedPrecondition
    ensures CalmFor(c.plan, old(c.tick), LOOKUPS, vm, vol) ==> SameFor(old(c.now), c.now, vm, vol)
    ensures CalmFor(c.plan, old(c.tick), LOOKUPS, vm, vol) ==> attached == Verdict(old(c.now), cfg, vm, vol)
  {
    hide Apply, Replay, Cluster.Planned, CalmTurn, Owned, SpecBacks, SameFor, CalmRun;
    ghost var s, n := c.now, c.tick;
    ghost var calm, s1 := CalmFor(c.plan, n, LOOKUPS, vm, vol), s;
    SameForSame(s, vm, vol);
    var dv;
    dv, did := GetDataVolume(c, cfg, vol);
    if calm { CalmLookUp(c, n, s, s, vm, vol); }
    if dv.Err? {
      return Err(dv.kind), did;
    }
    s1 := c.now;
    var machine;
    ghost var d;
    machine, d := c.GetVm(vm);
    c.Chain(s, old(c.trail), did, d);
    did := did + d;
    if calm { CalmLookUp(c, n + 1, s, s1, vm, vol); }
    if machine.Err? {
      return Err(machine.kind), did;
    }
    s1 := c.now;
    attached, d := EnsureVolumeAvailableVm(c, vm, vol);
    c.Chain(s, old(c.trail), did, d);
    did := did + d;
    if calm { CalmLookUp(c, n + 2, s, s1, vm, vol); }
  }

  /** The outcome follows the verdict: its error, a fast path without a write, or an attach,
      from turn `n` on, that succeeds when it can be plugged in time. */
  ghost predicate Follows(c: Cluster, n: nat, s: Infra, cfg: Config, r: Result<()>, did: seq<Label>,
                          vm: string, vol: string, lag: nat)
  {
    match Verdict(s, cfg, vm, vol)
    case Err(kind) => r == Err(kind) && NoAdd(did)
    case Ok(true) => r.Ok? && NoAdd(did)
    case Ok(false) => PlugsInTime(c, n, lag, s, vm, vol) ==> r.Ok?
  }

  lemma PlugsAfter(c: Cluster, n: nat, lag: nat, s: Infra, s': Infra, vm: string, vol: string)
    requires SameFor(s, s', vm, vol) && PlugsInTime(c, n, lag, s, vm, vol)
    ensures PlugsInTime(c, n, lag, s', vm, vol)
  {
  }

  /** ControllerPublishVolume from its lookups on. */
  method AttachTo(c: Cluster, cfg: Config, vm: string, req: PublishRequest, ghost lag: nat)
    returns (r: Result<()>, ghost did: seq<Label>)
    requires c.Valid()
    modifies c
    ensures r.Ok? ==> c.tick >= old(c.tick) + LOOKUPS
    ensures c.Valid() && c.Grew(old(c.now), old(c.trail), did) && c.tick >= old(c.tick)
    ensures forall l :: l in did ==> l.Env? || l == Added(vm, HotPlugOf(req))
    ensures Careful(c.start, old(c.trail), did, vm, HotPlugOf(req))
    ensures r.Ok? ==> (NoAdd(did) || SawReady(old(c.now), did, vm, req.volume)) && SpecBacks(c.now, vm, req.volume)
    ensures r.Err? ==> r.kind != FailedPrecondition
    ensures CalmFor(c.plan, old(c.tick), LOOKUPS, vm, req.volume) ==>
            Follows(c, old(c.tick) + LOOKUPS, old(c.now), cfg, r, did, vm, req.volume, lag)
  {
    hide Apply, Replay, Cluster.Planned, CalmFor, SameFor, PlugsInTime, Careful, Kept, SpecBacks;
    ghost var t, s, n := c.trail, c.now, c.tick;
    var attached;
    attached, did := LookUp(c, cfg, vm, req.volume);
    ghost var d := [];
    CarefulPaths(c.start, t, did, d, vm, HotPlugOf(req));
    if attached.Err? {
      return Err(attached.kind), did;
    }
    if attached.value {
      return Ok(()), did;
    }
    if CalmFor(c.plan, n, LOOKUPS, vm, req.volume) && PlugsInTime(c, n + LOOKUPS, lag, s, vm, req.volume) {
      PlugsAfter(c, n + LOOKUPS, lag, s, c.now, vm, req.volume);
    }
    r, d := HotPlug(c, vm, HotPlugOf(req), lag);
    c.Chain(s, t, did, d);
    CarefulPaths(c.start, t, did, d, vm, HotPlugOf(req));
    if r.Ok? { SawReadyExtends(s, did, d, vm, req.volume); }
    did := did + d;
  }

  /** The start state lets the call pass its guard: for a single-node mode nobody else
      holds the volume. */
  ghost predicate GuardPasses(s: Infra, vm: string, req: PublishRequest) {
    IsRwx(req.mode) == Ok(true) || (IsRwx(req.mode) == Ok(false) && HeldOnlyBy(s, vm, req.volume))
  }

  lemma GuardInCalm(c: Cluster, n: nat, s: Infra, vm: string, vol: string)
    ensures CalmTurn(c.plan(n), vm, vol) ==>
            var s' := Replay(s, c.Before(n));
            && c.plan(n).fate.Succeeds? && SameFor(s, s', vm, vol)
            && (HeldOnlyBy(s, vm, vol) ==> ReportedOnlyBy(s', vm, vol))
  {
    hide Apply, Replay, Cluster.Planned;
    if CalmTurn(c.plan(n), vm, vol) {
      CalmBefore(c, n, vm, vol);
      CalmKeeps(s, c.Before(n), vm, vol);
      if HeldOnlyBy(s, vm, vol) { UnheldUnreported(Replay(s, c.Before(n)), vm, vol); }
    }
  }

  /** What reads (`env`) before the guard, and a guard passed after them, do to a run. */
  lemma GuardReads(start: Infra, t: seq<Label>, env: seq<Label>, vol: string)
    requires AllEnv(env)
    ensures Guarded(start, t, vol) ==> Guarded(start, t + env, vol)
    ensures Screened(start, t, vol) ==> Screened(start, t + env, vol)
    ensures SpecQuiet(env) ==> Replay(Replay(start, t), env).vms == Replay(start, t).vms
  {
    hide Apply, Replay;
    Unconcerned(start, t, env, vol);
    if SpecQuiet(env) { QuietSpecs(Replay(start, t), env); }
  }

  lemma GuardPassed(start: Infra, t: seq<Label>, env: seq<Label>, vol: string, vm: string)
    requires AllEnv(env) && ReportedOnlyBy(Replay(start, t + env), vm, vol)
    ensures var t', s := t + env + [Listed(vol, vm)], Replay(start, t);
            && (Guarded(start, t, vol) ==> Guarded(start, t', vol))
            && (Screened(start, t, vol) ==> Screened(start, t', vol))
            && Cleared(t', vol) == Some(vm)
            && Replay(s, env + [Listed(vol, vm)]) == Replay(s, env)
            && (SpecQuiet(env + [Listed(vol, vm)]) ==> Replay(s, env).vms == s.vms)
  {
    hide Apply, Replay;
    GuardReads(start, t, env, vol);
    Snoc(start, t + env, Listed(vol, vm), vol);
    ReplaySnoc(Replay(start, t), env, Listed(vol, vm));
    GuardChangesNothing(Replay(Replay(start, t), env), Listed(vol, vm));
    if SpecQuiet(env + [Listed(vol, vm)]) { assert SpecQuiet(env); }
  }

  /** The single-node guard. */
  method Guard(c: Cluster, vm: string, vol: string) returns (r: Result<()>, ghost did: seq<Label>)
    requires c.Valid()
    modifies c
    ensures c.Valid() && c.Grew(old(c.now), old(c.trail), did) && c.tick == old(c.tick) + 1
    ensures r.Ok? || r == Err(FailedPrecondition)
    ensures r.Err? <==>
            !c.plan(old(c.tick)).fate.Succeeds? || !ReportedOnlyBy(Replay(old(c.now), c.Before(old(c.tick))), vm, vol)
    ensures did == if r.Ok? then c.Before(old(c.tick)) + [Listed(vol, vm)] else c.Before(old(c.tick))
    ensures Guarded(c.start, old(c.trail), vol) ==> Guarded(c.start, c.trail, vol)
    ensures Screened(c.start, old(c.trail), vol) ==> Screened(c.start, c.trail, vol)
    ensures r.Ok? ==> Cleared(c.trail, vol) == Some(vm)
    ensures SpecQuiet(did) ==> c.now.vms == old(c.now).vms
    ensures CalmTurn(c.plan(old(c.tick)), vm, vol) ==>
            SameFor(old(c.now), c.now, vm, vol) && (HeldOnlyBy(old(c.now), vm, vol) ==> r.Ok?)
  {
    hide Apply, Replay, Cluster.Planned, SameFor, ReportedOnlyBy, HeldOnlyBy, CalmTurn;
    hide Guarded, Screened, Cleared, SpecQuiet;
    ghost var s, t := c.now, c.trail;
    var elsewhere;
    elsewhere, did := AttachedElsewhere(c, vol, vm);
    GuardReads(c.start, t, did, vol);
    GuardInCalm(c, old(c.tick), s, vm, vol);
    if elsewhere.Err? || elsewhere.value {
      return Err(FailedPrecondition), did;
    }
    ReplayConcat(c.start, t, did);
    GuardPassed(c.start, t, did, vol, vm);
    assert t + did + [Listed(vol, vm)] == t + (did + [Listed(vol, vm)]);
    did := c.Mark(did, s, t, vol, vm);
    r := Ok(());
  }

  /** What a publish leaves behind, whatever its result: only guards and adds for its own
      machine and volume; the discipline of its volume, screened for single-node modes; and,
      when nobody else edits specs, at most one appended entry. */
  ghost predicate PublishLeaves(start: Infra, t: seq<Label>, did: seq<Label>, vm: string, req: PublishRequest) {
    var e, s, s' := HotPlugOf(req), Replay(start, t), Replay(start, t + did);
    && PublishSteps(did, vm, e)
    && (Serial(did, e.name) && Guarded(start, t, e.name) ==> Guarded(start, t + did, e.name))
    && (IsRwx(req.mode) == Ok(false) && Screened(start, t, e.name) ==> Screened(start, t + did, e.name))
    && (SpecQuiet(did) ==>
          s'.vms == s.vms || (!SpecBacks(s, vm, e.name) && vm in s.vms && s'.vms == s.vms[vm := s.vms[vm] + [e]]))
  }

  lemma PublishLeavesSteps(start: Infra, t: seq<Label>, did: seq<Label>, vm: string, req: PublishRequest)
    requires PublishLeaves(start, t, did, vm, req)
    ensures PublishSteps(did, vm, HotPlugOf(req))
  {
  }

  lemma GuardOnlyLeaves(start: Infra, t: seq<Label>, guard: seq<Label>, vm: string, req: PublishRequest)
    requires PublishSteps(guard, vm, HotPlugOf(req))
    requires Guarded(start, t, req.volume) ==> Guarded(start, t + guard, req.volume)
    requires Screened(start, t, req.volume) ==> Screened(start, t + guard, req.volume)
    requires Replay(start, t + guard).vms == Replay(start, t).vms || !SpecQuiet(guard)
    ensures PublishLeaves(start, t, guard, vm, req)
  {
    hide Apply, Replay;
  }

  lemma GuardedPublishLeaves(start: Infra, t: seq<Label>, guard: seq<Label>, did: seq<Label>,
                             vm: string, req: PublishRequest)
    requires PublishSteps(guard, vm, HotPlugOf(req)) && NoAdd(guard)
    requires Guarded(start, t, req.volume) ==> Guarded(start, t + guard, req.volume)
    requires Screened(start, t, req.volume) ==> Screened(start, t + guard, req.volume)
    requires IsRwx(req.mode) == Ok(false) ==> Cleared(t + guard, req.volume) == Some(vm)
    requires Replay(start, t + guard).vms == Replay(start, t).vms || !SpecQuiet(guard)
    requires PublishSteps(did, vm, HotPlugOf(req)) && Careful(start, t + guard, did, vm, HotPlugOf(req))
    ensures PublishLeaves(start, t, guard + did, vm, req)
  {
    hide Apply, Replay;
    assert t + guard + did == t + (guard + did);
    if Serial(guard + did, req.volume) { assert Serial(did, req.volume); }
    if SpecQuiet(guard + did) { assert SpecQuiet(guard) && SpecQuiet(did); }
  }

  lemma FollowsAfterGuard(c: Cluster, n: nat, s: Infra, s': Infra, cfg: Config, r: Result<()>,
                          guard: seq<Label>, did: seq<Label>, vm: string, vol: string, lag: nat)
    requires SameFor(s, s', vm, vol) && NoAdd(guard)
    requires Follows(c, n, s', cfg, r, did, vm, vol, lag)
    ensures Follows(c, n, s, cfg, r, guard + did, vm, vol, lag)
  {
    hide PlugsInTime;
    if PlugsInTime(c, n, lag, s, vm, vol) { PlugsAfter(c, n, lag, s, s', vm, vol); }
  }

  /** How many calls a publish makes before it starts to plug. */
  function Reads(req: PublishRequest): nat {
    LOOKUPS + if IsRwx(req.mode) == Ok(false) then 1 else 0
  }

  lemma ReadsCalm(plan: nat -> Turn, n: nat, vm: string, req: PublishRequest)
    requires CalmFor(plan, n, Reads(req), vm, req.volume)
    ensures if IsRwx(req.mode) == Ok(false)
            then CalmTurn(plan(n), vm, req.volume) && CalmFor(plan, n + 1, LOOKUPS, vm, req.volume)
            else CalmFor(plan, n, LOOKUPS, vm, req.volume)
  {
  }

  method ControllerPublishVolume(c: Cluster, cfg: Config, req: PublishRequest, ghost lag: nat)
    returns (r: Result<()>, ghost did: seq<Label>)
    requires c.Valid()
    modifies c
    ensures r.Ok? ==> c.tick >= old(c.tick) + LOOKUPS
    ensures c.Valid() && c.Grew(old(c.now), old(c.trail), did) && c.tick >= old(c.tick)
    ensures TargetOf(req.volume, req.node).Err? ==> r == Err(TargetOf(req.volume, req.node).kind) && did == []
    ensures TargetOf(req.volume, req.node).Ok? && req.mode.Unknown? ==> r == Err(Other) && did == []
    // the only writes: the target gets an entry for the volume's own DataVolume
    ensures forall l :: l in did && l.Added? ==>
              && TargetOf(req.volume, req.node) == Ok(l.vm)
              && l.entry.name == req.volume && !l.entry.pvc && l.entry.dv == Some(DvRef(req.volume, true))
              && l.entry.serial == req.serial && l.entry.bus == req.bus
    ensures forall l :: l in did ==> l.Env? || l.Listed? || l.Added?
    ensures TargetOf(req.volume, req.node).Ok? ==>
            var vm := TargetOf(req.volume, req.node).value;
            && PublishLeaves(c.start, old(c.trail), did, vm, req)
            && (r.Ok? ==> SpecBacks(c.now, vm, req.volume))
            && (r.Ok? ==> NoAdd(did) || SawReady(old(c.now), did, vm, req.volume))
    // the guard's verdict, exactly
    ensures TargetOf(req.volume, req.node).Ok? ==>
            var vm := TargetOf(req.volume, req.node).value;
            var seen := Replay(old(c.now), c.Before(old(c.tick)));
            && (r == Err(FailedPrecondition) <==>
                  req.mode in SINGLE_NODE_MODES &&
                  (!c.plan(old(c.tick)).fate.Succeeds? || !ReportedOnlyBy(seen, vm, req.volume)))
            && (CalmTurn(c.plan(old(c.tick)), vm, req.volume) && GuardPasses(old(c.now), vm, req) ==>
                  r != Err(FailedPrecondition))
            && (IsRwx(req.mode) == Ok(false) ==> c.Before(old(c.tick)) <= did)
    ensures r == Err(FailedPrecondition) ==> AllEnv(did)
    // verdict, idempotence and progress once the guard is passed
    ensures TargetOf(req.volume, req.node).Ok? && IsRwx(req.mode).Ok? && r != Err(FailedPrecondition) ==>
            var vm := TargetOf(req.volume, req.node).value;
            CalmFor(c.plan, old(c.tick), Reads(req), vm, req.volume) ==>
            Follows(c, old(c.tick) + Reads(req), old(c.now), cfg, r, did, vm, req.volume, lag)
  {
    hide Apply, Replay, Cluster.Planned, Follows, SameFor, PublishLeaves, Careful, SpecBacks, Guarded, Screened, Serial;
    hide ReportedOnlyBy, HeldOnlyBy, CalmTurn, CalmFor;
    ModesApart(req.mode);
    c.Unmoved();
    did := [];
    if req.volume == "" || req.node == "" {
      return Err(InvalidArgument), did;
    }
    var key := Codecs.SplitKey(req.node);
    if key.Err? {
      return Err(key.kind), did;
    }
    var vm := key.value.1;
    ghost var t, d := c.trail, [];
    assert t + [] == t;
    var rwx := IsRwx(req.mode);
    if rwx.Err? {
      GuardOnlyLeaves(c.start, t, did, vm, req);
      return Err(rwx.kind), did;
    }
    if !rwx.value {
      r, did := Guard(c, vm, req.volume);
      if r.Err? {
        GuardOnlyLeaves(c.start, t, did, vm, req);
        return;
      }
    }
    ghost var guard, n, s := did, c.tick, c.now;
    r, d := AttachTo(c, cfg, vm, req, lag);
    c.Chain(old(c.now), t, did, d);
    if r.Ok? && !NoAdd(d) { SawReadyExtends(old(c.now), did, d, vm, req.volume); }
    did := did + d;
    SameForSame(old(c.now), vm, req.volume);
    if CalmFor(c.plan, old(c.tick), Reads(req), vm, req.volume) {
      ReadsCalm(c.plan, old(c.tick), vm, req);
      FollowsAfterGuard(c, n + LOOKUPS, old(c.now), s, cfg, r, guard, d, vm, req.volume, lag);
    }
    GuardedPublishLeaves(c.start, t, guard, d, vm, req);
  }
}
