/** The infra cluster as a value: what the driver can read and write there, what
    KubeVirt and other actors do to it on their own, and what a whole run of such
    steps makes of it. */
module Infra {
  import opened Base

  // ----- Objects -----

  datatype DvRef = DvRef(dataVolume: string, hotpluggable: bool)

  /** A volume of VM.spec.template.spec.volumes with the disk of the same name. */
  datatype SpecVolume = SpecVolume(name: string, pvc: bool, dv: Option<DvRef>,
                                   serial: string, bus: string) {
    predicate Backed() { pvc || dv.Some? }
    predicate Hot() { dv.Some? && dv.value.hotpluggable }
  }

  /** An entry of VMI.status.volumeStatus. `managed`: it is there because VM.spec names
      it (false for volumes plugged at the VMI level only); `leaving`: its removal was
      requested at the VMI. */
  datatype StatusVolume = StatusVolume(name: string, serial: string, hotplug: bool,
                                       ready: bool, managed: bool, leaving: bool)

  datatype DvSource = Blank | FromSnapshot(name: string) | FromClaim(claim: string)

  /** `size` is None when the DataVolume has no spec.storage. */
  datatype DataVolume = DataVolume(uid: string, labels: map<string, string>, size: Option<int>,
                                   rwx: bool, storageClass: Option<string>, source: DvSource)

  /** `source` is None when the snapshot was not taken from a claim. */
  datatype Snapshot = Snapshot(source: Option<string>, labels: map<string, string>,
                               class_: Option<string>, ready: Option<bool>)

  datatype Claim = Claim(request: int, pv: string, labels: map<string, string>, storageClass: Option<string>)

  datatype Infra = Infra(vms: map<string, seq<SpecVolume>>, vmis: map<string, seq<StatusVolume>>,
                         dvs: map<string, DataVolume>, snaps: map<string, Snapshot>,
                         claims: map<string, Claim>, pvs: map<string, int>)

  // ----- Steps -----

  /** What happens between two API calls of the driver. */
  datatype EnvAction =
    | SyncAttach(vm: string, vol: string)
    | MarkReady(vm: string, vol: string)
    | SyncDetach(vm: string, vol: string)
    | CreateVm(vm: string, vols: seq<SpecVolume>)
    | DeleteVm(vm: string)
    | StartVmi(vm: string)
    | DeleteVmi(vm: string)
    | OtherAdds(vm: string, entry: SpecVolume)
    | OtherRemoves(vm: string, vol: string)
    | OtherDv(name: string, dv: Option<DataVolume>)
    | SnapStatus(name: string, ready: Option<bool>)
    | OtherSnap(name: string, snap: Option<Snapshot>)
    | PvCapacity(pv: string, bytes: int)
    | OtherClaim(name: string, claim: Option<Claim>)

  /** One step of a run: an environment action, a write of the driver that took effect
      (whether or not its call reported success), or `Listed`, the moment a publish saw
      the volume in the status of no VMI but the target's. */
  datatype Label =
    | Env(act: EnvAction)
    | Listed(vol: string, vm: string)
    | Added(vm: string, entry: SpecVolume)
    | RemovedFromVm(vm: string, vol: string)
    | RemovedFromVmi(vm: string, vol: string)
    | DvCreated(name: string, dv: DataVolume)
    | DvDeleted(name: string)
    | SnapCreated(name: string, snap: Snapshot)
    | SnapDeleted(name: string)
    | ClaimPatched(name: string, bytes: int)

  predicate Names(vols: seq<SpecVolume>, vol: string) {
    exists e :: e in vols && e.name == vol
  }

  predicate Reports(status: seq<StatusVolume>, vol: string) {
    exists e :: e in status && e.name == vol
  }

  function First(vols: seq<SpecVolume>, vol: string): (e: SpecVolume)
    requires Names(vols, vol)
    ensures e in vols && e.name == vol
  {
    if vols[0].name == vol then vols[0]
    else
      assert Names(vols[1..], vol) by {
        var e :| e in vols && e.name == vol;
        assert e in vols[1..];
      }
      First(vols[1..], vol)
  }

  function Without(vols: seq<SpecVolume>, vol: string): (r: seq<SpecVolume>)
    ensures forall e :: e in r <==> e in vols && e.name != vol
  {
    if vols == [] then []
    else if vols[0].name == vol then Without(vols[1..], vol)
    else [vols[0]] + Without(vols[1..], vol)
  }

  function MarkedReady(e: StatusVolume, vol: string): StatusVolume {
    if e.name == vol then e.(ready := true) else e
  }

  function Readied(status: seq<StatusVolume>, vol: string): (r: seq<StatusVolume>)
    ensures forall e :: e in status ==> MarkedReady(e, vol) in r
    ensures forall e :: e in r ==> exists d :: d in status && e == MarkedReady(d, vol)
  {
    if status == [] then [] else [MarkedReady(status[0], vol)] + Readied(status[1..], vol)
  }

  function MarkedLeaving(e: StatusVolume, vol: string): StatusVolume {
    if e.name == vol then e.(leaving := true) else e
  }

  function Leaving(status: seq<StatusVolume>, vol: string): (r: seq<StatusVolume>)
    ensures forall e :: e in status ==> MarkedLeaving(e, vol) in r
    ensures forall e :: e in r ==> exists d :: d in status && e == MarkedLeaving(d, vol)
  {
    if status == [] then [] else [MarkedLeaving(status[0], vol)] + Leaving(status[1..], vol)
  }

  /** Unplugging finishes for an entry whose removal was requested at the VMI, or whose
      VM exists and no longer asks for it (`unasked`). */
  predicate Unpluggable(e: StatusVolume, unasked: bool) {
    e.leaving || (e.managed && unasked)
  }

  function Unplugged(status: seq<StatusVolume>, vol: string, unasked: bool): (r: seq<StatusVolume>)
    ensures forall e :: e in r <==> e in status && !(e.name == vol && Unpluggable(e, unasked))
  {
    if status == [] then []
    else if status[0].name == vol && Unpluggable(status[0], unasked) then Unplugged(status[1..], vol, unasked)
    else [status[0]] + Unplugged(status[1..], vol, unasked)
  }

  function Put<V>(m: map<string, V>, k: string, v: Option<V>): map<string, V> {
    if v.Some? then m[k := v.value] else m - {k}
  }

  type Specs = map<string, seq<SpecVolume>>
  type Statuses = map<string, seq<StatusVolume>>

  function SpecsAfter(vms: Specs, l: Label): Specs {
    match l
    case Env(CreateVm(vm, vols)) => if vm in vms then vms else vms[vm := vols]
    case Env(DeleteVm(vm)) => vms - {vm}
    case Env(OtherAdds(vm, entry)) => if vm in vms then vms[vm := vms[vm] + [entry]] else vms
    case Env(OtherRemoves(vm, vol)) => if vm in vms then vms[vm := Without(vms[vm], vol)] else vms
    case Added(vm, entry) => if vm in vms then vms[vm := vms[vm] + [entry]] else vms
    case RemovedFromVm(vm, vol) => if vm in vms then vms[vm := Without(vms[vm], vol)] else vms
    case _ => vms
  }

  function StatusesAfter(vms: Specs, vmis: Statuses, l: Label): Statuses {
    match l
    case Env(SyncAttach(vm, vol)) =>
      if vm in vms && vm in vmis && Names(vms[vm], vol) && !Reports(vmis[vm], vol) then
        var e := First(vms[vm], vol);
        vmis[vm := vmis[vm] + [StatusVolume(vol, e.serial, e.Hot(), false, true, false)]]
      else vmis
    case Env(MarkReady(vm, vol)) => if vm in vmis then vmis[vm := Readied(vmis[vm], vol)] else vmis
    case Env(SyncDetach(vm, vol)) =>
      if vm in vmis then
        vmis[vm := Unplugged(vmis[vm], vol, vm in vms && !Names(vms[vm], vol))]
      else vmis
    case Env(StartVmi(vm)) => if vm in vms && vm !in vmis then vmis[vm := []] else vmis
    case Env(DeleteVmi(vm)) => vmis - {vm}
    case RemovedFromVmi(vm, vol) => if vm in vmis then vmis[vm := Leaving(vmis[vm], vol)] else vmis
    case _ => vmis
  }

  function DvsAfter(dvs: map<string, DataVolume>, l: Label): map<string, DataVolume> {
    match l
    case Env(OtherDv(name, dv)) => Put(dvs, name, dv)
    case DvCreated(name, dv) => if name in dvs then dvs else dvs[name := dv]
    case DvDeleted(name) => dvs - {name}
    case _ => dvs
  }

  function SnapsAfter(snaps: map<string, Snapshot>, l: Label): map<string, Snapshot> {
    match l
    case Env(SnapStatus(name, ready)) =>
      if name in snaps then snaps[name := snaps[name].(ready := ready)] else snaps
    case Env(OtherSnap(name, snap)) => Put(snaps, name, snap)
    case SnapCreated(name, snap) => if name in snaps then snaps else snaps[name := snap]
    case SnapDeleted(name) => snaps - {name}
    case _ => snaps
  }

  function ClaimsAfter(claims: map<string, Claim>, l: Label): map<string, Claim> {
    match l
    case Env(OtherClaim(name, claim)) => Put(claims, name, claim)
    case ClaimPatched(name, bytes) =>
      if name in claims then claims[name := claims[name].(request := bytes)] else claims
    case _ => claims
  }

  function PvsAfter(pvs: map<string, int>, l: Label): map<string, int> {
    match l
    case Env(PvCapacity(pv, bytes)) => pvs[pv := bytes]
    case _ => pvs
  }

  function Apply(s: Infra, l: Label): Infra {
    Infra(SpecsAfter(s.vms, l), StatusesAfter(s.vms, s.vmis, l), DvsAfter(s.dvs, l),
          SnapsAfter(s.snaps, l), ClaimsAfter(s.claims, l), PvsAfter(s.pvs, l))
  }

  /** The state after a run of labels. */
  function Replay(s: Infra, run: seq<Label>): Infra {
    if run == [] then s else Apply(Replay(s, run[..|run| - 1]), run[|run| - 1])
  }

  lemma ReplaySnoc(s: Infra, run: seq<Label>, l: Label)
    ensures Replay(s, run + [l]) == Apply(Replay(s, run), l)
  {
    assert (run + [l])[..|run|] == run;
  }

  lemma {:induction false} ReplayConcat(s: Infra, a: seq<Label>, b: seq<Label>)
    ensures Replay(s, a + b) == Replay(Replay(s, a), b)
  {
    if b == [] {
      assert a + b == a;
    } else {
      var last := |b| - 1;
      ReplayConcat(s, a, b[..last]);
      assert (a + b)[..|a + b| - 1] == a + b[..last];
    }
  }

  // ----- What the surfaces say about a volume -----

  predicate SpecNames(s: Infra, vm: string, vol: string) {
    vm in s.vms && Names(s.vms[vm], vol)
  }

  predicate SpecBacks(s: Infra, vm: string, vol: string) {
    vm in s.vms && exists e :: e in s.vms[vm] && e.Backed() && e.name == vol
  }

  predicate SpecHot(s: Infra, vm: string, vol: string) {
    vm in s.vms && exists e :: e in s.vms[vm] && e.Hot() && e.name == vol
  }

  predicate StatusNames(s: Infra, vm: string, vol: string) {
    vm in s.vmis && Reports(s.vmis[vm], vol)
  }

  predicate StatusReady(s: Infra, vm: string, vol: string) {
    vm in s.vmis && exists e :: e in s.vmis[vm] && e.name == vol && e.ready
  }

  predicate StatusHot(s: Infra, vm: string, vol: string) {
    vm in s.vmis && exists e :: e in s.vmis[vm] && e.hotplug && e.name == vol
  }

  predicate AllEnv(run: seq<Label>) {
    forall l :: l in run ==> l.Env?
  }

  /** The environment's steps of a run. */
  function EnvOf(run: seq<Label>): (r: seq<Label>)
    ensures AllEnv(r)
  {
    if run == [] then []
    else EnvOf(run[..|run| - 1]) + if run[|run| - 1].Env? then [run[|run| - 1]] else []
  }

  lemma EnvOfSnoc(run: seq<Label>, l: Label)
    ensures EnvOf(run + [l]) == EnvOf(run) + if l.Env? then [l] else []
  {
    assert (run + [l])[..|run|] == run;
  }

  lemma EnvOfNone()
    ensures EnvOf([]) == []
  {
  }

  lemma {:induction false} EnvOfConcat(a: seq<Label>, b: seq<Label>)
    ensures EnvOf(a + b) == EnvOf(a) + EnvOf(b)
  {
    EnvOfNone();
    hide EnvOf;
    if b == [] {
      assert a + b == a;
    } else {
      var front, l := b[..|b| - 1], b[|b| - 1];
      EnvOfConcat(a, front);
      assert a + b == a + front + [l] && b == front + [l];
      EnvOfSnoc(a + front, l);
      EnvOfSnoc(front, l);
    }
  }

  lemma {:induction false} EnvOfEnv(run: seq<Label>)
    requires AllEnv(run)
    ensures EnvOf(run) == run
  {
    if run != [] {
      var front, l := run[..|run| - 1], run[|run| - 1];
      assert run == front + [l];
      assert l in run;
      EnvOfEnv(front);
    }
  }

  lemma {:induction false} InEnvOf(run: seq<Label>, l: Label)
    requires l in run && l.Env?
    ensures l in EnvOf(run)
  {
    var front, last := run[..|run| - 1], run[|run| - 1];
    assert run == front + [last];
    if l != last {
      InEnvOf(front, l);
    }
  }
}
