/** The two surfaces that can hold a volume, VM.spec and VMI.status, over a run of steps. */
module Surfaces {
  import opened Infra

  datatype Surface = OnSpec | OnStatus

  predicate Clear(k: Surface, s: Infra, vm: string, vol: string) {
    match k
    case OnSpec => !SpecBacks(s, vm, vol)
    case OnStatus => !StatusHot(s, vm, vol)
  }

  /** Some state along the run had the surface clear. */
  ghost predicate Saw(k: Surface, s: Infra, run: seq<Label>, vm: string, vol: string) {
    exists i :: 0 <= i <= |run| && Clear(k, Replay(s, run[..i]), vm, vol)
  }

  /** Someone puts the volume into the machine's spec. */
  predicate GainsSpec(l: Label, vm: string, vol: string) {
    match l
    case Env(CreateVm(m, vols)) => m == vm && Names(vols, vol)
    case Env(OtherAdds(m, e)) => m == vm && e.name == vol
    case Added(m, e) => m == vm && e.name == vol
    case _ => false
  }

  predicate NoSpecGain(run: seq<Label>, vm: string, vol: string) {
    forall l :: l in run ==> !GainsSpec(l, vm, vol)
  }

  /** Some state along the run had the volume reported ready. */
  ghost predicate SawReady(s: Infra, run: seq<Label>, vm: string, vol: string) {
    exists i :: 0 <= i <= |run| && StatusReady(Replay(s, run[..i]), vm, vol)
  }

  lemma ReadyNow(s: Infra, run: seq<Label>, vm: string, vol: string)
    requires StatusReady(Replay(s, run), vm, vol)
    ensures SawReady(s, run, vm, vol)
  {
    assert run[..|run|] == run;
  }

  lemma SawReadyExtends(s: Infra, a: seq<Label>, b: seq<Label>, vm: string, vol: string)
    requires SawReady(s, a, vm, vol) || SawReady(Replay(s, a), b, vm, vol)
    ensures SawReady(s, a + b, vm, vol)
  {
    hide Apply, StatusReady;
    if SawReady(s, a, vm, vol) {
      var i :| 0 <= i <= |a| && StatusReady(Replay(s, a[..i]), vm, vol);
      assert (a + b)[..i] == a[..i];
    } else {
      var i :| 0 <= i <= |b| && StatusReady(Replay(Replay(s, a), b[..i]), vm, vol);
      assert (a + b)[..|a| + i] == a + b[..i];
      ReplayConcat(s, a, b[..i]);
    }
  }

  lemma SawNow(k: Surface, s: Infra, run: seq<Label>, vm: string, vol: string)
    requires Clear(k, Replay(s, run), vm, vol)
    ensures Saw(k, s, run, vm, vol)
  {
    assert run[..|run|] == run;
  }

  lemma SawExtends(k: Surface, s: Infra, a: seq<Label>, b: seq<Label>, vm: string, vol: string)
    requires Saw(k, s, a, vm, vol) || Saw(k, Replay(s, a), b, vm, vol)
    ensures Saw(k, s, a + b, vm, vol)
  {
    hide Apply, Replay, Clear;
    if Saw(k, s, a, vm, vol) {
      var i :| 0 <= i <= |a| && Clear(k, Replay(s, a[..i]), vm, vol);
      assert (a + b)[..i] == a[..i];
    } else {
      var i :| 0 <= i <= |b| && Clear(k, Replay(Replay(s, a), b[..i]), vm, vol);
      assert (a + b)[..|a| + i] == a + b[..i];
      ReplayConcat(s, a, b[..i]);
    }
  }

  lemma StatusHotStep(s: Infra, l: Label, vm: string, vol: string)
    requires !StatusHot(s, vm, vol) && (l != Env(SyncAttach(vm, vol)) || !SpecHot(s, vm, vol))
    ensures !StatusHot(Apply(s, l), vm, vol)
  {
    hide DvsAfter, SnapsAfter, ClaimsAfter, PvsAfter, SpecsAfter;
    match l
    case Env(MarkReady(m, w)) =>
    case Env(SyncAttach(m, w)) =>
    case Env(SyncDetach(m, w)) =>
    case RemovedFromVmi(m, w) =>
    case _ =>
  }

  lemma StatusNamesStep(s: Infra, l: Label, vm: string, vol: string)
    requires !StatusNames(s, vm, vol) && (l != Env(SyncAttach(vm, vol)) || !SpecNames(s, vm, vol))
    ensures !StatusNames(Apply(s, l), vm, vol)
  {
    hide DvsAfter, SnapsAfter, ClaimsAfter, PvsAfter, SpecsAfter;
    match l
    case Env(MarkReady(m, w)) =>
    case Env(SyncAttach(m, w)) =>
    case Env(SyncDetach(m, w)) =>
    case RemovedFromVmi(m, w) =>
    case _ =>
  }

  lemma SpecStep(s: Infra, l: Label, vm: string, vol: string)
    requires !GainsSpec(l, vm, vol)
    ensures !SpecBacks(s, vm, vol) ==> !SpecBacks(Apply(s, l), vm, vol)
    ensures !SpecNames(s, vm, vol) ==> !SpecNames(Apply(s, l), vm, vol)
    ensures !SpecHot(s, vm, vol) ==> !SpecHot(Apply(s, l), vm, vol)
    ensures HotOnly(s, vm, vol) ==> HotOnly(Apply(s, l), vm, vol)
  {
    hide DvsAfter, SnapsAfter, ClaimsAfter, PvsAfter, StatusesAfter;
    match l
    case Env(CreateVm(m, vols)) =>
    case Env(OtherAdds(m, e)) =>
    case Env(OtherRemoves(m, w)) =>
    case Added(m, e) =>
    case RemovedFromVm(m, w) =>
    case _ =>
  }

  /** Once the spec does not hot-plug the volume, syncing cannot bring it back as a hot-plug. */
  lemma {:induction false} UnhotStays(s: Infra, run: seq<Label>, vm: string, vol: string)
    requires !SpecHot(s, vm, vol) && NoSpecGain(run, vm, vol)
    ensures !SpecHot(Replay(s, run), vm, vol)
    ensures !SpecBacks(s, vm, vol) ==> !SpecBacks(Replay(s, run), vm, vol)
    ensures !StatusHot(s, vm, vol) ==> !StatusHot(Replay(s, run), vm, vol)
  {
    hide Apply;
    if run != [] {
      var front, last := run[..|run| - 1], run[|run| - 1];
      assert run == front + [last];
      assert last in run;
      UnhotStays(s, front, vm, vol);
      SpecStep(Replay(s, front), last, vm, vol);
      if !StatusHot(s, vm, vol) { StatusHotStep(Replay(s, front), last, vm, vol); }
    }
  }

  /** A surface seen clear, with nobody putting the volume into the spec, is clear at the
      end; the status needs a spec that did not hot-plug the volume to begin with. */
  lemma SeenClearIsClear(k: Surface, s: Infra, run: seq<Label>, vm: string, vol: string)
    requires Saw(k, s, run, vm, vol) && NoSpecGain(run, vm, vol)
    requires k == OnStatus ==> !SpecHot(s, vm, vol)
    ensures Clear(k, Replay(s, run), vm, vol)
  {
    hide Apply, Replay;
    var i :| 0 <= i <= |run| && Clear(k, Replay(s, run[..i]), vm, vol);
    assert run == run[..i] + run[i..];
    ReplayConcat(s, run[..i], run[i..]);
    if k == OnStatus { UnhotStays(s, run[..i], vm, vol); }
    UnhotStays(Replay(s, run[..i]), run[i..], vm, vol);
  }

  /** Once the spec does not name the volume, syncing cannot bring it back either. */
  lemma {:induction false} UnnamedStays(s: Infra, run: seq<Label>, vm: string, vol: string)
    requires !SpecNames(s, vm, vol) && NoSpecGain(run, vm, vol)
    ensures !SpecNames(Replay(s, run), vm, vol)
    ensures !StatusHot(s, vm, vol) ==> !StatusHot(Replay(s, run), vm, vol)
    ensures !StatusNames(s, vm, vol) ==> !StatusNames(Replay(s, run), vm, vol)
  {
    hide Apply;
    if run != [] {
      var front, last := run[..|run| - 1], run[|run| - 1];
      assert run == front + [last];
      assert last in run;
      UnnamedStays(s, front, vm, vol);
      SpecStep(Replay(s, front), last, vm, vol);
      if !StatusHot(s, vm, vol) { StatusHotStep(Replay(s, front), last, vm, vol); }
      if !StatusNames(s, vm, vol) { StatusNamesStep(Replay(s, front), last, vm, vol); }
    }
  }

  /** Only hot-plugged DataVolumes carry the volume's name in the machine's spec. */
  predicate HotOnly(s: Infra, vm: string, vol: string) {
    vm in s.vms ==> forall e :: e in s.vms[vm] && e.name == vol ==> e.Hot()
  }

  lemma {:induction false} HotOnlyStays(s: Infra, run: seq<Label>, vm: string, vol: string)
    requires HotOnly(s, vm, vol) && NoSpecGain(run, vm, vol)
    ensures HotOnly(Replay(s, run), vm, vol)
  {
    hide Apply;
    if run != [] {
      var front, last := run[..|run| - 1], run[|run| - 1];
      assert run == front + [last];
      assert last in run;
      HotOnlyStays(s, front, vm, vol);
      SpecStep(Replay(s, front), last, vm, vol);
    }
  }
}
