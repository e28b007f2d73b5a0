/** END-TO-END IDENTITY: the serial handed out by CreateVolume leads the node to the disk
    hot-plugged for that volume, through every publish, delete and re-create. */
module Identity {
  import opened Infra
  import opened Node

  /** The step brings a (name, serial) pair in from outside the driver: a DataVolume's UID
      from the API server, or the disk of some other VM volume. */
  predicate Introduces(l: Label, name: string, serial: string) {
    match l
    case DvCreated(n, dv) => n == name && dv.uid == serial
    case Env(OtherDv(n, dv)) => n == name && dv.Some? && dv.value.uid == serial
    case Env(CreateVm(_, vols)) => exists e :: e in vols && e.name == name && e.serial == serial
    case Env(OtherAdds(_, e)) => e.name == name && e.serial == serial
    case _ => false
  }

  predicate KnownAtStart(s: Infra, name: string, serial: string) {
    || (name in s.dvs && s.dvs[name].uid == serial)
    || OnSomeSpec(s, name, serial) || OnSomeStatus(s, name, serial)
  }

  predicate OnSomeSpec(s: Infra, name: string, serial: string) {
    exists vm :: vm in s.vms && exists e :: e in s.vms[vm] && e.name == name && e.serial == serial
  }

  predicate OnSomeStatus(s: Infra, name: string, serial: string) {
    exists vm :: vm in s.vmis && exists e :: e in s.vmis[vm] && e.name == name && e.serial == serial
  }

  /** The pair came from outside by the end of the run. */
  predicate Known(start: Infra, run: seq<Label>, name: string, serial: string) {
    KnownAtStart(start, name, serial) || exists l :: l in run && Introduces(l, name, serial)
  }

  /** Every disk the driver plugged carries a known pair, or no serial: its publish used the
      context of a create. */
  ghost predicate Provenance(start: Infra, run: seq<Label>) {
    run == [] ||
    var front, l := run[..|run| - 1], run[|run| - 1];
    && Provenance(start, front)
    && (l.Added? && l.entry.serial != "" ==> Known(start, front, l.entry.name, l.entry.serial))
  }

  /** UIDs are fresh: no serial stands for two names. */
  ghost predicate Unambiguous(start: Infra, run: seq<Label>) {
    forall a, b, serial :: serial != "" && Known(start, run, a, serial) && Known(start, run, b, serial) ==> a == b
  }

  lemma KnownGrows(start: Infra, run: seq<Label>, more: seq<Label>, name: string, serial: string)
    requires Known(start, run, name, serial)
    ensures Known(start, run + more, name, serial)
  {
    if !KnownAtStart(start, name, serial) {
      var l :| l in run && Introduces(l, name, serial);
      assert l in run + more;
    }
  }

  lemma {:induction false} ProvenanceGrows(start: Infra, run: seq<Label>, more: seq<Label>)
    requires Provenance(start, run)
    requires forall l :: l in more && l.Added? && l.entry.serial != "" ==>
               Known(start, run, l.entry.name, l.entry.serial)
    ensures Provenance(start, run + more)
  {
    hide Apply, Replay;
    if more == [] {
      assert run + more == run;
    } else {
      var front, l := more[..|more| - 1], more[|more| - 1];
      ProvenanceGrows(start, run, front);
      var whole := run + more;
      assert whole[..|whole| - 1] == run + front && whole[|whole| - 1] == l;
      assert l in more;
      if l.Added? && l.entry.serial != "" {
        KnownGrows(start, run, front, l.entry.name, l.entry.serial);
      }
    }
  }

  // ----- Every pair in the cluster is known -----

  ghost predicate DvsKnown(start: Infra, run: seq<Label>, s: Infra) {
    forall n :: n in s.dvs ==> Known(start, run, n, s.dvs[n].uid)
  }

  ghost predicate SpecsKnown(start: Infra, run: seq<Label>, s: Infra) {
    forall vm, e :: vm in s.vms && e in s.vms[vm] && e.serial != "" ==> Known(start, run, e.name, e.serial)
  }

  ghost predicate StatusesKnown(start: Infra, run: seq<Label>, s: Infra) {
    forall vm, e :: vm in s.vmis && e in s.vmis[vm] && e.serial != "" ==> Known(start, run, e.name, e.serial)
  }

  lemma StepOfDvs(s: Infra, l: Label, n: string)
    requires n in Apply(s, l).dvs
    ensures (n in s.dvs && Apply(s, l).dvs[n] == s.dvs[n]) || Introduces(l, n, Apply(s, l).dvs[n].uid)
  {
  }

  lemma StepOfSpecs(s: Infra, l: Label, vm: string, e: SpecVolume)
    requires vm in Apply(s, l).vms && e in Apply(s, l).vms[vm]
    ensures (vm in s.vms && e in s.vms[vm]) || Introduces(l, e.name, e.serial) || (l.Added? && e == l.entry)
  {
    match l
    case Env(CreateVm(m, vols)) =>
    case Env(OtherAdds(m, x)) =>
    case Env(OtherRemoves(m, w)) =>
    case Added(m, x) =>
    case RemovedFromVm(m, w) =>
    case _ =>
  }

  lemma StepOfStatuses(s: Infra, l: Label, vm: string, e: StatusVolume)
    requires vm in Apply(s, l).vmis && e in Apply(s, l).vmis[vm]
    ensures (vm in s.vmis && exists d :: d in s.vmis[vm] && d.name == e.name && d.serial == e.serial)
         || (vm in s.vms && exists d :: d in s.vms[vm] && d.name == e.name && d.serial == e.serial)
  {
    match l
    case Env(MarkReady(m, w)) =>
    case Env(SyncAttach(m, w)) =>
    case Env(SyncDetach(m, w)) =>
    case RemovedFromVmi(m, w) =>
    case _ =>
  }

  lemma {:induction false} AllKnown(start: Infra, run: seq<Label>)
    requires Provenance(start, run)
    ensures var s := Replay(start, run);
            DvsKnown(start, run, s) && SpecsKnown(start, run, s) && StatusesKnown(start, run, s)
  {
    hide Apply;
    if run == [] {
      KnownFromStart(start);
    } else {
      var front, l := run[..|run| - 1], run[|run| - 1];
      assert run == front + [l];
      assert l in run;
      AllKnown(start, front);
      DvsStayKnown(start, front, l);
      SpecsStayKnown(start, front, l);
      StatusesStayKnown(start, front, l);
    }
  }

  lemma KnownFromStart(s: Infra)
    ensures DvsKnown(s, [], s) && SpecsKnown(s, [], s) && StatusesKnown(s, [], s)
  {
    forall vm, e | vm in s.vms && e in s.vms[vm] && e.serial != "" ensures Known(s, [], e.name, e.serial) {
      assert OnSomeSpec(s, e.name, e.serial);
    }
    forall vm, e | vm in s.vmis && e in s.vmis[vm] && e.serial != "" ensures Known(s, [], e.name, e.serial) {
      assert OnSomeStatus(s, e.name, e.serial);
    }
  }

  lemma DvsStayKnown(start: Infra, front: seq<Label>, l: Label)
    requires DvsKnown(start, front, Replay(start, front))
    ensures DvsKnown(start, front + [l], Apply(Replay(start, front), l))
  {
    hide Apply, Replay;
    var s := Replay(start, front);
    forall n | n in Apply(s, l).dvs ensures Known(start, front + [l], n, Apply(s, l).dvs[n].uid) {
      StepOfDvs(s, l, n);
      if n in s.dvs && Apply(s, l).dvs[n] == s.dvs[n] {
        KnownGrows(start, front, [l], n, s.dvs[n].uid);
      } else {
        assert l in front + [l];
      }
    }
  }

  lemma SpecsStayKnown(start: Infra, front: seq<Label>, l: Label)
    requires SpecsKnown(start, front, Replay(start, front)) && Provenance(start, front + [l])
    ensures SpecsKnown(start, front + [l], Apply(Replay(start, front), l))
  {
    hide Apply, Replay;
    var s, whole := Replay(start, front), front + [l];
    assert whole[..|whole| - 1] == front && whole[|whole| - 1] == l;
    forall vm, e | vm in Apply(s, l).vms && e in Apply(s, l).vms[vm] && e.serial != ""
      ensures Known(start, whole, e.name, e.serial)
    {
      StepOfSpecs(s, l, vm, e);
      if Introduces(l, e.name, e.serial) {
        assert l in whole;
      } else {
        KnownGrows(start, front, [l], e.name, e.serial);
      }
    }
  }

  lemma StatusesStayKnown(start: Infra, front: seq<Label>, l: Label)
    requires SpecsKnown(start, front, Replay(start, front)) && StatusesKnown(start, front, Replay(start, front))
    ensures StatusesKnown(start, front + [l], Apply(Replay(start, front), l))
  {
    hide Apply, Replay;
    var s := Replay(start, front);
    forall vm, e | vm in Apply(s, l).vmis && e in Apply(s, l).vmis[vm] && e.serial != ""
      ensures Known(start, front + [l], e.name, e.serial)
    {
      StepOfStatuses(s, l, vm, e);
      KnownGrows(start, front, [l], e.name, e.serial);
    }
  }

  // ----- The node's end -----

  /** What the guest of a VMI sees: a device with a serial is the disk of the status entry
      it backs (`backing` maps device names to volume names). */
  ghost predicate GuestSees(status: seq<StatusVolume>, devices: seq<Device>, backing: map<string, string>) {
    forall d :: d in devices && d.serial != "" ==>
      d.name in backing && exists e :: e in status && e.name == backing[d.name] && e.serial == d.serial
  }

  /** With this serial the node picks the volume's own disk, plugged with that very serial,
      or finds nothing. */
  ghost predicate PicksOwn(status: seq<StatusVolume>, devices: seq<Device>, backing: map<string, string>,
                           volume: string, serial: string) {
    var d := FirstBySerial(devices, serial);
    && (d.Some? ==> d.value.name in backing && backing[d.value.name] == volume
                    && exists e :: e in status && e.name == volume && e.serial == serial)
    && ((forall e :: e in status ==> !(e.name == volume && e.serial == serial)) ==> d.None?)
  }

  lemma NodePicksOwnDisk(start: Infra, run: seq<Label>, vm: string, devices: seq<Device>, backing: map<string, string>,
                         volume: string, serial: string)
    requires Provenance(start, run) && Unambiguous(start, run)
    requires serial != "" && Known(start, run, volume, serial)
    requires vm in Replay(start, run).vmis && GuestSees(Replay(start, run).vmis[vm], devices, backing)
    ensures PicksOwn(Replay(start, run).vmis[vm], devices, backing, volume, serial)
  {
    hide Apply, Replay;
    NoneBySerial(devices, serial);
    AllKnown(start, run);
    var d := FirstBySerial(devices, serial);
    if d.Some? {
      var e :| e in Replay(start, run).vmis[vm] && e.name == backing[d.value.name] && e.serial == serial;
      assert Known(start, run, e.name, serial);
    }
  }

  /** A guest with one disk that has no serial and backs another volume. */
  lemma NamelessDisk(status: seq<StatusVolume>, volume: string)
    returns (devices: seq<Device>, backing: map<string, string>)
    ensures GuestSees(status, devices, backing) && !PicksOwn(status, devices, backing, volume, "")
  {
    devices, backing := [Device("", "vda", "ext4", true)], map["vda" := volume + "-other"];
    assert |backing["vda"]| != |volume|;
    FirstBySerialIs(devices, "", 0);
  }

  /** END-TO-END IDENTITY, EXACTLY. Whatever the guest looks like, a volume's known serial
      leads the node to the volume's own disk or to none if and only if it is not empty. */
  lemma IdentityExactlyBySerial(start: Infra, run: seq<Label>, vm: string, volume: string, serial: string)
    requires Provenance(start, run) && Unambiguous(start, run)
    requires Known(start, run, volume, serial) && vm in Replay(start, run).vmis
    ensures (forall devices, backing :: GuestSees(Replay(start, run).vmis[vm], devices, backing) ==>
              PicksOwn(Replay(start, run).vmis[vm], devices, backing, volume, serial)) <==> serial != ""
  {
    hide Apply, Replay, GuestSees, PicksOwn, Known, Provenance, Unambiguous;
    var status := Replay(start, run).vmis[vm];
    if serial == "" {
      var devices, backing := NamelessDisk(status, volume);
    } else {
      forall devices, backing | GuestSees(status, devices, backing)
        ensures PicksOwn(status, devices, backing, volume, serial)
      {
        NodePicksOwnDisk(start, run, vm, devices, backing, volume, serial);
      }
    }
  }
}
