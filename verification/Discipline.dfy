/** What the driver's steps must respect for a volume to stay on one machine, stated on
    whole runs, and that this is enough. */
module Discipline {
  import opened Base
  import opened Infra

  /** Someone other than the call at hand edits a machine's entry for `vol`. */
  predicate ForeignTo(a: EnvAction, vol: string) {
    match a
    case CreateVm(_, vols) => Names(vols, vol)
    case OtherAdds(_, e) => e.name == vol
    case OtherRemoves(_, w) => w == vol
    case _ => false
  }

  /** Calls are serialised for `vol`: nobody else edits its entries during the run. */
  predicate Serial(run: seq<Label>, vol: string) {
    forall l :: l in run && l.Env? ==> !ForeignTo(l.act, vol)
  }

  predicate Holds(s: Infra, vm: string, vol: string) {
    SpecNames(s, vm, vol) || StatusNames(s, vm, vol)
  }

  ghost predicate HeldOnlyBy(s: Infra, vm: string, vol: string) {
    forall n :: n != vm ==> !Holds(s, n, vol)
  }

  ghost predicate AtMostOneHolder(s: Infra, vol: string) {
    forall m, n :: Holds(s, m, vol) && Holds(s, n, vol) ==> m == n
  }

  /** The publish guard: no VMI but the target's reports the volume. */
  ghost predicate ReportedOnlyBy(s: Infra, vm: string, vol: string) {
    forall n :: n != vm ==> !StatusNames(s, n, vol)
  }

  /** Every other machine whose spec names the volume has a VMI reporting it. */
  ghost predicate SettledFor(s: Infra, vm: string, vol: string) {
    forall n :: n != vm && SpecNames(s, n, vol) ==> StatusNames(s, n, vol)
  }

  /** The target of the last publish of `vol` that passed its guard. */
  function Cleared(run: seq<Label>, vol: string): Option<string> {
    if run == [] then None
    else
      var l := run[|run| - 1];
      if l.Listed? && l.vol == vol then Some(l.vm) else Cleared(run[..|run| - 1], vol)
  }

  /** Guards were truthful, and the volume was only added where the last guard cleared it. */
  ghost predicate Screened(start: Infra, run: seq<Label>, vol: string) {
    run == [] ||
    var front, l := run[..|run| - 1], run[|run| - 1];
    && Screened(start, front, vol)
    && (l.Listed? && l.vol == vol ==> ReportedOnlyBy(Replay(start, front), l.vm, vol))
    && (l.Added? && l.entry.name == vol ==> Cleared(front, vol) == Some(l.vm))
  }

  /** The volume was only added to specs not backing it yet, and as a hot-pluggable disk. */
  ghost predicate Guarded(start: Infra, run: seq<Label>, vol: string) {
    run == [] ||
    var front, l := run[..|run| - 1], run[|run| - 1];
    && Guarded(start, front, vol)
    && (l.Added? && l.entry.name == vol ==>
          l.entry.Hot() && !SpecBacks(Replay(start, front), l.vm, vol))
  }

  /** Each publish of `vol` started from a settled state. */
  ghost predicate SettledAtGuards(start: Infra, run: seq<Label>, vol: string) {
    run == [] ||
    var front, l := run[..|run| - 1], run[|run| - 1];
    && SettledAtGuards(start, front, vol)
    && (l.Listed? && l.vol == vol ==> SettledFor(Replay(start, front), l.vm, vol))
  }

  lemma Snoc(start: Infra, run: seq<Label>, l: Label, vol: string)
    ensures Cleared(run + [l], vol) == if l.Listed? && l.vol == vol then Some(l.vm) else Cleared(run, vol)
    ensures Screened(start, run + [l], vol) <==>
            && Screened(start, run, vol)
            && (l.Listed? && l.vol == vol ==> ReportedOnlyBy(Replay(start, run), l.vm, vol))
            && (l.Added? && l.entry.name == vol ==> Cleared(run, vol) == Some(l.vm))
    ensures Guarded(start, run + [l], vol) <==>
            && Guarded(start, run, vol)
            && (l.Added? && l.entry.name == vol ==> l.entry.Hot() && !SpecBacks(Replay(start, run), l.vm, vol))
  {
    hide Apply, Replay;
    var more := run + [l];
    assert more[..|more| - 1] == run && more[|more| - 1] == l;
  }

  predicate Concerns(l: Label, vol: string) {
    (l.Added? && l.entry.name == vol) || (l.Listed? && l.vol == vol)
  }

  /** Steps that neither guard nor add the volume keep the discipline. */
  lemma {:induction false} Unconcerned(start: Infra, run: seq<Label>, more: seq<Label>, vol: string)
    requires forall l :: l in more ==> !Concerns(l, vol)
    ensures Screened(start, run, vol) ==> Screened(start, run + more, vol)
    ensures Guarded(start, run, vol) ==> Guarded(start, run + more, vol)
    ensures Cleared(run + more, vol) == Cleared(run, vol)
  {
    hide Apply, Replay;
    if more == [] {
      assert run + more == run;
    } else {
      var front, l := more[..|more| - 1], more[|more| - 1];
      Unconcerned(start, run, front, vol);
      assert run + more == run + front + [l];
      assert l in more;
      Snoc(start, run + front, l, vol);
    }
  }

  /** Nobody but an add, and only on its own machine, makes a new holder. */
  lemma HolderStep(s: Infra, l: Label, n: string, vol: string)
    requires l.Env? ==> !ForeignTo(l.act, vol)
    requires Holds(Apply(s, l), n, vol)
    ensures Holds(s, n, vol) || (l.Added? && l.vm == n && l.entry.name == vol)
  {
    if SpecNames(Apply(s, l), n, vol) {
      SpecHolderStep(s, l, n, vol);
    } else {
      StatusHolderStep(s, l, n, vol);
    }
  }

  lemma SpecHolderStep(s: Infra, l: Label, n: string, vol: string)
    requires l.Env? ==> !ForeignTo(l.act, vol)
    requires SpecNames(Apply(s, l), n, vol)
    ensures SpecNames(s, n, vol) || (l.Added? && l.vm == n && l.entry.name == vol)
  {
    hide DvsAfter, SnapsAfter, ClaimsAfter, PvsAfter, StatusesAfter;
    match l
    case Env(CreateVm(m, vols)) =>
    case Env(OtherAdds(m, e)) =>
    case Env(OtherRemoves(m, w)) =>
    case Added(m, e) =>
    case RemovedFromVm(m, w) =>
    case _ =>
  }

  lemma StatusHolderStep(s: Infra, l: Label, n: string, vol: string)
    requires StatusNames(Apply(s, l), n, vol)
    ensures Holds(s, n, vol)
  {
    hide DvsAfter, SnapsAfter, ClaimsAfter, PvsAfter, SpecsAfter;
    match l
    case Env(MarkReady(m, w)) =>
    case Env(SyncAttach(m, w)) =>
    case Env(SyncDetach(m, w)) =>
    case RemovedFromVmi(m, w) =>
    case _ =>
  }

  lemma GuardChangesNothing(s: Infra, l: Label)
    ensures l.Listed? ==> Apply(s, l) == s
  {
  }

  /** The invariant of a disciplined run. */
  lemma {:induction false} HoldersAfter(start: Infra, run: seq<Label>, vol: string)
    requires AtMostOneHolder(start, vol) && Serial(run, vol)
    requires Screened(start, run, vol) && SettledAtGuards(start, run, vol)
    ensures AtMostOneHolder(Replay(start, run), vol)
    ensures Cleared(run, vol).Some? ==> HeldOnlyBy(Replay(start, run), Cleared(run, vol).value, vol)
  {
    hide Apply;
    if run != [] {
      var front, l := run[..|run| - 1], run[|run| - 1];
      assert run == front + [l];
      assert l in run;
      HoldersAfter(start, front, vol);
      var s := Replay(start, front);
      forall n | Holds(Apply(s, l), n, vol)
        ensures Holds(s, n, vol) || (l.Added? && l.vm == n && l.entry.name == vol)
      {
        HolderStep(s, l, n, vol);
      }
      GuardChangesNothing(s, l);
    }
  }

  lemma PrefixDisciplined(start: Infra, run: seq<Label>, k: nat, vol: string)
    requires k <= |run|
    requires Screened(start, run, vol) && SettledAtGuards(start, run, vol)
    ensures Screened(start, run[..k], vol) && SettledAtGuards(start, run[..k], vol)
    decreases |run| - k
  {
    hide Apply, Replay;
    if k == |run| {
      assert run[..k] == run;
    } else {
      PrefixDisciplined(start, run, k + 1, vol);
      assert run[..k + 1][..k] == run[..k];
    }
  }

  lemma UnheldUnreported(s: Infra, vm: string, vol: string)
    requires HeldOnlyBy(s, vm, vol)
    ensures ReportedOnlyBy(s, vm, vol)
  {
    forall n | n != vm ensures !StatusNames(s, n, vol) {
      assert !Holds(s, n, vol);
    }
  }

  /** A state that passes the guard has no holder but the target exactly if it is settled. */
  lemma GuardExactWhenSettled(s: Infra, vm: string, vol: string)
    requires ReportedOnlyBy(s, vm, vol)
    ensures HeldOnlyBy(s, vm, vol) <==> SettledFor(s, vm, vol)
  {
    if HeldOnlyBy(s, vm, vol) {
      forall n | n != vm ensures !SpecNames(s, n, vol) {
        assert !Holds(s, n, vol);
      }
    }
  }

  // ----- One entry per volume -----

  function Copies(vols: seq<SpecVolume>, vol: string): nat {
    if vols == [] then 0
    else (if vols[0].Backed() && vols[0].name == vol then 1 else 0) + Copies(vols[1..], vol)
  }

  /** How many PVC or DataVolume entries of the machine's spec are named for the volume. */
  function Entries(s: Infra, vm: string, vol: string): nat {
    if vm in s.vms then Copies(s.vms[vm], vol) else 0
  }

  ghost predicate OneEntryEach(s: Infra, vol: string) {
    forall vm :: Entries(s, vm, vol) <= 1
  }

  lemma CopiesSnoc(vols: seq<SpecVolume>, e: SpecVolume, vol: string)
    ensures Copies(vols + [e], vol) == Copies(vols, vol) + if e.Backed() && e.name == vol then 1 else 0
  {
    if vols != [] {
      assert (vols + [e])[1..] == vols[1..] + [e];
    }
  }

  lemma CopiesWithout(vols: seq<SpecVolume>, w: string, vol: string)
    ensures Copies(Without(vols, w), vol) <= Copies(vols, vol)
  {
  }

  lemma NoCopies(vols: seq<SpecVolume>, vol: string)
    requires forall e :: e in vols ==> !(e.Backed() && e.name == vol)
    ensures Copies(vols, vol) == 0
  {
  }

  lemma EntriesStep(s: Infra, l: Label, vm: string, vol: string)
    requires l.Env? ==> !ForeignTo(l.act, vol)
    requires l.Added? && l.entry.name == vol ==> !SpecBacks(s, l.vm, vol)
    requires Entries(s, vm, vol) <= 1
    ensures Entries(Apply(s, l), vm, vol) <= 1
  {
    hide Copies, Without, StatusesAfter, DvsAfter, SnapsAfter, ClaimsAfter, PvsAfter;
    match l
    case Env(CreateVm(m, vols)) => NoCopies(vols, vol);
    case Env(OtherAdds(m, e)) => if m in s.vms { CopiesSnoc(s.vms[m], e, vol); }
    case Env(OtherRemoves(m, w)) => if m in s.vms { CopiesWithout(s.vms[m], w, vol); }
    case Added(m, e) =>
      if m in s.vms {
        CopiesSnoc(s.vms[m], e, vol);
        if e.name == vol && m == vm { NoCopies(s.vms[m], vol); }
      }
    case RemovedFromVm(m, w) => if m in s.vms { CopiesWithout(s.vms[m], w, vol); }
    case _ =>
  }

  /** RETRY SAFETY. However many adds failed before or after taking effect, no spec ever
      has two PVC or DataVolume entries named for the volume. */
  lemma {:induction false} OneEntryThroughout(start: Infra, run: seq<Label>, vol: string)
    requires Serial(run, vol) && Guarded(start, run, vol)
    requires OneEntryEach(start, vol)
    ensures forall k :: 0 <= k <= |run| ==> OneEntryEach(Replay(start, run[..k]), vol)
  {
    hide Apply;
    if run == [] {
      assert run[..0] == [];
    } else {
      var front, l := run[..|run| - 1], run[|run| - 1];
      assert run == front + [l];
      assert l in run;
      OneEntryThroughout(start, front, vol);
      assert front[..|front|] == front;
      forall k | 0 <= k <= |run| ensures OneEntryEach(Replay(start, run[..k]), vol) {
        if k == |run| {
          assert run[..k] == run;
          forall vm { EntriesStep(Replay(start, front), l, vm, vol); }
        } else {
          assert run[..k] == front[..k];
        }
      }
    }
  }

  /** EXCLUSIVE ATTACHMENT. From at most one holder, a run whose calls are serialised for
      the volume, whose adds were screened and whose guards met settled states has at most
      one machine holding the volume, in spec or status, at every moment. */
  lemma ExclusiveThroughout(start: Infra, run: seq<Label>, vol: string)
    requires AtMostOneHolder(start, vol) && Serial(run, vol)
    requires Screened(start, run, vol) && SettledAtGuards(start, run, vol)
    ensures forall k :: 0 <= k <= |run| ==> AtMostOneHolder(Replay(start, run[..k]), vol)
  {
    hide Apply, Replay;
    forall k | 0 <= k <= |run| ensures AtMostOneHolder(Replay(start, run[..k]), vol) {
      PrefixDisciplined(start, run, k, vol);
      HoldersAfter(start, run[..k], vol);
    }
  }
}
