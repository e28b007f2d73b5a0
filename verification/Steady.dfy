/** Environments that let an attach or detach finish, and what runs keep of a volume. */
module Steady {
  import opened Infra
  import opened ClusterApi
  import opened Discipline

  /** `a` creates, deletes or restarts the machine, edits an entry for `vol`, or replaces
      the volume's DataVolume. */
  predicate Disturbs(a: EnvAction, vm: string, vol: string) {
    ForeignTo(a, vol) ||
    match a
    case CreateVm(m, _) => m == vm
    case DeleteVm(m) => m == vm
    case StartVmi(m) => m == vm
    case DeleteVmi(m) => m == vm
    case OtherDv(name, _) => name == vol
    case _ => false
  }

  ghost predicate CalmTurn(turn: Turn, vm: string, vol: string) {
    turn.fate.Succeeds? && forall a :: a in turn.before ==> !Disturbs(a, vm, vol)
  }

  /** From turn `from` on no call fails and nobody disturbs the volume on that machine. */
  ghost predicate Calm(plan: nat -> Turn, from: nat, vm: string, vol: string) {
    forall t: nat :: t >= from ==> CalmTurn(plan(t), vm, vol)
  }

  /** The same for `k` turns only. */
  ghost predicate CalmFor(plan: nat -> Turn, from: nat, k: nat, vm: string, vol: string) {
    forall t: nat :: from <= t < from + k ==> CalmTurn(plan(t), vm, vol)
  }

  ghost predicate Occurs(plan: nat -> Turn, t: nat, a: EnvAction) {
    a in plan(t).before
  }

  ghost predicate AttachRound(plan: nat -> Turn, t: nat, lag: nat, vm: string, vol: string) {
    exists a: nat, b: nat :: t <= a < b < t + lag
      && Occurs(plan, a, SyncAttach(vm, vol)) && Occurs(plan, b, MarkReady(vm, vol))
  }

  ghost predicate DetachRound(plan: nat -> Turn, t: nat, lag: nat, vm: string, vol: string) {
    exists a: nat :: t <= a < t + lag && Occurs(plan, a, SyncDetach(vm, vol))
  }

  /** The sync lag: every `lag` turns the VMI takes over the spec's volume and reports it ready. */
  ghost predicate AttachesWithin(plan: nat -> Turn, from: nat, lag: nat, vm: string, vol: string) {
    forall t: nat :: t >= from ==> AttachRound(plan, t, lag, vm, vol)
  }

  ghost predicate DetachesWithin(plan: nat -> Turn, from: nat, lag: nat, vm: string, vol: string) {
    forall t: nat :: t >= from ==> DetachRound(plan, t, lag, vm, vol)
  }

  /** The attach progress condition: calm, and a sync lag below the poll's reads. */
  ghost predicate AttachConverges(c: Cluster, from: nat, lag: nat, vm: string, vol: string) {
    lag < c.polls && Calm(c.plan, from, vm, vol) && AttachesWithin(c.plan, from, lag, vm, vol)
  }

  /** The same for a state `s` in which an unplug may be pending: that has to finish first,
      and the poll must outlast both lags. */
  ghost predicate AttachInTime(c: Cluster, from: nat, lag: nat, s: Infra, vm: string, vol: string) {
    && AttachConverges(c, from, lag, vm, vol)
    && (NoneLeaving(s, vm, vol) || (2 * lag < c.polls && DetachesWithin(c.plan, from, lag, vm, vol)))
  }

  ghost predicate DetachConverges(c: Cluster, from: nat, lag: nat, vm: string, vol: string) {
    lag < c.polls && Calm(c.plan, from, vm, vol) && DetachesWithin(c.plan, from, lag, vm, vol)
  }

  predicate CalmRun(run: seq<Label>, vm: string, vol: string) {
    forall l :: l in run ==> l.Env? && !Disturbs(l.act, vm, vol)
  }

  lemma CalmBefore(c: Cluster, t: nat, vm: string, vol: string)
    requires CalmTurn(c.plan(t), vm, vol)
    ensures CalmRun(c.Before(t), vm, vol) && c.plan(t).fate.Succeeds?
  {
    forall l | l in c.Before(t) ensures l.Env? && !Disturbs(l.act, vm, vol) {
      var i :| 0 <= i < |c.Before(t)| && c.Before(t)[i] == l;
      assert c.plan(t).before[i] in c.plan(t).before;
    }
  }

  lemma OccursBefore(c: Cluster, t: nat, a: EnvAction)
    requires Occurs(c.plan, t, a)
    ensures Env(a) in c.Before(t)
  {
    var i :| 0 <= i < |c.plan(t).before| && c.plan(t).before[i] == a;
    assert c.Before(t)[i] == Env(a);
  }

  // ----- Failed calls -----

  /** How many of `n` turns fail. */
  ghost function Faults(plan: nat -> Turn, from: nat, n: nat): nat {
    if n == 0 then 0 else Faults(plan, from, n - 1) + if plan(from + n - 1).fate.Succeeds? then 0 else 1
  }

  /** From turn `from` on nobody disturbs the volume on that machine; calls may fail. */
  ghost predicate Undisturbed(plan: nat -> Turn, from: nat, vm: string, vol: string) {
    forall t: nat, a :: t >= from && a in plan(t).before ==> !Disturbs(a, vm, vol)
  }

  /** At least `k` calls failed between two turns. */
  ghost predicate Failed(plan: nat -> Turn, from: nat, to: nat, k: nat) {
    from <= to && Faults(plan, from, to - from) >= k
  }

  lemma {:induction false} FaultsConcat(plan: nat -> Turn, from: nat, m: nat, n: nat)
    ensures Faults(plan, from, m + n) == Faults(plan, from, m) + Faults(plan, from + m, n)
  {
    if n > 0 {
      FaultsConcat(plan, from, m, n - 1);
    }
  }

  lemma FailedAgain(plan: nat -> Turn, from: nat, mid: nat, to: nat, k: nat, n: nat)
    requires Failed(plan, from, mid, k) && Failed(plan, mid, to, n)
    ensures Failed(plan, from, to, k + n)
  {
    FaultsConcat(plan, from, mid - from, to - mid);
  }

  lemma OneFault(plan: nat -> Turn, from: nat, at: nat)
    requires from <= at
    ensures !plan(at).fate.Succeeds? ==> Failed(plan, from, at + 1, 1)
  {
  }

  lemma FailedWithin(plan: nat -> Turn, from: nat, to: nat)
    requires from < to && Failed(plan, from + 1, to, 1)
    ensures Failed(plan, from, to, 1)
  {
    FaultsConcat(plan, from, 1, to - from - 1);
  }

  lemma NoneFailed(plan: nat -> Turn, from: nat)
    ensures Failed(plan, from, from, 0)
  {
  }

  lemma UndisturbedLater(plan: nat -> Turn, from: nat, t: nat, vm: string, vol: string)
    requires from <= t && Undisturbed(plan, from, vm, vol)
    ensures Undisturbed(plan, t, vm, vol)
  {
  }

  lemma UndisturbedTurn(c: Cluster, t: nat, s: Infra, vm: string, vol: string)
    requires Undisturbed(c.plan, t, vm, vol)
    ensures SameFor(s, Replay(s, c.Before(t)), vm, vol) && CalmRun(c.Before(t), vm, vol)
  {
    hide Apply, Replay, SameFor;
    forall l | l in c.Before(t) ensures l.Env? && !Disturbs(l.act, vm, vol) {
      var i :| 0 <= i < |c.Before(t)| && c.Before(t)[i] == l;
      assert c.plan(t).before[i] in c.plan(t).before;
    }
    CalmKeeps(s, c.Before(t), vm, vol);
  }

  /** What calm turns leave alone. */
  ghost predicate SameFor(s: Infra, s': Infra, vm: string, vol: string) {
    && (vm in s'.vms <==> vm in s.vms) && (vm in s'.vmis <==> vm in s.vmis)
    && (SpecNames(s', vm, vol) <==> SpecNames(s, vm, vol)) && (SpecBacks(s', vm, vol) <==> SpecBacks(s, vm, vol))
    && (SpecHot(s', vm, vol) <==> SpecHot(s, vm, vol)) && (NoneLeaving(s, vm, vol) ==> NoneLeaving(s', vm, vol))
    && (vol in s'.dvs <==> vol in s.dvs) && (vol in s.dvs ==> s'.dvs[vol] == s.dvs[vol])
    && (HeldOnlyBy(s, vm, vol) ==> HeldOnlyBy(s', vm, vol))
  }

  lemma CalmStep(s: Infra, a: EnvAction, vm: string, vol: string)
    requires !Disturbs(a, vm, vol)
    ensures SameFor(s, Apply(s, Env(a)), vm, vol)
  {
    CalmSpecStep(s, a, vm, vol);
    CalmLeavingStep(s, a, vm, vol);
    if HeldOnlyBy(s, vm, vol) {
      forall n | n != vm ensures !Holds(Apply(s, Env(a)), n, vol) {
        if Holds(Apply(s, Env(a)), n, vol) { HolderStep(s, Env(a), n, vol); }
      }
    }
  }

  lemma CalmSpecStep(s: Infra, a: EnvAction, vm: string, vol: string)
    requires !Disturbs(a, vm, vol)
    ensures var s' := Apply(s, Env(a));
            && (vm in s'.vms <==> vm in s.vms) && (SpecNames(s', vm, vol) <==> SpecNames(s, vm, vol))
            && (SpecBacks(s', vm, vol) <==> SpecBacks(s, vm, vol)) && (SpecHot(s', vm, vol) <==> SpecHot(s, vm, vol))
  {
    hide DvsAfter, SnapsAfter, ClaimsAfter, PvsAfter, StatusesAfter;
    match a
    case OtherAdds(m, e) =>
      if m == vm && vm in s.vms {
        assert forall d :: d in s.vms[vm] ==> d in s.vms[vm] + [e];
      }
    case OtherRemoves(m, w) =>
      if m == vm && vm in s.vms {
        assert forall d :: d in s.vms[vm] && d.name == vol ==> d in Without(s.vms[vm], w);
      }
    case _ =>
  }

  lemma CalmLeavingStep(s: Infra, a: EnvAction, vm: string, vol: string)
    requires !Disturbs(a, vm, vol)
    ensures var s' := Apply(s, Env(a));
            (vm in s'.vmis <==> vm in s.vmis) && (NoneLeaving(s, vm, vol) ==> NoneLeaving(s', vm, vol))
  {
    hide DvsAfter, SnapsAfter, ClaimsAfter, PvsAfter, SpecsAfter;
    match a
    case MarkReady(m, w) =>
    case SyncAttach(m, w) =>
    case SyncDetach(m, w) =>
    case _ =>
  }

  lemma {:induction false} CalmKeeps(s: Infra, run: seq<Label>, vm: string, vol: string)
    requires CalmRun(run, vm, vol)
    ensures SameFor(s, Replay(s, run), vm, vol)
  {
    hide Apply;
    if run != [] {
      var front, last := run[..|run| - 1], run[|run| - 1];
      assert run == front + [last];
      assert last in run;
      CalmKeeps(s, front, vm, vol);
      CalmStep(Replay(s, front), last.act, vm, vol);
    }
  }

  // ----- A volume being attached -----

  /** The spec asks for the volume, the VMI exists, and no earlier unplug of it is pending. */
  predicate Plugging(s: Infra, vm: string, vol: string) {
    SpecBacks(s, vm, vol) && vm in s.vmis && NoneLeaving(s, vm, vol)
  }

  predicate NoneLeaving(s: Infra, vm: string, vol: string) {
    vm in s.vmis ==> forall e :: e in s.vmis[vm] && e.name == vol ==> !e.leaving
  }

  lemma PluggingStep(s: Infra, a: EnvAction, vm: string, vol: string)
    requires Plugging(s, vm, vol) && !Disturbs(a, vm, vol)
    ensures Plugging(Apply(s, Env(a)), vm, vol)
    ensures StatusNames(s, vm, vol) || a == SyncAttach(vm, vol) ==> StatusNames(Apply(s, Env(a)), vm, vol)
    ensures StatusReady(s, vm, vol) || (a == MarkReady(vm, vol) && StatusNames(s, vm, vol)) ==>
            StatusReady(Apply(s, Env(a)), vm, vol)
  {
    hide DvsAfter, SnapsAfter, ClaimsAfter, PvsAfter;
    match a
    case MarkReady(m, w) =>
    case SyncAttach(m, w) =>
      if m == vm && w == vol && Apply(s, Env(a)).vmis != s.vmis {
        assert Apply(s, Env(a)).vmis[vm][|s.vmis[vm]|] in Apply(s, Env(a)).vmis[vm];
      }
    case SyncDetach(m, w) =>
    case OtherAdds(m, e) =>
    case OtherRemoves(m, w) =>
    case _ =>
  }

  lemma {:induction false} PluggingRun(s: Infra, run: seq<Label>, vm: string, vol: string)
    requires Plugging(s, vm, vol) && CalmRun(run, vm, vol)
    ensures Plugging(Replay(s, run), vm, vol)
    ensures StatusNames(s, vm, vol) || Env(SyncAttach(vm, vol)) in run ==> StatusNames(Replay(s, run), vm, vol)
    ensures StatusReady(s, vm, vol) || (Env(MarkReady(vm, vol)) in run && StatusNames(s, vm, vol)) ==>
            StatusReady(Replay(s, run), vm, vol)
  {
    hide Apply;
    if run != [] {
      var front, last := run[..|run| - 1], run[|run| - 1];
      assert run == front + [last];
      assert last in run;
      PluggingRun(s, front, vm, vol);
      PluggingStep(Replay(s, front), last.act, vm, vol);
    }
  }

  /** The spec asks for the volume and the VMI exists; an earlier unplug may be pending. */
  predicate Desired(s: Infra, vm: string, vol: string) {
    SpecBacks(s, vm, vol) && vm in s.vmis
  }

  /** Calm steps keep it desired, and the next unplug ends what was pending. */
  lemma {:induction false} DesiredRun(s: Infra, run: seq<Label>, vm: string, vol: string)
    requires Desired(s, vm, vol) && CalmRun(run, vm, vol)
    ensures Desired(Replay(s, run), vm, vol)
    ensures Env(SyncDetach(vm, vol)) in run ==> Plugging(Replay(s, run), vm, vol)
  {
    hide Apply;
    if run != [] {
      var front, last := run[..|run| - 1], run[|run| - 1];
      assert run == front + [last];
      assert last in run;
      DesiredRun(s, front, vm, vol);
      CalmStep(Replay(s, front), last.act, vm, vol);
      if last == Env(SyncDetach(vm, vol)) { UnpluggedNone(Replay(s, front), vm, vol); }
    }
  }

  lemma UnpluggedNone(s: Infra, vm: string, vol: string)
    ensures NoneLeaving(Apply(s, Env(SyncDetach(vm, vol))), vm, vol)
  {
  }

  // ----- A volume being detached -----

  /** Nothing asks for the volume any more: each status entry left can be unplugged. */
  predicate Released(s: Infra, vm: string, vol: string) {
    && !SpecNames(s, vm, vol)
    && (vm in s.vmis ==> forall e :: e in s.vmis[vm] && e.name == vol ==> Unpluggable(e, vm in s.vms))
  }

  lemma ReleasedStep(s: Infra, a: EnvAction, vm: string, vol: string)
    requires Released(s, vm, vol) && !Disturbs(a, vm, vol)
    ensures Released(Apply(s, Env(a)), vm, vol)
    ensures !StatusNames(s, vm, vol) || a == SyncDetach(vm, vol) ==> !StatusNames(Apply(s, Env(a)), vm, vol)
  {
    hide DvsAfter, SnapsAfter, ClaimsAfter, PvsAfter;
    match a
    case MarkReady(m, w) =>
    case SyncAttach(m, w) =>
    case SyncDetach(m, w) =>
    case OtherAdds(m, e) =>
    case OtherRemoves(m, w) =>
    case _ =>
  }

  lemma {:induction false} ReleasedRun(s: Infra, run: seq<Label>, vm: string, vol: string)
    requires Released(s, vm, vol) && CalmRun(run, vm, vol)
    ensures Released(Replay(s, run), vm, vol)
    ensures !StatusNames(s, vm, vol) || Env(SyncDetach(vm, vol)) in run ==> !StatusNames(Replay(s, run), vm, vol)
  {
    hide Apply;
    if run != [] {
      var front, last := run[..|run| - 1], run[|run| - 1];
      assert run == front + [last];
      assert last in run;
      ReleasedRun(s, front, vm, vol);
      ReleasedStep(Replay(s, front), last.act, vm, vol);
    }
  }
}
