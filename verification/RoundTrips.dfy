/** Two calls in a row: repeating a publish or an unpublish writes nothing, and an unpublish
    undoes a publish exactly. */
module RoundTrips {
  import opened Base
  import opened Infra
  import opened ClusterApi
  import opened Filters
  import opened Discipline
  import opened Steady
  import opened Surfaces
  import opened Attach
  import opened Detach
  import opened Settled
  import Codecs

  /** The moment between the two calls. */
  datatype Moment = Moment(now: Infra, tick: nat, trail: seq<Label>)

  /** The DataVolume is there and the driver's. */
  ghost predicate OwnedAt(s: Infra, cfg: Config, vol: string) {
    vol in s.dvs && Owned(cfg, vol, s.dvs[vol].labels)
  }

  /** After a publish that succeeded, whatever it met on the way, repeating it in a calm
      environment writes nothing, and succeeds if and only if the guard lets it: for a
      single-node mode no other VMI may report the volume by then. The guard comes before the
      fast path. */
  method PublishTwice(c: Cluster, cfg: Config, req: PublishRequest, ghost lag: nat)
    returns (first: Result<()>, second: Result<()>, ghost mid: Moment, ghost did: seq<Label>, ghost again: seq<Label>)
    requires c.Valid()
    modifies c
    ensures mid.now == Replay(old(c.now), did) && mid.trail == old(c.trail) + did
    ensures c.Scheduled(did, old(c.tick), mid.tick) && (first.Ok? ==> mid.tick > old(c.tick))
    ensures old(c.tick) <= mid.tick <= c.tick && c.Grew(mid.now, mid.trail, again)
    ensures first.Ok? ==> TargetOf(req.volume, req.node).Ok? && IsRwx(req.mode).Ok?
    ensures first.Ok? ==>
            var vm := TargetOf(req.volume, req.node).value;
            PublishSteps(did, vm, HotPlugOf(req)) && SpecBacks(mid.now, vm, req.volume)
    ensures first.Ok? ==>
            var vm := TargetOf(req.volume, req.node).value;
            Calm(c.plan, mid.tick, vm, req.volume) && OwnedAt(mid.now, cfg, req.volume) ==>
            && NoAdd(again) && (second.Ok? || second == Err(FailedPrecondition))
            && (second.Ok? <==>
                  IsRwx(req.mode) == Ok(true) || ReportedOnlyBy(Replay(mid.now, c.Before(mid.tick)), vm, req.volume))
    ensures TargetOf(req.volume, req.node).Ok? && IsRwx(req.mode) == Ok(false) ==>
            var vm := TargetOf(req.volume, req.node).value;
            GoesThrough(c, old(c.tick), lag, old(c.now), cfg, vm, req) ==>
            ReportedOnlyBy(Replay(old(c.now), c.Before(old(c.tick))), vm, req.volume) ==> first.Ok?
  {
    hide Apply, Replay, PublishLeaves, GoesThrough, ReportedOnlyBy, CalmTurn, CalmFor, SpecBacks, PlugsInTime;
    hide Cluster.Planned;
    ghost var s, n, t := c.now, c.tick, c.trail;
    Revealed(c);
    if TargetOf(req.volume, req.node).Ok? {
      ghost var vm := TargetOf(req.volume, req.node).value;
      if GoesThrough(c, n, lag, s, cfg, vm, req) { FirstCalm(c, n, lag, s, cfg, vm, req); }
    }
    first, did := ControllerPublishVolume(c, cfg, req, lag);
    mid := Moment(c.now, c.tick, c.trail);
    Revealed(c);
    c.PlannedSteps(t, did, n, mid.tick);
    if first.Ok? {
      ghost var vm := TargetOf(req.volume, req.node).value;
      PublishLeavesSteps(c.start, t, did, vm, req);
      if Calm(c.plan, mid.tick, vm, req.volume) { CalmFirst(c, mid.tick, vm, req); }
      BackedIsThere(mid.now, vm, req.volume);
    }
    second, again := ControllerPublishVolume(c, cfg, req, lag);
  }

  lemma BackedIsThere(s: Infra, vm: string, vol: string)
    ensures SpecBacks(s, vm, vol) ==> vm in s.vms
  {
  }

  lemma CalmFirst(c: Cluster, n: nat, vm: string, req: PublishRequest)
    requires Calm(c.plan, n, vm, req.volume)
    ensures c.plan(n).fate.Succeeds? && CalmFor(c.plan, n, Reads(req), vm, req.volume)
  {
    assert CalmTurn(c.plan(n), vm, req.volume);
  }

  /** After an unpublish that succeeded while nobody added the volume to the spec, repeating
      it in a calm environment succeeds and writes nothing. */
  method UnpublishTwice(c: Cluster, volume: string, node: string)
    returns (first: Result<()>, second: Result<()>, ghost mid: Moment, ghost did: seq<Label>, ghost again: seq<Label>)
    requires c.Valid()
    modifies c
    ensures mid.now == Replay(old(c.now), did) && mid.trail == old(c.trail) + did
    ensures old(c.tick) <= mid.tick <= c.tick && c.Grew(mid.now, mid.trail, again)
    ensures first.Ok? ==> TargetOf(volume, node).Ok?
    ensures first.Ok? ==>
            var vm := TargetOf(volume, node).value;
            NoSpecGain(did, vm, volume) && Calm(c.plan, mid.tick, vm, volume) ==> second.Ok? && AllEnv(again)
  {
    hide Apply, Replay, Cluster.Planned;
    first, did := ControllerUnpublishVolume(c, volume, node, 0);
    mid := Moment(c.now, c.tick, c.trail);
    second, again := ControllerUnpublishVolume(c, volume, node, 0);
  }

  // ----- A repeat that is refused -----

  /** `LatePlan`, and the VMI of "a" takes over what its spec asks for. */
  function EchoPlan(t: nat): Turn {
    Turn(if t == 0 then [] else [SyncAttach("b", "v"), MarkReady("b", "v"), SyncAttach("a", "v")], Succeeds, "")
  }

  lemma EchoPlanConverges(c: Cluster)
    requires c.plan == EchoPlan && c.polls == 4
    ensures AttachConverges(c, 0, 3, "b", "v")
  {
    forall t: nat ensures AttachRound(c.plan, t, 3, "b", "v") {
      var a := if t == 0 then 1 else t;
      assert EchoPlan(a).before[0] == SyncAttach("b", "v") && EchoPlan(a + 1).before[1] == MarkReady("b", "v");
      assert Occurs(c.plan, a, SyncAttach("b", "v")) && Occurs(c.plan, a + 1, MarkReady("b", "v"));
    }
  }

  /** Syncs and adds to "b" leave the VM "a", its VMI and the DataVolumes there. */
  lemma {:induction false} OtherVmStays(s: Infra, run: seq<Label>, e: SpecVolume)
    requires "a" in s.vms && "a" in s.vmis && PublishSteps(run, "b", e)
    requires forall l :: l in run && l.Env? ==> l.act.SyncAttach? || l.act.MarkReady?
    ensures var s' := Replay(s, run);
            "a" in s'.vms && s'.vms["a"] == s.vms["a"] && "a" in s'.vmis && s'.dvs == s.dvs
  {
    hide SnapsAfter, ClaimsAfter, PvsAfter;
    if run != [] {
      var front, last := run[..|run| - 1], run[|run| - 1];
      assert run == front + [last];
      assert last in run;
      OtherVmStays(s, front, e);
    }
  }

  /** In each turn but the first the VMI of "a" comes to report what its spec names. */
  lemma EchoReports(c: Cluster, s: Infra, t: nat)
    requires c.plan == EchoPlan && t >= 1 && SpecNames(s, "a", "v") && "a" in s.vmis
    ensures StatusNames(Replay(s, c.Before(t)), "a", "v")
  {
    hide SnapsAfter, ClaimsAfter, PvsAfter, DvsAfter;
    var front := [Env(SyncAttach("b", "v")), Env(MarkReady("b", "v"))];
    assert c.Before(t) == front + [Env(SyncAttach("a", "v"))];
    ReplaySnoc(s, front, Env(SyncAttach("a", "v")));
    var e := SpecVolume("v", false, None, "", "");
    OtherVmStays(s, front, e);
    var s1 := Replay(s, front);
    var s' := Apply(s1, Env(SyncAttach("a", "v")));
    if !Reports(s1.vmis["a"], "v") {
      assert s'.vmis["a"][|s1.vmis["a"]|] in s'.vmis["a"];
    }
  }

  lemma EchoSteps(c: Cluster, did: seq<Label>, from: nat, to: nat)
    requires c.plan == EchoPlan && c.Scheduled(did, from, to)
    ensures forall l :: l in did && l.Env? ==> l.act.SyncAttach? || l.act.MarkReady?
  {
    forall l | l in did && l.Env? ensures l.act.SyncAttach? || l.act.MarkReady? {
      var t: nat :| from <= t < to && l.act in c.plan(t).before;
      assert EchoPlan(t).before == [] || l.act in [SyncAttach("b", "v"), MarkReady("b", "v"), SyncAttach("a", "v")];
    }
  }

  /** On the cluster of `Settled.PublishUnsettled`, once the VMI of "a" reports the volume, a
      repeat of the publish to "b" is refused, with the volume attached to "b". */
  method RepeatRefused() returns (first: Result<()>, second: Result<()>, ghost mid: Moment)
    ensures first.Ok? && second == Err(FailedPrecondition)
    ensures SpecBacks(mid.now, "b", "v")
  {
    hide Apply, Replay, PlugsInTime, Verdict, ReportedOnlyBy, NoneLeaving, SettledFor;
    hide StatusNames, SpecNames, SpecBacks;
    var cfg := Config(map[], "", Enforcement([], true, true, []));
    var req := PublishRequest("v", "ns/b", SingleNodeWriter, "u", "scsi");
    var c := new Cluster(EchoPlan, 4, NothingOnNotFound, Unsettled());
    Codecs.SplitAt("ns", "b", '/');
    Codecs.SplitPlain("b", '/');
    assert "ns" + ['/'] + "b" == "ns/b";
    assert TargetOf("v", "ns/b") == Ok("b");
    EchoPlanConverges(c);
    UnsettledStart(cfg, req);
    CalmPlugs(c, 0, Reads(req), 3, c.now, "b", "v");
    EmptyReplay(c.now, c.Before(0));
    ghost var did, again;
    first, second, mid, did, again := PublishTwice(c, cfg, req, 3);
    EchoSteps(c, did, 0, mid.tick);
    OtherVmStays(Unsettled(), did, HotPlugOf(req));
    NamedAlike(Unsettled(), mid.now, "a", "v");
    EchoReports(c, mid.now, mid.tick);
    assert !ReportedOnlyBy(Replay(mid.now, c.Before(mid.tick)), "b", "v") by {
      ReportedElsewhere(Replay(mid.now, c.Before(mid.tick)), "a", "b", "v");
    }
  }

  lemma NamedAlike(s: Infra, s': Infra, vm: string, vol: string)
    requires vm in s.vms && vm in s'.vms && s'.vms[vm] == s.vms[vm] && SpecNames(s, vm, vol)
    ensures SpecNames(s', vm, vol)
  {
  }

  lemma ReportedElsewhere(s: Infra, n: string, vm: string, vol: string)
    requires n != vm && StatusNames(s, n, vol)
    ensures !ReportedOnlyBy(s, vm, vol)
  {
  }

  // ----- Publish, then unpublish -----

  lemma WithoutAppended(vols: seq<SpecVolume>, e: SpecVolume)
    requires !Names(vols, e.name)
    ensures Without(vols + [e], e.name) == vols
  {
    if vols != [] {
      assert vols[0] in vols;
      assert (vols + [e])[1..] == vols[1..] + [e];
      assert !Names(vols[1..], e.name);
      WithoutAppended(vols[1..], e);
    }
  }

  /** The volume is on the machine only as hot-plugged disks that are there because the
      spec asked for them. */
  predicate Tidy(s: Infra, vm: string, vol: string) {
    && HotOnly(s, vm, vol)
    && (vm in s.vmis ==> forall e :: e in s.vmis[vm] && e.name == vol ==> e.hotplug && e.managed)
  }

  predicate CalmSteps(run: seq<Label>, vm: string, vol: string) {
    forall l :: l in run && l.Env? ==> !Disturbs(l.act, vm, vol)
  }

  predicate Plugs(l: Label, vm: string, e: SpecVolume) {
    (l.Env? && !Disturbs(l.act, vm, e.name)) || l == Listed(e.name, vm) || l == Added(vm, e)
  }

  lemma HotOnlyStep(s: Infra, l: Label, vm: string, e: SpecVolume)
    requires HotOnly(s, vm, e.name) && e.Hot() && Plugs(l, vm, e)
    ensures HotOnly(Apply(s, l), vm, e.name)
  {
    hide StatusesAfter, DvsAfter, SnapsAfter, ClaimsAfter, PvsAfter;
    match l
    case Env(CreateVm(m, vols)) =>
    case Env(OtherAdds(m, x)) =>
    case Env(OtherRemoves(m, w)) =>
    case Added(m, x) =>
    case _ =>
  }

  lemma TidyStep(s: Infra, l: Label, vm: string, e: SpecVolume)
    requires Tidy(s, vm, e.name) && e.Hot() && Plugs(l, vm, e)
    ensures Tidy(Apply(s, l), vm, e.name)
  {
    hide SpecsAfter, DvsAfter, SnapsAfter, ClaimsAfter, PvsAfter;
    HotOnlyStep(s, l, vm, e);
    match l
    case Env(MarkReady(m, w)) =>
    case Env(SyncAttach(m, w)) =>
    case Env(SyncDetach(m, w)) =>
    case _ =>
  }

  lemma {:induction false} TidyRun(s: Infra, run: seq<Label>, vm: string, e: SpecVolume)
    requires Tidy(s, vm, e.name) && e.Hot() && PublishSteps(run, vm, e) && CalmSteps(run, vm, e.name)
    ensures Tidy(Replay(s, run), vm, e.name)
  {
    hide Apply;
    if run != [] {
      var front, last := run[..|run| - 1], run[|run| - 1];
      assert run == front + [last];
      assert last in run;
      TidyRun(s, front, vm, e);
      TidyStep(Replay(s, front), last, vm, e);
    }
  }

  /** A machine that runs, does not have the volume on either surface, and may get it. */
  ghost predicate Ready(s: Infra, cfg: Config, vm: string, req: PublishRequest) {
    && vm in s.vms && vm in s.vmis && !Holds(s, vm, req.volume) && GuardPasses(s, vm, req)
    && req.volume in s.dvs && Owned(cfg, req.volume, s.dvs[req.volume].labels)
  }

  /** The environment syncs the volume on and off the machine in time. */
  ghost predicate Converges(c: Cluster, from: nat, lag: nat, vm: string, vol: string) {
    AttachConverges(c, from, lag, vm, vol) && DetachConverges(c, from, lag, vm, vol)
  }

  /** What a converging plan has done by turn `to` leaves the machine alone. */
  lemma ScheduledCalm(c: Cluster, did: seq<Label>, from: nat, to: nat, lag: nat, vm: string, vol: string)
    requires c.Scheduled(did, from, to) && Converges(c, from, lag, vm, vol)
    ensures CalmSteps(did, vm, vol)
  {
    forall l | l in did && l.Env? ensures !Disturbs(l.act, vm, vol) {
      var t: nat :| from <= t < to && l.act in c.plan(t).before;
      assert CalmTurn(c.plan(t), vm, vol);
    }
  }

  lemma ReadyProceeds(c: Cluster, n: nat, lag: nat, s: Infra, cfg: Config, vm: string, req: PublishRequest)
    requires Ready(s, cfg, vm, req) && Converges(c, n, lag, vm, req.volume)
    ensures GuardPasses(s, vm, req) && Verdict(s, cfg, vm, req.volume) == Ok(false) && Tidy(s, vm, req.volume)
    ensures CalmTurn(c.plan(n), vm, req.volume) && CalmFor(c.plan, n, Reads(req), vm, req.volume)
    ensures PlugsInTime(c, n + Reads(req), lag, s, vm, req.volume)
  {
    assert !SpecNames(s, vm, req.volume) && !StatusNames(s, vm, req.volume);
    CalmPlugs(c, n, n + Reads(req), lag, s, vm, req.volume);
  }

  /** From a spec not naming the volume, a publish and an unpublish that both succeed, with
      nobody else editing specs, restore every machine's exact volume list, however many of
      their API calls failed on the way; and both do succeed on a ready machine in an
      environment that converges. */
  method PublishThenUnpublish(c: Cluster, cfg: Config, req: PublishRequest, ghost lag: nat)
    returns (published: Result<()>, unpublished: Result<()>, ghost first: seq<Label>, ghost second: seq<Label>)
    requires c.Valid()
    requires TargetOf(req.volume, req.node).Ok? ==> !SpecNames(c.now, TargetOf(req.volume, req.node).value, req.volume)
    modifies c
    ensures c.Grew(old(c.now), old(c.trail), first + second)
    ensures published.Ok? && unpublished.Ok? && SpecQuiet(first + second) ==> c.now.vms == old(c.now).vms
    ensures TargetOf(req.volume, req.node).Ok? ==>
            var vm := TargetOf(req.volume, req.node).value;
            Ready(old(c.now), cfg, vm, req) && Converges(c, old(c.tick), lag, vm, req.volume) ==>
            published.Ok? && unpublished.Ok?
  {
    hide Apply, Replay, Cluster.Planned, Ready, Converges, CalmSteps, Tidy, CalmFor, PlugsInTime, Verdict;
    hide Looks, UnplugsInTime, Removable, IsDetached, StatusHot, DetachConverges;
    ghost var s, n, t := c.now, c.tick, c.trail;
    Revealed(c);
    published, first := ControllerPublishVolume(c, cfg, req, lag);
    ghost var s1, m := c.now, c.tick;
    Revealed(c);
    c.PlannedSteps(t, first, n, m);
    unpublished, second := ControllerUnpublishVolume(c, req.volume, req.node, lag);
    c.Chain(s, t, first, second);
    if TargetOf(req.volume, req.node).Ok? {
      ghost var vm := TargetOf(req.volume, req.node).value;
      if published.Ok? && unpublished.Ok? && SpecQuiet(first + second) {
        Restored(s, s1, c.now, first, second, vm, HotPlugOf(req));
      }
      if Ready(s, cfg, vm, req) && Converges(c, n, lag, vm, req.volume) {
        ConvergesLater(c, n, m, lag, vm, req.volume);
        ReadyProceeds(c, n, lag, s, cfg, vm, req);
        ScheduledCalm(c, first, n, m, lag, vm, req.volume);
        TidyRun(s, first, vm, HotPlugOf(req));
        TidyRemovable(s1, vm, req.volume);
        CalmUnplugs(c, m, m + Looks(s1, vm, req.volume), lag, s1, vm, req.volume);
      }
    }
  }

  lemma TidyRemovable(s: Infra, vm: string, vol: string)
    requires Tidy(s, vm, vol)
    ensures Removable(s, vm, vol)
  {
  }

  lemma ConvergesLater(c: Cluster, n: nat, m: nat, lag: nat, vm: string, vol: string)
    requires n <= m && Converges(c, n, lag, vm, vol)
    ensures DetachConverges(c, m, lag, vm, vol)
  {
  }

  /** The specs before the publish, after it, and after the unpublish. */
  lemma Restored(s: Infra, s1: Infra, s2: Infra, first: seq<Label>, second: seq<Label>, vm: string, e: SpecVolume)
    requires !SpecNames(s, vm, e.name) && SpecBacks(s1, vm, e.name)
    requires SpecQuiet(first + second)
    requires SpecQuiet(first) ==> s1.vms == s.vms || (vm in s.vms && s1.vms == s.vms[vm := s.vms[vm] + [e]])
    requires SpecQuiet(second) ==> !SpecBacks(s2, vm, e.name)
    requires SpecQuiet(second) ==>
             s2.vms == s1.vms || (vm in s1.vms && s2.vms == s1.vms[vm := Without(s1.vms[vm], e.name)])
    ensures s2.vms == s.vms
  {
    assert SpecQuiet(first) && SpecQuiet(second);
    assert s1.vms == s.vms[vm := s.vms[vm] + [e]];
    WithoutAppended(s.vms[vm], e);
    assert s2.vms == s1.vms[vm := s.vms[vm]];
  }
}
