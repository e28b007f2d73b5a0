/** When a single-node publish that passes its guard keeps the volume on one machine: exactly
    if the state its guard saw was settled. */
module Settled {
  import opened Base
  import opened Infra
  import opened ClusterApi
  import opened Filters
  import opened Discipline
  import opened Steady
  import opened Attach
  import Codecs

  /** From turn `from` on nobody edits the volume's entries or deletes a VM. */
  ghost predicate Steadfast(plan: nat -> Turn, from: nat, vol: string) {
    forall t: nat, a :: t >= from && a in plan(t).before ==> !ForeignTo(a, vol) && !a.DeleteVm?
  }

  predicate NoVmDeletes(run: seq<Label>) {
    forall l :: l in run && l.Env? ==> !l.act.DeleteVm?
  }

  lemma SteadfastSteps(c: Cluster, did: seq<Label>, from: nat, to: nat, vol: string)
    requires c.Scheduled(did, from, to) && Steadfast(c.plan, from, vol)
    ensures Serial(did, vol) && NoVmDeletes(did)
  {
    forall l | l in did && l.Env? ensures !ForeignTo(l.act, vol) && !l.act.DeleteVm? {
      var t: nat :| from <= t < to && l.act in c.plan(t).before;
    }
  }

  /** A machine whose spec names the volume keeps it there. */
  lemma NamedStep(s: Infra, l: Label, n: string, vm: string, e: SpecVolume)
    requires SpecNames(s, n, e.name)
    requires (l.Env? && !ForeignTo(l.act, e.name) && !l.act.DeleteVm?) || l == Listed(e.name, vm) || l == Added(vm, e)
    ensures SpecNames(Apply(s, l), n, e.name)
  {
    hide StatusesAfter, DvsAfter, SnapsAfter, ClaimsAfter, PvsAfter;
    var x :| x in s.vms[n] && x.name == e.name;
    match l
    case Env(OtherAdds(m, y)) => assert m in s.vms ==> x in s.vms[n] + [y];
    case Env(OtherRemoves(m, w)) => assert m in s.vms ==> x in Without(s.vms[n], w);
    case Added(m, y) => assert m in s.vms ==> x in s.vms[n] + [y];
    case _ =>
  }

  /** A publish to `vm` leaves every holder by spec, and makes none but `vm`. */
  lemma {:induction false} HoldersOver(s: Infra, run: seq<Label>, n: string, vm: string, e: SpecVolume)
    requires PublishSteps(run, vm, e) && Serial(run, e.name) && NoVmDeletes(run)
    ensures SpecNames(s, n, e.name) ==> SpecNames(Replay(s, run), n, e.name)
    ensures n != vm && Holds(Replay(s, run), n, e.name) ==> Holds(s, n, e.name)
  {
    hide Apply, Holds;
    if run != [] {
      var front, l := run[..|run| - 1], run[|run| - 1];
      assert run == front + [l];
      assert l in run;
      HoldersOver(s, front, n, vm, e);
      if SpecNames(s, n, e.name) { NamedStep(Replay(s, front), l, n, vm, e); }
      if Holds(Replay(s, run), n, e.name) { HolderStep(Replay(s, front), l, n, e.name); }
    }
  }

  /** The guard's own test says nothing about specs, so what it passes has no other holder
      exactly if it is settled; and the rest of the publish changes nothing about that. */
  lemma HoldersAfterPublish(seen: Infra, run: seq<Label>, vm: string, e: SpecVolume)
    requires PublishSteps(run, vm, e) && Serial(run, e.name) && NoVmDeletes(run)
    requires ReportedOnlyBy(seen, vm, e.name) && SpecBacks(Replay(seen, run), vm, e.name)
    ensures AtMostOneHolder(Replay(seen, run), e.name) <==> SettledFor(seen, vm, e.name)
  {
    hide Apply, Replay;
    var end := Replay(seen, run);
    assert Holds(end, vm, e.name);
    GuardExactWhenSettled(seen, vm, e.name);
    if SettledFor(seen, vm, e.name) {
      forall n | Holds(end, n, e.name) ensures n == vm {
        HoldersOver(seen, run, n, vm, e);
      }
    } else {
      var n :| n != vm && SpecNames(seen, n, e.name) && !StatusNames(seen, n, e.name);
      HoldersOver(seen, run, n, vm, e);
      assert Holds(end, n, e.name);
    }
  }

  /** The publish can be expected to succeed from `s`: calls succeed while it looks up, and it
      finds the volume attached or can plug it in time. */
  ghost predicate GoesThrough(c: Cluster, n: nat, lag: nat, s: Infra, cfg: Config, vm: string, req: PublishRequest) {
    && CalmFor(c.plan, n, Reads(req), vm, req.volume) && Verdict(s, cfg, vm, req.volume).Ok?
    && (Verdict(s, cfg, vm, req.volume) == Ok(false) ==> PlugsInTime(c, n + Reads(req), lag, s, vm, req.volume))
  }

  lemma SplitsAt(s: Infra, env: seq<Label>, did: seq<Label>) returns (rest: seq<Label>)
    requires env <= did
    ensures did == env + rest && Replay(s, did) == Replay(Replay(s, env), rest)
  {
    hide Apply, Replay;
    rest := did[|env|..];
    ReplayConcat(s, env, rest);
  }

  /** EXCLUSIVITY, EXACTLY. Let nobody edit the volume's entries or delete VMs during a
      single-node publish, and let `seen` be the state its guard read. A publish that
      succeeds leaves at most one holder if and only if `seen` was settled; and if no VMI
      but the target's reports the volume there, it does succeed, settled or not, given
      calls that succeed and a machine that syncs in time. */
  method PublishFromSeen(c: Cluster, cfg: Config, req: PublishRequest, ghost lag: nat)
    returns (r: Result<()>, ghost seen: Infra)
    requires c.Valid() && TargetOf(req.volume, req.node).Ok? && IsRwx(req.mode) == Ok(false)
    modifies c
    ensures c.Valid()
    ensures seen == Replay(old(c.now), c.Before(old(c.tick)))
    ensures c.plan(old(c.tick)).before == [] ==> seen == old(c.now)
    ensures var vm := TargetOf(req.volume, req.node).value;
            && (r.Ok? ==> ReportedOnlyBy(seen, vm, req.volume) && SpecBacks(c.now, vm, req.volume))
            && (r.Ok? && Steadfast(c.plan, old(c.tick), req.volume) ==>
                  (AtMostOneHolder(c.now, req.volume) <==> SettledFor(seen, vm, req.volume)))
            && (r.Ok? && Steadfast(c.plan, old(c.tick), req.volume) ==>
                  forall n :: SpecNames(seen, n, req.volume) ==> Holds(c.now, n, req.volume))
            && (GoesThrough(c, old(c.tick), lag, old(c.now), cfg, vm, req) ==>
                  ReportedOnlyBy(seen, vm, req.volume) ==> r.Ok?)
  {
    hide Apply, Replay, Cluster.Planned, PublishLeaves, ReportedOnlyBy, SettledFor, AtMostOneHolder, Verdict, CalmTurn;
    ghost var s, n, t, env := c.now, c.tick, c.trail, c.Before(c.tick);
    ghost var vm, e := TargetOf(req.volume, req.node).value, HotPlugOf(req);
    assert c.Planned(t, n) by { Revealed(c); }
    seen := Replay(s, env);
    EmptyReplay(s, env);
    if GoesThrough(c, n, lag, s, cfg, vm, req) { FirstCalm(c, n, lag, s, cfg, vm, req); }
    ghost var did;
    r, did := ControllerPublishVolume(c, cfg, req, lag);
    if r.Ok? && Steadfast(c.plan, n, req.volume) {
      assert PublishSteps(did, vm, e) by { PublishLeavesSteps(c.start, t, did, vm, req); }
      assert c.Planned(c.trail, c.tick) by { Revealed(c); }
      c.PlannedSteps(t, did, n, c.tick);
      SteadfastSteps(c, did, n, c.tick, req.volume);
      ghost var rest := SplitsAt(s, env, did);
      HoldersAfterPublish(seen, rest, vm, e);
      forall m | SpecNames(seen, m, req.volume) ensures Holds(c.now, m, req.volume) {
        HoldersOver(seen, rest, m, vm, e);
      }
    }
  }

  lemma Revealed(c: Cluster)
    requires c.Valid()
    ensures c.Planned(c.trail, c.tick)
  {
  }

  lemma EmptyReplay(s: Infra, run: seq<Label>)
    ensures run == [] ==> Replay(s, run) == s
  {
  }

  lemma FirstCalm(c: Cluster, n: nat, lag: nat, s: Infra, cfg: Config, vm: string, req: PublishRequest)
    requires GoesThrough(c, n, lag, s, cfg, vm, req)
    ensures c.plan(n).fate.Succeeds? && CalmFor(c.plan, n, Reads(req), vm, req.volume)
    ensures Verdict(s, cfg, vm, req.volume).Ok?
    ensures Verdict(s, cfg, vm, req.volume) == Ok(false) ==> PlugsInTime(c, n + Reads(req), lag, s, vm, req.volume)
  {
    assert CalmTurn(c.plan(n), vm, req.volume);
  }

  // ----- An unsettled state -----

  /** No call fails; from turn 1 on the VMI of "b" is kept in step with its spec. */
  function LatePlan(t: nat): Turn {
    Turn(if t == 0 then [] else [SyncAttach("b", "v"), MarkReady("b", "v")], Succeeds, "")
  }

  /** The spec of "a" names the volume, and its VMI does not report it yet. */
  function Unsettled(): Infra {
    Infra(map["a" := [SpecVolume("v", false, Some(DvRef("v", true)), "u", "scsi")], "b" := []],
          map["a" := [], "b" := []],
          map["v" := DataVolume("u", map[], Some(1), false, None, Blank)], map[], map[], map[])
  }

  lemma LatePlanConverges(c: Cluster)
    requires c.plan == LatePlan && c.polls == 4
    ensures AttachConverges(c, 0, 3, "b", "v") && Steadfast(c.plan, 0, "v")
  {
    forall t: nat ensures AttachRound(c.plan, t, 3, "b", "v") {
      var a := if t == 0 then 1 else t;
      assert LatePlan(a).before[0] == SyncAttach("b", "v") && LatePlan(a + 1).before[1] == MarkReady("b", "v");
      assert Occurs(c.plan, a, SyncAttach("b", "v")) && Occurs(c.plan, a + 1, MarkReady("b", "v"));
    }
  }

  lemma UnsettledStart(cfg: Config, req: PublishRequest)
    requires cfg.labels == map[] && cfg.prefix == "" && req.volume == "v" && req.mode == SingleNodeWriter
    ensures var s := Unsettled();
            && AtMostOneHolder(s, "v") && SpecNames(s, "a", "v") && !SettledFor(s, "b", "v")
            && ReportedOnlyBy(s, "b", "v") && NoneLeaving(s, "b", "v")
            && Verdict(s, cfg, "b", "v") == Ok(false)
  {
    var s := Unsettled();
    assert s.vms["a"][0] in s.vms["a"];
    assert SpecNames(s, "a", "v") && !StatusNames(s, "a", "v");
  }

  /** So it does go wrong: on this cluster a single-node publish to "b" passes its guard,
      succeeds, and leaves the volume on "a" and "b". */
  method PublishUnsettled() returns (r: Result<()>, ghost end: Infra)
    ensures AtMostOneHolder(Unsettled(), "v") && r.Ok?
    ensures SpecNames(Unsettled(), "a", "v") && Holds(end, "a", "v") && SpecBacks(end, "b", "v")
    ensures !AtMostOneHolder(end, "v")
  {
    hide Apply, Replay, PlugsInTime, Verdict, SettledFor, ReportedOnlyBy, NoneLeaving;
    var cfg := Config(map[], "", Enforcement([], true, true, []));
    var req := PublishRequest("v", "ns/b", SingleNodeWriter, "u", "scsi");
    var c := new Cluster(LatePlan, 4, NothingOnNotFound, Unsettled());
    Codecs.SplitAt("ns", "b", '/');
    Codecs.SplitPlain("b", '/');
    assert "ns" + ['/'] + "b" == "ns/b";
    LatePlanConverges(c);
    UnsettledStart(cfg, req);
    CalmPlugs(c, 0, Reads(req), 3, c.now, "b", "v");
    ghost var seen;
    r, seen := PublishFromSeen(c, cfg, req, 3);
    end := c.now;
  }
}
