/** The infra cluster's API as the driver meets it: between two calls the environment
    acts, and a call may succeed, fail without effect, or fail after taking effect. */
module ClusterApi {
  import opened Base
  import opened Infra
  import opened Filters

  datatype Fate = Succeeds | FailsClean | FailsAfterEffect

  /** One API call's share of a run: what the environment does before it, what becomes
      of it, and the UID the API server would assign. */
  datatype Turn = Turn(before: seq<EnvAction>, fate: Fate, uid: string)

  function EnvLabels(acts: seq<EnvAction>): (r: seq<Label>)
    ensures |r| == |acts| && forall i :: 0 <= i < |acts| ==> r[i] == Env(acts[i])
  {
    seq(|acts|, i requires 0 <= i < |acts| => Env(acts[i]))
  }

  function ReadOf<V>(m: map<string, V>, name: string, fate: Fate): Result<V> {
    if !fate.Succeeds? then Err(Other)
    else if name in m then Ok(m[name]) else Err(NotFound)
  }

  /** Outcome of a write that needs `there` to hold. */
  function WriteOf(there: bool, missing: Kind, fate: Fate): Result<()> {
    if !fate.Succeeds? then Err(Other)
    else if there then Ok(()) else Err(missing)
  }

  /** Outcome of a create, which refuses a name in use. */
  function CreateOf<V>(taken: bool, v: V, fate: Fate): Result<V> {
    if !fate.Succeeds? then Err(Other)
    else if taken then Err(AlreadyExists) else Ok(v)
  }

  /** The stored DataVolume, with the UID it is given. */
  function Minted(spec: DataVolume, uid: string): DataVolume {
    spec.(uid := uid)
  }

  datatype NamedSnap = NamedSnap(name: string, snap: Snapshot)

  ghost predicate Distinct(items: seq<NamedSnap>) {
    forall i, j :: 0 <= i < j < |items| ==> items[i].name != items[j].name
  }

  predicate InListing(it: NamedSnap, snaps: map<string, Snapshot>, selector: map<string, string>) {
    it.name in snaps && snaps[it.name] == it.snap && Selects(selector, it.snap.labels)
  }

  /** Every selected snapshot, once, and nothing else. */
  ghost predicate Listing(items: seq<NamedSnap>, snaps: map<string, Snapshot>, selector: map<string, string>) {
    && Distinct(items)
    && (forall it :: it in items ==> InListing(it, snaps, selector))
    && (forall n :: n in snaps && Selects(selector, snaps[n].labels) ==> NamedSnap(n, snaps[n]) in items)
  }

  lemma AddAgain(a: seq<Label>, b: seq<Label>, c: seq<Label>)
    ensures a + b + c == a + (b + c)
  {
  }

  /** The steps of a write: it leaves its label if it takes effect. */
  function Effect(before: seq<Label>, takes: bool, l: Label): seq<Label> {
    if takes then before + [l] else before
  }

  /** What the generated getters hand out beside a NotFound error: nothing, as the callers
      expect, or an empty object, as they do. */
  datatype Getter = NothingOnNotFound | EmptyOnNotFound

  class Cluster {
    /** Every interleaving and every fault pattern is some plan. */
    const plan: nat -> Turn
    /** How many reads of a poll fit in its timeout; the first is immediate. */
    const polls: nat
    const getter: Getter
    var now: Infra
    var tick: nat
    ghost const start: Infra
    ghost var trail: seq<Label>

    ghost predicate Valid()
      reads this
    {
      polls >= 1 && now == Replay(start, trail) && Planned(trail, tick)
    }

    constructor (plan: nat -> Turn, polls: nat, getter: Getter, initial: Infra)
      requires polls >= 1
      ensures Valid() && this.plan == plan && this.polls == polls && this.getter == getter
      ensures now == start == initial && trail == [] && tick == 0
    {
      this.plan, this.polls, this.getter, this.now, this.tick := plan, polls, getter, initial, 0;
      this.start, this.trail := initial, [];
      new;
      NoTurns();
    }

    ghost function Before(t: nat): (r: seq<Label>)
      ensures |r| == |plan(t).before| && AllEnv(r)
      ensures forall i :: 0 <= i < |r| ==> r[i] == Env(plan(t).before[i])
    {
      EnvLabels(plan(t).before)
    }

    /** What the environment did before the first `n` calls. */
    ghost function Turns(n: nat): seq<Label> {
      if n == 0 then [] else Turns(n - 1) + Before(n - 1)
    }

    /** The environment's steps of the run are those of the plan's first `n` turns. */
    ghost predicate Planned(run: seq<Label>, n: nat) {
      EnvOf(run) == Turns(n)
    }

    lemma NoTurns()
      ensures Planned([], 0)
    {
    }

    ghost predicate Grew(s: Infra, t: seq<Label>, did: seq<Label>)
      reads this
    {
      trail == t + did && now == Replay(s, did)
    }

    lemma Unmoved()
      ensures Grew(now, trail, [])
    {
    }

    /** Steps from (s, t) by `a`, then by `b` to here, are steps by a + b. */
    lemma Chain(s: Infra, t: seq<Label>, a: seq<Label>, b: seq<Label>)
      requires Grew(Replay(s, a), t + a, b)
      ensures Grew(s, t, a + b)
    {
      ReplayConcat(s, a, b);
      assert t + a + b == t + (a + b);
    }

    method Pause() returns (turn: Turn, ghost did: seq<Label>)
      requires Valid()
      modifies this
      ensures Valid() && tick == old(tick) + 1 && turn == plan(old(tick))
      ensures did == Before(old(tick)) && Grew(old(now), old(trail), did)
    {
      hide Apply, Replay;
      Unmoved();
      turn := plan(tick);
      did := [];
      var i := 0;
      assert trail + [] == trail;
      while i < |turn.before|
        invariant 0 <= i <= |turn.before| && turn == plan(old(tick)) && tick == old(tick)
        invariant did == Before(old(tick))[..i]
        invariant Grew(old(now), old(trail), did) && now == Replay(start, trail)
      {
        did := Step(did, old(now), old(trail), Env(turn.before[i]));
        i := i + 1;
      }
      assert did == Before(old(tick));
      EnvOfConcat(old(trail), did);
      EnvOfEnv(did);
      tick := tick + 1;
    }

    method Step(ghost before: seq<Label>, ghost s: Infra, ghost t: seq<Label>, l: Label)
      returns (ghost did: seq<Label>)
      requires Grew(s, t, before) && now == Replay(start, trail)
      modifies this`now, this`trail
      ensures did == before + [l] && Grew(s, t, did) && now == Replay(start, trail)
      ensures trail == old(trail) + [l] && now == Apply(old(now), l)
    {
      ReplaySnoc(start, trail, l);
      ReplaySnoc(s, before, l);
      now := Apply(now, l);
      did := before + [l];
      assert t + did == trail + [l];
      trail := trail + [l];
    }

    /** A write of the driver takes effect. */
    method Commit(ghost before: seq<Label>, ghost s: Infra, ghost t: seq<Label>, l: Label)
      returns (ghost did: seq<Label>)
      requires Valid() && Grew(s, t, before) && !l.Env?
      modifies this`now, this`trail
      ensures Valid() && did == before + [l] && Grew(s, t, did)
      ensures now == Apply(old(now), l)
    {
      EnvOfSnoc(trail, l);
      did := Step(before, s, t, l);
    }

    ghost method Mark(before: seq<Label>, s: Infra, t: seq<Label>, vol: string, vm: string) returns (did: seq<Label>)
      requires Valid() && Grew(s, t, before)
      modifies this`trail
      ensures Valid() && did == before + [Listed(vol, vm)] && Grew(s, t, did)
    {
      EnvOfSnoc(trail, Listed(vol, vm));
      ReplaySnoc(start, trail, Listed(vol, vm));
      ReplaySnoc(s, before, Listed(vol, vm));
      did := before + [Listed(vol, vm)];
      assert t + did == trail + [Listed(vol, vm)];
      trail := trail + [Listed(vol, vm)];
    }

    method GetVm(name: string) returns (r: Result<seq<SpecVolume>>, ghost did: seq<Label>)
      requires Valid()
      modifies this
      ensures Valid() && tick == old(tick) + 1
      ensures did == Before(old(tick)) && Grew(old(now), old(trail), did)
      ensures r == ReadOf(now.vms, name, plan(old(tick)).fate)
    {
      hide Apply, Replay;
      var turn;
      turn, did := Pause();
      r := ReadOf(now.vms, name, turn.fate);
    }

    method GetVmi(name: string) returns (r: Result<seq<StatusVolume>>, ghost did: seq<Label>)
      requires Valid()
      modifies this
      ensures Valid() && tick == old(tick) + 1
      ensures did == Before(old(tick)) && Grew(old(now), old(trail), did)
      ensures r == ReadOf(now.vmis, name, plan(old(tick)).fate)
    {
      hide Apply, Replay;
      var turn;
      turn, did := Pause();
      r := ReadOf(now.vmis, name, turn.fate);
    }

    method ListVmis() returns (r: Result<map<string, seq<StatusVolume>>>, ghost did: seq<Label>)
      requires Valid()
      modifies this
      ensures Valid() && tick == old(tick) + 1
      ensures did == Before(old(tick)) && Grew(old(now), old(trail), did)
      ensures r == if plan(old(tick)).fate.Succeeds? then Ok(now.vmis) else Err(Other)
    {
      hide Apply, Replay;
      var turn;
      turn, did := Pause();
      r := if turn.fate.Succeeds? then Ok(now.vmis) else Err(Other);
    }

    method GetDv(name: string) returns (r: Result<DataVolume>, ghost did: seq<Label>)
      requires Valid()
      modifies this
      ensures Valid() && tick == old(tick) + 1
      ensures did == Before(old(tick)) && Grew(old(now), old(trail), did)
      ensures r == ReadOf(now.dvs, name, plan(old(tick)).fate)
    {
      hide Apply, Replay;
      var turn;
      turn, did := Pause();
      r := ReadOf(now.dvs, name, turn.fate);
    }

    /** virt-api's addvolume: appends one hot-pluggable entry to VM.spec. */
    method AddVolume(vm: string, entry: SpecVolume) returns (r: Result<()>, ghost did: seq<Label>)
      requires Valid()
      modifies this
      ensures Valid() && tick == old(tick) + 1 && Grew(old(now), old(trail), did)
      ensures did == Before(old(tick)) || did == Before(old(tick)) + [Added(vm, entry)]
      ensures var s := Replay(old(now), Before(old(tick)));
              var fate := plan(old(tick)).fate;
              && r == WriteOf(vm in s.vms, NotFound, fate)
              && (did == Before(old(tick)) <==> vm !in s.vms || fate.FailsClean?)
    {
      hide Apply, Replay;
      var turn;
      turn, did := Pause();
      r := WriteOf(vm in now.vms, NotFound, turn.fate);
      if vm in now.vms && !turn.fate.FailsClean? {
        did := Commit(did, old(now), old(trail), Added(vm, entry));
      }
    }

    /** virt-api's removevolume on the VM: deletes the entries of that name from VM.spec. */
    method RemoveVolumeFromVm(vm: string, vol: string) returns (r: Result<()>, ghost did: seq<Label>)
      requires Valid()
      modifies this
      ensures Valid() && tick == old(tick) + 1 && Grew(old(now), old(trail), did)
      ensures did == Before(old(tick)) || did == Before(old(tick)) + [RemovedFromVm(vm, vol)]
      ensures var s := Replay(old(now), Before(old(tick)));
              var fate := plan(old(tick)).fate;
              && r == WriteOf(vm in s.vms, NotFound, fate)
              && (did == Before(old(tick)) <==> vm !in s.vms || fate.FailsClean?)
    {
      hide Apply, Replay;
      var turn;
      turn, did := Pause();
      r := WriteOf(vm in now.vms, NotFound, turn.fate);
      if vm in now.vms && !turn.fate.FailsClean? {
        did := Commit(did, old(now), old(trail), RemovedFromVm(vm, vol));
      }
    }

    /** virt-api's removevolume on the VMI: requests the unplug. */
    method RemoveVolumeFromVmi(vm: string, vol: string) returns (r: Result<()>, ghost did: seq<Label>)
      requires Valid()
      modifies this
      ensures Valid() && tick == old(tick) + 1 && Grew(old(now), old(trail), did)
      ensures did == Before(old(tick)) || did == Before(old(tick)) + [RemovedFromVmi(vm, vol)]
      ensures var s := Replay(old(now), Before(old(tick)));
              var fate := plan(old(tick)).fate;
              && r == WriteOf(vm in s.vmis, NotFound, fate)
              && (did == Before(old(tick)) <==> vm !in s.vmis || fate.FailsClean?)
    {
      hide Apply, Replay;
      var turn;
      turn, did := Pause();
      r := WriteOf(vm in now.vmis, NotFound, turn.fate);
      if vm in now.vmis && !turn.fate.FailsClean? {
        did := Commit(did, old(now), old(trail), RemovedFromVmi(vm, vol));
      }
    }

    /** Creating assigns a UID and refuses a name in use. */
    method CreateDv(name: string, spec: DataVolume) returns (r: Result<DataVolume>, ghost did: seq<Label>)
      requires Valid()
      modifies this
      ensures Valid() && tick == old(tick) + 1 && Grew(old(now), old(trail), did)
      ensures var s := Replay(old(now), Before(old(tick)));
              var turn := plan(old(tick));
              var dv := Minted(spec, turn.uid);
              && did == Effect(Before(old(tick)), name !in s.dvs && !turn.fate.FailsClean?, DvCreated(name, dv))
              && r == CreateOf(name in s.dvs, dv, turn.fate)
    {
      hide Apply, Replay;
      hide Minted;
      var turn;
      turn, did := Pause();
      r := CreateOf(name in now.dvs, Minted(spec, turn.uid), turn.fate);
      if name !in now.dvs && !turn.fate.FailsClean? {
        did := Commit(did, old(now), old(trail), DvCreated(name, Minted(spec, turn.uid)));
      }
    }

    method DeleteDv(name: string) returns (r: Result<()>, ghost did: seq<Label>)
      requires Valid()
      modifies this
      ensures Valid() && tick == old(tick) + 1 && Grew(old(now), old(trail), did)
      ensures var s := Replay(old(now), Before(old(tick)));
              var fate := plan(old(tick)).fate;
              && did == Effect(Before(old(tick)), name in s.dvs && !fate.FailsClean?, DvDeleted(name))
              && r == WriteOf(name in s.dvs, NotFound, fate)
    {
      hide Apply, Replay;
      var turn;
      turn, did := Pause();
      r := WriteOf(name in now.dvs, NotFound, turn.fate);
      if name in now.dvs && !turn.fate.FailsClean? {
        did := Commit(did, old(now), old(trail), DvDeleted(name));
      }
    }

    method GetSnap(name: string) returns (r: Result<Snapshot>, ghost did: seq<Label>)
      requires Valid()
      modifies this
      ensures Valid() && tick == old(tick) + 1
      ensures did == Before(old(tick)) && Grew(old(now), old(trail), did)
      ensures r == ReadOf(now.snaps, name, plan(old(tick)).fate)
    {
      hide Apply, Replay;
      var turn;
      turn, did := Pause();
      r := ReadOf(now.snaps, name, turn.fate);
    }

    /** Lists the snapshots a label selector selects, in some order. */
    method ListSnaps(selector: map<string, string>) returns (r: Result<seq<NamedSnap>>, ghost did: seq<Label>)
      requires Valid()
      modifies this
      ensures Valid() && tick == old(tick) + 1
      ensures did == Before(old(tick)) && Grew(old(now), old(trail), did)
      ensures r.Ok? <==> plan(old(tick)).fate.Succeeds?
      ensures r.Ok? ==> Listing(r.value, now.snaps, selector)
      ensures r.Err? ==> r.kind == Other
    {
      hide Apply, Replay;
      var turn;
      turn, did := Pause();
      if !turn.fate.Succeeds? {
        return Err(Other), did;
      }
      var items: seq<NamedSnap>, names := [], now.snaps.Keys;
      while names != {}
        modifies {}
        invariant names <= now.snaps.Keys
        invariant Distinct(items) && forall it :: it in items ==> it.name !in names
        invariant forall it :: it in items ==> InListing(it, now.snaps, selector)
        invariant forall n :: n in now.snaps && n !in names && Selects(selector, now.snaps[n].labels) ==>
                    NamedSnap(n, now.snaps[n]) in items
        decreases names
      {
        var n :| n in names;
        names := names - {n};
        if Selects(selector, now.snaps[n].labels) {
          items := items + [NamedSnap(n, now.snaps[n])];
        }
      }
      r := Ok(items);
    }

    method CreateSnap(name: string, snap: Snapshot) returns (r: Result<Snapshot>, ghost did: seq<Label>)
      requires Valid()
      modifies this
      ensures Valid() && tick == old(tick) + 1 && Grew(old(now), old(trail), did)
      ensures var s := Replay(old(now), Before(old(tick)));
              var fate := plan(old(tick)).fate;
              && did == Effect(Before(old(tick)), name !in s.snaps && !fate.FailsClean?, SnapCreated(name, snap))
              && r == CreateOf(name in s.snaps, snap, fate)
    {
      hide Apply, Replay;
      var turn;
      turn, did := Pause();
      r := CreateOf(name in now.snaps, snap, turn.fate);
      if name !in now.snaps && !turn.fate.FailsClean? {
        did := Commit(did, old(now), old(trail), SnapCreated(name, snap));
      }
    }

    method DeleteSnap(name: string) returns (r: Result<()>, ghost did: seq<Label>)
      requires Valid()
      modifies this
      ensures Valid() && tick == old(tick) + 1 && Grew(old(now), old(trail), did)
      ensures var s := Replay(old(now), Before(old(tick)));
              var fate := plan(old(tick)).fate;
              && did == Effect(Before(old(tick)), name in s.snaps && !fate.FailsClean?, SnapDeleted(name))
              && r == WriteOf(name in s.snaps, NotFound, fate)
    {
      hide Apply, Replay;
      var turn;
      turn, did := Pause();
      r := WriteOf(name in now.snaps, NotFound, turn.fate);
      if name in now.snaps && !turn.fate.FailsClean? {
        did := Commit(did, old(now), old(trail), SnapDeleted(name));
      }
    }

    method GetClaim(name: string) returns (r: Result<Claim>, ghost did: seq<Label>)
      requires Valid()
      modifies this
      ensures Valid() && tick == old(tick) + 1
      ensures did == Before(old(tick)) && Grew(old(now), old(trail), did)
      ensures r == ReadOf(now.claims, name, plan(old(tick)).fate)
    {
      hide Apply, Replay;
      var turn;
      turn, did := Pause();
      r := ReadOf(now.claims, name, turn.fate);
    }

    method PatchClaim(name: string, bytes: int) returns (r: Result<()>, ghost did: seq<Label>)
      requires Valid()
      modifies this
      ensures Valid() && tick == old(tick) + 1 && Grew(old(now), old(trail), did)
      ensures var s := Replay(old(now), Before(old(tick)));
              var fate := plan(old(tick)).fate;
              && did == Effect(Before(old(tick)), name in s.claims && !fate.FailsClean?, ClaimPatched(name, bytes))
              && r == WriteOf(name in s.claims, NotFound, fate)
    {
      hide Apply, Replay;
      var turn;
      turn, did := Pause();
      r := WriteOf(name in now.claims, NotFound, turn.fate);
      if name in now.claims && !turn.fate.FailsClean? {
        did := Commit(did, old(now), old(trail), ClaimPatched(name, bytes));
      }
    }

    method GetPv(name: string) returns (r: Result<int>, ghost did: seq<Label>)
      requires Valid()
      modifies this
      ensures Valid() && tick == old(tick) + 1
      ensures did == Before(old(tick)) && Grew(old(now), old(trail), did)
      ensures r == ReadOf(now.pvs, name, plan(old(tick)).fate)
    {
      hide Apply, Replay;
      var turn;
      turn, did := Pause();
      r := ReadOf(now.pvs, name, turn.fate);
    }

    /** Every environment step of `did` is one the plan has in the turns it took. */
    ghost predicate Scheduled(did: seq<Label>, from: nat, to: nat) {
      forall l :: l in did && l.Env? ==> exists t: nat :: from <= t < to && l.act in plan(t).before
    }

    lemma BeforeScheduled(t: nat)
      ensures Scheduled(Before(t), t, t + 1)
    {
      forall l | l in Before(t) && l.Env? ensures exists u: nat :: t <= u < t + 1 && l.act in plan(u).before {
        var i :| 0 <= i < |Before(t)| && Before(t)[i] == l;
        assert t <= t < t + 1 && plan(t).before[i] in plan(t).before;
      }
    }

    lemma ScheduledAgain(a: seq<Label>, b: seq<Label>, from: nat, mid: nat, to: nat)
      requires from <= mid <= to && Scheduled(a, from, mid) && Scheduled(b, mid, to)
      ensures Scheduled(a + b, from, to)
    {
      forall l | l in a + b && l.Env? ensures exists t: nat :: from <= t < to && l.act in plan(t).before {
        if l in a {
          var t: nat :| from <= t < mid && l.act in plan(t).before;
          assert from <= t < to && l.act in plan(t).before;
        } else {
          var t: nat :| mid <= t < to && l.act in plan(t).before;
          assert from <= t < to && l.act in plan(t).before;
        }
      }
    }

    lemma TurnsNext(t: nat)
      ensures Turns(t + 1) == Turns(t) + Before(t)
    {
    }

    lemma {:induction false} TurnsBetween(from: nat, to: nat) returns (more: seq<Label>)
      requires from <= to
      ensures Turns(to) == Turns(from) + more && Scheduled(more, from, to)
    {
      if from == to {
        more := [];
      } else {
        hide Scheduled, Turns;
        var front := TurnsBetween(from, to - 1);
        more := front + Before(to - 1);
        TurnsNext(to - 1);
        BeforeScheduled(to - 1);
        ScheduledAgain(front, Before(to - 1), from, to - 1, to);
        AddAgain(Turns(from), front, Before(to - 1));
      }
    }

    /** What a call adds to a run, the plan had scheduled for its turns. */
    lemma PlannedSteps(t: seq<Label>, did: seq<Label>, from: nat, to: nat)
      requires from <= to && Planned(t, from) && Planned(t + did, to)
      ensures Scheduled(did, from, to)
    {
      var more := TurnsBetween(from, to);
      EnvOfConcat(t, did);
      assert EnvOf(did) == more by {
        assert EnvOf(t) + EnvOf(did) == EnvOf(t) + more;
        assert EnvOf(did) == (EnvOf(t) + EnvOf(did))[|EnvOf(t)|..];
      }
      forall l | l in did && l.Env? ensures l in more {
        InEnvOf(did, l);
      }
    }
  }

  /** No API call fails from turn `from` on. */
  ghost predicate FaultFree(c: Cluster, from: nat) {
    forall t: nat :: t >= from ==> c.plan(t).fate.Succeeds?
  }
}
