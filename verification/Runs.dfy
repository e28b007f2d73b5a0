/** Whole runs of controller calls, with any environment and any faults between and inside
    the calls. */
module Runs {
  import opened Base
  import opened Infra
  import opened ClusterApi
  import opened Filters
  import opened Discipline
  import opened Attach
  import opened Detach
  import opened Volumes
  import opened Identity
  import opened Node

  /** A publish uses the volume context of an earlier create, named by its position. */
  datatype Call =
    | Create(req: CreateRequest)
    | Delete(name: string)
    | Publish(created: nat, node: string, mode: AccessMode)
    | Unpublish(volume: string, node: string)

  /** What one call does to a run, for the volume `vol`. */
  ghost predicate CallKeeps(start: Infra, t: seq<Label>, did: seq<Label>, single: bool, vol: string) {
    && (Serial(did, vol) && Guarded(start, t, vol) ==> Guarded(start, t + did, vol))
    && (single && Screened(start, t, vol) ==> Screened(start, t + did, vol))
    && (Provenance(start, t) ==> Provenance(start, t + did))
  }

  lemma OthersKeep(start: Infra, t: seq<Label>, did: seq<Label>, single: bool, vol: string)
    requires forall l :: l in did ==> !l.Added? && !l.Listed?
    ensures CallKeeps(start, t, did, single, vol)
  {
    hide Apply, Replay;
    Unconcerned(start, t, did, vol);
    if Provenance(start, t) { ProvenanceGrows(start, t, did); }
  }

  lemma PublishKeeps(start: Infra, t: seq<Label>, did: seq<Label>, vm: string, req: PublishRequest,
                     single: bool, vol: string)
    requires PublishLeaves(start, t, did, vm, req)
    requires single && req.volume == vol ==> IsRwx(req.mode) != Ok(true)
    requires IsRwx(req.mode).Ok? || did == []
    requires req.serial != "" && Provenance(start, t) ==> Known(start, t, req.volume, req.serial)
    ensures CallKeeps(start, t, did, single, vol)
  {
    hide Apply, Replay;
    if req.volume != vol {
      Unconcerned(start, t, did, vol);
    } else if did == [] {
      assert t + did == t;
    }
    if Provenance(start, t) { ProvenanceGrows(start, t, did); }
  }

  /** Creates of `vol` answered so far agree with the DataVolume stored under that name. */
  ghost predicate AnswersStand(s: Infra, answers: seq<Option<Volume>>, vol: string) {
    forall i :: 0 <= i < |answers| && answers[i].Some? && answers[i].value.id == vol ==>
      vol in s.dvs && Some(answers[i].value.capacity) == s.dvs[vol].size && answers[i].value.serial == s.dvs[vol].uid
  }

  /** Every answered create gave a known serial, or none. */
  ghost predicate AnswersKnown(start: Infra, run: seq<Label>, answers: seq<Option<Volume>>) {
    forall i :: 0 <= i < |answers| && answers[i].Some? && answers[i].value.serial != "" ==>
      Known(start, run, answers[i].value.id, answers[i].value.serial)
  }

  /** The entry plugs the DataVolume an answered create named, with that answer's context. */
  predicate PlugsAnswer(answers: seq<Option<Volume>>, e: SpecVolume) {
    && !e.pvc && e.dv == Some(DvRef(e.name, true))
    && exists i :: 0 <= i < |answers| && answers[i].Some?
         && answers[i].value.id == e.name && answers[i].value.serial == e.serial && answers[i].value.bus == e.bus
  }

  lemma PlugsAnswerOn(answers: seq<Option<Volume>>, more: seq<Option<Volume>>, e: SpecVolume)
    requires PlugsAnswer(answers, e)
    ensures PlugsAnswer(answers + more, e)
  {
    var i :| 0 <= i < |answers| && answers[i].Some?
      && answers[i].value.id == e.name && answers[i].value.serial == e.serial && answers[i].value.bus == e.bus;
    assert (answers + more)[i] == answers[i];
  }

  predicate Created(answers: seq<Option<Volume>>, i: nat, vol: string) {
    i < |answers| && answers[i].Some? && answers[i].value.id == vol
  }

  /** One call. `answer` is the volume a successful create returned. */
  method RunCall(c: Cluster, cfg: Config, call: Call, answers: seq<Option<Volume>>,
                 ghost single: bool, ghost vol: string)
    returns (answer: Option<Volume>, ghost did: seq<Label>)
    requires c.Valid()
    requires Provenance(c.start, c.trail) ==> AnswersKnown(c.start, c.trail, answers)
    requires single && call.Publish? && Created(answers, call.created, vol) ==> IsRwx(call.mode) != Ok(true)
    modifies c
    ensures c.Valid() && c.Grew(old(c.now), old(c.trail), did)
    ensures CallKeeps(c.start, old(c.trail), did, single, vol)
    ensures answer.Some? ==>
            && call.Create? && answer.value.id == call.req.name && answer.value.id in c.now.dvs
            && Answers(c.now.dvs[answer.value.id], call.req, answer.value)
    ensures vol in old(c.now).dvs && NoDvEdits(did, vol) && DvDeleted(vol) in did ==>
            call == Delete(vol) && Owned(cfg, vol, old(c.now).dvs[vol].labels)
    ensures DvDeleted(vol) in did ==> call == Delete(vol)
    ensures forall l :: l in did && l.Added? ==> PlugsAnswer(answers, l.entry)
    ensures forall l :: l in did && l.DvCreated? && l.name == vol ==> l.dv.size.Some?
  {
    hide Apply, Replay, Cluster.Planned, Guarded, Screened, Serial, Provenance, PublishLeaves, CallKeeps;
    c.Unmoved();
    answer, did := None, [];
    match call
    case Create(req) =>
      var r;
      r, did := CreateVolume(c, cfg, req);
      OthersKeep(c.start, old(c.trail), did, single, vol);
      answer := if r.Ok? then Some(r.value) else None;
    case Delete(name) =>
      var r;
      r, did := DeleteVolume(c, cfg, name);
      OthersKeep(c.start, old(c.trail), did, single, vol);
    case Publish(i, node, mode) =>
      if i < |answers| && answers[i].Some? {
        var req := PublishRequest(answers[i].value.id, node, mode, answers[i].value.serial, answers[i].value.bus);
        var r;
        r, did := ControllerPublishVolume(c, cfg, req, 0);
        var target := TargetOf(req.volume, node);
        if target.Ok? {
          var vm := target.value;
          assert PublishSteps(did, vm, HotPlugOf(req)) by { PublishLeavesSteps(c.start, old(c.trail), did, vm, req); }
          PublishKeeps(c.start, old(c.trail), did, vm, req, single, vol);
        } else {
          OthersKeep(c.start, old(c.trail), did, single, vol);
        }
      } else {
        OthersKeep(c.start, old(c.trail), did, single, vol);
      }
    case Unpublish(volume, node) =>
      var r;
      r, did := ControllerUnpublishVolume(c, volume, node, 0);
      OthersKeep(c.start, old(c.trail), did, single, vol);
  }

  /** Publishes of the volume only ask for single-node modes. */
  predicate SingleNodeFor(calls: seq<Call>, vol: string) {
    forall i :: 0 <= i < |calls| && calls[i].Publish? && calls[i].created < i ==>
      var made := calls[calls[i].created];
      made.Create? && made.req.name == vol ==> IsRwx(calls[i].mode) != Ok(true)
  }

  /** A stored DataVolume of that name has a size, as every one the driver creates. */
  predicate Sized(s: Infra, vol: string) {
    vol in s.dvs ==> s.dvs[vol].size.Some?
  }

  lemma {:induction false} SizedStays(s: Infra, run: seq<Label>, vol: string)
    requires NoDvEdits(run, vol) && Sized(s, vol)
    requires forall l :: l in run && l.DvCreated? && l.name == vol ==> l.dv.size.Some?
    ensures Sized(Replay(s, run), vol)
  {
    if run != [] {
      var front, last := run[..|run| - 1], run[|run| - 1];
      assert run == front + [last];
      assert last in run;
      SizedStays(s, front, vol);
    }
  }

  lemma AnswersStandOn(s: Infra, run: seq<Label>, answers: seq<Option<Volume>>, answer: Option<Volume>, vol: string)
    requires AnswersStand(s, answers, vol) && NoDvEdits(run, vol) && DvDeleted(vol) !in run
    requires Sized(Replay(s, run), vol)
    requires answer.Some? && answer.value.id == vol ==>
             vol in Replay(s, run).dvs && exists req :: Answers(Replay(s, run).dvs[vol], req, answer.value)
    ensures AnswersStand(Replay(s, run), answers + [answer], vol)
  {
    hide Apply, Replay;
    if vol in s.dvs { DvStays(s, run, vol); }
  }

  lemma AnswersStayKnown(start: Infra, t: seq<Label>, did: seq<Label>,
                         answers: seq<Option<Volume>>, answer: Option<Volume>)
    requires AnswersKnown(start, t, answers) && Provenance(start, t + did)
    requires answer.Some? ==>
             var v := answer.value; var dvs := Replay(start, t + did).dvs;
             v.id in dvs && exists req :: Answers(dvs[v.id], req, v)
    ensures AnswersKnown(start, t + did, answers + [answer])
  {
    hide Apply, Replay;
    AllKnown(start, t + did);
    forall i | 0 <= i < |answers| && answers[i].Some? && answers[i].value.serial != ""
      ensures Known(start, t + did, answers[i].value.id, answers[i].value.serial)
    {
      KnownGrows(start, t, did, answers[i].value.id, answers[i].value.serial);
    }
  }

  /** The hypotheses of exclusive attachment. */
  ghost predicate Exclusively(start: Infra, run: seq<Label>, calls: seq<Call>, vol: string) {
    && AtMostOneHolder(start, vol) && Serial(run, vol)
    && SettledAtGuards(start, run, vol) && SingleNodeFor(calls, vol)
  }

  /** ALL OF IT, over any run of calls from a fresh start: at every moment the volume is on
      at most one machine and has at most one entry per spec; every plugged disk carries the
      serial of a create; creates of one name keep answering with one serial; and a foreign
      DataVolume is never touched. */
  method RunCalls(c: Cluster, cfg: Config, calls: seq<Call>, ghost vol: string) returns (answers: seq<Option<Volume>>)
    requires c.Valid() && c.trail == []
    modifies c
    ensures c.Valid() && |answers| == |calls|
    ensures Provenance(c.start, c.trail) && AnswersKnown(c.start, c.trail, answers)
    ensures forall l :: l in c.trail && l.Added? ==>
              && !l.entry.pvc && l.entry.dv.Some? && l.entry.dv.value.dataVolume == l.entry.name
              && PlugsAnswer(answers, l.entry)
    ensures Exclusively(c.start, c.trail, calls, vol) ==>
            forall k :: 0 <= k <= |c.trail| ==> AtMostOneHolder(Replay(c.start, c.trail[..k]), vol)
    ensures Serial(c.trail, vol) && OneEntryEach(c.start, vol) ==>
            forall k :: 0 <= k <= |c.trail| ==> OneEntryEach(Replay(c.start, c.trail[..k]), vol)
    ensures NoDvEdits(c.trail, vol) && Sized(c.start, vol) && Delete(vol) !in calls ==>
            AnswersStand(c.now, answers, vol)
    ensures NoDvEdits(c.trail, vol) && Foreign(c.start, cfg, vol) ==>
            vol in c.now.dvs && c.now.dvs[vol] == c.start.dvs[vol]
  {
    hide Apply, Replay, Cluster.Planned, Guarded, Screened, Serial, Provenance, CallKeeps;
    hide AnswersStand, AnswersKnown, AtMostOneHolder;
    answers := [];
    ghost var single := SingleNodeFor(calls, vol);
    StartOfRun(c.start, vol);
    for i := 0 to |calls|
      invariant c.Valid() && |answers| == i
      invariant AnswersMatch(answers, calls[..i])
      invariant Provenance(c.start, c.trail) && AnswersKnown(c.start, c.trail, answers)
      invariant forall l :: l in c.trail && l.Added? ==> PlugsAnswer(answers, l.entry)
      invariant Serial(c.trail, vol) ==> Guarded(c.start, c.trail, vol)
      invariant single ==> Screened(c.start, c.trail, vol)
      invariant NoDvEdits(c.trail, vol) && Sized(c.start, vol) && Delete(vol) !in calls ==>
                  AnswersStand(c.now, answers, vol) && Sized(c.now, vol)
      invariant NoDvEdits(c.trail, vol) && Foreign(c.start, cfg, vol) ==>
                  vol in c.now.dvs && c.now.dvs[vol] == c.start.dvs[vol]
    {
      ghost var s, t := c.now, c.trail;
      assert calls[i] in calls;
      var answer;
      ghost var did;
      answer, did := RunCall(c, cfg, calls[i], answers, single, vol);
      CallKept(c.start, t, did, single, vol);
      AnswersStayKnown(c.start, t, did, answers, answer);
      if NoDvEdits(c.trail, vol) {
        assert NoDvEdits(t, vol) && NoDvEdits(did, vol);
        if Sized(c.start, vol) && Delete(vol) !in calls {
          SizedStays(s, did, vol);
          AnswersStandOn(s, did, answers, answer, vol);
        }
        if Foreign(c.start, cfg, vol) { DvStays(s, did, vol); }
      }
      forall l | l in c.trail && l.Added? ensures PlugsAnswer(answers + [answer], l.entry) {
        PlugsAnswerOn(answers, [answer], l.entry);
      }
      answers := answers + [answer];
    }
    assert forall e :: PlugsAnswer(answers, e) ==> !e.pvc && e.dv == Some(DvRef(e.name, true));
    ghost var start, trail := c.start, c.trail;
    if Exclusively(start, trail, calls, vol) {
      ExclusiveThroughout(start, trail, vol);
    }
    if Serial(trail, vol) && OneEntryEach(start, vol) {
      OneEntryThroughout(start, trail, vol);
    }
  }

  /** A run, then the node of machine `vm` looks for the disk of the i-th answer: if it finds
      one, it is the disk hot-plugged for that volume with that very serial. */
  method RunThenStage(c: Cluster, cfg: Config, calls: seq<Call>, host: NodeHost, i: nat,
                      ghost vm: string, ghost backing: map<string, string>)
    returns (answers: seq<Option<Volume>>, found: Result<Device>)
    requires c.Valid() && c.trail == [] && i < |calls|
    modifies c
    ensures |answers| == |calls|
    ensures Unambiguous(c.start, c.trail) && vm in c.now.vmis && GuestSees(c.now.vmis[vm], host.devices, backing)
            && answers[i].Some? && answers[i].value.serial != "" && found.Ok? ==>
            PicksDisk(c.now, vm, backing, found.value, answers[i].value)
  {
    hide Apply, Replay, Cluster.Planned, Provenance, Known;
    answers := RunCalls(c, cfg, calls, "");
    found := Err(Other);
    if answers[i].Some? {
      found := host.GetDeviceBySerial(answers[i].value.serial, true);
      NoneBySerial(host.devices, answers[i].value.serial);
      if Unambiguous(c.start, c.trail) && vm in c.now.vmis && GuestSees(c.now.vmis[vm], host.devices, backing)
         && answers[i].value.serial != "" {
        NodePicksOwnDisk(c.start, c.trail, vm, host.devices, backing, answers[i].value.id, answers[i].value.serial);
      }
    }
  }

  ghost predicate PicksDisk(s: Infra, vm: string, backing: map<string, string>, d: Device, v: Volume) {
    && d.name in backing && backing[d.name] == v.id && d.serial == v.serial
    && vm in s.vmis && exists e :: e in s.vmis[vm] && e.name == v.id && e.serial == v.serial
  }

  /** Each answer is to the create at its position. */
  predicate AnswersMatch(answers: seq<Option<Volume>>, calls: seq<Call>) {
    |answers| == |calls| &&
    forall i :: 0 <= i < |calls| && answers[i].Some? ==> calls[i].Create? && calls[i].req.name == answers[i].value.id
  }

  /** A DataVolume of that name is there and not the driver's. */
  ghost predicate Foreign(s: Infra, cfg: Config, vol: string) {
    vol in s.dvs && !Owned(cfg, vol, s.dvs[vol].labels)
  }

  lemma StartOfRun(start: Infra, vol: string)
    ensures Replay(start, []) == start && Provenance(start, []) && AnswersKnown(start, [], [])
    ensures Guarded(start, [], vol) && Screened(start, [], vol) && AnswersStand(start, [], vol)
  {
  }

  lemma CallKept(start: Infra, t: seq<Label>, did: seq<Label>, single: bool, vol: string)
    requires CallKeeps(start, t, did, single, vol)
    ensures (Serial(t, vol) ==> Guarded(start, t, vol)) ==> (Serial(t + did, vol) ==> Guarded(start, t + did, vol))
    ensures single && Screened(start, t, vol) ==> Screened(start, t + did, vol)
    ensures Provenance(start, t) ==> Provenance(start, t + did)
  {
    hide Apply, Replay;
    if Serial(t + did, vol) {
      assert Serial(t, vol) && Serial(did, vol);
    }
  }
}
