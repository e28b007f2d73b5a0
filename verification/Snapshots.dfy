/** CreateSnapshot, DeleteSnapshot and ListSnapshots: a snapshot's name fixes its source. */
module Snapshots {
  import opened Base
  import opened Infra
  import opened ClusterApi
  import opened Filters
  import opened Client
  import opened Mapping
  import opened Pagination

  /** `class_` is the requested infra snapshot class, empty if there is none. */
  datatype SnapRequest = SnapRequest(name: string, source: string, class_: string)

  datatype SnapInfo = SnapInfo(id: string, source: string, ready: bool)

  /** createCsiSnapshot, which dereferences the source claim's name. */
  function InfoOf(name: string, snap: Snapshot): Result<SnapInfo> {
    if snap.source.None? then Err(Panic)
    else Ok(SnapInfo(name, snap.source.value, snap.ready == Some(true)))
  }

  /** The answer tells of the stored snapshot: its claim, and ready exactly if its status says
      so. */
  predicate Tells(info: SnapInfo, name: string, snap: Snapshot) {
    info.id == name && snap.source == Some(info.source) && (info.ready <==> snap.ready == Some(true))
  }

  /** Nobody else writes the snapshot, beyond its status. */
  predicate NoSnapEdits(run: seq<Label>, name: string) {
    forall l :: l in run && l.Env? ==> !(l.act.OtherSnap? && l.act.name == name)
  }

  lemma NoEditsSplits(a: seq<Label>, b: seq<Label>, name: string)
    ensures NoSnapEdits(a + b, name) <==> NoSnapEdits(a, name) && NoSnapEdits(b, name)
  {
    forall l | l in a || l in b ensures l in a + b {}
  }

  predicate HasSource(s: Infra, name: string, source: Option<string>) {
    name in s.snaps && s.snaps[name].source == source
  }

  /** Until it is deleted a snapshot keeps its source, whatever is created meanwhile. */
  lemma {:induction false} SourceStays(s: Infra, run: seq<Label>, name: string)
    requires NoSnapEdits(run, name) && SnapDeleted(name) !in run && name in s.snaps
    ensures HasSource(Replay(s, run), name, s.snaps[name].source)
    ensures Replay(s, run).snaps[name].labels == s.snaps[name].labels
  {
    hide SpecsAfter, StatusesAfter, DvsAfter, ClaimsAfter, PvsAfter;
    if run != [] {
      assert run == run[..|run| - 1] + [run[|run| - 1]];
      SourceStays(s, run[..|run| - 1], name);
    }
  }

  predicate IsReady(s: Infra, name: string) {
    name in s.snaps && s.snaps[name].ready == Some(true)
  }

  /** Along the run the snapshot never turns from ready to not ready. */
  ghost predicate ReadyIsMonotone(s: Infra, run: seq<Label>, name: string) {
    forall i :: 0 <= i < |run| && IsReady(Replay(s, run[..i]), name) ==> IsReady(Replay(s, run[..i + 1]), name)
  }

  lemma {:induction false} ReadyStays(s: Infra, run: seq<Label>, i: nat, name: string)
    requires ReadyIsMonotone(s, run, name) && i <= |run| && IsReady(Replay(s, run[..i]), name)
    ensures IsReady(Replay(s, run), name)
    decreases |run| - i
  {
    hide Apply, Replay;
    if i < |run| {
      ReadyStays(s, run, i + 1, name);
    } else {
      assert run[..i] == run;
    }
  }

  lemma ReadyAfter(s: Infra, a: seq<Label>, b: seq<Label>, name: string)
    requires ReadyIsMonotone(s, a + b, name) && IsReady(Replay(s, a), name)
    ensures IsReady(Replay(s, a + b), name)
  {
    assert (a + b)[..|a|] == a;
    ReadyStays(s, a + b, |a|, name);
  }

  ghost predicate IsOurs(s: Infra, cfg: Config, name: string) {
    name in s.snaps && Matches(s.snaps[name].labels, cfg.labels)
  }

  /** Polls until the snapshot reports ready. */
  method EnsureSnapshotReady(c: Cluster, cfg: Config, name: string) returns (r: Result<()>, ghost did: seq<Label>)
    requires c.Valid()
    modifies c
    ensures c.Valid() && AllEnv(did) && c.Grew(old(c.now), old(c.trail), did) && c.tick >= old(c.tick)
    ensures r.Ok? ==> IsReady(c.now, name)
    ensures r.Err? ==> r.kind != AlreadyExists
    ensures FaultFree(c, old(c.tick)) && NoSnapEdits(did, name) && IsOurs(old(c.now), cfg, name) ==>
            (r.Ok? <==> IsReady(c.now, name))
  {
    hide Apply, Replay, Cluster.Planned, NoSnapEdits;
    c.Unmoved();
    did := [];
    ghost var s := c.now;
    var i := 0;
    while i < c.polls
      invariant c.Valid() && AllEnv(did) && c.Grew(s, old(c.trail), did) && c.tick >= old(c.tick)
      invariant i > 0 ==> !IsReady(c.now, name)
    {
      var snap;
      ghost var d;
      snap, d := GetVolumeSnapshot(c, cfg, name);
      c.Chain(s, old(c.trail), did, d);
      NoEditsSplits(did, d, name);
      did := did + d;
      if NoSnapEdits(did, name) && name in s.snaps { SourceStays(s, did, name); }
      if snap.Err? {
        return Err(snap.kind), did;
      }
      if snap.value.ready == Some(true) {
        return Ok(()), did;
      }
      i := i + 1;
    }
    r := Err(Timeout);
  }

  /** Nobody else writes the source volume, its claim, or the snapshot. */
  predicate SourceQuiet(run: seq<Label>, req: SnapRequest) {
    NoSnapEdits(run, req.name) &&
    forall l :: l in run && l.Env? ==>
      !(l.act.OtherDv? && l.act.name == req.source) && !(l.act.OtherClaim? && l.act.name == req.source)
  }

  lemma {:induction false} SourceQuietKeeps(s: Infra, run: seq<Label>, req: SnapRequest)
    requires AllEnv(run) && SourceQuiet(run, req)
    ensures var s' := Replay(s, run);
            && (req.source in s'.dvs <==> req.source in s.dvs)
            && (req.source in s.dvs ==> s'.dvs[req.source] == s.dvs[req.source])
            && (req.source in s'.claims <==> req.source in s.claims)
            && (req.source in s.claims ==> s'.claims[req.source] == s.claims[req.source])
            && (req.name in s'.snaps <==> req.name in s.snaps)
  {
    hide SpecsAfter, StatusesAfter, PvsAfter;
    if run != [] {
      assert run == run[..|run| - 1] + [run[|run| - 1]];
      SourceQuietKeeps(s, run[..|run| - 1], req);
    }
  }

  /** The name is free, the source is the driver's, and its claim exists. */
  ghost predicate Snapshottable(s: Infra, cfg: Config, req: SnapRequest) {
    && req.name !in s.snaps && req.source in s.claims
    && req.source in s.dvs && Owned(cfg, req.source, s.dvs[req.source].labels)
  }

  /** A snapshot class can be settled on for the source's claim. */
  predicate Settles(s: Infra, cfg: Config, req: SnapRequest, mapped: bool)
    requires req.source in s.claims
  {
    Resolvable(cfg.enforcement, Ok(s.claims[req.source].storageClass), mapped, req.class_)
  }

  /** The requested class is the one to take: defaults are off, the claim's storage class may
      be used, and the first group with it has the class. */
  predicate TakesClass(s: Infra, cfg: Config, req: SnapRequest)
    requires req.source in s.claims
  {
    var e, storageClass := cfg.enforcement, s.claims[req.source].storageClass;
    && req.class_ != "" && !e.allowDefault
    && storageClass.Some? && storageClass.value != ""
    && (storageClass.value in e.allowList || e.allowAll)
    && req.class_ in Configured(e.groups, storageClass.value)
  }

  /** What the run stores is of that class, or else of the infra default. */
  ghost predicate ClassesRight(s: Infra, cfg: Config, req: SnapRequest, did: seq<Label>) {
    SourceQuiet(did, req) && req.source in s.claims ==>
      forall l :: l in did && l.SnapCreated? ==>
        && (l.snap.class_.Some? <==> TakesClass(s, cfg, req))
        && (l.snap.class_.Some? ==> l.snap.class_.value == req.class_)
  }

  lemma ClassesAfter(s: Infra, cfg: Config, req: SnapRequest, a: seq<Label>, b: seq<Label>)
    requires AllEnv(a)
    ensures ClassesRight(s, cfg, req, a)
    ensures ClassesRight(Replay(s, a), cfg, req, b) ==> ClassesRight(s, cfg, req, a + b)
  {
    hide Apply, Replay;
    if SourceQuiet(a + b, req) {
      assert SourceQuiet(a, req) && SourceQuiet(b, req);
      SourceQuietKeeps(s, a, req);
    }
  }

  lemma ClassesBefore(s: Infra, cfg: Config, req: SnapRequest, a: seq<Label>, b: seq<Label>)
    requires ClassesRight(s, cfg, req, a) && AllEnv(b)
    ensures ClassesRight(s, cfg, req, a + b)
  {
    if SourceQuiet(a + b, req) { assert SourceQuiet(a, req); }
  }

  /** The first part of client.CreateVolumeSnapshot: look the volume and its claim up and
      settle on a class; `list` is what the tenant API would answer about its classes. */
  method SettleClass(c: Cluster, cfg: Config, cache: MappingCache, list: Result<seq<TenantClass>>, req: SnapRequest)
    returns (r: Result<string>, ghost did: seq<Label>)
    requires c.Valid() && cache.Valid() && cache.groups == cfg.enforcement.groups
    modifies c, cache
    ensures c.Valid() && cache.Valid() && AllEnv(did) && c.Grew(old(c.now), old(c.trail), did) && c.tick >= old(c.tick)
    ensures r.Ok? && SourceQuiet(did, req) && req.source in old(c.now).claims ==>
            r.value == if TakesClass(old(c.now), cfg, req) then req.class_ else ""
    ensures r.Ok? ==> r.value == "" || r.value == req.class_
    ensures FaultFree(c, old(c.tick)) && SourceQuiet(did, req) && Snapshottable(old(c.now), cfg, req) ==>
            (r.Ok? <==> Settles(old(c.now), cfg, req, old(cache.populated) || list.Ok?))
  {
    hide Apply, Replay, Cluster.Planned;
    ghost var s, d := c.now, [];
    var dv;
    dv, did := GetDataVolume(c, cfg, req.source);
    if SourceQuiet(did, req) { SourceQuietKeeps(s, did, req); }
    if dv.Err? {
      return Err(dv.kind), did;
    }
    var claim;
    claim, d := c.GetClaim(req.source);
    c.Chain(s, old(c.trail), did, d);
    did := did + d;
    if SourceQuiet(did, req) { SourceQuietKeeps(s, did, req); }
    var storageClass := if claim.Ok? then Ok(claim.value.storageClass) else Err(claim.kind);
    r := ResolveSnapshotClass(cfg.enforcement, cache, storageClass, list, req.class_);
  }

  /** client.CreateVolumeSnapshot. */
  method CreateVolumeSnapshot(c: Cluster, cfg: Config, cache: MappingCache,
                              list: Result<seq<TenantClass>>, req: SnapRequest)
    returns (r: Result<Snapshot>, ghost did: seq<Label>)
    requires c.Valid() && cache.Valid() && cache.groups == cfg.enforcement.groups
    modifies c, cache
    ensures c.Valid() && cache.Valid() && c.Grew(old(c.now), old(c.trail), did) && c.tick >= old(c.tick)
    ensures ClassesRight(old(c.now), cfg, req, did)
    ensures SnapSteps(cfg, req, did)
    ensures r.Ok? ==> IsTaken(cfg, req, r.value) && req.name in c.now.snaps && c.now.snaps[req.name] == r.value
    ensures req.name in old(c.now).snaps && NoSnapEdits(did, req.name) ==> r.Err? && AllEnv(did)
    ensures FaultFree(c, old(c.tick)) && SourceQuiet(did, req) && Snapshottable(old(c.now), cfg, req) ==>
            (r.Ok? <==> Settles(old(c.now), cfg, req, old(cache.populated) || list.Ok?))
  {
    hide Apply, Replay, Cluster.Planned, Settles, TakesClass, ClassesRight;
    ghost var s, d := c.now, [];
    var class_;
    class_, did := SettleClass(c, cfg, cache, list, req);
    ClassesAfter(s, cfg, req, did, d);
    if class_.Err? {
      return Err(class_.kind), did;
    }
    if NoSnapEdits(did, req.name) && req.name in s.snaps { SourceStays(s, did, req.name); }
    if Snapshottable(s, cfg, req) && SourceQuiet(did, req) { SettlesStill(s, cfg, did, req); }
    var snap := Snapshot(Some(req.source), cfg.labels, if class_.value == "" then None else Some(class_.value), None);
    r, d := PutSnapshot(c, req.name, snap);
    c.Chain(s, old(c.trail), did, d);
    ClassPut(s, cfg, req, did, d, snap, class_.value);
    did := did + d;
  }

  lemma ClassPut(s: Infra, cfg: Config, req: SnapRequest, a: seq<Label>, b: seq<Label>, snap: Snapshot, class_: string)
    requires AllEnv(a) && forall l :: l in b ==> l.Env? || l == SnapCreated(req.name, snap)
    requires snap.class_ == if class_ == "" then None else Some(class_)
    requires SourceQuiet(a, req) && req.source in s.claims ==>
             class_ == if TakesClass(s, cfg, req) then req.class_ else ""
    ensures ClassesRight(s, cfg, req, a + b)
  {
    if SourceQuiet(a + b, req) { assert SourceQuiet(a, req); }
  }

  /** The create call of client.CreateVolumeSnapshot. */
  method PutSnapshot(c: Cluster, name: string, snap: Snapshot) returns (r: Result<Snapshot>, ghost did: seq<Label>)
    requires c.Valid()
    modifies c
    ensures c.Valid() && c.Grew(old(c.now), old(c.trail), did) && c.tick >= old(c.tick)
    ensures forall l :: l in did ==> l.Env? || l == SnapCreated(name, snap)
    ensures r.Ok? ==> r.value == snap && name in c.now.snaps && c.now.snaps[name] == snap
    ensures NoSnapEdits(did, name) ==>
            && (name in old(c.now).snaps ==> r.Err? && AllEnv(did))
            && (FaultFree(c, old(c.tick)) && name !in old(c.now).snaps ==> r.Ok?)
  {
    hide Apply, Replay, Cluster.Planned;
    ghost var s, env := c.now, c.Before(c.tick);
    r, did := c.CreateSnap(name, snap);
    if NoSnapEdits(did, name) {
      assert NoSnapEdits(env, name);
      if name in s.snaps { SourceStays(s, env, name); } else { StillAbsent(s, env, name); }
    }
    if r.Ok? { ReplaySnoc(s, env, SnapCreated(name, snap)); Taken(Replay(s, env), name, snap); }
  }

  lemma Taken(s: Infra, name: string, snap: Snapshot)
    requires name !in s.snaps
    ensures var s' := Apply(s, SnapCreated(name, snap)); name in s'.snaps && s'.snaps[name] == snap
  {
  }

  /** A snapshot as the driver takes it: of the requested claim, labelled, and of the
      requested class or of the infra default. */
  predicate IsTaken(cfg: Config, req: SnapRequest, snap: Snapshot) {
    && snap.source == Some(req.source) && snap.labels == cfg.labels
    && (snap.class_.Some? ==> snap.class_.value == req.class_ && req.class_ != "")
  }

  predicate SnapSteps(cfg: Config, req: SnapRequest, did: seq<Label>) {
    forall l :: l in did && !l.Env? ==> l.SnapCreated? && l.name == req.name && IsTaken(cfg, req, l.snap)
  }

  /** A snapshot the run created is there with the source it was created for. */
  lemma {:induction false} CreatedIsBound(s: Infra, cfg: Config, run: seq<Label>, req: SnapRequest)
    requires NoSnapEdits(run, req.name) && SnapSteps(cfg, req, run) && req.name !in s.snaps
    ensures req.name in Replay(s, run).snaps ==> HasSource(Replay(s, run), req.name, Some(req.source))
    ensures !AllEnv(run) ==> req.name in Replay(s, run).snaps
  {
    hide SpecsAfter, StatusesAfter, DvsAfter, ClaimsAfter, PvsAfter;
    if run != [] {
      var front, l := run[..|run| - 1], run[|run| - 1];
      assert run == front + [l];
      assert l in run;
      CreatedIsBound(s, cfg, front, req);
    }
  }

  ghost predicate IsSourced(s: Infra, cfg: Config, name: string) {
    IsOurs(s, cfg, name) && s.snaps[name].source.Some?
  }

  /** Wait until the snapshot is ready, then read it back. */
  method AwaitSnapshot(c: Cluster, cfg: Config, name: string) returns (r: Result<SnapInfo>, ghost did: seq<Label>)
    requires c.Valid()
    modifies c
    ensures c.Valid() && AllEnv(did) && c.Grew(old(c.now), old(c.trail), did) && c.tick >= old(c.tick)
    ensures r.Ok? ==> name in c.now.snaps && Tells(r.value, name, c.now.snaps[name])
    ensures ReadyIsMonotone(old(c.now), did, name) ==>
            && (r.Ok? ==> r.value.ready)
            && (FaultFree(c, old(c.tick)) && NoSnapEdits(did, name) && IsSourced(old(c.now), cfg, name) ==>
                (r.Ok? <==> IsReady(c.now, name)))
  {
    hide Apply, Replay, Cluster.Planned, NoSnapEdits, ReadyIsMonotone;
    ghost var s := c.now;
    var ready;
    ready, did := EnsureSnapshotReady(c, cfg, name);
    if NoSnapEdits(did, name) && name in s.snaps { SourceStays(s, did, name); }
    if ready.Err? {
      return Err(ready.kind), did;
    }
    ghost var a, d := did, [];
    var snap;
    snap, d := GetVolumeSnapshot(c, cfg, name);
    c.Chain(s, old(c.trail), a, d);
    NoEditsSplits(a, d, name);
    did := a + d;
    if NoSnapEdits(did, name) && name in s.snaps { SourceStays(s, did, name); }
    if ReadyIsMonotone(s, did, name) { ReadyAfter(s, a, d, name); }
    r := if snap.Err? then Err(snap.kind) else InfoOf(name, snap.value);
  }

  /** Create the snapshot, wait until it is ready, and read it back. */
  method SnapAndAwait(c: Cluster, cfg: Config, cache: MappingCache, list: Result<seq<TenantClass>>, req: SnapRequest)
    returns (r: Result<SnapInfo>, ghost did: seq<Label>)
    requires c.Valid() && cache.Valid() && cache.groups == cfg.enforcement.groups
    modifies c, cache
    ensures c.Valid() && cache.Valid() && c.Grew(old(c.now), old(c.trail), did) && c.tick >= old(c.tick)
    ensures ClassesRight(old(c.now), cfg, req, did)
    ensures SnapSteps(cfg, req, did)
    ensures req.name in old(c.now).snaps && NoSnapEdits(did, req.name) ==> r.Err? && AllEnv(did)
    ensures r.Ok? ==> req.name in c.now.snaps && Tells(r.value, req.name, c.now.snaps[req.name])
    ensures ReadyIsMonotone(old(c.now), did, req.name) ==>
            && (r.Ok? ==> r.value.ready)
            && (FaultFree(c, old(c.tick)) && SourceQuiet(did, req) && Snapshottable(old(c.now), cfg, req) ==>
                (r.Ok? <==>
                   Settles(old(c.now), cfg, req, old(cache.populated) || list.Ok?) && IsReady(c.now, req.name)))
  {
    hide Apply, Replay, Cluster.Planned, SnapSteps, Settles, ReadyIsMonotone, ClassesRight;
    ghost var s, d, a := c.now, [], [];
    var taken;
    taken, a := CreateVolumeSnapshot(c, cfg, cache, list, req);
    did := a;
    if taken.Err? {
      return Err(taken.kind), did;
    }
    r, d := AwaitSnapshot(c, cfg, req.name);
    c.Chain(s, old(c.trail), a, d);
    EnvSteps(cfg, req, d);
    StepsAgain(cfg, req, a, d);
    ClassesBefore(s, cfg, req, a, d);
    did := a + d;
    if ReadyIsMonotone(s, did, req.name) { MonotoneTail(s, a, d, req.name); }
  }

  /** The part of CreateSnapshot for a name not in use: check the source first. */
  method TakeSnapshot(c: Cluster, cfg: Config, cache: MappingCache, list: Result<seq<TenantClass>>, req: SnapRequest)
    returns (r: Result<SnapInfo>, ghost did: seq<Label>)
    requires c.Valid() && cache.Valid() && cache.groups == cfg.enforcement.groups
    modifies c, cache
    ensures c.Valid() && cache.Valid() && c.Grew(old(c.now), old(c.trail), did) && c.tick >= old(c.tick)
    ensures ClassesRight(old(c.now), cfg, req, did)
    ensures SnapSteps(cfg, req, did)
    ensures req.name in old(c.now).snaps && NoSnapEdits(did, req.name) ==> r.Err? && AllEnv(did)
    ensures r.Ok? ==> req.name in c.now.snaps && Tells(r.value, req.name, c.now.snaps[req.name])
    ensures FaultFree(c, old(c.tick)) && SourceQuiet(did, req) && req.source !in old(c.now).dvs ==> r == Err(NotFound)
    ensures ReadyIsMonotone(old(c.now), did, req.name) ==>
            && (r.Ok? ==> r.value.ready)
            && (FaultFree(c, old(c.tick)) && SourceQuiet(did, req) && Snapshottable(old(c.now), cfg, req) ==>
                (r.Ok? <==>
                   Settles(old(c.now), cfg, req, old(cache.populated) || list.Ok?) && IsReady(c.now, req.name)))
  {
    hide Apply, Replay, Cluster.Planned, SnapSteps, Settles, ReadyIsMonotone, ClassesRight;
    ghost var s, a, d := c.now, [], [];
    var source;
    source, a := GetDataVolume(c, cfg, req.source);
    did := a;
    if NoSnapEdits(a, req.name) && req.name in s.snaps { SourceStays(s, a, req.name); }
    if SourceQuiet(a, req) { SourceQuietKeeps(s, a, req); }
    if Snapshottable(s, cfg, req) && SourceQuiet(a, req) { SettlesStill(s, cfg, a, req); }
    EnvSteps(cfg, req, a);
    ClassesAfter(s, cfg, req, a, d);
    if source.Err? {
      return Err(source.kind), did;
    }
    r, d := SnapAndAwait(c, cfg, cache, list, req);
    c.Chain(s, old(c.trail), a, d);
    StepsAgain(cfg, req, a, d);
    ClassesAfter(s, cfg, req, a, d);
    did := a + d;
    if ReadyIsMonotone(s, did, req.name) { MonotoneTail(s, a, d, req.name); }
  }

  lemma SettlesStill(s: Infra, cfg: Config, run: seq<Label>, req: SnapRequest)
    requires AllEnv(run) && SourceQuiet(run, req) && Snapshottable(s, cfg, req)
    ensures Snapshottable(Replay(s, run), cfg, req)
    ensures forall mapped :: Settles(Replay(s, run), cfg, req, mapped) <==> Settles(s, cfg, req, mapped)
  {
    hide Apply, Replay;
    SourceQuietKeeps(s, run, req);
  }

  lemma EnvSteps(cfg: Config, req: SnapRequest, did: seq<Label>)
    requires AllEnv(did)
    ensures SnapSteps(cfg, req, did)
  {
  }

  lemma StepsAgain(cfg: Config, req: SnapRequest, a: seq<Label>, b: seq<Label>)
    requires SnapSteps(cfg, req, a) && SnapSteps(cfg, req, b)
    ensures SnapSteps(cfg, req, a + b)
  {
  }

  /** A proper request for a free name, whose source is not there. */
  predicate Sourceless(s: Infra, req: SnapRequest) {
    req.name != "" && req.source != "" && req.name !in s.snaps && req.source !in s.dvs
  }

  /** The answer for a name in use: the same source or AlreadyExists. */
  ghost predicate AnswersExisting(c: Cluster, n: nat, s: Infra, cfg: Config, req: SnapRequest, r: Result<SnapInfo>)
    requires req.name in s.snaps
  {
    var same := s.snaps[req.name].source == Some(req.source);
    && (r.Ok? ==> same)
    && (FaultFree(c, n) && req.name != "" && req.source != "" && IsOurs(s, cfg, req.name) ==>
          (r.Ok? <==> same) && (r.Err? ==> r.kind == AlreadyExists))
  }

  /** SNAPSHOT NAME DETERMINES SOURCE. A name in use is never created again, and answered
      only for its own source; whatever the result, a snapshot the call made is bound to the
      requested source; and the creating path reports a ready snapshot if readiness is
      monotone, succeeding exactly when a class can be settled on and it is ready. */
  method CreateSnapshot(c: Cluster, cfg: Config, cache: MappingCache, list: Result<seq<TenantClass>>, req: SnapRequest)
    returns (r: Result<SnapInfo>, ghost did: seq<Label>)
    requires c.Valid() && cache.Valid() && cache.groups == cfg.enforcement.groups
    modifies c, cache
    ensures c.Valid() && cache.Valid() && c.Grew(old(c.now), old(c.trail), did) && c.tick >= old(c.tick)
    ensures req.name == "" || req.source == "" ==> r == Err(InvalidArgument) && did == []
    // what is stored: the class asked for exactly if defaults are off and the first group of
    // the claim's permitted storage class has it
    ensures ClassesRight(old(c.now), cfg, req, did)
    ensures forall l :: l in did && l.SnapCreated? ==>
              && l.name == req.name && l.snap.source == Some(req.source) && l.snap.labels == cfg.labels
    ensures SnapSteps(cfg, req, did)
    ensures r.Ok? ==> req.name in c.now.snaps && r.value.id == req.name
    ensures r.Ok? ==> HasSource(c.now, req.name, Some(r.value.source)) && (r.value.ready <==> IsReady(c.now, req.name))
    ensures req.name in old(c.now).snaps && NoSnapEdits(did, req.name) ==>
            AllEnv(did) && AnswersExisting(c, old(c.tick), old(c.now), cfg, req, r)
    ensures NoSnapEdits(did, req.name) && (r.Ok? || (req.name !in old(c.now).snaps && !AllEnv(did))) ==>
            HasSource(c.now, req.name, Some(req.source))
    ensures FaultFree(c, old(c.tick)) && SourceQuiet(did, req) && Sourceless(old(c.now), req) ==> r == Err(NotFound)
    ensures ReadyIsMonotone(old(c.now), did, req.name)
            && req.name !in old(c.now).snaps && NoSnapEdits(did, req.name) ==>
            && (r.Ok? ==> r.value.ready)
            && (req.name != "" && req.source != "" && FaultFree(c, old(c.tick)) && SourceQuiet(did, req)
                && Snapshottable(old(c.now), cfg, req) ==>
                (r.Ok? <==>
                   Settles(old(c.now), cfg, req, old(cache.populated) || list.Ok?) && IsReady(c.now, req.name)))
  {
    hide Apply, Replay, Cluster.Planned, SnapSteps, Settles, ReadyIsMonotone, ClassesRight;
    c.Unmoved();
    did := [];
    EnvSteps(cfg, req, did);
    ClassesAfter(c.now, cfg, req, did, []);
    if req.name == "" || req.source == "" {
      return Err(InvalidArgument), did;
    }
    ghost var s, d := c.now, [];
    var existing;
    existing, did := GetVolumeSnapshot(c, cfg, req.name);
    EnvSteps(cfg, req, did);
    ClassesAfter(s, cfg, req, did, d);
    if NoSnapEdits(did, req.name) && req.name in s.snaps { SourceStays(s, did, req.name); }
    if NoSnapEdits(did, req.name) && req.name !in s.snaps {
      CreatedIsBound(s, cfg, did, req);
      StillAbsent(s, did, req.name);
    }
    if SourceQuiet(did, req) { SourceQuietKeeps(s, did, req); }
    if Snapshottable(s, cfg, req) && SourceQuiet(did, req) { SettlesStill(s, cfg, did, req); }
    if existing.Err? && existing.kind != NotFound {
      return Err(existing.kind), did;
    }
    if existing.Ok? {
      if existing.value.source != Some(req.source) {
        return Err(AlreadyExists), did;
      }
      return InfoOf(req.name, existing.value), did;
    }
    ghost var a := did;
    r, d := TakeSnapshot(c, cfg, cache, list, req);
    c.Chain(s, old(c.trail), did, d);
    StepsAgain(cfg, req, did, d);
    ClassesAfter(s, cfg, req, did, d);
    did := did + d;
    if NoSnapEdits(did, req.name) && req.name !in s.snaps { CreatedIsBound(s, cfg, did, req); }
    if ReadyIsMonotone(s, did, req.name) { MonotoneTail(s, a, d, req.name); }
    StoredSnaps(cfg, req, did);
  }

  lemma StoredSnaps(cfg: Config, req: SnapRequest, did: seq<Label>)
    requires SnapSteps(cfg, req, did)
    ensures forall l :: l in did && l.SnapCreated? ==>
              && l.name == req.name && l.snap.source == Some(req.source) && l.snap.labels == cfg.labels
  {
  }

  lemma {:induction false} StillAbsent(s: Infra, run: seq<Label>, name: string)
    requires AllEnv(run) && NoSnapEdits(run, name) && name !in s.snaps
    ensures name !in Replay(s, run).snaps
  {
    if run != [] {
      assert run == run[..|run| - 1] + [run[|run| - 1]];
      StillAbsent(s, run[..|run| - 1], name);
    }
  }

  lemma MonotoneTail(s: Infra, a: seq<Label>, b: seq<Label>, name: string)
    requires ReadyIsMonotone(s, a + b, name)
    ensures ReadyIsMonotone(Replay(s, a), b, name)
  {
    hide Apply, Replay;
    forall i | 0 <= i < |b| && IsReady(Replay(Replay(s, a), b[..i]), name)
      ensures IsReady(Replay(Replay(s, a), b[..i + 1]), name)
    {
      assert (a + b)[..|a| + i] == a + b[..i];
      assert (a + b)[..|a| + i + 1] == a + b[..i + 1];
      ReplayConcat(s, a, b[..i]);
      ReplayConcat(s, a, b[..i + 1]);
    }
  }

  /** DeleteSnapshot: an absent snapshot is deleted already, a foreign one refused. */
  method DeleteSnapshot(c: Cluster, cfg: Config, name: string) returns (r: Result<()>, ghost did: seq<Label>)
    requires c.Valid()
    modifies c
    ensures c.Valid() && c.Grew(old(c.now), old(c.trail), did) && c.tick >= old(c.tick)
    ensures name == "" ==> r == Err(InvalidArgument) && did == []
    ensures forall l :: l in did ==> l.Env? || l == SnapDeleted(name)
    ensures SnapDeleted(name) in did && NoSnapEdits(did, name) ==> IsOurs(old(c.now), cfg, name)
    ensures r.Ok? && NoSnapEdits(did, name) ==> name !in c.now.snaps
    ensures name != "" && FaultFree(c, old(c.tick)) && NoSnapEdits(did, name) ==>
            (r.Ok? <==> (name in old(c.now).snaps ==> IsOurs(old(c.now), cfg, name)))
  {
    hide Apply, Replay, Cluster.Planned, NoSnapEdits;
    c.Unmoved();
    did := [];
    if name == "" {
      return Err(InvalidArgument), did;
    }
    ghost var s, a, d := c.now, did, did;
    var snap;
    snap, a := GetVolumeSnapshot(c, cfg, name);
    did := a;
    if NoSnapEdits(a, name) { if name in s.snaps { SourceStays(s, a, name); } else { StillAbsent(s, a, name); } }
    if snap.Err? {
      return if snap.kind == NotFound then Ok(()) else Err(snap.kind), did;
    }
    r, d := EraseSnap(c, name);
    c.Chain(s, old(c.trail), a, d);
    NoEditsSplits(a, d, name);
    did := a + d;
  }

  /** The delete call of client.DeleteVolumeSnapshot. */
  method EraseSnap(c: Cluster, name: string) returns (r: Result<()>, ghost did: seq<Label>)
    requires c.Valid()
    modifies c
    ensures c.Valid() && c.Grew(old(c.now), old(c.trail), did) && c.tick >= old(c.tick)
    ensures forall l :: l in did ==> l.Env? || l == SnapDeleted(name)
    ensures NoSnapEdits(did, name) && name in old(c.now).snaps ==>
            && (r.Ok? ==> name !in c.now.snaps)
            && (FaultFree(c, old(c.tick)) ==> r.Ok?)
  {
    hide Apply, Replay, Cluster.Planned, NoSnapEdits;
    ghost var s, env := c.now, c.Before(c.tick);
    r, did := c.DeleteSnap(name);
    if did != env {
      NoEditsSplits(env, [SnapDeleted(name)], name);
      ReplaySnoc(s, env, SnapDeleted(name));
      Deleted(Replay(s, env), name);
    }
    if NoSnapEdits(did, name) && name in s.snaps { SourceStays(s, env, name); }
  }

  lemma Deleted(s: Infra, name: string)
    ensures name !in Apply(s, SnapDeleted(name)).snaps
  {
  }

  // ----- Listing -----

  datatype ListRequest = ListRequest(id: string, source: string, maxEntries: int, token: string)

  /** The snapshots a request is about: the one of that id, or those the driver's selector
      selects, of that source if one is given. */
  ghost predicate Asked(s: Infra, cfg: Config, req: ListRequest, name: string) {
    && name in s.snaps
    && (if req.id != "" then name == req.id && Matches(s.snaps[name].labels, cfg.labels)
        else Selects(cfg.labels, s.snaps[name].labels)
             && (req.source == "" || s.snaps[name].source == Some(req.source)))
  }

  ghost predicate AskedItems(s: Infra, cfg: Config, req: ListRequest, items: seq<NamedSnap>) {
    && Distinct(items)
    && (forall it :: it in items ==> Asked(s, cfg, req, it.name) && s.snaps[it.name] == it.snap)
    && (forall n :: Asked(s, cfg, req, n) ==> NamedSnap(n, s.snaps[n]) in items)
  }

  /** No snapshot of the requested id, or the driver's own. */
  ghost predicate Readable(s: Infra, cfg: Config, req: ListRequest) {
    req.id != "" && req.id in s.snaps ==> Matches(s.snaps[req.id].labels, cfg.labels)
  }

  /** Every snapshot asked for was taken from a claim. */
  ghost predicate AllSourced(s: Infra, cfg: Config, req: ListRequest) {
    forall n :: Asked(s, cfg, req, n) ==> s.snaps[n].source.Some?
  }

  method FilterBySource(items: seq<NamedSnap>, source: string) returns (r: seq<NamedSnap>)
    ensures forall it :: it in r <==> it in items && it.snap.source == Some(source)
    ensures Distinct(items) ==> Distinct(r)
  {
    r := [];
    for i := 0 to |items|
      invariant forall it :: it in r <==> it in items[..i] && it.snap.source == Some(source)
      invariant Distinct(items) ==> Distinct(r)
    {
      assert items[..i + 1] == items[..i] + [items[i]];
      if items[i].snap.source == Some(source) {
        if Distinct(items) {
          forall it | it in r ensures it.name != items[i].name {
            var j :| 0 <= j < i && items[j] == it;
          }
        }
        r := r + [items[i]];
      }
    }
  }

  /** The lookups of ListSnapshots. */
  method FindSnapshots(c: Cluster, cfg: Config, req: ListRequest)
    returns (r: Result<seq<NamedSnap>>, ghost did: seq<Label>)
    requires c.Valid()
    modifies c
    ensures c.Valid() && c.tick == old(c.tick) + 1
    ensures did == c.Before(old(c.tick)) && c.Grew(old(c.now), old(c.trail), did)
    ensures r.Ok? ==> AskedItems(c.now, cfg, req, r.value)
    ensures r.Err? ==> r.kind == Other
    ensures r.Ok? <==> c.plan(old(c.tick)).fate.Succeeds? && Readable(c.now, cfg, req)
  {
    hide Apply, Replay, Cluster.Planned, Selects, Matches;
    if req.id != "" {
      var snap;
      snap, did := GetVolumeSnapshot(c, cfg, req.id);
      if snap.Err? && snap.kind != NotFound {
        return Err(snap.kind), did;
      }
      r := Ok(if snap.Ok? then [NamedSnap(req.id, snap.value)] else []);
    } else {
      r, did := c.ListSnaps(cfg.labels);
      if r.Err? {
        return;
      }
      if req.source != "" {
        var items := FilterBySource(r.value, req.source);
        r := Ok(items);
      }
    }
  }

  /** The entries of a page, in the order of the items it shows. */
  ghost predicate Shows(entries: seq<SnapInfo>, items: seq<NamedSnap>) {
    |entries| == |items| && forall i :: 0 <= i < |items| ==> Tells(entries[i], items[i].name, items[i].snap)
  }

  method ShowItems(items: seq<NamedSnap>) returns (r: Result<seq<SnapInfo>>)
    ensures r.Ok? ==> Shows(r.value, items)
    ensures r.Ok? <==> forall it :: it in items ==> it.snap.source.Some?
    ensures r.Err? ==> r.kind == Panic
  {
    var entries := [];
    for i := 0 to |items|
      invariant Shows(entries, items[..i])
      invariant forall it :: it in items[..i] ==> it.snap.source.Some?
    {
      assert items[..i + 1] == items[..i] + [items[i]];
      var info := InfoOf(items[i].name, items[i].snap);
      if info.Err? {
        assert items[i] in items;
        return Err(info.kind);
      }
      entries := entries + [info.value];
    }
    assert items[..|items|] == items;
    r := Ok(entries);
  }

  /** A listed snapshot is as asked for, passes the get filter, and is shown as it is stored. */
  ghost predicate ShownRight(s: Infra, cfg: Config, req: ListRequest, info: SnapInfo) {
    && Asked(s, cfg, req, info.id) && IsOurs(s, cfg, info.id)
    && s.snaps[info.id].source == Some(info.source) && (info.ready <==> IsReady(s, info.id))
  }

  /** An unpaged listing is complete: every snapshot asked for, once. */
  ghost predicate ShowsAll(s: Infra, cfg: Config, req: ListRequest, entries: seq<SnapInfo>) {
    && (forall i, j :: 0 <= i < j < |entries| ==> entries[i].id != entries[j].id)
    && (forall n :: Asked(s, cfg, req, n) ==> exists i :: 0 <= i < |entries| && entries[i].id == n)
  }

  /** The page shows, in order, the slice of the items that the token and size call for. */
  ghost predicate ShowsPage(items: seq<NamedSnap>, req: ListRequest, page: Page<SnapInfo>) {
    exists shown :: Shows(page.entries, shown) && IsPage(items, req.token, req.maxEntries, Page(shown, page.nextToken))
  }

  lemma ItemsShownRight(s: Infra, cfg: Config, req: ListRequest, items: seq<NamedSnap>, page: seq<NamedSnap>,
                        entries: seq<SnapInfo>)
    requires AskedItems(s, cfg, req, items) && Shows(entries, page) && forall it :: it in page ==> it in items
    ensures forall info :: info in entries ==> ShownRight(s, cfg, req, info)
  {
    hide Selects, Matches;
    forall info | info in entries ensures ShownRight(s, cfg, req, info) {
      var i :| 0 <= i < |entries| && entries[i] == info;
      assert page[i] in page && page[i] in items;
      if req.id == "" { SelectedMatches(page[i].snap.labels, cfg.labels); }
    }
  }

  lemma AllItemsShown(s: Infra, cfg: Config, req: ListRequest, items: seq<NamedSnap>, entries: seq<SnapInfo>)
    requires AskedItems(s, cfg, req, items) && Shows(entries, items)
    ensures ShowsAll(s, cfg, req, entries)
  {
    hide Asked;
    forall n | Asked(s, cfg, req, n) ensures exists i :: 0 <= i < |entries| && entries[i].id == n {
      assert n in s.snaps by { AskedExists(s, cfg, req, n); }
      assert NamedSnap(n, s.snaps[n]) in items;
      var i :| 0 <= i < |items| && items[i] == NamedSnap(n, s.snaps[n]);
      assert entries[i].id == n;
    }
  }

  lemma AskedExists(s: Infra, cfg: Config, req: ListRequest, n: string)
    ensures Asked(s, cfg, req, n) ==> n in s.snaps
  {
  }

  lemma SourcedItems(s: Infra, cfg: Config, req: ListRequest, items: seq<NamedSnap>)
    requires AskedItems(s, cfg, req, items)
    ensures AllSourced(s, cfg, req) <==> forall it :: it in items ==> it.snap.source.Some?
  {
    hide Selects, Matches;
    forall n | Asked(s, cfg, req, n) ensures NamedSnap(n, s.snaps[n]) in items {}
  }

  /** The page lies in the list and shows only snapshots taken from a claim. */
  ghost predicate Showable(items: seq<NamedSnap>, req: ListRequest) {
    && InRange(|items|, req.token, req.maxEntries)
    && forall it :: it in Slice(items, req.token, req.maxEntries) ==> it.snap.source.Some?
  }

  lemma SliceWithin(items: seq<NamedSnap>, req: ListRequest)
    requires InRange(|items|, req.token, req.maxEntries)
    ensures forall it :: it in Slice(items, req.token, req.maxEntries) ==> it in items
  {
  }

  lemma WholeSlice(items: seq<NamedSnap>)
    ensures InRange(|items|, "", 0) && Slice(items, "", 0) == items
  {
    TokenStarts(0);
  }

  /** ListSnapshots: the page is the slice of what was asked for, and all of it passes the get
      filter; it fails exactly when the read does, the page is out of range, or a snapshot on
      it was not taken from a claim. A listing in one page is complete. */
  method ListSnapshots(c: Cluster, cfg: Config, req: ListRequest)
    returns (r: Result<Page<SnapInfo>>, ghost did: seq<Label>, ghost items: seq<NamedSnap>)
    requires c.Valid()
    modifies c
    ensures c.Valid() && c.tick == old(c.tick) + 1
    ensures did == c.Before(old(c.tick)) && c.Grew(old(c.now), old(c.trail), did)
    ensures r.Ok? ==> AskedItems(c.now, cfg, req, items) && ShowsPage(items, req, r.value)
    ensures r.Ok? ==> forall info :: info in r.value.entries ==> ShownRight(c.now, cfg, req, info)
    ensures r.Ok? && req.token == "" && req.maxEntries == 0 ==>
            ShowsAll(c.now, cfg, req, r.value.entries) && r.value.nextToken == ""
    ensures c.plan(old(c.tick)).fate.Succeeds? && Readable(c.now, cfg, req) ==> AskedItems(c.now, cfg, req, items)
    ensures r.Ok? <==> c.plan(old(c.tick)).fate.Succeeds? && Readable(c.now, cfg, req) && Showable(items, req)
    ensures req.token == "" && req.maxEntries == 0 ==>
            (r.Ok? <==> c.plan(old(c.tick)).fate.Succeeds? && Readable(c.now, cfg, req) && AllSourced(c.now, cfg, req))
  {
    hide Apply, Replay, Cluster.Planned, Selects, Matches, Asked, ParseUint32, Decimal;
    hide Tells, IsReady, IsOurs, Shows, ShownRight, ShowsAll, AllSourced, InRange;
    items := [];
    var found;
    found, did := FindSnapshots(c, cfg, req);
    if found.Err? {
      return Err(found.kind), did, items;
    }
    items := found.value;
    WholeSlice(items);
    var page := PageFrom(found.value, req.token, req.maxEntries);
    if page.Err? {
      return Err(page.kind), did, items;
    }
    var entries := ShowItems(page.value.entries);
    SourcedItems(c.now, cfg, req, found.value);
    if entries.Err? {
      return Err(entries.kind), did, items;
    }
    SliceWithin(items, req);
    ItemsShownRight(c.now, cfg, req, found.value, page.value.entries, entries.value);
    if page.value.entries == found.value { AllItemsShown(c.now, cfg, req, found.value, entries.value); }
    r := Ok(Page(entries.value, page.value.nextToken));
  }

  // ----- Runs -----

  datatype SnapCall =
    | Take(req: SnapRequest, list: Result<seq<TenantClass>>)
    | Drop(name: string)

  /** Every successful create of that name so far named the source the snapshot has. */
  ghost predicate OneSource(s: Infra, answers: seq<Option<SnapInfo>>, name: string) {
    forall i :: 0 <= i < |answers| && answers[i].Some? && answers[i].value.id == name ==>
      HasSource(s, name, Some(answers[i].value.source))
  }

  /** Every snapshot the run stored under the name has the source it has now. */
  ghost predicate AllBound(s: Infra, run: seq<Label>, name: string) {
    forall snap :: SnapCreated(name, snap) in run ==> HasSource(s, name, snap.source)
  }

  /** Whatever was bound to a source is bound to it still after one more call. */
  ghost predicate StepKeeps(s: Infra, s': Infra, answer: Option<SnapInfo>, did: seq<Label>, name: string) {
    && SnapDeleted(name) !in did
    && (NoSnapEdits(did, name) ==>
          && (name in s.snaps ==> HasSource(s', name, s.snaps[name].source))
          && (answer.Some? && answer.value.id == name ==> HasSource(s', name, Some(answer.value.source)))
          && AllBound(s', did, name))
  }

  method StepSnapshots(c: Cluster, cfg: Config, cache: MappingCache, call: SnapCall, ghost name: string)
    returns (answer: Option<SnapInfo>, ghost did: seq<Label>)
    requires c.Valid() && cache.Valid() && cache.groups == cfg.enforcement.groups && call != Drop(name)
    modifies c, cache
    ensures c.Valid() && cache.Valid() && c.Grew(old(c.now), old(c.trail), did)
    ensures StepKeeps(old(c.now), c.now, answer, did, name)
  {
    hide Apply, Replay, Cluster.Planned, SnapSteps;
    ghost var s := c.now;
    answer := None;
    match call {
      case Take(req, list) =>
        var r;
        r, did := CreateSnapshot(c, cfg, cache, list, req);
        answer := if r.Ok? then Some(r.value) else None;
        NoDeletes(cfg, req, did, name);
        if NoSnapEdits(did, name) && name in s.snaps { SourceStays(s, did, name); }
      case Drop(other) =>
        var r;
        r, did := DeleteSnapshot(c, cfg, other);
        if NoSnapEdits(did, name) && name in s.snaps { SourceStays(s, did, name); }
    }
  }

  /** Over any run of creates and deletes in which the name is not deleted, all its creates
      that succeed report one source, the one of the first snapshot stored under the name,
      also when that create timed out. */
  method RunSnapshots(c: Cluster, cfg: Config, cache: MappingCache, calls: seq<SnapCall>, ghost name: string)
    returns (answers: seq<Option<SnapInfo>>, ghost did: seq<Label>)
    requires c.Valid() && cache.Valid() && cache.groups == cfg.enforcement.groups
    requires Drop(name) !in calls
    modifies c, cache
    ensures c.Valid() && c.Grew(old(c.now), old(c.trail), did) && |answers| == |calls|
    ensures NoSnapEdits(did, name) ==> OneSource(c.now, answers, name) && AllBound(c.now, did, name)
    ensures NoSnapEdits(did, name) && name in old(c.now).snaps ==> HasSource(c.now, name, old(c.now).snaps[name].source)
  {
    hide Apply, Replay, Cluster.Planned, NoSnapEdits;
    c.Unmoved();
    answers, did := [], [];
    for i := 0 to |calls|
      invariant c.Valid() && cache.Valid() && c.Grew(old(c.now), old(c.trail), did) && |answers| == i
      invariant NoSnapEdits(did, name) ==> OneSource(c.now, answers, name) && AllBound(c.now, did, name)
      invariant NoSnapEdits(did, name) && name in old(c.now).snaps ==>
                  HasSource(c.now, name, old(c.now).snaps[name].source)
    {
      assert calls[i] in calls;
      var answer;
      ghost var d;
      answer, d := StepSnapshots(c, cfg, cache, calls[i], name);
      c.Chain(old(c.now), old(c.trail), did, d);
      NoEditsSplits(did, d, name);
      did := did + d;
      answers := answers + [answer];
    }
  }

  /** The labels of a create: no delete, and for its own name only its own source. */
  lemma NoDeletes(cfg: Config, req: SnapRequest, did: seq<Label>, name: string)
    requires SnapSteps(cfg, req, did)
    ensures SnapDeleted(name) !in did
    ensures forall l :: l in did && l.SnapCreated? ==> l.name == req.name && l.snap.source == Some(req.source)
  {
  }
}
