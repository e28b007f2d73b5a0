/** CreateVolume and DeleteVolume: the life of a DataVolume. */
module Volumes {
  import opened Base
  import opened Infra
  import opened ClusterApi
  import opened Filters
  import opened Client
  import opened Attach

  datatype Capability = Capability(block: bool, mode: Option<AccessMode>)

  datatype ContentSource = NoSource | Snapshotted(id: string) | Cloned(id: string)

  /** A nil capability is None. */
  datatype CreateRequest = CreateRequest(name: string, size: int, caps: seq<Option<Capability>>,
                                         storageClass: string, bus: Option<string>, source: ContentSource)

  /** The response; `bus` and `serial` are the volume context. */
  datatype Volume = Volume(id: string, capacity: int, bus: string, serial: string)

  const BUS_DEFAULT := "scsi"

  // ----- Validation -----

  /** The mode of the last capability that has one. */
  function LastMode(caps: seq<Option<Capability>>): Option<AccessMode> {
    if caps == [] then None
    else
      var last := caps[|caps| - 1];
      if last.Some? && last.value.mode.Some? then last.value.mode else LastMode(caps[..|caps| - 1])
  }

  predicate AnyBlock(caps: seq<Option<Capability>>) {
    exists i :: 0 <= i < |caps| && caps[i].Some? && caps[i].value.block
  }

  /** getAccessMode. Each capability with a mode overwrites both the flag and the error. */
  method GetAccessMode(caps: seq<Option<Capability>>) returns (isBlock: bool, rwx: Result<bool>)
    ensures isBlock <==> AnyBlock(caps)
    ensures rwx == match LastMode(caps) { case None => Ok(false) case Some(m) => IsRwx(m) }
  {
    isBlock, rwx := false, Ok(false);
    for i := 0 to |caps|
      invariant isBlock <==> exists j :: 0 <= j < i && caps[j].Some? && caps[j].value.block
      invariant rwx == match LastMode(caps[..i]) { case None => Ok(false) case Some(m) => IsRwx(m) }
    {
      assert caps[..i + 1][..i] == caps[..i];
      if caps[i].Some? {
        if caps[i].value.block {
          isBlock := true;
        }
        if caps[i].value.mode.Some? {
          rwx := IsRwx(caps[i].value.mode.value);
        }
      }
    }
    assert caps[..|caps|] == caps;
  }

  /** The storage class may be asked for. */
  predicate Permitted(e: Enforcement, storageClass: string) {
    || e.allowAll
    || (storageClass == "" && e.allowDefault)
    || (storageClass != "" && storageClass in e.allowList)
  }

  /** The last access mode is a multi-node one. */
  predicate AsksShared(caps: seq<Option<Capability>>) {
    LastMode(caps).Some? && LastMode(caps).value in MULTI_NODE_MODES
  }

  /** LastMode is what its name says. */
  lemma {:induction false} LastModeIs(caps: seq<Option<Capability>>)
    ensures LastMode(caps).None? <==> forall cap :: cap in caps ==> cap.None? || cap.value.mode.None?
    ensures LastMode(caps).Some? ==>
            exists i :: 0 <= i < |caps| && caps[i].Some? && caps[i].value.mode == LastMode(caps)
                        && forall j :: i < j < |caps| ==> caps[j].None? || caps[j].value.mode.None?
  {
    if caps != [] {
      var front, last := caps[..|caps| - 1], caps[|caps| - 1];
      assert caps == front + [last];
      LastModeIs(front);
      if last.None? || last.value.mode.None? {
        if LastMode(front).Some? {
          var i :| 0 <= i < |front| && front[i].Some? && front[i].value.mode == LastMode(front)
            && forall j :: i < j < |front| ==> front[j].None? || front[j].value.mode.None?;
          assert caps[i].Some? && caps[i].value.mode == LastMode(caps);
        }
      } else {
        assert caps[|caps| - 1].value.mode == LastMode(caps);
      }
    }
  }

  /** What validation accepts, and with which RWX flag. */
  predicate Accepts(e: Enforcement, req: CreateRequest, rwx: bool) {
    && req.name != ""
    && rwx == (LastMode(req.caps).Some? && IsRwx(LastMode(req.caps).value) == Ok(true))
    && LastMode(req.caps) != Some(Unknown)
    && (rwx ==> AnyBlock(req.caps))
    && (e.allowAll || (if req.storageClass == "" then e.allowDefault else req.storageClass in e.allowList))
  }

  /** validateCreateVolumeRequest. */
  method Validate(e: Enforcement, req: CreateRequest) returns (r: Result<bool>)
    ensures r.Ok? ==> Accepts(e, req, r.value)
    ensures r.Err? ==> !Accepts(e, req, false) && !Accepts(e, req, true)
    ensures r.Err? ==>
            r.kind == if req.name != "" && LastMode(req.caps) == Some(Unknown) then Other else InvalidArgument
    ensures r.Ok? ==> Permitted(e, req.storageClass) && (r.value <==> AsksShared(req.caps))
    ensures r.Ok? <==>
            && req.name != "" && LastMode(req.caps) != Some(Unknown)
            && (AsksShared(req.caps) ==> AnyBlock(req.caps)) && Permitted(e, req.storageClass)
  {
    if LastMode(req.caps).Some? { ModesApart(LastMode(req.caps).value); }
    if req.name == "" {
      return Err(InvalidArgument);
    }
    var isBlock, rwx := GetAccessMode(req.caps);
    if rwx.Err? {
      return rwx;
    }
    if rwx.value && !isBlock {
      return Err(InvalidArgument);
    }
    if e.allowAll {
      return rwx;
    }
    if req.storageClass == "" {
      return if e.allowDefault then rwx else Err(InvalidArgument);
    }
    if req.storageClass !in e.allowList {
      return Err(InvalidArgument);
    }
    r := rwx;
  }

  /** An RWX filesystem request is refused only when no later capability hides it: this one
      asks for it and is accepted as single-node. */
  lemma LaterCapabilityHidesRwx(e: Enforcement) returns (req: CreateRequest)
    requires e.allowAll
    ensures exists cap :: cap in req.caps && cap.Some? && cap.value.mode == Some(MultiNodeMultiWriter)
    ensures !AnyBlock(req.caps) && Accepts(e, req, false)
  {
    var shared := Some(Capability(false, Some(MultiNodeMultiWriter)));
    var single := Some(Capability(false, Some(SingleNodeWriter)));
    req := CreateRequest("pvc-1", 1, [shared, single], "", None, NoSource);
    assert shared in req.caps;
  }

  // ----- Create -----

  /** Nobody else writes DataVolumes or snapshots. */
  predicate StorageQuiet(run: seq<Label>) {
    forall l :: l in run && l.Env? ==> !l.act.OtherDv? && !l.act.OtherSnap? && !l.act.SnapStatus?
  }

  /** The requested content source is there and the driver's. */
  ghost predicate SourceThere(s: Infra, cfg: Config, source: ContentSource) {
    match source
    case NoSource => true
    case Snapshotted(id) => id in s.snaps && Matches(s.snaps[id].labels, cfg.labels)
    case Cloned(id) => id in s.dvs && Owned(cfg, id, s.dvs[id].labels)
  }

  /** The volume can be made under that name, or is there with that size. */
  ghost predicate Creatable(s: Infra, cfg: Config, req: CreateRequest) {
    if req.name in s.dvs then
      var dv := s.dvs[req.name];
      Owned(cfg, req.name, dv.labels) && (dv.size.Some? ==> dv.size.value == req.size)
    else cfg.prefix <= req.name
  }

  lemma {:induction false} StorageStays(s: Infra, run: seq<Label>)
    requires AllEnv(run) && StorageQuiet(run)
    ensures Replay(s, run).dvs == s.dvs && Replay(s, run).snaps == s.snaps
  {
    if run != [] {
      assert run == run[..|run| - 1] + [run[|run| - 1]];
      StorageStays(s, run[..|run| - 1]);
    }
  }

  /** determineDvSource: looks the source up; a missing one is NotFound. */
  method DetermineSource(c: Cluster, cfg: Config, source: ContentSource)
    returns (r: Result<DvSource>, ghost did: seq<Label>)
    requires c.Valid()
    modifies c
    ensures c.Valid() && AllEnv(did) && c.Grew(old(c.now), old(c.trail), did) && c.tick >= old(c.tick)
    ensures r.Ok? && source.NoSource? ==> r.value == Blank
    ensures r.Ok? && source.Snapshotted? ==> r.value == FromSnapshot(source.id)
    ensures r.Ok? && source.Cloned? ==> r.value == FromClaim(source.id)
    ensures r.Err? ==> r.kind != AlreadyExists
    ensures FaultFree(c, old(c.tick)) && StorageQuiet(did) ==>
            (r == Err(NotFound) <==>
              || (source.Snapshotted? && source.id !in old(c.now).snaps)
              || (source.Cloned? && source.id !in old(c.now).dvs))
    ensures FaultFree(c, old(c.tick)) && StorageQuiet(did) ==> (r.Ok? <==> SourceThere(old(c.now), cfg, source))
  {
    hide Apply, Replay, Cluster.Planned;
    c.Unmoved();
    match source
    case NoSource =>
      return Ok(Blank), [];
    case Snapshotted(id) =>
      var snap;
      snap, did := GetVolumeSnapshot(c, cfg, id);
      if StorageQuiet(did) { StorageStays(old(c.now), did); }
      r := if snap.Ok? then Ok(FromSnapshot(id)) else Err(snap.kind);
    case Cloned(id) =>
      var dv;
      dv, did := GetDataVolume(c, cfg, id);
      if StorageQuiet(did) { StorageStays(old(c.now), did); }
      r := if dv.Ok? then Ok(FromClaim(id)) else Err(dv.kind);
  }

  /** Nobody else writes the DataVolume of that name. */
  predicate NoDvEdits(run: seq<Label>, name: string) {
    forall l :: l in run && l.Env? ==> !(l.act.OtherDv? && l.act.name == name)
  }

  /** The stored source is the object asked for, and blank only if none was. */
  predicate SourcedAs(source: DvSource, asked: ContentSource) {
    && (source.Blank? <==> asked.NoSource?)
    && (source.FromSnapshot? <==> asked.Snapshotted?) && (source.FromSnapshot? ==> source.name == asked.id)
    && (source.FromClaim? <==> asked.Cloned?) && (source.FromClaim? ==> source.claim == asked.id)
  }

  /** A create writes at most the DataVolume it was asked for, under an accepted name, with
      the driver's labels and the requested size, class and source. */
  predicate CreateSteps(cfg: Config, req: CreateRequest, did: seq<Label>) {
    forall l :: l in did && !l.Env? ==>
      && l.DvCreated? && l.name == req.name && cfg.prefix <= req.name
      && l.dv.labels == cfg.labels && l.dv.size == Some(req.size)
      && (l.dv.storageClass.None? <==> req.storageClass == "")
      && (l.dv.storageClass.Some? ==> l.dv.storageClass.value == req.storageClass)
      && SourcedAs(l.dv.source, req.source) && Accepts(cfg.enforcement, req, l.dv.rwx)
  }

  lemma {:induction false} DvStays(s: Infra, run: seq<Label>, name: string)
    requires NoDvEdits(run, name) && DvDeleted(name) !in run && name in s.dvs
    ensures name in Replay(s, run).dvs && Replay(s, run).dvs[name] == s.dvs[name]
  {
    if run != [] {
      assert run == run[..|run| - 1] + [run[|run| - 1]];
      DvStays(s, run[..|run| - 1], name);
    }
  }

  /** client.CreateDataVolume. */
  method CreateDataVolume(c: Cluster, cfg: Config, name: string, spec: DataVolume)
    returns (r: Result<DataVolume>, ghost did: seq<Label>)
    requires c.Valid()
    modifies c
    ensures c.Valid() && c.Grew(old(c.now), old(c.trail), did) && c.tick >= old(c.tick)
    ensures forall l :: l in did && !l.Env? ==>
              cfg.prefix <= name && l.DvCreated? && l.name == name && l.dv == spec.(uid := l.dv.uid)
    ensures r.Ok? ==> cfg.prefix <= name && r.value == spec.(uid := r.value.uid)
    ensures r.Ok? ==> name in c.now.dvs && c.now.dvs[name] == r.value
    ensures r.Ok? ==> DvCreated(name, r.value) in did
    ensures r == Err(AlreadyExists) ==> AllEnv(did) && cfg.prefix <= name
    ensures name in old(c.now).dvs && NoDvEdits(did, name) ==> r.Err? && AllEnv(did)
    ensures FaultFree(c, old(c.tick)) && StorageQuiet(did) ==>
            (r.Ok? <==> cfg.prefix <= name && name !in old(c.now).dvs)
  {
    hide Apply, Replay, Cluster.Planned;
    c.Unmoved();
    did := [];
    if !(cfg.prefix <= name) {
      return Err(Other), did;
    }
    ghost var s, env := c.now, c.Before(c.tick);
    r, did := c.CreateDv(name, spec);
    if StorageQuiet(did) { assert StorageQuiet(env); StorageStays(s, env); }
    if r.Ok? {
      ReplaySnoc(s, env, DvCreated(name, r.value));
      CreatedDv(Replay(s, env), name, r.value);
    }
    if name in s.dvs && NoDvEdits(did, name) {
      assert NoDvEdits(env, name);
      DvStays(s, env, name);
    }
  }

  lemma CreatedDv(s: Infra, name: string, dv: DataVolume)
    requires name !in s.dvs
    ensures var s' := Apply(s, DvCreated(name, dv)); name in s'.dvs && s'.dvs[name] == dv
  {
  }

  /** The create call of CreateVolume, with the DataVolume it asks for. */
  method MakeDataVolume(c: Cluster, cfg: Config, req: CreateRequest, rwx: bool, source: DvSource)
    returns (r: Result<string>, ghost did: seq<Label>)
    requires c.Valid() && Accepts(cfg.enforcement, req, rwx) && SourcedAs(source, req.source)
    modifies c
    ensures c.Valid() && c.Grew(old(c.now), old(c.trail), did) && c.tick >= old(c.tick)
    ensures CreateSteps(cfg, req, did)
    ensures r.Ok? ==> req.name in c.now.dvs && Owned(cfg, req.name, c.now.dvs[req.name].labels)
                      && SerialFits(c.now.dvs[req.name], req, r.value)
    ensures r == Err(AlreadyExists) ==> AllEnv(did) && cfg.prefix <= req.name
    ensures req.name in old(c.now).dvs && NoDvEdits(did, req.name) ==> r.Err? && AllEnv(did)
    ensures FaultFree(c, old(c.tick)) && StorageQuiet(did) ==>
            (r.Ok? <==> cfg.prefix <= req.name && req.name !in old(c.now).dvs)
  {
    hide Apply, Replay, Cluster.Planned, Accepts, SourcedAs;
    var storageClass := if req.storageClass == "" then None else Some(req.storageClass);
    var made;
    made, did := CreateDataVolume(c, cfg, req.name,
                                  DataVolume("", cfg.labels, Some(req.size), rwx, storageClass, source));
    r := if made.Ok? then Ok(made.value.uid) else Err(made.kind);
  }

  /** The part of CreateVolume that looks the DataVolume up and creates or checks it;
      answers its serial. */
  method ObtainDataVolume(c: Cluster, cfg: Config, req: CreateRequest, rwx: bool, source: DvSource)
    returns (r: Result<string>, ghost did: seq<Label>)
    requires c.Valid() && Accepts(cfg.enforcement, req, rwx) && SourcedAs(source, req.source)
    modifies c
    ensures c.Valid() && c.Grew(old(c.now), old(c.trail), did) && c.tick >= old(c.tick)
    ensures CreateSteps(cfg, req, did)
    ensures r.Ok? ==> req.name in c.now.dvs && Owned(cfg, req.name, c.now.dvs[req.name].labels)
                      && SerialFits(c.now.dvs[req.name], req, r.value)
    ensures r == Err(AlreadyExists) ==> AllEnv(did)
    ensures req.name in old(c.now).dvs && NoDvEdits(did, req.name) ==>
            AllEnv(did) && (SizeDiffers(old(c.now), req) ==> r.Err?)
    ensures FaultFree(c, old(c.tick)) && StorageQuiet(did) ==>
            && (r.Ok? <==> Creatable(old(c.now), cfg, req))
            && (r == Err(AlreadyExists) <==> Clashes(old(c.now), cfg, req))
  {
    hide Apply, Replay, Cluster.Planned, Accepts, SourcedAs, CreateSteps;
    ghost var s, d := c.now, [];
    var existing;
    existing, did := GetDataVolume(c, cfg, req.name);
    NoCreate(cfg, req, did);
    if req.name in s.dvs && NoDvEdits(did, req.name) { DvStays(s, did, req.name); }
    if StorageQuiet(did) { StorageStays(s, did); }
    if existing == Err(NotFound) {
      r, d := MakeDataVolume(c, cfg, req, rwx, source);
      c.Chain(s, old(c.trail), did, d);
      CreateStepsAfter(cfg, req, did, d);
      did := did + d;
    } else if existing.Err? {
      r := Err(existing.kind);
    } else if existing.value.size.Some? {
      r := if existing.value.size.value != req.size then Err(AlreadyExists) else Ok(existing.value.uid);
    } else {
      r := Ok("");
    }
  }

  /** The driver's volume of that name has another size. */
  ghost predicate Clashes(s: Infra, cfg: Config, req: CreateRequest) {
    SizeDiffers(s, req) && Owned(cfg, req.name, s.dvs[req.name].labels)
  }

  ghost predicate SizeDiffers(s: Infra, req: CreateRequest) {
    req.name in s.dvs && s.dvs[req.name].size.Some? && s.dvs[req.name].size.value != req.size
  }

  /** The stored DataVolume has the requested size and this UID, or no size at all. */
  predicate SerialFits(dv: DataVolume, req: CreateRequest, serial: string) {
    match dv.size
    case Some(size) => size == req.size && serial == dv.uid
    case None => serial == ""
  }

  /** What the stored DataVolume and the answer have in common. */
  predicate Answers(dv: DataVolume, req: CreateRequest, v: Volume) {
    && v.id == req.name && v.capacity == req.size
    && v.bus == (if req.bus.Some? then req.bus.value else BUS_DEFAULT)
    && SerialFits(dv, req, v.serial)
  }

  /** The request is valid and its content source is there. */
  ghost predicate Askable(s: Infra, cfg: Config, req: CreateRequest) {
    && (Accepts(cfg.enforcement, req, true) || Accepts(cfg.enforcement, req, false))
    && SourceThere(s, cfg, req.source)
  }

  lemma CreateStepsAfter(cfg: Config, req: CreateRequest, a: seq<Label>, b: seq<Label>)
    requires AllEnv(a) && CreateSteps(cfg, req, b)
    ensures CreateSteps(cfg, req, a + b)
  {
  }

  /** What a create stores, field by field. */
  lemma StoredAs(cfg: Config, req: CreateRequest, did: seq<Label>)
    requires CreateSteps(cfg, req, did)
    ensures forall l :: l in did && l.DvCreated? ==>
              && l.name == req.name && l.dv.labels == cfg.labels && l.dv.size == Some(req.size)
              && l.dv.storageClass == (if req.storageClass == "" then None else Some(req.storageClass))
              && (l.dv.rwx <==> AsksShared(req.caps))
    ensures forall l :: l in did && l.DvCreated? ==>
              && (req.source.NoSource? ==> l.dv.source == Blank)
              && (req.source.Snapshotted? ==> l.dv.source == FromSnapshot(req.source.id))
              && (req.source.Cloned? ==> l.dv.source == FromClaim(req.source.id))
  {
    hide Accepts, AsksShared;
    AcceptsShared(cfg.enforcement, req);
  }

  lemma AcceptsShared(e: Enforcement, req: CreateRequest)
    ensures forall rwx :: Accepts(e, req, rwx) ==> (rwx <==> AsksShared(req.caps))
  {
    if LastMode(req.caps).Some? { ModesApart(LastMode(req.caps).value); }
  }

  lemma NoCreate(cfg: Config, req: CreateRequest, did: seq<Label>)
    requires AllEnv(did)
    ensures CreateSteps(cfg, req, did)
  {
  }

  lemma SameStorage(s: Infra, s': Infra, cfg: Config, req: CreateRequest)
    requires s'.dvs == s.dvs
    ensures Creatable(s', cfg, req) <==> Creatable(s, cfg, req)
    ensures Clashes(s', cfg, req) <==> Clashes(s, cfg, req)
  {
  }

  method CreateVolume(c: Cluster, cfg: Config, req: CreateRequest) returns (r: Result<Volume>, ghost did: seq<Label>)
    requires c.Valid()
    modifies c
    ensures c.Valid() && c.Grew(old(c.now), old(c.trail), did) && c.tick >= old(c.tick)
    ensures CreateSteps(cfg, req, did)
    ensures r.Ok? ==> Accepts(cfg.enforcement, req, true) || Accepts(cfg.enforcement, req, false)
    ensures r.Ok? ==> req.name in c.now.dvs && Owned(cfg, req.name, c.now.dvs[req.name].labels)
                      && Answers(c.now.dvs[req.name], req, r.value)
    ensures r.Ok? ==> r.value.id == req.name && r.value.capacity == req.size
    ensures r.Ok? ==> r.value.bus == if req.bus.None? then "scsi" else req.bus.value
    // what is stored, field by field
    ensures forall l :: l in did && l.DvCreated? ==>
              && l.name == req.name && l.dv.labels == cfg.labels && l.dv.size == Some(req.size)
              && l.dv.storageClass == (if req.storageClass == "" then None else Some(req.storageClass))
              && (l.dv.rwx <==> AsksShared(req.caps))
    ensures forall l :: l in did && l.DvCreated? ==>
              && (req.source.NoSource? ==> l.dv.source == Blank)
              && (req.source.Snapshotted? ==> l.dv.source == FromSnapshot(req.source.id))
              && (req.source.Cloned? ==> l.dv.source == FromClaim(req.source.id))
    ensures !Permitted(cfg.enforcement, req.storageClass) || req.name == "" ==> r.Err? && did == []
    ensures r == Err(AlreadyExists) ==> AllEnv(did)
    ensures req.name in old(c.now).dvs && NoDvEdits(did, req.name) ==>
            AllEnv(did) && (SizeDiffers(old(c.now), req) ==> r.Err?)
    ensures FaultFree(c, old(c.tick)) && StorageQuiet(did) ==>
            && (r.Ok? <==> Askable(old(c.now), cfg, req) && Creatable(old(c.now), cfg, req))
            && (r == Err(AlreadyExists) <==> Askable(old(c.now), cfg, req) && Clashes(old(c.now), cfg, req))
  {
    hide Apply, Replay, Cluster.Planned, Accepts, Owned, SerialFits, Permitted, AsksShared, LastMode;
    hide CreateSteps, Clashes, Creatable, SourceThere;
    c.Unmoved();
    ghost var s, d := c.now, [];
    did := [];
    NoCreate(cfg, req, did);
    var valid := Validate(cfg.enforcement, req);
    if valid.Err? {
      return Err(valid.kind), did;
    }
    var source;
    source, did := DetermineSource(c, cfg, req.source);
    NoCreate(cfg, req, did);
    if source.Err? {
      return Err(source.kind), did;
    }
    if req.name in s.dvs && NoDvEdits(did, req.name) { DvStays(s, did, req.name); }
    if StorageQuiet(did) { StorageStays(s, did); SameStorage(s, c.now, cfg, req); }
    var serial;
    serial, d := ObtainDataVolume(c, cfg, req, valid.value, source.value);
    c.Chain(s, old(c.trail), did, d);
    CreateStepsAfter(cfg, req, did, d);
    did := did + d;
    StoredAs(cfg, req, did);
    if serial.Err? {
      return Err(serial.kind), did;
    }
    var bus := if req.bus.Some? then req.bus.value else BUS_DEFAULT;
    r := Ok(Volume(req.name, req.size, bus, serial.value));
  }

  /** A create that meets the driver's own volume, fault-free: the answer's serial is empty
      exactly for a volume without spec.storage (or without a UID). */
  method CreateExisting(c: Cluster, cfg: Config, req: CreateRequest) returns (r: Result<Volume>, ghost did: seq<Label>)
    requires c.Valid() && FaultFree(c, c.tick)
    requires req.name in c.now.dvs && Owned(cfg, req.name, c.now.dvs[req.name].labels)
    modifies c
    ensures c.Grew(old(c.now), old(c.trail), did)
    ensures StorageQuiet(did) ==>
            var dv := old(c.now).dvs[req.name];
            && AllEnv(did) && c.now.dvs == old(c.now).dvs
            && (r.Ok? <==> Askable(old(c.now), cfg, req) && (dv.size.Some? ==> dv.size.value == req.size))
            && (r.Ok? ==> r.value.serial == if dv.size.None? then "" else dv.uid)
  {
    hide Apply, Replay, Cluster.Planned, Askable, Owned;
    ghost var s := c.now;
    r, did := CreateVolume(c, cfg, req);
    if StorageQuiet(did) {
      assert NoDvEdits(did, req.name);
      StorageStays(s, did);
    }
  }

  // ----- Delete -----

  /** A delete removes at most its own DataVolume, which its lookup found to be the
      driver's; foreign ones it leaves alone. */
  method DeleteVolume(c: Cluster, cfg: Config, name: string) returns (r: Result<()>, ghost did: seq<Label>)
    requires c.Valid()
    modifies c
    ensures c.Valid() && c.Grew(old(c.now), old(c.trail), did) && c.tick >= old(c.tick)
    ensures name == "" ==> r == Err(InvalidArgument) && did == []
    ensures forall l :: l in did ==> l.Env? || l == DvDeleted(name)
    ensures DvDeleted(name) in did ==> cfg.prefix <= name
    ensures DvDeleted(name) in did && NoDvEdits(did, name) ==>
            name in old(c.now).dvs && Owned(cfg, name, old(c.now).dvs[name].labels)
    ensures r.Ok? && NoDvEdits(did, name) ==> name !in c.now.dvs
    ensures name != "" && FaultFree(c, old(c.tick)) && NoDvEdits(did, name) ==>
            (r.Ok? <==> (name in old(c.now).dvs ==> Owned(cfg, name, old(c.now).dvs[name].labels)))
  {
    hide Apply, Replay, Cluster.Planned;
    c.Unmoved();
    did := [];
    if name == "" {
      return Err(InvalidArgument), did;
    }
    ghost var s, d, env := c.now, [], [];
    var dv;
    dv, did := GetDataVolume(c, cfg, name);
    if NoDvEdits(did, name) { AbsentStays(s, did, name); if name in s.dvs { DvStays(s, did, name); } }
    if dv.Err? {
      return if dv.kind == NotFound then Ok(()) else Err(dv.kind), did;
    }
    env, s := c.Before(c.tick), c.now;
    r, d := c.DeleteDv(name);
    if NoDvEdits(d, name) { assert NoDvEdits(env, name); DvStays(s, env, name); }
    c.Chain(old(c.now), old(c.trail), did, d);
    if d != env { ReplaySnoc(s, env, DvDeleted(name)); DeletedDv(Replay(s, env), name); }
    did := did + d;
  }

  lemma DeletedDv(s: Infra, name: string)
    ensures name !in Apply(s, DvDeleted(name)).dvs
  {
  }

  lemma {:induction false} AbsentStays(s: Infra, run: seq<Label>, name: string)
    requires AllEnv(run) && NoDvEdits(run, name)
    ensures name !in s.dvs ==> name !in Replay(s, run).dvs
  {
    if run != [] {
      assert run == run[..|run| - 1] + [run[|run| - 1]];
      AbsentStays(s, run[..|run| - 1], name);
    }
  }
}
