/** The node service: find the disk by its serial, format it once, mount it. */
module Node {
  import opened Base

  /** One row of lsblk; `finished`, which lsblk does not show, is false after a mkfs that
      failed half-way. */
  datatype Device = Device(serial: string, name: string, fstype: string, finished: bool) {
    predicate Sound() { fstype != "" ==> finished }
  }

  function DevicePath(name: string): string {
    "/dev/" + name
  }

  /** The first device of that serial. */
  function FirstBySerial(devices: seq<Device>, serial: string): Option<Device> {
    if devices == [] then None
    else if devices[0].serial == serial then Some(devices[0])
    else FirstBySerial(devices[1..], serial)
  }

  lemma {:induction false} FirstBySerialIs(devices: seq<Device>, serial: string, k: nat)
    requires k < |devices| && devices[k].serial == serial
    requires forall j :: 0 <= j < k ==> devices[j].serial != serial
    ensures FirstBySerial(devices, serial) == Some(devices[k])
  {
    if k > 0 {
      FirstBySerialIs(devices[1..], serial, k - 1);
    }
  }

  lemma {:induction false} NoneBySerial(devices: seq<Device>, serial: string)
    ensures FirstBySerial(devices, serial).None? <==> forall d :: d in devices ==> d.serial != serial
    ensures FirstBySerial(devices, serial).Some? ==>
            var d := FirstBySerial(devices, serial).value; d in devices && d.serial == serial
  {
    if devices != [] {
      NoneBySerial(devices[1..], serial);
      assert devices == [devices[0]] + devices[1..];
    }
  }

  predicate FsSupported(fsType: string) {
    "ext4" <= fsType || "xfs" <= fsType
  }

  /** What becomes of a mkfs run: done, failed before touching the device, or failed after
      leaving a file system on it. */
  datatype MkfsFate = MkfsDone | MkfsUntouched | MkfsHalfDone

  datatype Access = BlockAccess | MountAccess(fsType: string)

  datatype StageRequest = StageRequest(serial: string, access: Access)

  datatype Mount = Mount(source: string, fsType: string, options: seq<string>)

  /** How a device is mounted: bound as a block device, or as a file system, and an xfs one
      tolerating a duplicate UUID. */
  function MountOf(d: Device, access: Access): Mount {
    match access
    case BlockAccess => Mount(DevicePath(d.name), "", ["bind"])
    case MountAccess(fsType) => Mount(DevicePath(d.name), fsType, if fsType == "xfs" then ["nouuid"] else [])
  }

  /** A mkfs the node issued, with the device as it was. */
  datatype Mkfs = Mkfs(device: Device, fsType: string)

  ghost predicate AllSound(devices: seq<Device>) {
    forall d :: d in devices ==> d.Sound()
  }

  /** Rows of one name are one row. */
  ghost predicate UniqueNames(devices: seq<Device>) {
    forall d, e :: d in devices && e in devices && d.name == e.name ==> d == e
  }

  function Formatted(d: Device, name: string, fsType: string, done: bool): Device {
    if d.name == name then d.(fstype := fsType, finished := done) else d
  }

  function WithFs(devices: seq<Device>, name: string, fsType: string, done: bool): (r: seq<Device>)
    ensures forall d :: d in devices ==> Formatted(d, name, fsType, done) in r
    ensures forall e :: e in r ==> exists d :: d in devices && e == Formatted(d, name, fsType, done)
  {
    if devices == [] then []
    else [Formatted(devices[0], name, fsType, done)] + WithFs(devices[1..], name, fsType, done)
  }

  function WithoutDevice(devices: seq<Device>, name: string): (r: seq<Device>)
    ensures forall d :: d in r <==> d in devices && d.name != name
  {
    if devices == [] then []
    else (if devices[0].name == name then [] else [devices[0]]) + WithoutDevice(devices[1..], name)
  }

  function Found(devices: seq<Device>, req: StageRequest): Device
    requires FirstBySerial(devices, req.serial).Some?
  {
    FirstBySerial(devices, req.serial).value
  }

  /** When staging runs mkfs. */
  predicate Formats(devices: seq<Device>, req: StageRequest, listed: bool) {
    && req.access.MountAccess? && listed && FirstBySerial(devices, req.serial).Some?
    && Found(devices, req).fstype == "" && FsSupported(req.access.fsType)
  }

  /** When staging succeeds. */
  predicate Stageable(devices: seq<Device>, req: StageRequest, listed: bool, fate: MkfsFate) {
    req.access.BlockAccess? ||
    (listed && FirstBySerial(devices, req.serial).Some? &&
     (Found(devices, req).fstype != "" || (FsSupported(req.access.fsType) && fate.MkfsDone?)))
  }

  class NodeHost {
    var devices: seq<Device>
    var mounts: map<string, Mount>
    ghost var formats: seq<Mkfs>

    /** Device names are unique, and every mkfs so far met a device without file system. */
    ghost predicate Valid()
      reads this
    {
      && UniqueNames(devices)
      && (forall m :: m in formats ==> m.device.fstype == "" && FsSupported(m.fsType))
    }

    constructor (initial: seq<Device>)
      requires UniqueNames(initial)
      ensures Valid() && devices == initial && mounts == map[] && formats == []
    {
      devices, mounts, formats := initial, map[], [];
    }

    /** getDeviceBySerialID; `listed` is false when lsblk fails. */
    method GetDeviceBySerial(serial: string, listed: bool) returns (r: Result<Device>)
      ensures r == if !listed || FirstBySerial(devices, serial).None? then Err(Other)
                   else Ok(FirstBySerial(devices, serial).value)
    {
      if !listed {
        return Err(Other);
      }
      NoneBySerial(devices, serial);
      for i := 0 to |devices|
        invariant forall j :: 0 <= j < i ==> devices[j].serial != serial
      {
        if devices[i].serial == serial {
          FirstBySerialIs(devices, serial, i);
          return Ok(devices[i]);
        }
      }
      r := Err(Other);
    }

    /** makeFS: only ext4 and xfs kinds reach mkfs. */
    method MakeFs(device: Device, fsType: string, fate: MkfsFate) returns (r: Result<()>)
      requires Valid() && device in devices && device.fstype == ""
      modifies this`devices, this`formats
      ensures Valid()
      ensures formats == old(formats) + if FsSupported(fsType) then [Mkfs(device, fsType)] else []
      ensures devices == if FsSupported(fsType) && !fate.MkfsUntouched?
                         then WithFs(old(devices), device.name, fsType, fate.MkfsDone?) else old(devices)
      ensures r.Ok? <==> FsSupported(fsType) && fate.MkfsDone?
    {
      hide UniqueNames, WithFs;
      if !("ext4" <= fsType) && !("xfs" <= fsType) {
        return Err(Other);
      }
      formats := formats + [Mkfs(device, fsType)];
      if !fate.MkfsUntouched? {
        WithFsUnique(devices, device.name, fsType, fate.MkfsDone?);
        devices := WithFs(devices, device.name, fsType, fate.MkfsDone?);
      }
      r := if fate.MkfsDone? then Ok(()) else Err(Other);
    }

    /** NodeStageVolume. A mkfs is issued exactly for a mount request of a supported kind
        whose device is found and has no file system. Success of a mount request means a
        finished file system exactly if this call made it or it was finished before. */
    method NodeStageVolume(req: StageRequest, listed: bool, fate: MkfsFate) returns (r: Result<()>)
      requires Valid()
      modifies this`devices, this`formats
      ensures Valid()
      ensures formats == old(formats) + if Formats(old(devices), req, listed)
                                        then [Mkfs(Found(old(devices), req), req.access.fsType)] else []
      ensures devices == if Formats(old(devices), req, listed) && !fate.MkfsUntouched?
                         then WithFs(old(devices), Found(old(devices), req).name, req.access.fsType, fate.MkfsDone?)
                         else old(devices)
      ensures r.Ok? <==> Stageable(old(devices), req, listed, fate)
      ensures r.Ok? && req.access.MountAccess? ==>
              && FirstBySerial(devices, req.serial).Some? && Found(devices, req).fstype != ""
              && (Found(devices, req).finished <==>
                    Found(old(devices), req).fstype == "" || Found(old(devices), req).finished)
      ensures req.access.BlockAccess? ==> r.Ok? && devices == old(devices) && formats == old(formats)
      ensures req.access.MountAccess? && listed && FirstBySerial(old(devices), req.serial).Some?
              && Found(old(devices), req).fstype != "" ==>
              r.Ok? && devices == old(devices) && formats == old(formats)
      // what reaches mkfs
      ensures |formats| > |old(formats)| ==>
              && req.access.MountAccess? && ("ext4" <= req.access.fsType || "xfs" <= req.access.fsType)
              && formats[|old(formats)|].device.serial == req.serial && formats[|old(formats)|].device.fstype == ""
              && formats[|old(formats)|].fsType == req.access.fsType
      ensures req.access.MountAccess? && ("ext4" <= req.access.fsType || "xfs" <= req.access.fsType) && listed
              && FirstBySerial(old(devices), req.serial).Some? && Found(old(devices), req).fstype == "" ==>
              |formats| == |old(formats)| + 1 && (r.Ok? <==> fate.MkfsDone?)
      ensures AllSound(old(devices)) ==>
              (AllSound(devices) <==> !(Formats(old(devices), req, listed) && fate.MkfsHalfDone?))
    {
      hide AllSound, UniqueNames, FirstBySerial;
      if req.access.BlockAccess? {
        return Ok(());
      }
      var device := GetDeviceBySerial(req.serial, listed);
      if device.Err? {
        return Err(device.kind);
      }
      NoneBySerial(devices, req.serial);
      if device.value.fstype != "" {
        return Ok(());
      }
      r := MakeFs(device.value, req.access.fsType, fate);
      FormattedFirst(old(devices), req.serial, device.value.name, req.access.fsType, fate.MkfsDone?);
      assert FsSupported(req.access.fsType) ==> req.access.fsType != "";
      if FsSupported(req.access.fsType) { SoundAfter(old(devices), device.value, req.access.fsType, fate.MkfsDone?); }
    }

    /** NodePublishVolume. `checks`, `mounting` and `resizes` tell whether the mount-point
        check, the mount and the file-system resize succeed. A mount is made exactly when
        the device is found and the target is none yet, always of the device of that
        serial; none is ever replaced, and a mount survives a failed resize. */
    method NodePublishVolume(req: StageRequest, target: string,
                             listed: bool, checks: bool, mounting: bool, resizes: bool)
      returns (r: Result<()>)
      modifies this`mounts
      ensures r.Ok? <==>
              && listed && checks && FirstBySerial(devices, req.serial).Some?
              && (target in old(mounts) || mounting) && (req.access.BlockAccess? || resizes)
      ensures r.Ok? ==> target in mounts
      ensures mounts == if listed && checks && FirstBySerial(devices, req.serial).Some?
                           && target !in old(mounts) && mounting
                        then old(mounts)[target := MountOf(Found(devices, req), req.access)] else old(mounts)
      // a new mount, field by field
      ensures target in mounts && target !in old(mounts) ==>
              && FirstBySerial(devices, req.serial).Some?
              && mounts[target].source == "/dev/" + Found(devices, req).name
              && mounts[target].fsType == (if req.access.MountAccess? then req.access.fsType else "")
              && mounts[target].options == (if req.access.BlockAccess? then ["bind"]
                                            else if req.access.fsType == "xfs" then ["nouuid"] else [])
    {
      var fsType := if req.access.MountAccess? then req.access.fsType else "";
      var options := [];
      if req.access.BlockAccess? {
        options := options + ["bind"];
      } else if fsType == "xfs" {
        options := options + ["nouuid"];
      }
      var device := GetDeviceBySerial(req.serial, listed);
      if device.Err? {
        return Err(device.kind);
      }
      if !checks {
        return Err(Other);
      }
      if target !in mounts {
        if !mounting {
          return Err(Other);
        }
        assert [] + ["bind"] == ["bind"] && [] + ["nouuid"] == ["nouuid"];
        mounts := mounts[target := Mount(DevicePath(device.value.name), fsType, options)];
      }
      if req.access.MountAccess? && !resizes {
        return Err(Other);
      }
      r := Ok(());
    }
  }

  lemma {:induction false} FormattedFirst(devices: seq<Device>, serial: string,
                                          name: string, fsType: string, done: bool)
    requires FirstBySerial(devices, serial).Some?
    ensures FirstBySerial(WithFs(devices, name, fsType, done), serial).Some?
    ensures FirstBySerial(WithFs(devices, name, fsType, done), serial).value
         == Formatted(FirstBySerial(devices, serial).value, name, fsType, done)
  {
    if devices[0].serial != serial {
      FormattedFirst(devices[1..], serial, name, fsType, done);
      assert WithFs(devices, name, fsType, done)[1..] == WithFs(devices[1..], name, fsType, done);
    }
  }

  lemma SoundAfter(devices: seq<Device>, d: Device, fsType: string, done: bool)
    requires d in devices && fsType != ""
    ensures AllSound(devices) ==> (AllSound(WithFs(devices, d.name, fsType, done)) <==> done)
  {
    assert Formatted(d, d.name, fsType, done) in WithFs(devices, d.name, fsType, done);
  }

  /** lsblk shows a half-done mkfs as a file system, so the retry of a stage call succeeds on
      an unfinished one. */
  method RetryAcceptsHalfDone() returns (first: Result<()>, retry: Result<()>, left: Device)
    ensures first.Err? && retry.Ok? && left.fstype == "ext4" && !left.finished
  {
    var host := new NodeHost([Device("u", "vdb", "", true)]);
    var req := StageRequest("u", MountAccess("ext4"));
    first := host.NodeStageVolume(req, true, MkfsHalfDone);
    retry := host.NodeStageVolume(req, true, MkfsDone);
    var found := host.GetDeviceBySerial("u", true);
    left := found.value;
  }

  lemma WithFsUnique(devices: seq<Device>, name: string, fsType: string, done: bool)
    requires UniqueNames(devices)
    ensures UniqueNames(WithFs(devices, name, fsType, done))
  {
  }

  /** One event of a node's life; disks come and go between stage calls. */
  datatype Event =
    | Stage(req: StageRequest, listed: bool, fate: MkfsFate)
    | Plug(device: Device)
    | Unplug(name: string)

  /** FORMATTING IS AT MOST ONCE. Over any run of stage calls and hot-plugs, mkfs is issued
      only on devices without a file system, and a device that has one, finished or not, and
      stays plugged keeps it as it is: no later mkfs names it. */
  method RunNode(host: NodeHost, events: seq<Event>, ghost kept: Device)
    requires host.Valid() && kept in host.devices && kept.fstype != ""
    requires forall e :: e in events ==> e != Unplug(kept.name)
    modifies host
    ensures host.Valid() && kept in host.devices
    ensures old(host.formats) <= host.formats
    ensures forall i :: |old(host.formats)| <= i < |host.formats| ==> host.formats[i].device.name != kept.name
  {
    for i := 0 to |events|
      invariant host.Valid() && kept in host.devices
      invariant old(host.formats) <= host.formats
      invariant forall j :: |old(host.formats)| <= j < |host.formats| ==> host.formats[j].device.name != kept.name
    {
      match events[i]
      case Stage(req, listed, fate) =>
        StageKeeps(host.devices, req, kept);
        var _ := host.NodeStageVolume(req, listed, fate);
      case Plug(device) =>
        if forall d :: d in host.devices ==> d.name != device.name {
          host.devices := host.devices + [device];
        }
      case Unplug(name) =>
        assert events[i] in events;
        host.devices := WithoutDevice(host.devices, name);
    }
  }

  /** The device a stage call would format is none that has a file system. */
  lemma StageKeeps(devices: seq<Device>, req: StageRequest, kept: Device)
    requires UniqueNames(devices) && kept in devices && kept.fstype != ""
    ensures FirstBySerial(devices, req.serial).Some? && Found(devices, req).fstype == "" ==>
            Found(devices, req).name != kept.name
    ensures forall name, fsType, done :: name != kept.name ==> kept in WithFs(devices, name, fsType, done)
  {
    NoneBySerial(devices, req.serial);
    forall name, fsType, done | name != kept.name ensures kept in WithFs(devices, name, fsType, done) {
      assert Formatted(kept, name, fsType, done) == kept;
    }
  }
}
