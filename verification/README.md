# Verified model of the KubeVirt CSI driver

The driver gives the pods of a tenant cluster, whose nodes are KubeVirt virtual machines,
volumes that live in the infra cluster. Its controller creates DataVolumes, hot-plugs them
into virtual machines, takes snapshots and expands claims, call by call, against an API that
others write to as well; its node service finds the plugged disk by serial, formats it once
and mounts it. This project models those protocols and proves what they keep over whole runs.

## How it is built

- `Infra` is the infra cluster as a value, with the steps (labels) that change it: what the
  environment does (sync a VM spec to the VMI status, mark a volume ready, finish an unplug,
  create and delete machines, edit objects) and what a write of the driver does. `Replay`
  is the state after a run of labels.
- `ClusterApi.Cluster` is that cluster behind its API. Before every call a list of
  environment steps happens; a call then succeeds, fails without effect, or fails after
  taking effect. Both are chosen by an arbitrary `plan`, so a statement about every plan is
  one about every interleaving and every pattern of faults. The ghost `trail` records the
  run; every method returns the labels it added as `did`, and what the environment did in
  them is what the plan had for those turns (`ClusterApi.Cluster.PlannedSteps`).
- `Client`, `Polls`, `Attach`, `Detach`, `Volumes`, `Snapshots`, `Expand`, `Mapping`,
  `Pagination`, `Node`, `VolumeStats` and `Codecs` follow the source files' functions, branch
  by branch. Methods are proved against predicates on the run they add.
- `Surfaces`, `Discipline`, `Steady` and `Identity` hold the theory of runs: what clears the
  two surfaces of a machine, what keeps a volume on one machine, which environments let a
  call finish, and where a disk's serial comes from. `Settled`, `Runs` and `RoundTrips` put
  calls together.

## What the proofs found

- Exclusive attachment holds over whole runs of calls only from *settled* states: every other
  VM whose spec names the volume has a VMI reporting it. The guard of publish reads VMI
  statuses while publish writes VM specs, so a publish that succeeds leaves one holder if and
  only if the state its guard read was settled, and succeeds either way
  (`Settled.PublishFromSeen`). `Settled.PublishUnsettled` carries such a publish out on a
  concrete cluster; it ends with the volume on two machines.
- Following page tokens loses the last snapshot exactly when there are n >= 2 of them and the
  page size divides n - 1 (`Pagination.FollowTokens`): the next-token test is
  `end < snapshotLength-1` (pkg/service/controller.go:884). CSI 1.10, section "ListSnapshots",
  promises all entries.
- The last capability that has an access mode overwrites both the RWX flag and the error of
  the earlier ones (`Volumes.GetAccessMode`), so an RWX file-system request can be accepted as
  single-node (`Volumes.LaterCapabilityHidesRwx`).
- The label filter for lookups and the label selector for listings agree on all objects
  exactly if no configured label value is empty (`Filters.FiltersAgree`).
- A volume's serial leads the node to the volume's own disk, whatever the guest looks like, if
  and only if it is not empty (`Identity.IdentityExactlyBySerial`); a create that meets a
  DataVolume without `spec.storage` answers the empty one (`Volumes.CreateExisting`).
- A listing fails as a whole if one snapshot on its page was not taken from a claim: its source
  is dereferenced unchecked (`Snapshots.ListSnapshots`).
- A node ID splits back to its namespace and name exactly if neither contains a slash
  (`Codecs.NodeIdRoundTrip`).
- `removeVolumeFromVm` tests the VM for nil to tell that it is missing
  (pkg/service/controller.go:609-614), while the generated getter returns a non-nil empty VM
  with the error (pkg/generated/kubevirt/client-go/clientset/versioned/typed/core/v1/virtualmachine.go:66-77);
  its `Spec.Template` is nil, and the loop at pkg/service/controller.go:616 dereferences it.
  The model has both getters (`ClusterApi.Getter`). In a converging environment an unpublish
  of a hot-plugged volume succeeds, except that with the generated getter it panics if and
  only if the VM is gone and the VMI is seen to report the hot-plug
  (`Detach.ControllerUnpublishVolume`); `Detach.UnpublishOrphan` is a run that does, in the
  case the comment at pkg/service/controller.go:635-641 is about.
- Repeating a publish that succeeded is not always answered with success, as CSI 1.10, section
  "ControllerPublishVolume", asks: the guard comes before the fast path, so a single-node
  repeat is refused if and only if another VMI reports the volume by then
  (`RoundTrips.PublishTwice`); `RoundTrips.RepeatRefused` is such a run.
- After a mkfs that failed half-way and left a file system for lsblk to show, a retry of the
  stage call succeeds on the unfinished file system (`Node.RetryAcceptsHalfDone`), and nothing
  formats the device again (`Node.RunNode`).

## Assumptions

- What a getter returns beside a NotFound error matters only to `removeVolumeFromVm`; every
  other caller looks at the error first. `Cluster.getter` says which it is.
- The add-volume subresource appends one hot-pluggable DataVolume entry to the VM spec and
  checks no duplicates; the remove-volume subresource deletes the entries of that name (VM)
  or requests the unplug (VMI). An unplug finishes (`SyncDetach`) for an entry whose removal
  was requested at the VMI, or that is there because of a VM spec that exists and no longer
  names it.
- A call that failed has taken its effect, if any, by the time it returns.
- A poll is `polls` >= 1 reads, the first at once; a backoff is five attempts.
- The API server assigns the UIDs; statements that need them fresh say so (`Unambiguous`).
- The guest sees the serials that the VMI's volumes carry (`GuestSees`); lsblk device names
  are unique.
- Calls are serialised per volume where a statement says `Serial`: nobody but the calls of the
  run edits that volume's entries.

## Model

| member | source | states |
|---|---|---|
| ClusterApi.Cluster.AddVolume | pkg/kubevirt/client.go:179-190 | The write appends its entry to the spec of a VM that exists, unless the call failed cleanly; a call may report failure after its effect |
| ClusterApi.Cluster.RemoveVolumeFromVm | pkg/kubevirt/client.go:192-203 | The same for deleting the entries of one name from a VM spec |
| ClusterApi.Cluster.RemoveVolumeFromVmi | pkg/kubevirt/client.go:205-216 | The same for requesting an unplug at the VMI |
| ClusterApi.Cluster.CreateDv | pkg/kubevirt/client.go:314-320 | A create stores the object with its assigned UID only under a free name; a name in use is AlreadyExists |
| Client.GetDataVolume | pkg/kubevirt/client.go:340-351 | The lookup returns the stored volume exactly if it has the driver's labels and prefix, NotFound if there is none, an error for a foreign one |
| Client.GetVolumeSnapshot | pkg/kubevirt/client.go:511-522 | The same for snapshots, by labels alone |
| Client.EnsureVolumeAvailableVm | pkg/kubevirt/client.go:637-657 | True exactly if a PVC or DataVolume entry of the VM spec has that name; a missing VM is false, not an error |
| Client.EnsureVolumeRemovedVm | pkg/kubevirt/client.go:587-607 | True exactly if none has, a missing VM included |
| Client.EnsureVolumeRemovedVmi | pkg/kubevirt/client.go:615-635 | True exactly if no hot-plug status entry has that name, a missing VMI included |
| Filters.ContainsLabels | pkg/kubevirt/client.go:154-161 | True exactly if every wanted pair reads back from the object's labels, a missing key reading as empty |
| Filters.FiltersAgree | pkg/kubevirt/client.go:535-543 | The list filter (selector) and the get filter agree on all objects if and only if no configured value is empty |
| Polls.EnsureVolumeAvailable | pkg/kubevirt/client.go:219-233 | Only reads; success means this call saw the VMI report the volume ready and the spec backs it at return; it succeeds for a wanted volume if the sync lag is below the poll budget |
| Polls.EnsureVolumeRemoved | pkg/kubevirt/client.go:236-254 | Only reads; success means this call saw the spec clear and the status clear, and the spec is clear at return; it succeeds for a released volume if the sync lag is below the poll budget |
| Surfaces.SeenClearIsClear | pkg/kubevirt/client.go:587-635 | A surface seen clear at some moment of a run is clear at its end if nobody puts the volume into the spec, and, for the status, the spec did not hot-plug it |
| Surfaces.UnhotStays | pkg/service/controller.go:576-579 | Once the spec does not hot-plug the volume, no sync brings it back as a hot-plug unless someone adds it |
| Surfaces.UnnamedStays | pkg/service/controller.go:576-579 | Once the spec does not name the volume, no sync can bring it back to either surface unless someone adds it |
| Attach.AttachedElsewhere | pkg/service/controller.go:956-989 | True exactly if the status of some other VMI reports the volume |
| Attach.IsVolumeAttached | pkg/service/controller.go:475-493 | True exactly if a hot-pluggable DataVolume entry of the spec has that name; a missing VM is NotFound |
| Attach.PlugIn | pkg/service/controller.go:501-504 | An add after a read without a hot-plugged entry keeps at most one entry for the volume, the guard's target, and every other spec entry; undisturbed, the entry is there unless the call failed cleanly |
| Attach.AddVolumeToVm | pkg/service/controller.go:495-507 | One attempt adds at most its own entry and keeps the run's discipline; on an undisturbed machine its result, its number of calls and whether the spec has the entry afterwards are exactly those of its read and its add |
| Attach.AddWithBackoff | pkg/service/controller.go:448-461 | At most five attempts; on an existing undisturbed machine it ends exactly with the first attempt that succeeds, and gives up exactly if none does, with five calls failed; with attempts failing before or after their effect, the spec gained at most the one entry |
| Attach.AttemptsTolerate | pkg/service/controller.go:448-461 | Any four failed calls among those the backoff can make leave an attempt that succeeds |
| Attach.HotPlug | pkg/service/controller.go:448-469 | Add then wait: success means the VMI was seen to report the volume ready and the spec backs it; it succeeds on a running undisturbed machine if not all attempts fail, calls succeed from then on, and the poll outlasts the sync lag, or two lags if an unplug of the volume is pending |
| Attach.LookUp | pkg/service/controller.go:401-426 | The lookups give exactly the verdict of the start state if their turns are calm: which error, or the fast path's answer from the spec alone |
| Attach.Guard | pkg/service/controller.go:388-399 | The single-node guard fails exactly if its list call fails or another VMI reports the volume; a passed guard was truthful at its moment |
| Attach.ControllerPublishVolume | pkg/service/controller.go:366-473 | A request without volume or node ID is InvalidArgument before any call. Whatever the interleaving and faults, a publish leaves only guards and adds, each add to the target, of a hot-pluggable entry named for the volume that refers to the volume's own DataVolume and has the request's serial and bus, at most one of them if nobody else edits specs, and keeps the discipline that exclusivity and retry safety rest on; success means the spec backs the volume, and after an add also that the VMI was seen to report it ready; FailedPrecondition exactly by the guard; once the guard is passed and while lookups meet no fault, the result is the verdict of the start state, without a write on the fast path, and success if not all add attempts fail and the machine syncs in time (within two lags if an unplug is pending) |
| Detach.VolumeStillAttached | pkg/service/controller.go:580-606 | "No" means the spec was seen clear and the status was seen clear in this call, a missing VM or VMI counting as clear |
| Detach.RemoveVolume | pkg/service/controller.go:608-666 | One attempt requests removal at the VM if its spec hot-plugs the volume, else at the VMI; it panics exactly if its read finds no VM and the getter hands out an empty one; success leaves no hot-plugged entry in the spec, unless somebody adds one; otherwise it fails only with a failed call if undisturbed |
| Detach.RemoveWithBackoff | pkg/service/controller.go:551-564 | At most five attempts, a panic ending them at once; on an undisturbed machine it gives up only where all of its attempts may fail, which takes five failed calls, ends where an attempt may succeed, and then what is left on the VMI can be unplugged |
| Detach.RemovalsTolerate | pkg/service/controller.go:551-564 | Fewer failed calls than attempts, among the three calls each can make, leave an attempt that succeeds |
| Detach.DetachFrom | pkg/service/controller.go:551-570 | Remove with retries, then wait: success means both surfaces were seen clear after a removal that succeeded, and it comes if the machine can be unplugged in time, unless the getter hides a missing VM |
| Detach.ControllerUnpublishVolume | pkg/service/controller.go:524-574 | Never early: success means this call saw the spec clear (or the VM gone) and the hot-plug status clear (or the VMI gone), and both are clear at return if nobody adds the volume to the spec meanwhile, for every interleaving and fault; at most that volume's entries leave the spec; on a detached volume it succeeds without a write; if the lookups meet no fault, the removals do not all fail, calls succeed from then on and the machine syncs in time, it succeeds for a hot-plugged volume on the VM, only on the VMI, or with the VM gone, except that it panics if and only if the getter hides a missing VM and the VMI is seen to report the hot-plug |
| Detach.UnpublishOrphan | pkg/service/controller.go:608-643 | The unpublish of a volume on a VMI whose VM is gone panics with the generated getter and succeeds with one that returns nothing |
| Discipline.HoldersAfter | pkg/service/controller.go:366-507 | The invariant: at most one machine holds the volume, and once a guard has passed only its target may |
| Discipline.ExclusiveThroughout | pkg/service/controller.go:366-507 | Exclusive attachment at every moment of a run whose calls are serialised, whose adds were screened, and whose guards met settled states |
| Settled.HoldersAfterPublish | pkg/service/controller.go:389-469 | Whatever a publish's run does after its guard, at most one machine holds the volume at its end if and only if the state the guard read was settled |
| Settled.PublishFromSeen | pkg/service/controller.go:366-473 | A single-node publish that succeeds, while nobody edits the volume's entries or deletes VMs, leaves at most one holder if and only if its guard read a settled state; if no other VMI reports the volume there it succeeds either way, given calls that succeed and a machine that syncs in time |
| Settled.PublishUnsettled | pkg/service/controller.go:366-473 | A concrete cluster with one holder on which that publish succeeds and leaves two |
| Discipline.OneEntryThroughout | pkg/service/controller.go:448-507 | Retry safety: at every moment every VM spec has at most one PVC or DataVolume entry named for the volume, however adds failed |
| Steady.PluggingRun | pkg/kubevirt/client.go:219-233 | An undisturbed volume being plugged stays so, is taken over by a sync, and becomes ready when marked |
| Steady.DesiredRun | pkg/kubevirt/client.go:219-233 | An undisturbed desired volume stays desired, and the next unplug ends a pending one |
| Steady.ReleasedRun | pkg/kubevirt/client.go:236-254 | An undisturbed released volume stays released and leaves the status at the next unplug |
| Runs.RunCall | pkg/service/controller.go:160-574 | Each controller call keeps the discipline, the origin of serials, and foreign DataVolumes |
| Runs.RunCalls | pkg/service/controller.go:160-574 | Over any run of creates, deletes, publishes and unpublishes: exclusive attachment at every moment (single-node modes, serialised, settled); one entry per spec at every moment; every plugged entry refers to the DataVolume of its name with the serial and bus of a create's answer, and every serial is known to come from a create; creates of an undeleted name all answered with the stored size and UID; foreign DataVolumes unchanged |
| Runs.RunThenStage | pkg/service/node.go:545-571 | After any such run with fresh UIDs, the device the node picks with an answer's serial is the disk hot-plugged for that volume with that serial, or the lookup fails |
| Identity.AllKnown | pkg/service/controller.go:254-270 | Every serial on a DataVolume, a spec entry or a status entry came with that name from the API server or from outside |
| Identity.NodePicksOwnDisk | pkg/service/node.go:545-571 | The first device of a serial is the disk of the volume and incarnation it was handed out for; without such a disk there is none |
| Identity.IdentityExactlyBySerial | pkg/service/node.go:545-571 | With a volume's known serial the node picks the volume's own disk or none, in every guest, if and only if the serial is not empty |
| RoundTrips.PublishTwice | pkg/service/controller.go:388-426 | After a publish that succeeded, however it went, a repeat in a calm environment makes no add, and succeeds if and only if the mode is not single-node or no other VMI reports the volume by then; else it is FailedPrecondition |
| RoundTrips.RepeatRefused | pkg/service/controller.go:388-426 | A concrete run whose publish succeeds and whose repeat is refused, with the volume in the target's spec |
| RoundTrips.UnpublishTwice | pkg/service/controller.go:542-549 | After an unpublish that succeeded while nobody added the volume to the spec, repeating it in a calm environment succeeds without a write |
| RoundTrips.WithoutAppended | pkg/service/controller.go:608-633 | Removing by name undoes appending an entry of a new name exactly |
| RoundTrips.PublishThenUnpublish | pkg/service/controller.go:366-666 | From a spec not naming the volume, a publish and an unpublish that succeed restore every machine's exact volume list; both do succeed on a ready machine whose environment converges, with no condition on the calls' own outcome |
| Volumes.GetAccessMode | pkg/service/controller.go:115-129 | Block if any capability is; the RWX flag and the error are those of the last capability with a mode |
| Volumes.LaterCapabilityHidesRwx | pkg/service/controller.go:115-129 | A request with an RWX file-system capability that is accepted as single-node |
| Volumes.LastModeIs | pkg/service/controller.go:115-129 | The last mode is that of a capability that no capability with a mode follows |
| Volumes.Validate | pkg/service/controller.go:73-113 | Accepted exactly by the name, a known last mode, block for a shared one and a permitted storage class, with the flag of the last mode; an unknown mode is a plain error, all else InvalidArgument |
| Volumes.DetermineSource | pkg/service/controller.go:277-315 | The source is blank, the requested snapshot or the requested volume's claim; fault-free it is found exactly if the named object is there and the driver's, and NotFound exactly if it is missing |
| Volumes.CreateDataVolume | pkg/kubevirt/client.go:314-320 | A name without the prefix is refused without a call; success means the volume stored is the one asked for, under a UID of its own |
| Volumes.CreateVolume | pkg/service/controller.go:160-275 | It stores at most one volume, under a prefixed free name, with the driver's labels and exactly the requested size, storage class, access mode and content source; a storage class that is not permitted is refused before any call; success means a volume of that name and size passes the lookup filter and the answer's serial is its UID (empty without spec.storage); an existing one is not changed, and another size fails; fault-free, success and AlreadyExists are exactly characterised |
| Volumes.CreateExisting | pkg/service/controller.go:239-255 | A fault-free create that meets the driver's own volume changes nothing, succeeds exactly for a valid request of its size, and answers the stored UID, or the empty serial exactly without spec.storage |
| Volumes.DeleteVolume | pkg/service/controller.go:329-346 | It deletes at most its own volume, and only if that is the driver's; success means it is gone; fault-free it fails exactly for a foreign one |
| Snapshots.EnsureSnapshotReady | pkg/kubevirt/client.go:257-268 | Success means the snapshot reports ready; for the driver's snapshot, fault-free, also the converse |
| Snapshots.CreateVolumeSnapshot | pkg/kubevirt/client.go:388-416 | It stores at most one snapshot, of the requested claim, labelled, and of the requested class exactly if defaults are off and the first group of the claim's permitted storage class has it, else of the default one; a name in use is not touched; fault-free from a snapshottable state it succeeds exactly if a class can be settled on |
| Snapshots.CreateSnapshot | pkg/service/controller.go:738-775 | A snapshot name determines its source: a name in use is answered only for its own source, else AlreadyExists, and never created again; whatever the result, a snapshot the call made is bound to the requested source and has the class its claim calls for; an answer names the stored source and is ready exactly if the stored status says so; a missing source is NotFound; the creating path reports ready if readiness is monotone |
| Snapshots.SourceStays | pkg/service/controller.go:777-779 | Until deleted a snapshot keeps its source and labels over any run |
| Snapshots.DeleteSnapshot | pkg/service/controller.go:805-816 | Deletes at most its own, driver-owned snapshot; success means it is gone; fault-free it fails exactly for a foreign one |
| Snapshots.FilterBySource | pkg/service/controller.go:835-841 | Keeps exactly the snapshots taken from that claim, each once |
| Snapshots.ListSnapshots | pkg/service/controller.go:818-853 | For every token and size: success exactly if the read succeeds, the page is in range, and all of the page's snapshots were taken from a claim; the page shows, in order, the slice that token and size call for of a duplicate-free list of exactly the snapshots asked for; every entry passes the get filter and tells the stored source, and ready exactly if the stored status says so; a listing in one page holds every one asked for once |
| Snapshots.RunSnapshots | pkg/service/controller.go:738-816 | Over any run of creates and deletes not deleting the name, all creates of it that succeed report one source, that of the first snapshot stored, also when that create timed out |
| Pagination.TokenRoundTrip | pkg/service/controller.go:868-885 | Printing a position and parsing it gives it back exactly up to 32 bits |
| Pagination.FirstTokens | pkg/service/controller.go:859-871 | No token, "0" and "1" start at the first item; signs and letters are no token |
| Pagination.PageFrom | pkg/service/controller.go:855-889 | A page is the slice from its token, with a next token as long as the slice ends before the last item; it panics exactly if the slice bounds are out of order, as for a token past the end |
| Pagination.FollowTokens | pkg/service/controller.go:855-889 | Following tokens from "" terminates, stays in bounds, and yields the whole list in order, except that the last item is missing exactly if n >= 2 and the page size divides n - 1 |
| Mapping.AppendMapping | pkg/kubevirt/client.go:565-585 | Each infra class is paired with the first tenant class pointing to it, or the empty name |
| Mapping.BuildMapping | pkg/kubevirt/client.go:545-563 | One entry for each configured group, in order, or the list error |
| Mapping.LookUpClass | pkg/kubevirt/client.go:458-494 | The pairs of the first entry with that storage class, or none |
| Mapping.ConfiguredIs | pkg/kubevirt/client.go:458-494 | The configured classes are those of the first group with the storage class, none without one |
| Mapping.LookupRefinesConfig | pkg/kubevirt/client.go:458-494 | The infra lookup in the built mapping is "classes of the first configured group with this storage class", whatever the tenant has |
| Mapping.MappingCache.Get | pkg/kubevirt/client.go:163-176 | A good load fills the cache for good, a failed one leaves it empty and reports its error |
| Mapping.RunCallers | pkg/kubevirt/client.go:163-176 | In any order of callers, those before the first good load get their own errors and all others that load's mapping |
| Mapping.ResolveSnapshotClass | pkg/kubevirt/client.go:418-456 | Exactly when the requested class, the empty class, or an error comes back |
| Expand.ExpandPersistentVolumeClaim | pkg/kubevirt/client.go:367-386 | The claim's request becomes the larger of its own and the desired size, or on failure possibly stays; only the driver's claim is patched |
| Expand.EnsureControllerResize | pkg/kubevirt/client.go:271-292 | Success means the volume was read with at least the claim's request; fault-free also the converse |
| Expand.ControllerExpandVolume | pkg/service/controller.go:892-925 | Success means the request is the maximum of old and new and the volume has that capacity; the node must expand exactly file-system volumes |
| Expand.RunExpands | pkg/service/controller.go:892-925 | Over serial expands the request never shrinks and never exceeds the largest size; if all succeed it is the maximum, and the volume has it |
| Node.FirstBySerialIs | pkg/service/node.go:563-568 | The search returns the device with that serial that no other precedes |
| Node.NoneBySerial | pkg/service/node.go:563-570 | It finds none exactly if no device has the serial |
| Node.NodeHost.GetDeviceBySerial | pkg/service/node.go:545-571 | The loop finds that first device, or fails exactly if the listing fails or there is none |
| Node.NodeHost.MakeFs | pkg/service/node.go:573-603 | mkfs runs exactly for ext4 and xfs kinds; a half-done one leaves an unfinished file system |
| Node.NodeHost.NodeStageVolume | pkg/service/node.go:163-198 | mkfs is issued exactly for a mount request of a supported kind whose device is found without file system; success of a mount request means the device has one, and a finished one exactly if this call made it or it was finished before; a call spoils sound devices exactly if its mkfs ends half-done |
| Node.RetryAcceptsHalfDone | pkg/service/node.go:181-186 | A stage call whose mkfs ends half-done fails, and its retry succeeds on the unfinished file system |
| Node.NodeHost.NodePublishVolume | pkg/service/node.go:259-307 | A mount is made exactly if the device is found and the target is none yet, of that device's path with its file-system kind, bound if block, tolerating duplicate UUIDs if xfs; none is replaced |
| Node.RunNode | pkg/service/node.go:163-198 | Over any run of stage calls and hot-plugs, with retries and half-done mkfs, mkfs never names a device that has a file system, finished or not, so it keeps it as it is |
| VolumeStats.GuardIsExact | pkg/mounter/mount.go:89-104 | The division guard refuses exactly the products beyond 64 bits, and lets pass only ones that do not wrap |
| VolumeStats.GetVolumeStats | pkg/mounter/mount.go:71-138 | Success exactly if both byte products and both inode counts fit int64 and free inodes do not exceed the total; the results are the unbounded ones, used bytes do not exceed the total, inodes add up, and the used-bytes errors never occur |
| Codecs.NodeIdRoundTrip | cmd/kubevirt-csi-driver/kubevirt-csi-driver.go:206-230 | A node ID splits back to the namespace and name it was built from if and only if both are free of slashes |
| Codecs.NodeIdOf | cmd/kubevirt-csi-driver/kubevirt-csi-driver.go:206-230 | A KubeVirt provider ID gives the VM name and the cluster annotation the namespace; any other node takes both from the VM annotations |
| Codecs.SplitKeyOfPieces | vendor/k8s.io/client-go/tools/cache/store.go:142-154 | Every key is joined from slash-free pieces, and exactly one piece is a name, two a namespace and a name, more an error |
| Codecs.ParseLabels | cmd/kubevirt-csi-driver/kubevirt-csi-driver.go:185-202 | Succeeds exactly if the flag is set and every field has an equals sign, and gives the last-wins map of the fields cut at the first one |
| Codecs.LastWinsIs | cmd/kubevirt-csi-driver/kubevirt-csi-driver.go:185-202 | A key's value in the map is that of its last pair |
| Codecs.ParsePrinted | cmd/kubevirt-csi-driver/kubevirt-csi-driver.go:185-202 | Printed pairs parse back, values with equals signs included: the map has exactly their keys, each with the value of its last pair |

## Left out

- Surfaces.UnnamedStays: VMI specs are not modelled, so a late sync from a VMI spec that still names the volume is ruled out by the model.
- Attach.ControllerPublishVolume: a success without an add does not mean the VMI reports the volume ready, because the fast path returns on the spec alone.
- Runs.RunCalls: calls run one after another; two calls on one volume at the same time are what `Serial` shuts out.
- Pagination.FollowTokens: the list is fixed while its pages are fetched and has at most 2^32 - 1 items, the most its 32-bit token can address.
- Snapshots.ListSnapshots: the API's order of a listing is arbitrary, so nothing relates the pages of two calls.
- VolumeStats.GetVolumeStats: the block size must not be zero, which would divide by zero; the call of statfs itself is not modelled.
- Node.NodeHost.NodePublishVolume: directory and file creation count as part of the mount, and the resize library as one outcome.
- Delayed effects: a failed write that takes effect only after its call returned.
- Real time: timeouts are counted in reads and attempts, not in seconds.
- Restore size and creation time of snapshots, annotations and the data-source reference of new DataVolumes.
- Syntax checks of the label selector's keys and values.
- The second mapping lookup of snapshot-class resolution, for tenant names: it only words an error.
- The nil checks of request fields, and an unknown kind of content source.
- Deleting a volume while it is attached, and expanding one claim from two calls at once: the driver promises nothing there.
- NodeUnstageVolume, NodeUnpublishVolume, NodeExpandVolume, ValidateVolumeCapabilities, capability lists and unimplemented calls.
- The gRPC server, the identity service, flags, kubeconfig loading, logging and error texts.
