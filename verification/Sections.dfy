/**
  The wrapper's critical sections, one atomic action at a time.

  mount, unmount (internal/wrapper/server.go), reconcileMountForPod and
  handleReconcileResult (internal/wrapper/reconciler.go) each take one target
  lock and then read and write the store and call the node. A Pc is the point a
  thread has reached together with its saved locals; SectionStep performs the
  next action. Every answer of the store, the node and the Kubernetes API comes
  from outside.
*/
module Sections {
  import opened Results
  import opened MountRecords
  import opened Authorization
  import Kube
  import NfsPaths

  // ----- the world: memory, disk and what has happened -----

  datatype Event =
    | Inherited(key: Key, containerID: string)       // a version 1 process left this mount behind
    | KeyPresented(key: Key, fingerprint: string)    // a mount call presented a key with this hash
    | MountEntered(key: Key)                         // a mount call took the target lock
    | Unmounted(key: Key)                            // an unmount call returned success
    | Stored(key: Key)                               // Put returned nil
    | Removed(key: Key)                              // Delete of a known key returned nil
    | TornPut(key: Key)                              // Put replaced the file, then returned an error
    | TornDelete(key: Key)                           // Delete removed the file, then returned an error
    | NodeMount(plan: NfsPaths.MountPlan, rootKey: Option<string>, ok: bool)
    | NodeUnmount(key: Key, containerID: string, ok: bool)
    | Observed(key: Key, containerID: string)        // IsMounted was true while the record was pending
    | RetryScheduled(key: Key)
    | RetryReconciled(key: Key)
    | Restarted

  datatype World = World(mem: map<Key, DesiredMount>, disk: map<Key, StateFile>, history: seq<Event>)

  /** nil; an error with no effect; an error after the file was already replaced or removed. */
  datatype StoreAnswer = Done | Refused | Torn

  datatype CheckAnswer = Yes | No | CheckFailed

  /** The outside world's answer to each action a section may perform. */
  datatype Answers = Answers(
    refresh: StoreAnswer,
    check: CheckAnswer,
    adopt: StoreAnswer,
    pend: StoreAnswer,
    node: bool,
    restore: StoreAnswer,
    record: StoreAnswer,
    delete: StoreAnswer,
    pv: Option<Kube.PersistentVolume>)

  function Log(w: World, e: Event): World { w.(history := w.history + [e]) }

  function Put(w: World, mount: DesiredMount, answer: StoreAnswer): World {
    var k := KeyOf(mount);
    match answer
    case Done => World(w.mem[k := mount], w.disk[k := Persist(mount)], w.history + [Stored(k)])
    case Refused => w
    case Torn => World(w.mem, w.disk[k := Persist(mount)], w.history + [TornPut(k)])
  }

  /** Delete returns early for a key that is not in memory. */
  function Delete(w: World, k: Key, answer: StoreAnswer): World {
    if k !in w.mem then w
    else
      match answer
      case Done => World(w.mem - {k}, w.disk - {k}, w.history + [Removed(k)])
      case Refused => w
      case Torn => World(w.mem, w.disk - {k}, w.history + [TornDelete(k)])
  }

  predicate DeleteOk(w: World, k: Key, answer: StoreAnswer) { k !in w.mem || answer.Done? }

  // ----- program counters -----

  /** Mounted and AlreadyMounted are the source's one success: the node was called, or the mount was found there. */
  datatype MountOutcome =
    | Mounted | AlreadyMounted
    | MountRefused | MountStoreFailed | CheckError | MountRolledBack | MountRestoreFailed

  datatype UnmountOutcome = UnmountDone | UnmountRefused | UnmountRolledBack | UnmountRestoreFailed

  /** A reconcile's result: nil, errDesiredMountStale, errDesiredMountUnauthorized, or another error. */
  datatype Verdict = Settled | Stale | Unauthorized | Failed

  datatype Job = Job(snapshot: DesiredMount, pod: Kube.Pod)

  /** A mount's progress. `entry` is the record found under the lock; `prev` is it with the call's fingerprint. */
  datatype MountPoint =
    | MountGet
    | MountRefresh(entry: Option<DesiredMount>, refreshed: DesiredMount)
    | MountCheck(entry: Option<DesiredMount>, found: DesiredMount)
    | MountAdopt(entry: Option<DesiredMount>, adopted: DesiredMount)
    | MountPend(entry: Option<DesiredMount>, prev: Option<DesiredMount>)
    | MountNode(entry: Option<DesiredMount>, prev: Option<DesiredMount>)
    | MountRestore(entry: Option<DesiredMount>, prev: Option<DesiredMount>)
    | MountRecord(entry: Option<DesiredMount>)
    | MountExit(entry: Option<DesiredMount>, outcome: MountOutcome)

  /** An unmount's progress. `held` is the record it found. */
  datatype UnmountPoint =
    | UnmountGet
    | UnmountStale(held: DesiredMount)
    | UnmountDelete(held: DesiredMount)
    | UnmountCheck(held: DesiredMount)
    | UnmountNode(held: DesiredMount)
    | UnmountRestore(held: DesiredMount)
    | UnmountExit(met: Option<DesiredMount>, outcome: UnmountOutcome)

  /** A reconcile's progress. `current` is the record it would write back. */
  datatype ReconcilePoint =
    | ReconcileGet
    | ReconcilePlan(current: DesiredMount)
    | ReconcileCheck(plan: NfsPaths.MountPlan, current: DesiredMount)
    | ReconcileNode(plan: NfsPaths.MountPlan, current: DesiredMount)
    | ReconcileRecord(current: DesiredMount)
    | ReconcileExit(verdict: Verdict, acted: bool := false)   // acted: after its mount was made or met

  datatype RemovePoint = RemoveGet | RemoveDelete | RemoveExit

  datatype Pc =
    | Mounting(call: MountCall, mount: MountPoint)
    | Unmounting(target: UnmountCall, unmount: UnmountPoint)
    | Reconciling(job: Job, reconcile: ReconcilePoint)
    | Removing(snapshot: DesiredMount, remove: RemovePoint)

  function SectionKey(pc: Pc): Key {
    match pc
    case Mounting(call, _) => RequestKey(call.request)
    case Unmounting(target, _) => target.key
    case Reconciling(job, _) => KeyOf(job.snapshot)
    case Removing(snapshot, _) => KeyOf(snapshot)
  }

  predicate IsEntry(pc: Pc) {
    match pc
    case Mounting(_, at) => at.MountGet?
    case Unmounting(_, at) => at.UnmountGet?
    case Reconciling(_, at) => at.ReconcileGet?
    case Removing(_, at) => at.RemoveGet?
  }

  predicate IsExit(pc: Pc) {
    match pc
    case Mounting(_, at) => at.MountExit?
    case Unmounting(_, at) => at.UnmountExit?
    case Reconciling(_, at) => at.ReconcileExit?
    case Removing(_, at) => at.RemoveExit?
  }

  /** The record mount writes before it calls the node. */
  function Pending(call: MountCall): DesiredMount {
    DesiredMount(call.request, "", false, NfsPaths.IsNFSExportRoot(call.plan), call.fingerprint)
  }

  // ----- mount -----

  function MountAfterRefresh(call: MountCall, entry: Option<DesiredMount>, prev: Option<DesiredMount>): MountPoint {
    if && prev.Some?
       && SameMountIntent(prev.value, Pending(call))
       && (prev.value.containerID == "" || prev.value.containerID == call.plan.containerID)
    then MountCheck(entry, prev.value)
    else MountPend(entry, prev)
  }

  function MountRead(w: World, call: MountCall): MountPoint {
    var prev := Lookup(w.mem, RequestKey(call.request));
    if prev.Some? && prev.value.request != call.request then MountExit(prev, MountRefused)
    else if prev.Some? && prev.value.rootAuthorized != Pending(call).rootAuthorized then MountExit(prev, MountRefused)
    else if prev.Some? && prev.value.fingerprint != call.fingerprint then
      MountRefresh(prev, prev.value.(fingerprint := call.fingerprint))
    else MountAfterRefresh(call, prev, prev)
  }

  function MountStep(cfg: Config, w: World, call: MountCall, at: MountPoint, a: Answers): (World, MountPoint)
    requires !at.MountExit?
  {
    var k := RequestKey(call.request);
    match at
    case MountGet =>
      (w, MountRead(w, call))
    case MountRefresh(entry, refreshed) =>
      (Put(w, refreshed, a.refresh),
       if a.refresh.Done? then MountAfterRefresh(call, entry, Some(refreshed)) else MountExit(entry, MountStoreFailed))
    case MountCheck(entry, found) =>
      if a.check.CheckFailed? then (w, MountExit(entry, CheckError))
      else if a.check.No? then (w, MountPend(entry, Some(found)))
      else if found.containerID != call.plan.containerID then
        (Log(w, Observed(k, call.plan.containerID)), MountAdopt(entry, found.(containerID := call.plan.containerID)))
      else (w, MountExit(entry, AlreadyMounted))
    case MountAdopt(entry, adopted) =>
      (Put(w, adopted, a.adopt), MountExit(entry, if a.adopt.Done? then AlreadyMounted else MountStoreFailed))
    case MountPend(entry, prev) =>
      (Put(w, Pending(call), a.pend),
       if a.pend.Done? then MountNode(entry, prev) else MountExit(entry, MountStoreFailed))
    case MountNode(entry, prev) =>
      (Log(w, NodeMount(call.plan, cfg.rootKey, a.node)),
       if a.node then MountRecord(entry) else MountRestore(entry, prev))
    case MountRestore(entry, prev) =>
      if prev.Some? then
        (Put(w, prev.value, a.restore),
         MountExit(entry, if a.restore.Done? then MountRolledBack else MountRestoreFailed))
      else
        (Delete(w, k, a.restore),
         MountExit(entry, if DeleteOk(w, k, a.restore) then MountRolledBack else MountRestoreFailed))
    case MountRecord(entry) =>
      // a failed write of the container ID is only logged
      (Put(w, Pending(call).(containerID := call.plan.containerID), a.record), MountExit(entry, Mounted))
  }

  // ----- unmount -----

  function UnmountRead(w: World, target: UnmountCall): UnmountPoint {
    var found := Lookup(w.mem, target.key);
    if found.None? then UnmountExit(found, UnmountDone)
    else if found.value.request.pvName != target.pvName then UnmountExit(found, UnmountRefused)
    else if found.value.containerID == "" || found.value.containerID != target.containerID
      then UnmountStale(found.value)
    else UnmountDelete(found.value)
  }

  function UnmountStep(w: World, target: UnmountCall, at: UnmountPoint, a: Answers): (World, UnmountPoint)
    requires !at.UnmountExit?
  {
    var k := target.key;
    match at
    case UnmountGet =>
      (w, UnmountRead(w, target))
    case UnmountStale(held) =>
      (Delete(w, k, a.delete),
       UnmountExit(Some(held), if DeleteOk(w, k, a.delete) then UnmountDone else UnmountRefused))
    case UnmountDelete(held) =>
      (Delete(w, k, a.delete),
       if DeleteOk(w, k, a.delete) then UnmountCheck(held) else UnmountExit(Some(held), UnmountRefused))
    case UnmountCheck(held) =>
      (w, if a.check.CheckFailed? then UnmountRestore(held)
          else if a.check.Yes? then UnmountNode(held)
          else UnmountExit(Some(held), UnmountDone))
    case UnmountNode(held) =>
      (Log(w, NodeUnmount(k, target.containerID, a.node)),
       if a.node then UnmountExit(Some(held), UnmountDone) else UnmountRestore(held))
    case UnmountRestore(held) =>
      (Put(w, held, a.restore),
       UnmountExit(Some(held), if a.restore.Done? then UnmountRolledBack else UnmountRestoreFailed))
  }

  // ----- reconcile -----

  function ReconcileRead(cfg: Config, w: World, job: Job): ReconcilePoint {
    var snapshot, pod := job.snapshot, job.pod;
    if Lookup(w.mem, KeyOf(snapshot)) != Some(snapshot) then ReconcileExit(Settled)
    else
      var normalized := NormalizeMountRequest(cfg, snapshot.request, true);
      if normalized.Err? then ReconcileExit(Failed)
      else
        var request := normalized.value;
        if !PodIdentity(pod, request) || !PodOnNode(pod, cfg.nodeName) then ReconcileExit(Stale)
        else
          var status := SelectContainerStatus(pod, request.containerName);
          if status.Err? then ReconcileExit(Failed)
          else if snapshot.containerID != "" && snapshot.containerID == status.value.containerID
            then ReconcileExit(Settled)
          else ReconcilePlan(snapshot.(request := request.(containerName := status.value.name)))
  }

  /** The root-selection and key checks of a reconcile, with the fields they rewrite. */
  function Reclassify(cfg: Config, current: DesiredMount, isRoot: bool): Result<DesiredMount> {
    var known :-
      if current.legacyRootUnknown then
        if isRoot && cfg.rootKey.Some? then Err
        else Ok(current.(rootAuthorized := isRoot, fingerprint := "", legacyRootUnknown := false))
      else if current.rootAuthorized != isRoot then Err
      else Ok(current);
    if isRoot && cfg.rootKey.Some? && !AuthorizesFingerprint(cfg, known.fingerprint) then Err
    else if !isRoot || cfg.rootKey.None? then Ok(known.(fingerprint := ""))
    else Ok(known)
  }

  function ReconcilePlanned(cfg: Config, job: Job, current: DesiredMount,
                            pv: Option<Kube.PersistentVolume>): ReconcilePoint {
    if pv.None? then ReconcileExit(Failed)
    else
      var planned := MountPlanForPod(cfg, current.request, job.pod, pv.value);
      if planned.Err? then ReconcileExit(Failed)
      else
        var plan := planned.value.plan;
        var classified := Reclassify(cfg, current.(request := planned.value.request), NfsPaths.IsNFSExportRoot(plan));
        if classified.Err? then ReconcileExit(Unauthorized)
        else if current.containerID == "" || current.containerID == plan.containerID then
          ReconcileCheck(plan, classified.value)
        else ReconcileNode(plan, classified.value)
  }

  function ReconcileStep(cfg: Config, w: World, job: Job, at: ReconcilePoint, a: Answers): (World, ReconcilePoint)
    requires !at.ReconcileExit?
  {
    match at
    case ReconcileGet =>
      (w, ReconcileRead(cfg, w, job))
    case ReconcilePlan(current) =>
      (w, ReconcilePlanned(cfg, job, current, a.pv))
    case ReconcileCheck(plan, current) =>
      if a.check.CheckFailed? then (w, ReconcileExit(Failed))
      else if a.check.No? then (w, ReconcileNode(plan, current))
      else if current.containerID != plan.containerID then
        (Log(w, Observed(KeyOf(job.snapshot), plan.containerID)),
         ReconcileRecord(current.(containerID := plan.containerID)))
      else (w, ReconcileExit(Settled))
    case ReconcileNode(plan, current) =>
      (Log(w, NodeMount(plan, cfg.rootKey, a.node)),
       if a.node then ReconcileRecord(current.(containerID := plan.containerID)) else ReconcileExit(Failed))
    case ReconcileRecord(current) =>
      (Put(w, current, a.record), ReconcileExit(if a.record.Done? then Settled else Failed, true))
  }

  // ----- removing a record whose reconcile came back stale -----

  function RemoveStep(w: World, snapshot: DesiredMount, at: RemovePoint, a: Answers): (World, RemovePoint)
    requires !at.RemoveExit?
  {
    match at
    case RemoveGet =>
      (w, if Lookup(w.mem, KeyOf(snapshot)) == Some(snapshot) then RemoveDelete else RemoveExit)
    case RemoveDelete =>
      (Delete(w, KeyOf(snapshot), a.delete), RemoveExit)
  }

  // ----- a section from entry to exit -----

  function SectionStep(cfg: Config, w: World, pc: Pc, a: Answers): (World, Pc)
    requires !IsExit(pc)
  {
    match pc
    case Mounting(call, at) =>
      var (w', at') := MountStep(cfg, w, call, at, a);
      (w', Mounting(call, at'))
    case Unmounting(target, at) =>
      var (w', at') := UnmountStep(w, target, at, a);
      (w', Unmounting(target, at'))
    case Reconciling(job, at) =>
      var (w', at') := ReconcileStep(cfg, w, job, at, a);
      (w', Reconciling(job, at'))
    case Removing(snapshot, at) =>
      var (w', at') := RemoveStep(w, snapshot, at, a);
      (w', Removing(snapshot, at'))
  }
}
