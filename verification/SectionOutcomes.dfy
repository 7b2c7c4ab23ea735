/**
  What a whole critical section does and answers, from the record it finds, the
  fields of the pod and the PV, and what the store and the node answer
  (internal/wrapper/server.go:160-305, internal/wrapper/reconciler.go:273-353).
*/
module SectionOutcomes {
  import opened Results
  import opened MountRecords
  import opened Authorization
  import opened CallDecisions
  import opened Sections
  import opened SectionRuns
  import Kube
  import NfsPaths
  import SourceSubPaths

  // ----- reconcile: which verdict a record gets -----

  /** The snapshot is still the record, and one the wrapper keeps. */
  ghost predicate Current(w: World, job: Job) {
    Lookup(w.mem, KeyOf(job.snapshot)) == Some(job.snapshot) && Canonical(job.snapshot.request)
  }

  /** The first status of the record's container in the pod is the i-th. */
  predicate StatusAt(job: Job, i: int) {
    FirstNamed(job.pod.status.containerStatuses, job.snapshot.request.containerName, i)
  }

  function IDAt(job: Job, i: int): string
    requires StatusAt(job, i)
  {
    job.pod.status.containerStatuses[i].containerID
  }

  ghost predicate Judgeable(cfg: Config, w: World, job: Job) {
    && Current(w, job)
    && RequestFits(cfg, job.snapshot.request)
    && PodServes(cfg, job.snapshot.request, job.pod)
  }

  /** The record's pod runs its container under another ID, or the record has none yet. */
  ghost predicate Moves(cfg: Config, w: World, job: Job, i: nat) {
    && Judgeable(cfg, w, job)
    && StatusAt(job, i) && IDAt(job, i) != "" && IDAt(job, i) != job.snapshot.containerID
  }

  lemma RecordRequest(cfg: Config, w: World, job: Job)
    requires Current(w, job)
    ensures NormalizeMountRequest(cfg, job.snapshot.request, true) ==
            if RequestFits(cfg, job.snapshot.request) then Ok(job.snapshot.request) else Err
    ensures PodIdentity(job.pod, job.snapshot.request) && PodOnNode(job.pod, cfg.nodeName) <==>
            PodServes(cfg, job.snapshot.request, job.pod)
  {
    var request := job.snapshot.request;
    RequestMeans(cfg, request);
    NormalizeCanonical(cfg, request);
    SourceSubPaths.ParsersAgree(request.sourceSubPath);
    PodMeans(cfg, request, request, job.pod);
  }

  lemma RecordContainer(w: World, job: Job)
    requires Current(w, job)
    ensures var selected := SelectContainerStatus(job.pod, job.snapshot.request.containerName);
            && (forall i :: StatusAt(job, i) ==>
                  selected ==
                  if IDAt(job, i) == "" then Err else Ok(job.pod.status.containerStatuses[i]))
            && (selected.Ok? ==> exists i :: StatusAt(job, i))
  {
    StatusByNameMeans(job.pod.status.containerStatuses, job.snapshot.request.containerName);
  }

  /** The verdict at once, or the plan for another container. */
  lemma ReadMeans(cfg: Config, w: World, job: Job)
    requires Current(w, job)
    ensures !RequestFits(cfg, job.snapshot.request) ==> ReconcileRead(cfg, w, job) == ReconcileExit(Failed)
    ensures RequestFits(cfg, job.snapshot.request) ==>
              (ReconcileRead(cfg, w, job) == ReconcileExit(Stale) <==>
               !PodServes(cfg, job.snapshot.request, job.pod))
    ensures Judgeable(cfg, w, job) && (forall i :: StatusAt(job, i) ==> IDAt(job, i) == "") ==>
              ReconcileRead(cfg, w, job) == ReconcileExit(Failed)
    ensures Judgeable(cfg, w, job) ==>
              forall i :: StatusAt(job, i) && IDAt(job, i) != "" ==>
                ReconcileRead(cfg, w, job) ==
                if IDAt(job, i) == job.snapshot.containerID then ReconcileExit(Settled) else ReconcilePlan(job.snapshot)
  {
    RecordRequest(cfg, w, job);
    RecordContainer(w, job);
    var snapshot := job.snapshot;
    var request := snapshot.request;
    assert snapshot.(request := request.(containerName := request.containerName)) == snapshot;
  }

  /** A current record's verdict is Stale if and only if its pod is another, has ended, or runs elsewhere. */
  lemma StaleExactly(cfg: Config, w: World, job: Job, a: Answers)
    requires Current(w, job)
    ensures var (w', at) := RunReconcile(cfg, w, job, ReconcileGet, a);
            && (at.verdict.Stale? <==>
                  && RequestFits(cfg, job.snapshot.request)
                  && !PodServes(cfg, job.snapshot.request, job.pod))
            && (at.verdict.Stale? ==> w' == w)
  {
    ReadMeans(cfg, w, job);
    ReadReconcile(cfg, w, job, a);
    if ReconcileRead(cfg, w, job).ReconcilePlan? {
      OnlyReadIsStale(cfg, w, job, ReconcileRead(cfg, w, job), a);
    }
  }

  lemma OnlyReadIsStale(cfg: Config, w: World, job: Job, at: ReconcilePoint, a: Answers)
    requires at.ReconcilePlan?
    ensures !RunReconcile(cfg, w, job, at, a).1.verdict.Stale?
  {
    PlannedReconcile(cfg, w, job, at.current, a);
    var next := ReconcilePlanned(cfg, job, at.current, a.pv);
    if !next.ReconcileExit? { ActingIsNotRefused(cfg, w, job, next, a); }
  }

  /** Once it acts, a reconcile settles or fails. */
  lemma ActingIsNotRefused(cfg: Config, w: World, job: Job, at: ReconcilePoint, a: Answers)
    requires at.ReconcileCheck? || at.ReconcileNode?
    ensures var (_, exit) := RunReconcile(cfg, w, job, at, a); exit.verdict.Settled? || exit.verdict.Failed?
  {
    CalledReconcile(cfg, w, job, at.plan, at.current, a);
    var current := at.current.(containerID := at.plan.containerID);
    LastReconcileRecord(cfg, Log(w, NodeMount(at.plan, cfg.rootKey, a.node)), job, current, a);
    if at.ReconcileCheck? {
      CheckedReconcile(cfg, w, job, at.plan, at.current, a);
      LastReconcileRecord(cfg, Log(w, Observed(KeyOf(job.snapshot), at.plan.containerID)), job, current, a);
    }
  }

  /** A record that no longer fits the configuration, or whose container is not there or has no ID, waits: nothing
      happens, and the error is one that is retried. */
  lemma NoContainerFails(cfg: Config, w: World, job: Job, a: Answers)
    requires Current(w, job)
    requires !RequestFits(cfg, job.snapshot.request)
             || (PodServes(cfg, job.snapshot.request, job.pod)
                 && forall i :: StatusAt(job, i) ==> IDAt(job, i) == "")
    ensures RunReconcile(cfg, w, job, ReconcileGet, a) == (w, ReconcileExit(Failed))
  {
    ReadMeans(cfg, w, job);
    ReadReconcile(cfg, w, job, a);
  }

  /** A record that names the container its pod runs is left alone. */
  lemma SameContainerSettles(cfg: Config, w: World, job: Job, i: nat, a: Answers)
    requires Judgeable(cfg, w, job) && StatusAt(job, i) && IDAt(job, i) == job.snapshot.containerID != ""
    ensures RunReconcile(cfg, w, job, ReconcileGet, a) == (w, ReconcileExit(Settled))
  {
    ReadMeans(cfg, w, job);
    ReadReconcile(cfg, w, job, a);
  }

  // ----- reconcile: a record whose container is another one or not known -----

  /** What the current policy lets a record be mounted again for. */
  predicate MayRemount(cfg: Config, r: DesiredMount, isRoot: bool) {
    if r.legacyRootUnknown then !isRoot || cfg.rootKey.None?
    else
      && r.rootAuthorized == isRoot
      && (isRoot && cfg.rootKey.Some? ==> r.fingerprint != "" && r.fingerprint == cfg.rootKey.value)
  }

  /** The record written back: for its new container, the root selection known, and its fingerprint if it needs one. */
  function Remounted(cfg: Config, r: DesiredMount, isRoot: bool, containerID: string): DesiredMount {
    r.(containerID := containerID,
       legacyRootUnknown := false,
       rootAuthorized := isRoot,
       fingerprint := if isRoot && cfg.rootKey.Some? then r.fingerprint else "")
  }

  ghost function PlanAt(job: Job, i: nat, pv: Kube.PersistentVolume): NfsPaths.MountPlan
    requires StatusAt(job, i) && pv.csi.Some?
  {
    WantedPlan(job.snapshot.request, job.pod, pv, job.pod.status.containerStatuses[i])
  }

  lemma ReclassifyMeans(cfg: Config, r: DesiredMount, isRoot: bool)
    ensures Reclassify(cfg, r, isRoot) ==
            if MayRemount(cfg, r, isRoot) then Ok(Remounted(cfg, r, isRoot, r.containerID)) else Err
  {
  }

  lemma RecordRoot(cfg: Config, w: World, job: Job, i: nat, pv: Kube.PersistentVolume)
    requires Moves(cfg, w, job, i) && pv.csi.Some?
    ensures NfsPaths.IsNFSExportRoot(PlanAt(job, i, pv)) <==> SelectsRoot(job.snapshot.request, pv)
  {
    var request := job.snapshot.request;
    SourceSubPaths.ParsersAgree(request.sourceSubPath);
    RecordRequest(cfg, w, job);
    RequestMeans(cfg, request);
    assert Cleaned(request, request.containerName) == request;
    RootMeans(request, job.pod, pv, job.pod.status.containerStatuses[i]);
  }

  /** Where such a record's reconcile goes from its plan. */
  lemma PlannedMeans(cfg: Config, w: World, job: Job, i: nat, pv: Option<Kube.PersistentVolume>)
    requires Moves(cfg, w, job, i)
    ensures ReconcilePlanned(cfg, job, job.snapshot, pv) ==
            if pv.None? || !VolumeServes(cfg, job.pod, pv.value) then ReconcileExit(Failed)
            else
              var isRoot := SelectsRoot(job.snapshot.request, pv.value);
              var current := Remounted(cfg, job.snapshot, isRoot, job.snapshot.containerID);
              if !MayRemount(cfg, job.snapshot, isRoot) then ReconcileExit(Unauthorized)
              else if job.snapshot.containerID == "" then ReconcileCheck(PlanAt(job, i, pv.value), current)
              else ReconcileNode(PlanAt(job, i, pv.value), current)
  {
    var snapshot := job.snapshot;
    var request := snapshot.request;
    if pv.Some? {
      assert Meant(job.pod, request.containerName, i);
      PlanExact(cfg, request, job.pod, pv.value, i);
      assert request.(containerName := job.pod.status.containerStatuses[i].name) == request;
      assert snapshot.(request := request) == snapshot;
      if VolumeServes(cfg, job.pod, pv.value) {
        RecordRoot(cfg, w, job, i, pv.value);
        ReclassifyMeans(cfg, snapshot, SelectsRoot(request, pv.value));
      }
    }
  }

  lemma MovesRuns(cfg: Config, w: World, job: Job, i: nat, a: Answers)
    requires Moves(cfg, w, job, i)
    ensures var next := ReconcilePlanned(cfg, job, job.snapshot, a.pv);
            RunReconcile(cfg, w, job, ReconcileGet, a) ==
            if next.ReconcileExit? then (w, next) else RunReconcile(cfg, w, job, next, a)
  {
    ReadMeans(cfg, w, job);
    ReadReconcile(cfg, w, job, a);
    PlannedReconcile(cfg, w, job, job.snapshot, a);
  }

  /** Without its PV, or with one that does not serve its pod, it fails and nothing happens. */
  lemma UnplannedFails(cfg: Config, w: World, job: Job, i: nat, a: Answers)
    requires Moves(cfg, w, job, i) && (a.pv.None? || !VolumeServes(cfg, job.pod, a.pv.value))
    ensures RunReconcile(cfg, w, job, ReconcileGet, a) == (w, ReconcileExit(Failed))
  {
    PlannedMeans(cfg, w, job, i, a.pv);
    MovesRuns(cfg, w, job, i, a);
  }

  /** With one, it is Unauthorized exactly when the policy does not cover it, and then nothing happens. */
  lemma UnauthorizedExactly(cfg: Config, w: World, job: Job, i: nat, a: Answers)
    requires Moves(cfg, w, job, i) && a.pv.Some? && VolumeServes(cfg, job.pod, a.pv.value)
    ensures var (w', at) := RunReconcile(cfg, w, job, ReconcileGet, a);
            && (at.verdict.Unauthorized? <==>
                  !MayRemount(cfg, job.snapshot, SelectsRoot(job.snapshot.request, a.pv.value)))
            && (at.verdict.Unauthorized? ==> w' == w)
  {
    PlannedMeans(cfg, w, job, i, a.pv);
    MovesRuns(cfg, w, job, i, a);
    var next := ReconcilePlanned(cfg, job, job.snapshot, a.pv);
    if !next.ReconcileExit? { ActingIsNotRefused(cfg, w, job, next, a); }
  }

  ghost predicate Remounts(cfg: Config, w: World, job: Job, i: nat, a: Answers) {
    && Moves(cfg, w, job, i)
    && a.pv.Some? && VolumeServes(cfg, job.pod, a.pv.value)
    && MayRemount(cfg, job.snapshot, SelectsRoot(job.snapshot.request, a.pv.value))
  }

  /** The record that such a reconcile writes. */
  ghost function RemountedAt(cfg: Config, job: Job, i: nat, pv: Kube.PersistentVolume): DesiredMount
    requires StatusAt(job, i) && pv.csi.Some?
  {
    Remounted(cfg, job.snapshot, SelectsRoot(job.snapshot.request, pv), IDAt(job, i))
  }

  /** What mounting for it on the node comes to. */
  ghost function NodeRemount(cfg: Config, w: World, job: Job, i: nat, pv: Kube.PersistentVolume,
                             a: Answers): (World, ReconcilePoint)
    requires StatusAt(job, i) && pv.csi.Some?
  {
    var w1 := Log(w, NodeMount(PlanAt(job, i, pv), cfg.rootKey, a.node));
    if !a.node then (w1, ReconcileExit(Failed))
    else
      (Put(w1, RemountedAt(cfg, job, i, pv), a.record), ReconcileExit(if a.record.Done? then Settled else Failed, true))
  }

  lemma NodeRemountRuns(cfg: Config, w: World, job: Job, i: nat, a: Answers)
    requires Remounts(cfg, w, job, i, a)
    ensures var isRoot := SelectsRoot(job.snapshot.request, a.pv.value);
            var current := Remounted(cfg, job.snapshot, isRoot, job.snapshot.containerID);
            RunReconcile(cfg, w, job, ReconcileNode(PlanAt(job, i, a.pv.value), current), a) ==
            NodeRemount(cfg, w, job, i, a.pv.value, a)
  {
    var isRoot := SelectsRoot(job.snapshot.request, a.pv.value);
    var current := Remounted(cfg, job.snapshot, isRoot, job.snapshot.containerID);
    var plan := PlanAt(job, i, a.pv.value);
    CalledReconcile(cfg, w, job, plan, current, a);
    LastReconcileRecord(cfg, Log(w, NodeMount(plan, cfg.rootKey, true)), job,
                        RemountedAt(cfg, job, i, a.pv.value), a);
  }

  /** A record of a container that was replaced is mounted for the new one without a check. */
  lemma ReplacedRemounts(cfg: Config, w: World, job: Job, i: nat, a: Answers)
    requires Remounts(cfg, w, job, i, a) && job.snapshot.containerID != ""
    ensures RunReconcile(cfg, w, job, ReconcileGet, a) == NodeRemount(cfg, w, job, i, a.pv.value, a)
  {
    PlannedMeans(cfg, w, job, i, a.pv);
    MovesRuns(cfg, w, job, i, a);
    NodeRemountRuns(cfg, w, job, i, a);
  }

  /** When the node and the store do their part: one node Mount, of that plan, and a record of the new container. */
  lemma ReplacedSettles(cfg: Config, w: World, job: Job, i: nat, a: Answers)
    requires Remounts(cfg, w, job, i, a) && job.snapshot.containerID != "" && a.node && a.record.Done?
    ensures var (w', at) := RunReconcile(cfg, w, job, ReconcileGet, a);
            var k, r := KeyOf(job.snapshot), RemountedAt(cfg, job, i, a.pv.value);
            && at.verdict.Settled?
            && w'.mem == w.mem[k := r]
            && w'.disk == w.disk[k := StateFile(2, job.snapshot.request, IDAt(job, i), r.rootAuthorized, r.fingerprint)]
            && w'.history == w.history + [NodeMount(PlanAt(job, i, a.pv.value), cfg.rootKey, true), Stored(k)]
  {
    ReplacedRemounts(cfg, w, job, i, a);
    var e := NodeMount(PlanAt(job, i, a.pv.value), cfg.rootKey, true);
    assert (w.history + [e]) + [Stored(KeyOf(job.snapshot))] == w.history + [e, Stored(KeyOf(job.snapshot))];
  }

  /** A pending record is mounted unless the node says it is mounted already; then it is only written down. */
  lemma PendingReconciles(cfg: Config, w: World, job: Job, i: nat, a: Answers)
    requires Remounts(cfg, w, job, i, a) && job.snapshot.containerID == ""
    ensures RunReconcile(cfg, w, job, ReconcileGet, a) ==
            match a.check
            case CheckFailed => (w, ReconcileExit(Failed))
            case No => NodeRemount(cfg, w, job, i, a.pv.value, a)
            case Yes =>
              (Put(Log(w, Observed(KeyOf(job.snapshot), IDAt(job, i))), RemountedAt(cfg, job, i, a.pv.value), a.record),
               ReconcileExit(if a.record.Done? then Settled else Failed, true))
  {
    var isRoot := SelectsRoot(job.snapshot.request, a.pv.value);
    var current := Remounted(cfg, job.snapshot, isRoot, "");
    var plan := PlanAt(job, i, a.pv.value);
    PlannedMeans(cfg, w, job, i, a.pv);
    MovesRuns(cfg, w, job, i, a);
    CheckedReconcile(cfg, w, job, plan, current, a);
    NodeRemountRuns(cfg, w, job, i, a);
    LastReconcileRecord(cfg, Log(w, Observed(KeyOf(job.snapshot), plan.containerID)), job,
                        RemountedAt(cfg, job, i, a.pv.value), a);
  }

  // ----- mount -----

  /** The record found is of the call's request, and says the same of the root. */
  predicate Agrees(r: DesiredMount, call: MountCall) {
    r.request == call.request && r.rootAuthorized == (call.plan.pv.subDir == "" && call.plan.sourceSubPath == "")
  }

  /** A mount is refused if and only if another request or another root selection holds its key; nothing happens. */
  lemma MountRefusedExactly(cfg: Config, w: World, call: MountCall, a: Answers)
    ensures var (w', at), k := RunMount(cfg, w, call, MountGet, a), RequestKey(call.request);
            && (at.outcome.MountRefused? <==> k in w.mem && !Agrees(w.mem[k], call))
            && (at.outcome.MountRefused? ==> w' == w)
  {
    var k := RequestKey(call.request);
    var entry := Lookup(w.mem, k);
    BegunMount(cfg, w, call, a);
    if k !in w.mem || Agrees(w.mem[k], call) {
      NotRefused(cfg, w, call, MountAfterRefresh(call, entry, entry), a);
      if entry.Some? {
        var refreshed := entry.value.(fingerprint := call.fingerprint);
        NotRefused(cfg, Put(w, refreshed, a.refresh), call, MountAfterRefresh(call, entry, Some(refreshed)), a);
      }
    }
  }

  lemma {:induction false} NotRefused(cfg: Config, w: World, call: MountCall, at: MountPoint, a: Answers)
    requires !at.MountGet? && (at.MountExit? ==> !at.outcome.MountRefused?)
    ensures !RunMount(cfg, w, call, at, a).1.outcome.MountRefused?
    decreases MountLeft(at)
  {
    if !at.MountExit? {
      MountStepShrinks(cfg, w, call, at, a);
      var (w1, at1) := MountStep(cfg, w, call, at, a);
      NotRefused(cfg, w1, call, at1, a);
    }
  }

  /** The same point, had the section found another record. */
  function Entered(at: MountPoint, entry: Option<DesiredMount>): MountPoint {
    match at
    case MountGet => MountGet
    case MountRefresh(_, refreshed) => MountRefresh(entry, refreshed)
    case MountCheck(_, found) => MountCheck(entry, found)
    case MountAdopt(_, adopted) => MountAdopt(entry, adopted)
    case MountPend(_, prev) => MountPend(entry, prev)
    case MountNode(_, prev) => MountNode(entry, prev)
    case MountRestore(_, prev) => MountRestore(entry, prev)
    case MountRecord(_) => MountRecord(entry)
    case MountExit(_, outcome) => MountExit(entry, outcome)
  }

  /** What a section has found under the lock decides nothing after it has been read. */
  lemma {:induction false} EntryDecidesNothing(cfg: Config, w: World, call: MountCall, at: MountPoint,
                                               entry: Option<DesiredMount>, a: Answers)
    requires !at.MountGet?
    ensures var (w1, at1) := RunMount(cfg, w, call, at, a);
            var (w2, at2) := RunMount(cfg, w, call, Entered(at, entry), a);
            w1 == w2 && at1.outcome == at2.outcome
    decreases MountLeft(at)
  {
    if !at.MountExit? {
      MountStepShrinks(cfg, w, call, at, a);
      EntryStep(cfg, w, call, at, entry, a);
      var (w1, at1) := MountStep(cfg, w, call, at, a);
      EntryDecidesNothing(cfg, w1, call, at1, entry, a);
    }
  }

  lemma EntryStep(cfg: Config, w: World, call: MountCall, at: MountPoint, entry: Option<DesiredMount>, a: Answers)
    requires !at.MountGet? && !at.MountExit?
    ensures var (w1, at1) := MountStep(cfg, w, call, at, a);
            !at1.MountGet? && MountStep(cfg, w, call, Entered(at, entry), a) == (w1, Entered(at1, entry))
  {
  }

  /** A key that was rotated is written to the record first; then the call goes on as if it had been there. */
  lemma MountRefreshes(cfg: Config, w: World, call: MountCall, a: Answers)
    requires var k := RequestKey(call.request);
             k in w.mem && Agrees(w.mem[k], call) && w.mem[k].fingerprint != call.fingerprint
    ensures var (w', at), k := RunMount(cfg, w, call, MountGet, a), RequestKey(call.request);
            var w1 := Put(w, w.mem[k].(fingerprint := call.fingerprint), a.refresh);
            if a.refresh.Done? then
              var (w2, at2) := RunMount(cfg, w1, call, MountGet, a); w' == w2 && at.outcome == at2.outcome
            else w' == w1 && at.outcome.MountStoreFailed?
  {
    var k := RequestKey(call.request);
    var entry := w.mem[k];
    var refreshed := entry.(fingerprint := call.fingerprint);
    var w1 := Put(w, refreshed, a.refresh);
    BegunMount(cfg, w, call, a);
    if a.refresh.Done? {
      BegunMount(cfg, w1, call, a);
      var at := MountAfterRefresh(call, Some(entry), Some(refreshed));
      EntryDecidesNothing(cfg, w1, call, at, Some(refreshed), a);
    }
  }

  /** A record of this very call, for its container or for none yet. */
  predicate Meets(w: World, call: MountCall) {
    var k := RequestKey(call.request);
    && k in w.mem && Agrees(w.mem[k], call) && w.mem[k].fingerprint == call.fingerprint
    && (w.mem[k].containerID == "" || w.mem[k].containerID == call.plan.containerID)
  }

  /** No record, or one of this very call for a container that is gone. */
  predicate MissesContainer(w: World, call: MountCall) {
    var k := RequestKey(call.request);
    k in w.mem ==>
      && Agrees(w.mem[k], call) && w.mem[k].fingerprint == call.fingerprint
      && w.mem[k].containerID != "" && w.mem[k].containerID != call.plan.containerID
  }

  /** The record a mount writes, for a container or before it has one. */
  function RecordFor(call: MountCall, containerID: string): DesiredMount {
    DesiredMount(
      request := call.request,
      containerID := containerID,
      legacyRootUnknown := false,
      rootAuthorized := call.plan.pv.subDir == "" && call.plan.sourceSubPath == "",
      fingerprint := call.fingerprint)
  }

  /** Mounting anew: a pending record, the node, and the record or the rollback after it. */
  ghost function MountedAnew(cfg: Config, w: World, call: MountCall, a: Answers): (World, MountOutcome) {
    var k := RequestKey(call.request);
    var w1 := Put(w, RecordFor(call, ""), a.pend);
    var w2 := Log(w1, NodeMount(call.plan, cfg.rootKey, a.node));
    if !a.pend.Done? then (w1, MountStoreFailed)
    else if a.node then (Put(w2, RecordFor(call, call.plan.containerID), a.record), Mounted)
    else if k in w.mem then
      (Put(w2, w.mem[k], a.restore), if a.restore.Done? then MountRolledBack else MountRestoreFailed)
    else (Delete(w2, k, a.restore), if a.restore.Done? then MountRolledBack else MountRestoreFailed)
  }

  lemma AnewRuns(cfg: Config, w: World, call: MountCall, entry: Option<DesiredMount>, a: Answers)
    ensures var k := RequestKey(call.request);
            var (w', at) := RunMount(cfg, w, call, MountPend(entry, Lookup(w.mem, k)), a);
            (w', at.outcome) == MountedAnew(cfg, w, call, a)
  {
    var prev := Lookup(w.mem, RequestKey(call.request));
    var w1 := Put(w, Pending(call), a.pend);
    var w2 := Log(w1, NodeMount(call.plan, cfg.rootKey, a.node));
    assert Pending(call) == RecordFor(call, "");
    PendedMount(cfg, w, call, entry, prev, a);
    CalledMount(cfg, w1, call, entry, prev, a);
    LastMountRestore(cfg, w2, call, entry, prev, a);
    LastMountRecord(cfg, w2, call, entry, a);
  }

  /** Without a record to meet, a mount mounts anew. */
  lemma MountsAnew(cfg: Config, w: World, call: MountCall, a: Answers)
    requires MissesContainer(w, call)
    ensures var (w', at) := RunMount(cfg, w, call, MountGet, a); (w', at.outcome) == MountedAnew(cfg, w, call, a)
  {
    var entry := Lookup(w.mem, RequestKey(call.request));
    BegunMount(cfg, w, call, a);
    assert MountAfterRefresh(call, entry, entry) == MountPend(entry, entry);
    AnewRuns(cfg, w, call, entry, a);
  }

  /** When store and node do their part: written, mounted and written again, in that order, and nothing else. */
  lemma MountSucceeds(cfg: Config, w: World, call: MountCall, a: Answers)
    requires MissesContainer(w, call) && a.pend.Done? && a.node && a.record.Done?
    ensures var (w', at), k := RunMount(cfg, w, call, MountGet, a), RequestKey(call.request);
            && at.outcome.Mounted?
            && w'.mem == w.mem[k := RecordFor(call, call.plan.containerID)]
            && k in w'.disk && Load(w'.disk[k]) == w'.mem[k]
            && w'.history == w.history + [Stored(k), NodeMount(call.plan, cfg.rootKey, true), Stored(k)]
  {
    MountsAnew(cfg, w, call, a);
  }

  /**
    With a record to meet the node is asked first. A target that is mounted is
    left as it is, and a pending record then gets the container's name.
  */
  lemma MountMeets(cfg: Config, w: World, call: MountCall, a: Answers)
    requires Meets(w, call)
    ensures var (w', at), k := RunMount(cfg, w, call, MountGet, a), RequestKey(call.request);
            var id := call.plan.containerID;
            (w', at.outcome) ==
            match a.check
            case CheckFailed => (w, CheckError)
            case No => MountedAnew(cfg, w, call, a)
            case Yes =>
              if w.mem[k].containerID == id then (w, AlreadyMounted)
              else (Put(Log(w, Observed(k, id)), w.mem[k].(containerID := id), a.adopt),
                    if a.adopt.Done? then AlreadyMounted else MountStoreFailed)
  {
    var k := RequestKey(call.request);
    var entry := Some(w.mem[k]);
    BegunMount(cfg, w, call, a);
    assert MountAfterRefresh(call, entry, entry) == MountCheck(entry, w.mem[k]);
    CheckedMount(cfg, w, call, entry, w.mem[k], a);
    AnewRuns(cfg, w, call, entry, a);
  }

  // ----- unmount -----

  /** An unmount with no record of its key has nothing to do; one whose record is of another PV is refused. */
  lemma UnmountWithout(w: World, target: UnmountCall, a: Answers)
    requires target.key !in w.mem || w.mem[target.key].request.pvName != target.pvName
    ensures var (w', at) := RunUnmount(w, target, UnmountGet, a);
            w' == w && at.outcome == if target.key in w.mem then UnmountRefused else UnmountDone
  {
    BegunUnmount(w, target, a);
  }

  /** A pending record, or one of another container, is deleted without asking the node. */
  lemma UnmountForgets(w: World, target: UnmountCall, a: Answers)
    requires var k := target.key;
             k in w.mem && w.mem[k].request.pvName == target.pvName
               && (w.mem[k].containerID == "" || w.mem[k].containerID != target.containerID)
    ensures var (w', at), k := RunUnmount(w, target, UnmountGet, a), target.key;
            && at.outcome == (if a.delete.Done? then UnmountDone else UnmountRefused)
            && w'.mem == (if a.delete.Done? then w.mem - {k} else w.mem)
            && w'.disk == (if a.delete.Refused? then w.disk else w.disk - {k})
            && forall i :: |w.history| <= i < |w'.history| ==>
                 w'.history[i] == Removed(k) || w'.history[i] == TornDelete(k)
  {
    BegunUnmount(w, target, a);
  }

  /** The record of the very container is deleted first; what the node then fails to do puts it back. */
  lemma UnmountWithdraws(w: World, target: UnmountCall, a: Answers)
    requires var k := target.key;
             k in w.mem && w.mem[k].request.pvName == target.pvName && w.mem[k].containerID == target.containerID != ""
    ensures var (w', at), k := RunUnmount(w, target, UnmountGet, a), target.key;
            var w1 := World(w.mem - {k}, w.disk - {k}, w.history + [Removed(k)]);
            var w2 := if a.check.Yes? then Log(w1, NodeUnmount(k, target.containerID, a.node)) else w1;
            if !a.delete.Done? then
              && at.outcome.UnmountRefused? && w'.mem == w.mem
              && w'.disk == if a.delete.Refused? then w.disk else w.disk - {k}
            else if a.check.CheckFailed? || (a.check.Yes? && !a.node) then
              w' == Put(w2, w.mem[k], a.restore)
                && at.outcome == if a.restore.Done? then UnmountRolledBack else UnmountRestoreFailed
            else w' == w2 && at.outcome.UnmountDone?
  {
    var k := target.key;
    var held := w.mem[k];
    var w1 := Delete(w, k, a.delete);
    BegunUnmount(w, target, a);
    CheckedUnmountRun(w1, target, held, a);
    LastUnmountRestore(w1, target, held, a);
    LastUnmountRestore(Log(w1, NodeUnmount(k, target.containerID, a.node)), target, held, a);
  }
}
