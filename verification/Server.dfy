/**
  The server's operations as the source writes them (internal/wrapper/server.go,
  internal/wrapper/reconciler.go): statements over the store object and calls to
  the node, one call at a time. Each critical section is proved to be the
  uninterrupted run of the protocol's own section, so what is proved of sections
  holds of these methods; the protocol covers their interleavings.
*/
module WrapperServer {
  import opened Results
  import opened MountRecords
  import opened Authorization
  import opened Sections
  import opened Histories
  import opened SectionInvariants
  import opened SectionRuns
  import opened RecordOrder
  import opened StateStore
  import opened RetryQueues
  import opened Passes
  import opened RetryChains
  import Guarantees
  import Kube
  import NfsPaths
  import Protocol
  import ProtocolInvariants

  /** A reconcile that reads on goes on with the record it was given. */
  lemma ReadGivesRecord(cfg: Config, w: World, job: Job)
    requires WorldOk(w)
    ensures var at := ReconcileRead(cfg, w, job);
            at.ReconcilePlan? ==>
              at.current == job.snapshot && KeyOf(job.snapshot) in w.mem && job.snapshot.request.containerName != ""
  {
    if ReconcileRead(cfg, w, job).ReconcilePlan? {
      ReconcileReadKeeps(cfg, w, job);
      assert KeyOk(w, KeyOf(job.snapshot));
    }
  }

  lemma ReclassifyKeeps(cfg: Config, record: DesiredMount, isRoot: bool)
    requires Reclassify(cfg, record, isRoot).Ok?
    ensures var current := Reclassify(cfg, record, isRoot).value;
            current.request == record.request && current.containerID == record.containerID
  {
  }

  class Server {
    const cfg: Config
    const store: FileMountStateStore
    const queue: RetryQueue
    ghost var history: History

    ghost predicate Valid()
      reads this`history, store
    {
      store.Valid() && WorldOk(Now())
    }

    ghost function Now(): World
      requires DirectoryOk(store.hash, store.dir)
      reads this`history, store
    {
      World(store.mounts, store.Files(), history)
    }

    constructor (cfg: Config, store: FileMountStateStore, ghost history: History)
      requires store.Valid() && WorldOk(World(store.mounts, store.Files(), history))
      ensures Valid() && this.cfg == cfg && this.store == store && this.history == history
      ensures fresh(queue) && queue.Valid({}) && queue.tokens == []
    {
      this.cfg := cfg;
      this.store := store;
      this.queue := new RetryQueue();
      this.history := history;
    }

    method Put(mount: DesiredMount, answer: StoreAnswer) returns (ok: bool)
      requires store.Valid() && KeyOf(mount) in store.known
      modifies this`history, store
      ensures store.Valid() && Now() == Sections.Put(old(Now()), mount, answer) && ok == answer.Done?
    {
      ok := store.Put(mount, answer);
      history := Sections.Put(World(map[], map[], history), mount, answer).history;
    }

    method Delete(key: Key, answer: StoreAnswer) returns (ok: bool)
      requires store.Valid()
      modifies this`history, store
      ensures store.Valid() && Now() == Sections.Delete(old(Now()), key, answer)
              && ok == DeleteOk(old(Now()), key, answer)
    {
      ghost var before := Now();
      ok := store.Delete(key, answer);
      history := Sections.Delete(before, key, answer).history;
    }

    ghost method Record(e: Event)
      requires store.Valid()
      modifies this`history
      ensures Now() == Log(old(Now()), e)
    {
      history := history + [e];
    }

    // ----- mount -----

    /** The critical section of mount. */
    method MountSection(call: MountCall, a: Answers) returns (outcome: MountOutcome)
      requires store.Valid() && RequestKey(call.request) in store.known
      modifies this`history, store
      ensures store.Valid()
      ensures var (w, at) := RunMount(cfg, old(Now()), call, MountGet, a); Now() == w && outcome == at.outcome
    {
      BegunMount(cfg, Now(), call, a);
      var entry := store.Get(RequestKey(call.request));
      var previous := entry;
      var desired := Pending(call);
      if previous.Some? && previous.value.request != desired.request {
        return MountRefused;
      }
      if previous.Some? && previous.value.rootAuthorized != desired.rootAuthorized {
        return MountRefused;
      }
      if previous.Some? && previous.value.fingerprint != desired.fingerprint {
        previous := Some(previous.value.(fingerprint := desired.fingerprint));
        var ok := Put(previous.value, a.refresh);
        if !ok {
          return MountStoreFailed;
        }
      }
      outcome := MountOver(call, entry, previous, a);
    }

    /** The section once an earlier record, if there is one, agrees with the call: a live mount is kept or adopted. */
    method MountOver(call: MountCall, ghost entry: Option<DesiredMount>, found: Option<DesiredMount>, a: Answers)
      returns (outcome: MountOutcome)
      requires store.Valid() && RequestKey(call.request) in store.known
      requires found.Some? ==> KeyOf(found.value) == RequestKey(call.request)
      modifies this`history, store
      ensures store.Valid()
      ensures var (w, at) := RunMount(cfg, old(Now()), call, MountAfterRefresh(call, entry, found), a);
              Now() == w && outcome == at.outcome
    {
      var key, previous, desired := RequestKey(call.request), found, Pending(call);
      if && previous.Some?
         && SameMountIntent(previous.value, desired)
         && (previous.value.containerID == "" || previous.value.containerID == call.plan.containerID)
      {
        CheckedMount(cfg, Now(), call, entry, previous.value, a);
        var mounted := a.check;
        if mounted.CheckFailed? {
          return CheckError;
        }
        if mounted.Yes? {
          if previous.value.containerID != call.plan.containerID {
            Record(Observed(key, call.plan.containerID));
            previous := Some(previous.value.(containerID := call.plan.containerID));
            var ok := Put(previous.value, a.adopt);
            return if ok then AlreadyMounted else MountStoreFailed;
          }
          return AlreadyMounted;
        }
      }
      outcome := MountAnew(call, entry, previous, a);
    }

    /** The rest of the section, from the pending record on. */
    method MountAnew(call: MountCall, ghost entry: Option<DesiredMount>, previous: Option<DesiredMount>, a: Answers)
      returns (outcome: MountOutcome)
      requires store.Valid() && RequestKey(call.request) in store.known
      requires previous.Some? ==> KeyOf(previous.value) == RequestKey(call.request)
      modifies this`history, store
      ensures store.Valid()
      ensures var (w, at) := RunMount(cfg, old(Now()), call, MountPend(entry, previous), a);
              Now() == w && outcome == at.outcome
    {
      PendedMount(cfg, Now(), call, entry, previous, a);
      var ok := Put(Pending(call), a.pend);
      if !ok {
        return MountStoreFailed;
      }
      outcome := MountOnNode(call, entry, previous, a);
    }

    /** The node call of a mount, and the record or the rollback after it. */
    method MountOnNode(call: MountCall, ghost entry: Option<DesiredMount>, previous: Option<DesiredMount>, a: Answers)
      returns (outcome: MountOutcome)
      requires store.Valid() && RequestKey(call.request) in store.known
      requires previous.Some? ==> KeyOf(previous.value) == RequestKey(call.request)
      modifies this`history, store
      ensures store.Valid()
      ensures var (w, at) := RunMount(cfg, old(Now()), call, MountNode(entry, previous), a);
              Now() == w && outcome == at.outcome
    {
      CalledMount(cfg, Now(), call, entry, previous, a);
      Record(NodeMount(call.plan, cfg.rootKey, a.node));
      if !a.node {
        LastMountRestore(cfg, Now(), call, entry, previous, a);
        var restored := RestoreDesiredMount(RequestKey(call.request), previous, a.restore);
        return if restored then MountRolledBack else MountRestoreFailed;
      }
      LastMountRecord(cfg, Now(), call, entry, a);
      var desired := Pending(call);
      desired := desired.(containerID := call.plan.containerID);
      var _ := Put(desired, a.record);
      return Mounted;
    }

    method RestoreDesiredMount(key: Key, previous: Option<DesiredMount>, answer: StoreAnswer) returns (ok: bool)
      requires store.Valid() && (previous.Some? ==> KeyOf(previous.value) in store.known)
      modifies this`history, store
      ensures store.Valid()
      ensures previous.Some? ==> Now() == Sections.Put(old(Now()), previous.value, answer) && ok == answer.Done?
      ensures previous.None? ==>
              Now() == Sections.Delete(old(Now()), key, answer) && ok == DeleteOk(old(Now()), key, answer)
    {
      if previous.Some? {
        ok := Put(previous.value, answer);
      } else {
        ok := Delete(key, answer);
      }
    }

    /** The world in which an authorized mount call takes the target lock. */
    ghost function Entered(w: World, call: MountCall, providedKey: string): World {
      var k := RequestKey(call.request);
      Log(Log(w, KeyPresented(k, Protocol.ShownKey(cfg, providedKey))), MountEntered(k))
    }

    /**
      A whole mount call. Nothing changes for a call that is not authorized;
      otherwise only the request's key is touched, a refused or rolled-back call
      leaves its record as it was (but for the fingerprint it was authorized
      with), and a successful one leaves a record of the request.
    */
    method Mount(raw: MountRequest, providedKey: string, pod: Kube.Pod, pv: Kube.PersistentVolume, a: Answers)
      returns (r: Result<MountOutcome>)
      requires Valid() && Kube.ContainersNamed(pod)
      requires var call := PrepareMount(cfg, raw, providedKey, pod, pv);
               call.Ok? ==> RequestKey(call.value.request) in store.known
      modifies this`history, store
      ensures Valid()
      ensures r.Ok? <==> PrepareMount(cfg, raw, providedKey, pod, pv).Ok?
      ensures r.Err? ==> Now() == old(Now())
      ensures r.Ok? ==>
                var call := PrepareMount(cfg, raw, providedKey, pod, pv).value;
                var (w, at) := RunMount(cfg, Entered(old(Now()), call, providedKey), call, MountGet, a);
                Now() == w && r.value == at.outcome
      ensures r.Ok? ==>
                var call := PrepareMount(cfg, raw, providedKey, pod, pv).value;
                var k := RequestKey(call.request);
                && SameElsewhere(old(Now()), Now(), k)
                && (r.value.MountRefused? ==> Lookup(store.mounts, k) == old(Lookup(store.mounts, k)))
                && (r.value.MountRolledBack? ==>
                      if old(k !in store.mounts) then k !in store.mounts
                      else Lookup(store.mounts, k) == Some(old(store.mounts[k]).(fingerprint := call.fingerprint)))
                && (r.value.Mounted? || r.value.AlreadyMounted? ==>
                    k in store.mounts && store.mounts[k].request == call.request)
    {
      var prepared := PrepareMount(cfg, raw, providedKey, pod, pv);
      if prepared.Err? {
        return Err;
      }
      var call := prepared.value;
      ghost var start := Now();
      PreparedCall(cfg, raw, providedKey, pod, pv);
      EnteredKnows(start, call, providedKey);
      var outcome := MountAuthorized(call, providedKey, a);
      MountMeans(start, call, providedKey, a);
      return Ok(outcome);
    }

    method MountAuthorized(call: MountCall, ghost providedKey: string, a: Answers) returns (outcome: MountOutcome)
      requires store.Valid() && RequestKey(call.request) in store.known
      modifies this`history, store
      ensures store.Valid()
      ensures var (w, at) := RunMount(cfg, Entered(old(Now()), call, providedKey), call, MountGet, a);
              Now() == w && outcome == at.outcome
    {
      ghost var k := RequestKey(call.request);
      Record(KeyPresented(k, Protocol.ShownKey(cfg, providedKey)));
      Record(MountEntered(k));
      outcome := MountSection(call, a);
    }

    /** A prepared call enters its section knowing what the section relies on. */
    lemma EnteredKnows(start: World, call: MountCall, providedKey: string)
      requires WorldOk(start) && Canonical(call.request)
      requires PlanKey(call.plan) == RequestKey(call.request) && call.plan.containerID != ""
      requires var rooted := NfsPaths.IsNFSExportRoot(call.plan) && cfg.rootKey.Some?;
               && call.fingerprint == (if rooted then cfg.rootKey.value else "")
               && (rooted ==> Protocol.ShownKey(cfg, providedKey) == cfg.rootKey.value)
      ensures var entered := Entered(start, call, providedKey);
              WorldOk(entered) && MountKnows(cfg, entered, call, MountGet)
    {
      var k := RequestKey(call.request);
      var shown := Log(start, KeyPresented(k, Protocol.ShownKey(cfg, providedKey)));
      ProtocolInvariants.OuterKeeps(start, KeyPresented(k, Protocol.ShownKey(cfg, providedKey)));
      assert CallOk(cfg, shown.history, call) by {
        assert shown.history[|shown.history| - 1] == KeyPresented(k, Protocol.ShownKey(cfg, providedKey));
      }
      ProtocolInvariants.EntryBecomesKnown(cfg, shown, Log(shown, MountEntered(k)), Mounting(call, MountGet));
    }

    /** What the section's outcome says about the record. */
    lemma MountMeans(start: World, call: MountCall, providedKey: string, a: Answers)
      requires var entered := Entered(start, call, providedKey);
               WorldOk(entered) && MountKnows(cfg, entered, call, MountGet)
      ensures var (w, at) := RunMount(cfg, Entered(start, call, providedKey), call, MountGet, a);
              var k := RequestKey(call.request);
              && WorldOk(w) && SameElsewhere(start, w, k)
              && (at.outcome.MountRefused? ==> Lookup(w.mem, k) == Lookup(start.mem, k))
              && (at.outcome.MountRolledBack? ==>
                    if k !in start.mem then k !in w.mem
                    else Lookup(w.mem, k) == Some(start.mem[k].(fingerprint := call.fingerprint)))
              && (at.outcome.Mounted? || at.outcome.AlreadyMounted? ==> k in w.mem && w.mem[k].request == call.request)
    {
      RunMountKeeps(cfg, Entered(start, call, providedKey), call, MountGet, a);
      MountRollback(cfg, Entered(start, call, providedKey), call, a);
    }

    // ----- unmount -----

    /** The critical section of unmount. */
    method UnmountSection(target: UnmountCall, a: Answers) returns (outcome: UnmountOutcome)
      requires store.Valid()
      modifies this`history, store
      ensures store.Valid()
      ensures var (w, at) := RunUnmount(old(Now()), target, UnmountGet, a); Now() == w && outcome == at.outcome
    {
      BegunUnmount(Now(), target, a);
      var previous := store.Get(target.key);
      if previous.None? {
        return UnmountDone;
      }
      if previous.value.request.pvName != target.pvName {
        return UnmountRefused;
      }
      assert KeyOf(previous.value) == target.key;
      if previous.value.containerID == "" || previous.value.containerID != target.containerID {
        var removed := Delete(target.key, a.delete);
        return if removed then UnmountDone else UnmountRefused;
      }
      var ok := Delete(target.key, a.delete);
      if !ok {
        return UnmountRefused;
      }
      outcome := UnmountOnNode(target, previous.value, a);
    }

    /** What unmount does on the node, its record already gone; a failure puts the record back. */
    method UnmountOnNode(target: UnmountCall, held: DesiredMount, a: Answers) returns (outcome: UnmountOutcome)
      requires store.Valid() && KeyOf(held) == target.key && target.key in store.known
      modifies this`history, store
      ensures store.Valid()
      ensures var (w, at) := RunUnmount(old(Now()), target, UnmountCheck(held), a); Now() == w && outcome == at.outcome
    {
      CheckedUnmountRun(Now(), target, held, a);
      if a.check.CheckFailed? {
        outcome := UnmountRestoring(target, held, a);
        return;
      }
      if a.check.Yes? {
        Record(NodeUnmount(target.key, target.containerID, a.node));
        if !a.node {
          outcome := UnmountRestoring(target, held, a);
          return;
        }
      }
      return UnmountDone;
    }

    method UnmountRestoring(target: UnmountCall, held: DesiredMount, a: Answers) returns (outcome: UnmountOutcome)
      requires store.Valid() && KeyOf(held) == target.key && target.key in store.known
      modifies this`history, store
      ensures store.Valid()
      ensures var (w, at) := RunUnmount(old(Now()), target, UnmountRestore(held), a);
              Now() == w && outcome == at.outcome
    {
      LastUnmountRestore(Now(), target, held, a);
      var restored := RestoreDesiredMount(target.key, Some(held), a.restore);
      outcome := if restored then UnmountRolledBack else UnmountRestoreFailed;
    }

    /** A whole unmount call: success leaves no record of the key, refusal and rollback leave it exactly. */
    method Unmount(raw: MountRequest, pod: Kube.Pod, a: Answers) returns (r: Result<UnmountOutcome>)
      requires Valid()
      modifies this`history, store
      ensures Valid()
      ensures r.Ok? <==> PrepareUnmount(cfg, raw, pod).Ok?
      ensures r.Err? ==> Now() == old(Now())
      ensures r.Ok? ==>
                var target := PrepareUnmount(cfg, raw, pod).value;
                var (w, at) := RunUnmount(old(Now()), target, UnmountGet, a);
                r.value == at.outcome && Now() == if r.value.UnmountDone? then Log(w, Unmounted(target.key)) else w
      ensures r.Ok? ==>
                var k := PrepareUnmount(cfg, raw, pod).value.key;
                && SameElsewhere(old(Now()), Now(), k)
                && (r.value.UnmountDone? ==> k !in store.mounts)
                && (r.value.UnmountRefused? || r.value.UnmountRolledBack? ==>
                      Lookup(store.mounts, k) == old(Lookup(store.mounts, k)))
    {
      var prepared := PrepareUnmount(cfg, raw, pod);
      if prepared.Err? {
        return Err;
      }
      ghost var start := Now();
      var outcome := UnmountSection(prepared.value, a);
      RunUnmountKeeps(start, prepared.value, UnmountGet, a);
      UnmountRollback(start, prepared.value, a);
      if outcome.UnmountDone? {
        ghost var done := Now();
        Record(Unmounted(prepared.value.key));
        ProtocolInvariants.OuterKeeps(done, Unmounted(prepared.value.key));
      }
      return Ok(outcome);
    }

    // ----- reconcile -----

    /** The critical section of reconcileMountForPod: read, plan, act. */
    method ReconcileMountForPod(snapshot: DesiredMount, pod: Kube.Pod, a: Answers) returns (verdict: Verdict)
      requires Valid()
      modifies this`history, store
      ensures store.Valid()
      ensures var (w, at) := RunReconcile(cfg, old(Now()), Job(snapshot, pod), ReconcileGet, a);
              Now() == w && verdict == at.verdict
    {
      ghost var job, start := Job(snapshot, pod), Now();
      ReadGivesRecord(cfg, start, job);
      ReadReconcile(cfg, start, job, a);
      var found := store.Get(KeyOf(snapshot));
      if found != Some(snapshot) {
        assert ReconcileRead(cfg, start, job) == ReconcileExit(Settled);
        return Settled;
      }
      var judged := JudgeRecord(snapshot, pod);
      assert judged == ReconcileRead(cfg, start, job);
      if judged.ReconcileExit? {
        return judged.verdict;
      }
      verdict := ReconcileChanged(snapshot, pod, judged.current, a);
    }

    /** What a record that is still current says about itself: nothing to do, an error, or a container to move to. */
    method JudgeRecord(snapshot: DesiredMount, pod: Kube.Pod) returns (at: ReconcilePoint)
      ensures forall w: World :: Lookup(w.mem, KeyOf(snapshot)) == Some(snapshot) ==>
                at == ReconcileRead(cfg, w, Job(snapshot, pod))
      ensures at.ReconcileExit? || at.ReconcilePlan?
    {
      var current := snapshot;
      var normalized := NormalizeMountRequest(cfg, current.request, true);
      if normalized.Err? {
        return ReconcileExit(Failed);
      }
      var request := normalized.value;
      if !PodIdentity(pod, request) || !PodOnNode(pod, cfg.nodeName) {
        return ReconcileExit(Stale);
      }
      var status := SelectContainerStatus(pod, request.containerName);
      if status.Err? {
        return ReconcileExit(Failed);
      }
      request := request.(containerName := status.value.name);
      current := current.(request := request);
      if current.containerID != "" && current.containerID == status.value.containerID {
        return ReconcileExit(Settled);
      }
      return ReconcilePlan(current);
    }

    /** The rest of the section, once the record's container is known to be another or none. */
    method ReconcileChanged(ghost snapshot: DesiredMount, pod: Kube.Pod, record: DesiredMount, a: Answers)
      returns (verdict: Verdict)
      requires store.Valid() && KeyOf(record) in store.known && KeyOf(record) == KeyOf(snapshot)
      requires record.request.containerName != ""
      modifies this`history, store
      ensures store.Valid()
      ensures var (w, at) := RunReconcile(cfg, old(Now()), Job(snapshot, pod), ReconcilePlan(record), a);
              Now() == w && verdict == at.verdict
    {
      PlannedReconcile(cfg, Now(), Job(snapshot, pod), record, a);
      var next := PlanReconcile(snapshot, pod, record, a.pv);
      if next.ReconcileExit? {
        return next.verdict;
      }
      verdict := ReconcileAct(snapshot, pod, next.plan, next.current, a);
    }

    /** The plan for the container the pod runs now, and the record as it is to be written back. */
    method PlanReconcile(ghost snapshot: DesiredMount, pod: Kube.Pod, record: DesiredMount,
                         pv: Option<Kube.PersistentVolume>)
      returns (next: ReconcilePoint)
      requires record.request.containerName != ""
      ensures next == ReconcilePlanned(cfg, Job(snapshot, pod), record, pv)
      ensures next.ReconcileExit?
              || ((next.ReconcileCheck? || next.ReconcileNode?) && next == Next(next.plan, next.current))
      ensures !next.ReconcileExit? ==> next.current.request == record.request
    {
      if pv.None? {
        return ReconcileExit(Failed);
      }
      var planned := MountPlanForPod(cfg, record.request, pod, pv.value);
      if planned.Err? {
        return ReconcileExit(Failed);
      }
      var plan := planned.value.plan;
      var current := record.(request := planned.value.request);
      var classified := ReclassifyInPlace(current, NfsPaths.IsNFSExportRoot(plan));
      if classified.Err? {
        return ReconcileExit(Unauthorized);
      }
      ReclassifyKeeps(cfg, current, NfsPaths.IsNFSExportRoot(plan));
      current := classified.value;
      return Next(plan, current);
    }

    /** The source's rewriting of a record's flags, one field after the other. */
    method ReclassifyInPlace(record: DesiredMount, isExportRoot: bool) returns (r: Result<DesiredMount>)
      ensures r == Reclassify(cfg, record, isExportRoot)
    {
      var current := record;
      if current.legacyRootUnknown {
        if isExportRoot && cfg.rootKey.Some? {
          return Err;
        }
        current := current.(rootAuthorized := isExportRoot);
        current := current.(fingerprint := "");
        current := current.(legacyRootUnknown := false);
      } else if current.rootAuthorized != isExportRoot {
        return Err;
      }
      if isExportRoot && cfg.rootKey.Some? && !AuthorizesFingerprint(cfg, current.fingerprint) {
        return Err;
      }
      if !isExportRoot || cfg.rootKey.None? {
        current := current.(fingerprint := "");
      }
      return Ok(current);
    }

    /** Where a classified record goes next: to the check if it may already be mounted, else to the node. */
    function Next(plan: NfsPaths.MountPlan, current: DesiredMount): ReconcilePoint {
      if current.containerID == "" || current.containerID == plan.containerID then ReconcileCheck(plan, current)
      else ReconcileNode(plan, current)
    }

    /** A reconcile that may already be mounted: what the node says decides. */
    method ReconcileAct(ghost snapshot: DesiredMount, ghost pod: Kube.Pod, plan: NfsPaths.MountPlan,
                        record: DesiredMount, a: Answers)
      returns (verdict: Verdict)
      requires store.Valid() && KeyOf(record) in store.known && KeyOf(record) == KeyOf(snapshot)
      modifies this`history, store
      ensures store.Valid()
      ensures var (w, at) := RunReconcile(cfg, old(Now()), Job(snapshot, pod), Next(plan, record), a);
              Now() == w && verdict == at.verdict
    {
      ghost var job := Job(snapshot, pod);
      var current := record;
      if current.containerID == "" || current.containerID == plan.containerID {
        CheckedReconcile(cfg, Now(), job, plan, current, a);
        if a.check.CheckFailed? {
          return Failed;
        }
        if a.check.Yes? {
          if current.containerID != plan.containerID {
            Record(Observed(KeyOf(record), plan.containerID));
            current := current.(containerID := plan.containerID);
            verdict := ReconcileStore(snapshot, pod, current, a);
            return;
          }
          return Settled;
        }
      }
      verdict := ReconcileOnNode(snapshot, pod, plan, current, a);
    }

    method ReconcileOnNode(ghost snapshot: DesiredMount, ghost pod: Kube.Pod, plan: NfsPaths.MountPlan,
                           record: DesiredMount, a: Answers)
      returns (verdict: Verdict)
      requires store.Valid() && KeyOf(record) in store.known
      modifies this`history, store
      ensures store.Valid()
      ensures var (w, at) := RunReconcile(cfg, old(Now()), Job(snapshot, pod), ReconcileNode(plan, record), a);
              Now() == w && verdict == at.verdict
    {
      CalledReconcile(cfg, Now(), Job(snapshot, pod), plan, record, a);
      Record(NodeMount(plan, cfg.rootKey, a.node));
      if !a.node {
        return Failed;
      }
      var current := record.(containerID := plan.containerID);
      verdict := ReconcileStore(snapshot, pod, current, a);
    }

    method ReconcileStore(ghost snapshot: DesiredMount, ghost pod: Kube.Pod, current: DesiredMount, a: Answers)
      returns (verdict: Verdict)
      requires store.Valid() && KeyOf(current) in store.known
      modifies this`history, store
      ensures store.Valid()
      ensures var (w, at) := RunReconcile(cfg, old(Now()), Job(snapshot, pod), ReconcileRecord(current), a);
              Now() == w && verdict == at.verdict
    {
      LastReconcileRecord(cfg, Now(), Job(snapshot, pod), current, a);
      var ok := Put(current, a.record);
      verdict := if ok then Settled else Failed;
    }

    /** handleReconcileResult: a record whose verdict is stale is removed if it is still the one that was judged. */
    method HandleReconcileResult(snapshot: DesiredMount, verdict: Verdict, a: Answers)
      requires Valid()
      modifies this`history, store
      ensures Valid()
      ensures Now() == if verdict.Stale? then RunRemove(old(Now()), snapshot, RemoveGet, a).0 else old(Now())
      ensures !verdict.Stale? || Lookup(old(store.mounts), KeyOf(snapshot)) != Some(snapshot) || a.delete.Refused? ==>
                Now() == old(Now())
      ensures verdict.Stale? && Lookup(old(store.mounts), KeyOf(snapshot)) == Some(snapshot) ==>
                && (a.delete.Done? ==> store.mounts == old(store.mounts) - {KeyOf(snapshot)})
                && (a.delete.Torn? ==> store.mounts == old(store.mounts))
                && (!a.delete.Refused? ==> store.Files() == old(store.Files()) - {KeyOf(snapshot)})
    {
      if verdict.Stale? {
        RemoveMeans(Now(), snapshot, a);
        RunRemoveKeeps(Now(), snapshot, a);
        var current := store.Get(KeyOf(snapshot));
        if current == Some(snapshot) {
          var _ := Delete(KeyOf(snapshot), a.delete);
        }
      }
    }

    /** One record of a snapshot pass: judged by its pod, listed or live, and its verdict handled. */
    method ReconcileListed(byKey: map<PodKey, Kube.Pod>, live: PodKey -> PodLookup, desired: DesiredMount, a: Answers,
                           ghost pods: seq<Kube.Pod>)
      returns (verdict: Verdict)
      requires Valid() && forall p :: Lookup(byKey, p) == PodIn(pods, p)
      modifies this`history, store
      ensures store.Valid()
      ensures (Now(), verdict) ==
              HandleRecord(cfg, old(Now()), desired, AnswerFor(cfg, FromPods(pods, live), desired), a)
    {
      ghost var answer := AnswerFor(cfg, FromPods(pods, live), desired);
      JudgeWithin(cfg, Now(), desired, answer, a);
      var podKey := PodKeyOf(desired);
      assert Lookup(byKey, podKey) == PodIn(pods, podKey);
      if podKey !in byKey {
        verdict := ReconcileMissing(live(podKey), desired, a);
      } else {
        verdict := ReconcileMountForPod(desired, byKey[podKey], a);
      }
      HandleReconcileResult(desired, verdict, a);
    }

    /** A record whose pod is not in the snapshot: the API is asked, and a pod that moved away is as good as gone. */
    method ReconcileMissing(lookup: PodLookup, desired: DesiredMount, a: Answers) returns (verdict: Verdict)
      requires Valid()
      modifies this`history, store
      ensures store.Valid()
      ensures (Now(), verdict) == JudgeBy(cfg, old(Now()), desired, LiveAnswer(cfg, lookup), a)
    {
      match lookup
      case NotFound => return Stale;
      case ApiError => return Failed;
      case Live(pod) =>
        if MovedAway(cfg, pod) {
          return Stale;
        }
        verdict := ReconcileMountForPod(desired, pod, a);
    }

    /** One record of an event's pod. */
    method ReconcileEventRecord(pod: Kube.Pod, deleted: bool, desired: DesiredMount, a: Answers)
      returns (verdict: Verdict)
      requires Valid()
      modifies this`history, store
      ensures store.Valid()
      ensures (Now(), verdict) ==
              HandleRecord(cfg, old(Now()), desired, AnswerFor(cfg, FromEvent(pod, deleted), desired), a)
    {
      JudgeWithin(cfg, Now(), desired, AnswerFor(cfg, FromEvent(pod, deleted), desired), a);
      if deleted {
        verdict := Stale;
      } else {
        verdict := ReconcileMountForPod(desired, pod, a);
      }
      HandleReconcileResult(desired, verdict, a);
    }

    // ----- passes -----

    /** Every key whose reconcile may be retried is waiting for it, or the queue is full. */
    ghost predicate Scheduling(verdicts: map<Key, Verdict>)
      reads queue
    {
      forall k :: k in verdicts && verdicts[k].Failed? ==>
        k in queue.retrying || |queue.tokens| == Protocol.RETRY_QUEUE_SIZE
    }

    /** scheduleReconcileRetry, with the scheduling on record. */
    method ScheduleReconcileRetry(key: Key, verdict: Verdict, ghost verdicts: map<Key, Verdict>)
      requires queue.Valid({}) && Counted(history, queue.tokens) && Scheduling(verdicts)
      modifies this`history, queue
      ensures queue.Valid({}) && Counted(history, queue.tokens) && Scheduling(verdicts[key := verdict])
      ensures history == old(history) || history == old(history) + [RetryScheduled(key)]
    {
      if Protocol.Final(verdict) || key in queue.retrying {
        return;
      }
      ScheduleCounts(history, queue.tokens, key);
      history := history + [RetryScheduled(key)];
      queue.Schedule(key, verdict);
    }

    /**
      The snapshot pass, with nothing else running. Every record that was listed
      ends as handling it in the starting world ends it: its verdict, its record
      and file, and all that was written and called at its key. Nothing happens
      at any other key. A retryable error leaves the key waiting for a retry,
      unless the queue is full.
    */
    method ReconcilePodSnapshot(pods: seq<Kube.Pod>, live: PodKey -> PodLookup, answers: Key -> Answers)
      returns (verdicts: map<Key, Verdict>)
      requires Valid() && queue.Valid({}) && Counted(history, queue.tokens)
      modifies this`history, store, queue
      ensures Valid() && queue.Valid({}) && Counted(history, queue.tokens)
      ensures Passed(cfg, old(Now()), Now(), FromPods(pods, live), answers, old(store.mounts), verdicts)
      ensures Scheduling(verdicts)
    {
      ghost var start := Now();
      var byKey := PodsByKey(pods);
      var records := store.List();
      verdicts := SnapshotRecords(pods, byKey, live, records, answers);
      PassedAll(cfg, start, Now(), FromPods(pods, live), answers, start.mem, records, verdicts);
    }

    /** The pass's loop over the records it listed. */
    method SnapshotRecords(ghost pods: seq<Kube.Pod>, byKey: map<PodKey, Kube.Pod>, live: PodKey -> PodLookup,
                           records: seq<DesiredMount>, answers: Key -> Answers)
      returns (verdicts: map<Key, Verdict>)
      requires Valid() && queue.Valid({}) && Counted(history, queue.tokens) && Listing(records, store.mounts)
      requires forall p :: Lookup(byKey, p) == PodIn(pods, p)
      modifies this`history, store, queue
      ensures Valid() && queue.Valid({}) && Counted(history, queue.tokens) && Scheduling(verdicts)
      ensures Passing(cfg, old(Now()), Now(), FromPods(pods, live), answers, old(store.mounts), records, |records|,
                      verdicts)
    {
      ghost var start, now, source := Now(), Now(), FromPods(pods, live);
      verdicts := map[];
      PassStart(cfg, start, source, answers, start.mem, records);
      for i := 0 to |records|
        invariant Valid() && queue.Valid({}) && Counted(history, queue.tokens) && now == Now()
        invariant Passing(cfg, start, now, source, answers, start.mem, records, i, verdicts) && Scheduling(verdicts)
      {
        var key := KeyOf(records[i]);
        var verdict := SnapshotTurn(pods, byKey, live, records[i], answers(key), verdicts);
        PassTurn(cfg, start, now, Now(), source, answers, start.mem, records, i, verdicts, verdict);
        verdicts, now := verdicts[key := verdict], Now();
      }
    }

    method SnapshotTurn(ghost pods: seq<Kube.Pod>, byKey: map<PodKey, Kube.Pod>, live: PodKey -> PodLookup,
                        desired: DesiredMount, a: Answers, ghost verdicts: map<Key, Verdict>)
      returns (verdict: Verdict)
      requires Valid() && queue.Valid({}) && Counted(history, queue.tokens) && Scheduling(verdicts)
      requires forall p :: Lookup(byKey, p) == PodIn(pods, p)
      modifies this`history, store, queue
      ensures Valid() && queue.Valid({}) && Counted(history, queue.tokens)
              && Scheduling(verdicts[KeyOf(desired) := verdict])
      ensures PassStep(cfg, old(Now()), Now(), desired, AnswerFor(cfg, FromPods(pods, live), desired), a, verdict)
    {
      ghost var before := Now();
      verdict := ReconcileListed(byKey, live, desired, a, pods);
      Handling(before, desired, AnswerFor(cfg, FromPods(pods, live), desired), a);
      ScheduleAfter(before, desired, verdict, verdicts);
    }

    /** What handling a record in `before` left is a good world, and the queued tokens still count. */
    lemma Handling(before: World, desired: DesiredMount, answer: Protocol.PodAnswer, a: Answers)
      requires WorldOk(before) && store.Valid() && Now() == HandleRecord(cfg, before, desired, answer, a).0
      requires Counted(before.history, queue.tokens)
      ensures Valid() && Counted(history, queue.tokens)
    {
      HandleWithin(cfg, before, desired, answer, a);
      CountsWithin(before.history, history, KeyOf(desired));
    }

    method ScheduleAfter(ghost before: World, desired: DesiredMount, verdict: Verdict,
                         ghost verdicts: map<Key, Verdict>)
      requires Valid() && queue.Valid({}) && Counted(history, queue.tokens) && Scheduling(verdicts)
      modifies this`history, queue
      ensures Valid() && queue.Valid({}) && Counted(history, queue.tokens)
              && Scheduling(verdicts[KeyOf(desired) := verdict])
      ensures Now() == old(Now()) || Now() == Log(old(Now()), RetryScheduled(KeyOf(desired)))
    {
      ghost var handled := Now();
      ScheduleReconcileRetry(KeyOf(desired), verdict, verdicts);
      ProtocolInvariants.OuterKeeps(handled, RetryScheduled(KeyOf(desired)));
    }

    /**
      One informer event, with nothing else running: the same for the records of
      the event's pod, which are stale if it was deleted, and nothing at any
      other key.
    */
    method ReconcilePodEvent(pod: Kube.Pod, deleted: bool, answers: Key -> Answers)
      returns (verdicts: map<Key, Verdict>)
      requires Valid() && queue.Valid({}) && Counted(history, queue.tokens)
      modifies this`history, store, queue
      ensures Valid() && queue.Valid({}) && Counted(history, queue.tokens)
      ensures var scope := OfPod(old(store.mounts), PodKeyOfPod(pod));
              Passed(cfg, old(Now()), Now(), FromEvent(pod, deleted), answers, scope, verdicts)
      ensures Scheduling(verdicts)
    {
      ghost var start := Now();
      ghost var scope := OfPod(start.mem, PodKeyOfPod(pod));
      var records := store.ListForPod(PodKeyOfPod(pod));
      verdicts := EventRecords(pod, deleted, records, answers, scope);
      PassedAll(cfg, start, Now(), FromEvent(pod, deleted), answers, scope, records, verdicts);
    }

    /** The event's loop over its pod's records. */
    method EventRecords(pod: Kube.Pod, deleted: bool, records: seq<DesiredMount>, answers: Key -> Answers,
                        ghost scope: map<Key, DesiredMount>)
      returns (verdicts: map<Key, Verdict>)
      requires Valid() && queue.Valid({}) && Counted(history, queue.tokens)
      requires Listing(records, scope)
      modifies this`history, store, queue
      ensures Valid() && queue.Valid({}) && Counted(history, queue.tokens) && Scheduling(verdicts)
      ensures Passing(cfg, old(Now()), Now(), FromEvent(pod, deleted), answers, scope, records, |records|, verdicts)
    {
      ghost var start, now, source := Now(), Now(), FromEvent(pod, deleted);
      verdicts := map[];
      PassStart(cfg, start, source, answers, scope, records);
      for i := 0 to |records|
        invariant Valid() && queue.Valid({}) && Counted(history, queue.tokens) && now == Now()
        invariant Passing(cfg, start, now, source, answers, scope, records, i, verdicts) && Scheduling(verdicts)
      {
        var key := KeyOf(records[i]);
        var verdict := EventTurn(pod, deleted, records[i], answers(key), verdicts);
        PassTurn(cfg, start, now, Now(), source, answers, scope, records, i, verdicts, verdict);
        verdicts, now := verdicts[key := verdict], Now();
      }
    }

    method EventTurn(pod: Kube.Pod, deleted: bool, desired: DesiredMount, a: Answers, ghost verdicts: map<Key, Verdict>)
      returns (verdict: Verdict)
      requires Valid() && queue.Valid({}) && Counted(history, queue.tokens) && Scheduling(verdicts)
      modifies this`history, store, queue
      ensures Valid() && queue.Valid({}) && Counted(history, queue.tokens)
              && Scheduling(verdicts[KeyOf(desired) := verdict])
      ensures PassStep(cfg, old(Now()), Now(), desired, AnswerFor(cfg, FromEvent(pod, deleted), desired), a, verdict)
    {
      ghost var before := Now();
      verdict := ReconcileEventRecord(pod, deleted, desired, a);
      Handling(before, desired, AnswerFor(cfg, FromEvent(pod, deleted), desired), a);
      ScheduleAfter(before, desired, verdict, verdicts);
    }

    // ----- retries -----

    method ReconcileMount(desired: DesiredMount, lookup: PodLookup, a: Answers) returns (verdict: Verdict)
      requires Valid()
      modifies this`history, store
      ensures store.Valid()
      ensures (Now(), verdict) == JudgeBy(cfg, old(Now()), desired, RetryAnswer(lookup), a)
      ensures lookup.NotFound? ==> verdict.Stale? && Now() == old(Now())
      ensures lookup.ApiError? ==> verdict.Failed? && Now() == old(Now())
      ensures lookup.Live? ==>
                var (w, at) := RunReconcile(cfg, old(Now()), Job(desired, lookup.pod), ReconcileGet, a);
                Now() == w && verdict == at.verdict
    {
      match lookup
      case NotFound => return Stale;
      case ApiError => return Failed;
      case Live(pod) => verdict := ReconcileMountForPod(desired, pod, a);
    }

    /**
      One worker running until the queue is empty, with nothing else running. For
      every token it found, the key ends as the token's chain of reconciles from
      the starting world ends it, `last` is that chain's last judgement, and the
      reconciles of the key since it was scheduled, the chain's included, are on
      record and at most five. Nothing happens at any other key.
    */
    method ProcessReconcileRetries(lookups: Lookups, answers: Replies) returns (last: map<Key, Judgement>, rounds: nat)
      requires Valid() && queue.Valid({}) && Counted(history, queue.tokens)
      modifies this`history, store, queue
      ensures Valid() && queue.Valid({}) && queue.tokens == [] && queue.retrying == {}
      ensures Worked(cfg, old(Now()), Now(), old(queue.tokens), lookups, answers, last)
      ensures rounds == Reconciles(history) - Reconciles(old(history)) <= Budget(old(queue.tokens))
      ensures forall k :: RetriesSince(history, k) <= MAX_RETRIES
    {
      ghost var start, first := Now(), queue.tokens;
      WorkStart(cfg, start, first, lookups, answers);
      last, rounds := EmptyQueue(lookups, answers);
      WorkDone(cfg, start, Now(), first, lookups, answers, last);
      forall k
        ensures RetriesSince(history, k) <= MAX_RETRIES
      {
        Guarantees.RetriesBounded(history, k);
      }
    }

    /** The worker's loop. */
    method EmptyQueue(lookups: Lookups, answers: Replies) returns (last: map<Key, Judgement>, rounds: nat)
      requires Valid() && queue.Valid({})
      requires Working(cfg, Now(), Now(), queue.tokens, queue.tokens, lookups, answers, map[])
      modifies this`history, store, queue
      ensures Valid() && queue.Valid({}) && queue.tokens == []
      ensures Working(cfg, old(Now()), Now(), old(queue.tokens), [], lookups, answers, last)
      ensures rounds == Reconciles(history) - Reconciles(old(history)) <= Budget(old(queue.tokens))
    {
      ghost var start, now, first := Now(), Now(), queue.tokens;
      last, rounds := map[], 0;
      while queue.tokens != []
        invariant Valid() && queue.Valid({}) && now == Now()
        invariant Working(cfg, start, now, first, queue.tokens, lookups, answers, last)
        invariant rounds == Reconciles(history) - Reconciles(start.history) <= Budget(first) - Budget(queue.tokens)
        decreases Budget(queue.tokens)
      {
        var one;
        last, one := RetryTurn(lookups, answers, last, start, first);
        rounds, now := rounds + one, Now();
      }
    }

    /** One turn of a worker: take a token, work on its record, part with the token. */
    method RetryTurn(lookups: Lookups, answers: Replies, last: map<Key, Judgement>, ghost start: World,
                     ghost first: seq<Protocol.Token>)
      returns (last': map<Key, Judgement>, one: nat)
      requires Valid() && queue.Valid({}) && queue.tokens != []
      requires Working(cfg, start, Now(), first, queue.tokens, lookups, answers, last)
      modifies this`history, store, queue
      ensures Valid() && queue.Valid({})
      ensures Working(cfg, start, Now(), first, queue.tokens, lookups, answers, last')
      ensures Reconciles(history) == Reconciles(old(history)) + one
      ensures Budget(queue.tokens) + one <= Budget(old(queue.tokens))
              && Budget(queue.tokens) < Budget(old(queue.tokens))
    {
      ghost var now, tokens := Now(), queue.tokens;
      var token := queue.Take();
      assert token == tokens[0] && queue.tokens == tokens[1..];
      last', one := ProcessToken(token, lookups, answers, last);
      TurnWorks(cfg, start, now, first, tokens, lookups, answers, last, (Now(), queue.tokens, last', one));
    }

    /** What a worker does with a token it has taken. */
    method ProcessToken(token: Protocol.Token, lookups: Lookups, answers: Replies, last: map<Key, Judgement>)
      returns (last': map<Key, Judgement>, one: nat)
      requires Valid() && queue.Valid({token.key}) && |queue.tokens| < Protocol.RETRY_QUEUE_SIZE
      requires RetriesSince(history, token.key) == token.attempt < MAX_RETRIES
      modifies this`history, store, queue
      ensures store.Valid() && queue.Valid({})
      ensures (Now(), queue.tokens, last', one) ==
              AfterTurn(cfg, old(Now()), token, old(queue.tokens), last, lookups, answers)
    {
      var desired := store.Get(token.key);
      if desired.None? {
        TurnGone(cfg, Now(), token, queue.tokens, last, lookups, answers);
        queue.GiveUp(token);
        return last, 0;
      }
      last' := RetryHeld(token, desired.value, lookups, answers, last);
      one := 1;
    }

    /** A worker's turn on a record that is there: its reconcile, and the token given up or back. */
    method RetryHeld(token: Protocol.Token, desired: DesiredMount, lookups: Lookups, answers: Replies,
                     last: map<Key, Judgement>)
      returns (last': map<Key, Judgement>)
      requires Valid() && Lookup(store.mounts, token.key) == Some(desired)
      requires queue.Valid({token.key}) && |queue.tokens| < Protocol.RETRY_QUEUE_SIZE
      requires RetriesSince(history, token.key) == token.attempt < MAX_RETRIES
      modifies this`history, store, queue
      ensures store.Valid() && queue.Valid({})
      ensures (Now(), queue.tokens, last', 1) ==
              AfterTurn(cfg, old(Now()), token, old(queue.tokens), last, lookups, answers)
    {
      ghost var before, rest := Now(), queue.tokens;
      var verdict := RetryRecord(token, desired, lookups(token), answers(token));
      ghost var now := Now();
      last' := PartWith(token, verdict, last);
      TurnRan(cfg, before, token, rest, last, lookups, answers, now, verdict);
    }

    /** The reconcile of a token's record, and its verdict handled. */
    method RetryRecord(token: Protocol.Token, desired: DesiredMount, lookup: PodLookup, a: Answers)
      returns (verdict: Verdict)
      requires Valid() && Lookup(store.mounts, token.key) == Some(desired)
      requires RetriesSince(history, token.key) < MAX_RETRIES
      modifies this`history, store
      ensures store.Valid()
      ensures var w1 := Log(old(Now()), RetryReconciled(token.key));
              (Now(), verdict) == HandleRecord(cfg, w1, desired, RetryAnswer(lookup), a)
    {
      ProtocolInvariants.OuterKeeps(Now(), RetryReconciled(token.key));
      Record(RetryReconciled(token.key));
      JudgeWithin(cfg, Now(), desired, RetryAnswer(lookup), a);
      verdict := ReconcileMount(desired, lookup, a);
      HandleReconcileResult(desired, verdict, a);
    }

    method PartWith(token: Protocol.Token, verdict: Verdict, last: map<Key, Judgement>)
      returns (last': map<Key, Judgement>)
      requires queue.Valid({token.key}) && token.attempt < MAX_RETRIES && |queue.tokens| < Protocol.RETRY_QUEUE_SIZE
      modifies queue
      ensures queue.Valid({})
      ensures last' == NotedBy(last, token, verdict)
      ensures queue.tokens == old(queue.tokens) + RestOf(token, verdict)
    {
      var again := queue.Return(token, verdict);
      last' := if again then last else last[token.key := Judgement(verdict, token.attempt)];
    }

    method PodsByKey(pods: seq<Kube.Pod>) returns (byKey: map<PodKey, Kube.Pod>)
      ensures forall p :: Lookup(byKey, p) == PodIn(pods, p)
    {
      byKey := map[];
      for i := 0 to |pods|
        invariant forall p :: Lookup(byKey, p) == PodIn(pods[..i], p)
      {
        assert pods[..i + 1][..i] == pods[..i];
        byKey := byKey[PodKeyOfPod(pods[i]) := pods[i]];
      }
      assert pods[..|pods|] == pods;
    }
  }
}

