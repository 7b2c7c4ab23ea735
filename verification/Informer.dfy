/**
  The pod informer's cache (internal/kube/informer.go): what is kept of a pod,
  which updates are passed on, and why neither loses a decision.
*/
module Informer {
  import opened Results
  import opened Kube
  import opened MountRecords
  import opened Authorization
  import opened CallDecisions
  import opened Sections
  import opened SectionRuns

  // ----- the API server's objects -----

  datatype CoreOwner = CoreOwner(apiVersion: string, kind: string, name: string, uid: string, controller: bool)

  datatype CoreEnvVar = CoreEnvVar(name: string, value: string, valueFrom: Option<string>)

  datatype CoreContainer = CoreContainer(name: string, image: string, env: seq<CoreEnvVar>)

  datatype CoreVolume = CoreVolume(name: string, claim: Option<CoreClaim>)

  datatype CoreClaim = CoreClaim(claimName: string, readOnly: bool)

  datatype CoreStatus = CoreStatus(name: string, containerID: string, ready: bool, restartCount: nat)

  datatype CorePod = CorePod(
    name: string,
    namespace: string,
    uid: string,
    resourceVersion: string,
    labels: map<string, string>,
    annotations: map<string, string>,
    owners: seq<CoreOwner>,
    nodeName: string,
    serviceAccountName: string,
    containers: seq<CoreContainer>,
    volumes: seq<CoreVolume>,
    phase: string,
    statuses: seq<CoreStatus>)

  // ----- what the cache keeps -----

  function KeptEnv(env: seq<CoreEnvVar>): seq<CoreEnvVar> {
    if env == [] then []
    else
      var last := env[|env| - 1];
      KeptEnv(env[..|env| - 1]) +
      if last.name == MAIN_CONTAINER_ENV then [CoreEnvVar(last.name, last.value, None)] else []
  }

  function KeptContainer(c: CoreContainer): CoreContainer { CoreContainer(c.name, "", KeptEnv(c.env)) }

  function KeptStatus(s: CoreStatus): CoreStatus { CoreStatus(s.name, s.containerID, false, 0) }

  function Trimmed(pod: CorePod): CorePod {
    CorePod(
      pod.name, pod.namespace, pod.uid, pod.resourceVersion, map[], map[], [],
      pod.nodeName, pod.serviceAccountName,
      seq(|pod.containers|, i requires 0 <= i < |pod.containers| => KeptContainer(pod.containers[i])),
      [],
      pod.phase,
      seq(|pod.statuses|, i requires 0 <= i < |pod.statuses| => KeptStatus(pod.statuses[i])))
  }

  method KeepEnv(env: seq<CoreEnvVar>) returns (kept: seq<CoreEnvVar>)
    ensures kept == KeptEnv(env)
  {
    kept := [];
    for i := 0 to |env|
      invariant kept == KeptEnv(env[..i])
    {
      assert env[..i + 1][..i] == env[..i];
      if env[i].name == MAIN_CONTAINER_ENV {
        kept := kept + [CoreEnvVar(env[i].name, env[i].value, None)];
      }
    }
    assert env[..|env|] == env;
  }

  method TrimPodForInformerCache(pod: CorePod) returns (trimmed: CorePod)
    ensures trimmed == Trimmed(pod)
  {
    var containers: seq<CoreContainer> := [];
    for i := 0 to |pod.containers|
      invariant |containers| == i
      invariant forall j :: 0 <= j < i ==> containers[j] == KeptContainer(pod.containers[j])
    {
      var env := KeepEnv(pod.containers[i].env);
      containers := containers + [CoreContainer(pod.containers[i].name, "", env)];
    }
    var statuses: seq<CoreStatus> := [];
    for i := 0 to |pod.statuses|
      invariant |statuses| == i
      invariant forall j :: 0 <= j < i ==> statuses[j] == KeptStatus(pod.statuses[j])
    {
      statuses := statuses + [CoreStatus(pod.statuses[i].name, pod.statuses[i].containerID, false, 0)];
    }
    trimmed := CorePod(
      pod.name, pod.namespace, pod.uid, pod.resourceVersion, map[], map[], [],
      pod.nodeName, pod.serviceAccountName, containers, [], pod.phase, statuses);
  }

  // ----- the wrapper's own pod -----

  function EnvOf(env: seq<CoreEnvVar>): seq<EnvVar> {
    seq(|env|, i requires 0 <= i < |env| => EnvVar(env[i].name, env[i].value))
  }

  function VolumeOf(v: CoreVolume): Volume {
    if v.claim.Some? then Volume(v.name, Some(v.claim.value.claimName), v.claim.value.readOnly)
      else Volume(v.name, None, false)
  }

  function OwnerOf(o: CoreOwner): OwnerReference { OwnerReference(o.apiVersion, o.kind, o.name, o.uid) }

  function Containers(cs: seq<CoreContainer>): seq<Container> {
    seq(|cs|, i requires 0 <= i < |cs| => Container(cs[i].name, EnvOf(cs[i].env)))
  }

  function Statuses(ss: seq<CoreStatus>): seq<ContainerStatus> {
    seq(|ss|, i requires 0 <= i < |ss| => ContainerStatus(ss[i].name, ss[i].containerID, ss[i].ready))
  }

  function Snapshot(pod: CorePod): Pod {
    Pod(
      ObjectMeta(pod.name, pod.namespace, pod.uid, pod.labels, pod.annotations,
                 seq(|pod.owners|, i requires 0 <= i < |pod.owners| => OwnerOf(pod.owners[i]))),
      PodSpec(pod.serviceAccountName, pod.nodeName,
              seq(|pod.volumes|, i requires 0 <= i < |pod.volumes| => VolumeOf(pod.volumes[i])),
              Containers(pod.containers)),
      PodStatus(pod.phase, Statuses(pod.statuses)))
  }

  method ConvertEnv(env: seq<CoreEnvVar>) returns (converted: seq<EnvVar>)
    ensures converted == EnvOf(env)
  {
    converted := [];
    for i := 0 to |env|
      invariant |converted| == i
      invariant forall j :: 0 <= j < i ==> converted[j] == EnvVar(env[j].name, env[j].value)
    {
      converted := converted + [EnvVar(env[i].name, env[i].value)];
    }
  }

  method PodSnapshot(pod: CorePod) returns (snapshot: Pod)
    ensures snapshot == Snapshot(pod)
  {
    var owners: seq<OwnerReference> := [];
    for i := 0 to |pod.owners|
      invariant |owners| == i && forall j :: 0 <= j < i ==> owners[j] == OwnerOf(pod.owners[j])
    {
      owners := owners + [OwnerOf(pod.owners[i])];
    }
    var containers: seq<Container> := [];
    for i := 0 to |pod.containers|
      invariant |containers| == i
      invariant forall j :: 0 <= j < i ==>
                containers[j] == Container(pod.containers[j].name, EnvOf(pod.containers[j].env))
    {
      var env := ConvertEnv(pod.containers[i].env);
      containers := containers + [Container(pod.containers[i].name, env)];
    }
    var volumes: seq<Volume> := [];
    for i := 0 to |pod.volumes|
      invariant |volumes| == i && forall j :: 0 <= j < i ==> volumes[j] == VolumeOf(pod.volumes[j])
    {
      volumes := volumes + [VolumeOf(pod.volumes[i])];
    }
    var statuses: seq<ContainerStatus> := [];
    for i := 0 to |pod.statuses|
      invariant |statuses| == i
      invariant forall j :: 0 <= j < i ==>
                  statuses[j] == ContainerStatus(pod.statuses[j].name, pod.statuses[j].containerID,
                                                 pod.statuses[j].ready)
    {
      statuses := statuses + [ContainerStatus(pod.statuses[i].name, pod.statuses[i].containerID,
                                              pod.statuses[i].ready)];
    }
    snapshot := Pod(
      ObjectMeta(pod.name, pod.namespace, pod.uid, pod.labels, pod.annotations, owners),
      PodSpec(pod.serviceAccountName, pod.nodeName, volumes, containers),
      PodStatus(pod.phase, statuses));
  }

  // ----- what the two conversions leave of a pod -----

  predicate FirstCoreNamed(statuses: seq<CoreStatus>, name: string, i: int) {
    0 <= i < |statuses| && statuses[i].name == name && forall j :: 0 <= j < i ==> statuses[j].name != name
  }

  predicate CoreMarked(env: CoreEnvVar) { Marked(EnvVar(env.name, env.value)) }

  /**
    Decisions on a snapshot are decisions on the API's pod: its own namespace,
    name, UID, phase and node say whether it serves a request, its namespace and
    service account are what allowlists are asked for, and its own statuses and
    markers, in their order, name the containers.
  */
  lemma SnapshotDecides(cfg: Config, pod: CorePod, request: MountRequest, name: string)
    ensures PodServes(cfg, request, Snapshot(pod)) <==>
            && pod.namespace == request.namespace && pod.name == request.podName && pod.uid == request.podUID
            && pod.phase != "Succeeded" && pod.phase != "Failed"
            && (cfg.nodeName != "" ==> pod.nodeName == cfg.nodeName)
    ensures forall pv, p: Pod :: p.metadata.namespace == pod.namespace
                                 && p.spec.serviceAccountName == pod.serviceAccountName ==>
              (VolumeServes(cfg, Snapshot(pod), pv) <==> VolumeServes(cfg, p, pv))
    ensures forall i :: FirstNamed(Snapshot(pod).status.containerStatuses, name, i) <==>
                        FirstCoreNamed(pod.statuses, name, i)
    ensures |Snapshot(pod).status.containerStatuses| == |pod.statuses|
    ensures forall i :: 0 <= i < |pod.statuses| ==>
              Snapshot(pod).status.containerStatuses[i].name == pod.statuses[i].name
                && Snapshot(pod).status.containerStatuses[i].containerID == pod.statuses[i].containerID
    ensures |Snapshot(pod).spec.containers| == |pod.containers|
    ensures forall i :: 0 <= i < |pod.containers| ==>
              && Snapshot(pod).spec.containers[i].name == pod.containers[i].name
              && (IsMain(Snapshot(pod).spec.containers[i]) <==>
                  exists j :: 0 <= j < |pod.containers[i].env| && CoreMarked(pod.containers[i].env[j]))
  {
    forall i
      ensures FirstNamed(Snapshot(pod).status.containerStatuses, name, i) <==> FirstCoreNamed(pod.statuses, name, i)
    {
      FirstNamedOf(pod.statuses, name, i);
    }
    forall i | 0 <= i < |pod.containers|
      ensures IsMain(Snapshot(pod).spec.containers[i]) <==>
              exists j :: 0 <= j < |pod.containers[i].env| && CoreMarked(pod.containers[i].env[j])
    {
      MarksOf(pod.containers[i]);
    }
  }

  lemma FirstNamedOf(statuses: seq<CoreStatus>, name: string, i: int)
    ensures FirstNamed(Statuses(statuses), name, i) <==> FirstCoreNamed(statuses, name, i)
  {
    var ss := Statuses(statuses);
    assert forall j :: 0 <= j < |statuses| ==> ss[j].name == statuses[j].name;
    if FirstNamed(ss, name, i) {
      assert forall j :: 0 <= j < i ==> ss[j].name != name;
    }
  }

  lemma MarksOf(c: CoreContainer)
    ensures IsMain(Container(c.name, EnvOf(c.env))) <==>
            exists j :: 0 <= j < |c.env| && CoreMarked(c.env[j])
  {
    IsMainMeans(Container(c.name, EnvOf(c.env)));
    assert forall j :: 0 <= j < |c.env| ==> EnvOf(c.env)[j] == EnvVar(c.env[j].name, c.env[j].value);
  }

  /**
    The cache holds no more of a pod than that: no label, annotation, owner,
    volume or image, of the environment only the markers' variable with no
    indirection, of a status only its name and ID. Trimming again trims nothing.
  */
  lemma TrimmedHolds(pod: CorePod)
    ensures var t := Trimmed(pod);
            && t.labels == map[] && t.annotations == map[] && t.owners == [] && t.volumes == []
            && (forall i :: 0 <= i < |t.containers| ==>
                  t.containers[i].image == ""
                  && forall e :: e in t.containers[i].env ==>
                       e.name == "SANDBOX_MAIN_CONTAINER" && e.valueFrom == None)
            && (forall i :: 0 <= i < |t.statuses| ==> !t.statuses[i].ready && t.statuses[i].restartCount == 0)
    ensures Trimmed(Trimmed(pod)) == Trimmed(pod)
  {
    var t := Trimmed(pod);
    forall i | 0 <= i < |pod.containers|
      ensures forall e :: e in KeptEnv(pod.containers[i].env) ==> e.name == MAIN_CONTAINER_ENV && e.valueFrom == None
      ensures KeptEnv(KeptEnv(pod.containers[i].env)) == KeptEnv(pod.containers[i].env)
    {
      KeptEnvHolds(pod.containers[i].env);
    }
    assert Trimmed(t).containers == t.containers;
    assert Trimmed(t).statuses == t.statuses;
  }

  lemma {:induction false} KeptEnvHolds(env: seq<CoreEnvVar>)
    ensures forall e :: e in KeptEnv(env) ==> e.name == MAIN_CONTAINER_ENV && e.valueFrom == None
    ensures KeptEnv(KeptEnv(env)) == KeptEnv(env)
  {
    if env != [] {
      var init, last := env[..|env| - 1], env[|env| - 1];
      KeptEnvHolds(init);
      if last.name == MAIN_CONTAINER_ENV {
        var kept := KeptEnv(env);
        assert kept[..|kept| - 1] == KeptEnv(init);
      } else {
        assert KeptEnv(env) == KeptEnv(init);
      }
    }
  }

  // ----- pods that no decision tells apart -----

  /** The same container: its name and its ID, whatever else the two statuses say. */
  predicate SameChoice(left: Result<ContainerStatus>, right: Result<ContainerStatus>) {
    && left.Ok? == right.Ok?
    && (left.Ok? ==> left.value.name == right.value.name && left.value.containerID == right.value.containerID)
  }

  /** What identity, node and PV authorization read of a pod. */
  predicate SameSubject(left: Pod, right: Pod) {
    && left.metadata.namespace == right.metadata.namespace
    && left.metadata.name == right.metadata.name
    && left.metadata.uid == right.metadata.uid
    && left.status.phase == right.status.phase
    && left.spec.nodeName == right.spec.nodeName
    && left.spec.serviceAccountName == right.spec.serviceAccountName
  }

  ghost predicate Alike(left: Pod, right: Pod) {
    && SameSubject(left, right)
    && forall name :: name != "" ==> SameChoice(SelectContainerStatus(left, name), SelectContainerStatus(right, name))
  }

  lemma AlikePlans(cfg: Config, request: MountRequest, left: Pod, right: Pod, pv: PersistentVolume)
    requires SameSubject(left, right)
    requires SameChoice(SelectContainerStatus(left, request.containerName),
                        SelectContainerStatus(right, request.containerName))
    ensures MountPlanForPod(cfg, request, left, pv) == MountPlanForPod(cfg, request, right, pv)
  {
  }

  predicate NamedPlan(at: ReconcilePoint) { at.ReconcilePlan? ==> at.current.request.containerName != "" }

  lemma AlikeRead(cfg: Config, w: World, snapshot: DesiredMount, left: Pod, right: Pod)
    requires Alike(left, right) && snapshot.request.containerName != ""
    ensures ReconcileRead(cfg, w, Job(snapshot, left)) == ReconcileRead(cfg, w, Job(snapshot, right))
    ensures NamedPlan(ReconcileRead(cfg, w, Job(snapshot, left)))
  {
    var name := snapshot.request.containerName;
    assert SameChoice(SelectContainerStatus(left, name), SelectContainerStatus(right, name));
  }

  lemma AlikePlanned(cfg: Config, snapshot: DesiredMount, left: Pod, right: Pod, current: DesiredMount,
                     pv: Option<PersistentVolume>)
    requires Alike(left, right) && current.request.containerName != ""
    ensures ReconcilePlanned(cfg, Job(snapshot, left), current, pv) ==
            ReconcilePlanned(cfg, Job(snapshot, right), current, pv)
  {
    if pv.Some? {
      AlikePlans(cfg, current.request, left, right, pv.value);
    }
  }

  lemma AlikeStep(cfg: Config, w: World, snapshot: DesiredMount, left: Pod, right: Pod, at: ReconcilePoint, a: Answers)
    requires Alike(left, right) && snapshot.request.containerName != "" && NamedPlan(at) && !at.ReconcileExit?
    ensures ReconcileStep(cfg, w, Job(snapshot, left), at, a) == ReconcileStep(cfg, w, Job(snapshot, right), at, a)
    ensures NamedPlan(ReconcileStep(cfg, w, Job(snapshot, left), at, a).1)
  {
    if at.ReconcileGet? {
      AlikeRead(cfg, w, snapshot, left, right);
    } else if at.ReconcilePlan? {
      AlikePlanned(cfg, snapshot, left, right, at.current, a.pv);
    }
  }

  /** A reconcile of a named record comes out the same for alike pods: every store write, node call and verdict. */
  lemma {:induction false} AlikeReconcile(cfg: Config, w: World, snapshot: DesiredMount, left: Pod, right: Pod,
                                          at: ReconcilePoint,
                                          a: Answers)
    requires Alike(left, right) && snapshot.request.containerName != "" && NamedPlan(at)
    ensures RunReconcile(cfg, w, Job(snapshot, left), at, a) == RunReconcile(cfg, w, Job(snapshot, right), at, a)
    decreases ReconcileLeft(at)
  {
    if !at.ReconcileExit? {
      var (w1, at1) := ReconcileStep(cfg, w, Job(snapshot, left), at, a);
      AlikeStep(cfg, w, snapshot, left, right, at, a);
      NextReconcile(cfg, w, Job(snapshot, left), at, a);
      NextReconcile(cfg, w, Job(snapshot, right), at, a);
      AlikeReconcile(cfg, w1, snapshot, left, right, at1, a);
    }
  }

  // ----- trimming -----

  lemma {:induction false} KeptEnvMarks(env: seq<CoreEnvVar>)
    ensures (exists i :: 0 <= i < |env| && MarksMain(EnvVar(env[i].name, env[i].value))) <==>
            (exists i :: 0 <= i < |KeptEnv(env)| && MarksMain(EnvVar(KeptEnv(env)[i].name, KeptEnv(env)[i].value)))
  {
    if env != [] {
      var init, last := env[..|env| - 1], env[|env| - 1];
      KeptEnvMarks(init);
      assert forall i :: 0 <= i < |init| ==> env[i] == init[i];
      assert forall i :: 0 <= i < |KeptEnv(init)| ==> KeptEnv(env)[i] == KeptEnv(init)[i];
      if MarksMain(EnvVar(last.name, last.value)) {
        assert KeptEnv(env)[|KeptEnv(init)|] == CoreEnvVar(last.name, last.value, None);
        assert env[|init|] == last;
      }
    }
  }

  lemma TrimKeepsMain(c: CoreContainer)
    ensures IsMain(Container(c.name, EnvOf(c.env))) == IsMain(Container(c.name, EnvOf(KeptEnv(c.env))))
  {
    KeptEnvMarks(c.env);
    var full, kept := EnvOf(c.env), EnvOf(KeptEnv(c.env));
    assert forall i :: 0 <= i < |full| ==> full[i] == EnvVar(c.env[i].name, c.env[i].value);
    assert forall i :: 0 <= i < |kept| ==> kept[i] == EnvVar(KeptEnv(c.env)[i].name, KeptEnv(c.env)[i].value);
    if IsMain(Container(c.name, full)) {
      var i :| 0 <= i < |full| && MarksMain(full[i]);
      assert MarksMain(EnvVar(c.env[i].name, c.env[i].value));
      var j :| 0 <= j < |KeptEnv(c.env)| && MarksMain(EnvVar(KeptEnv(c.env)[j].name, KeptEnv(c.env)[j].value));
      assert MarksMain(kept[j]);
    }
    if IsMain(Container(c.name, kept)) {
      var i :| 0 <= i < |kept| && MarksMain(kept[i]);
      assert MarksMain(EnvVar(KeptEnv(c.env)[i].name, KeptEnv(c.env)[i].value));
      var j :| 0 <= j < |c.env| && MarksMain(EnvVar(c.env[j].name, c.env[j].value));
      assert MarksMain(full[j]);
    }
  }

  lemma {:induction false} SameMainName(full: seq<Container>, kept: seq<Container>)
    requires |full| == |kept|
    requires forall i :: 0 <= i < |full| ==> full[i].name == kept[i].name && IsMain(full[i]) == IsMain(kept[i])
    ensures MainContainerName(full) == MainContainerName(kept)
  {
    if full != [] && !IsMain(full[0]) {
      SameMainName(full[1..], kept[1..]);
    }
  }

  lemma {:induction false} SameStatusByName(full: seq<ContainerStatus>, kept: seq<ContainerStatus>, name: string)
    requires |full| == |kept|
    requires forall i :: 0 <= i < |full| ==> full[i].name == kept[i].name && full[i].containerID == kept[i].containerID
    ensures SameChoice(StatusByName(full, name), StatusByName(kept, name))
  {
    if full != [] && full[0].name != name {
      SameStatusByName(full[1..], kept[1..], name);
    }
  }

  lemma TrimKeepsChoice(pod: CorePod, name: string)
    ensures SameChoice(SelectContainerStatus(Snapshot(pod), name), SelectContainerStatus(Snapshot(Trimmed(pod)), name))
  {
    var full, kept := Snapshot(pod), Snapshot(Trimmed(pod));
    forall i | 0 <= i < |pod.containers|
      ensures full.spec.containers[i].name == kept.spec.containers[i].name
      ensures IsMain(full.spec.containers[i]) == IsMain(kept.spec.containers[i])
    {
      TrimKeepsMain(pod.containers[i]);
    }
    SameMainName(full.spec.containers, kept.spec.containers);
    SameStatusByName(full.status.containerStatuses, kept.status.containerStatuses, name);
    SameStatusByName(full.status.containerStatuses, kept.status.containerStatuses,
                     MainContainerName(full.spec.containers));
  }

  /**
    Deciding on a trimmed pod is deciding on the whole one: identity, node and PV
    authorization, the container chosen for any request (named, marked as main,
    or the only one), the mount plan, and a whole reconcile.
  */
  lemma TrimPreservesDecisions(cfg: Config, pod: CorePod, request: MountRequest, pv: PersistentVolume)
    ensures var full, kept := Snapshot(pod), Snapshot(Trimmed(pod));
            && PodIdentity(full, request) == PodIdentity(kept, request)
            && PodOnNode(full, cfg.nodeName) == PodOnNode(kept, cfg.nodeName)
            && PVAllowsPod(cfg.driverName, full, pv) == PVAllowsPod(cfg.driverName, kept, pv)
            && SameChoice(SelectContainerStatus(full, request.containerName),
                          SelectContainerStatus(kept, request.containerName))
            && MountPlanForPod(cfg, request, full, pv) == MountPlanForPod(cfg, request, kept, pv)
  {
    TrimKeepsChoice(pod, request.containerName);
    AlikePlans(cfg, request, Snapshot(pod), Snapshot(Trimmed(pod)), pv);
  }

  lemma TrimPreservesReconcile(cfg: Config, w: World, snapshot: DesiredMount, pod: CorePod, a: Answers)
    requires snapshot.request.containerName != ""
    ensures RunReconcile(cfg, w, Job(snapshot, Snapshot(pod)), ReconcileGet, a)
         == RunReconcile(cfg, w, Job(snapshot, Snapshot(Trimmed(pod))), ReconcileGet, a)
  {
    forall name | name != ""
      ensures SameChoice(SelectContainerStatus(Snapshot(pod), name),
                         SelectContainerStatus(Snapshot(Trimmed(pod)), name))
    {
      TrimKeepsChoice(pod, name);
    }
    AlikeReconcile(cfg, w, snapshot, Snapshot(pod), Snapshot(Trimmed(pod)), ReconcileGet, a);
  }

  // ----- suppressed updates -----

  /** The container ID a status list ends up giving a name, as filling a map in order leaves it. */
  function IDs(ss: seq<CoreStatus>): map<string, string> {
    if ss == [] then map[] else IDs(ss[..|ss| - 1])[ss[|ss| - 1].name := ss[|ss| - 1].containerID]
  }

  predicate SameState(left: CorePod, right: CorePod) {
    && left.phase == right.phase
    && |left.statuses| == |right.statuses|
    && forall i :: 0 <= i < |right.statuses| ==>
         right.statuses[i].name in IDs(left.statuses)
         && IDs(left.statuses)[right.statuses[i].name] == right.statuses[i].containerID
  }

  method SameContainerState(left: CorePod, right: CorePod) returns (same: bool)
    ensures same == SameState(left, right)
  {
    if left.phase != right.phase || |left.statuses| != |right.statuses| {
      return false;
    }
    var leftIDs: map<string, string> := map[];
    for i := 0 to |left.statuses|
      invariant leftIDs == IDs(left.statuses[..i])
    {
      assert left.statuses[..i + 1][..i] == left.statuses[..i];
      leftIDs := leftIDs[left.statuses[i].name := left.statuses[i].containerID];
    }
    assert left.statuses[..|left.statuses|] == left.statuses;
    for i := 0 to |right.statuses|
      invariant forall j :: 0 <= j < i ==>
                  right.statuses[j].name in leftIDs && leftIDs[right.statuses[j].name] == right.statuses[j].containerID
    {
      var status := right.statuses[i];
      if status.name !in leftIDs || leftIDs[status.name] != status.containerID {
        return false;
      }
    }
    return true;
  }

  predicate UniqueNames(ss: seq<CoreStatus>) {
    forall i, j :: 0 <= i < j < |ss| ==> ss[i].name != ss[j].name
  }

  /** The map has the names that some status has. */
  lemma {:induction false} IDsNames(ss: seq<CoreStatus>)
    ensures forall n :: n in IDs(ss) <==> exists i :: 0 <= i < |ss| && ss[i].name == n
  {
    if ss != [] {
      var init, last := ss[..|ss| - 1], ss[|ss| - 1];
      IDsNames(init);
      assert forall i :: 0 <= i < |init| ==> ss[i] == init[i];
      forall n
        ensures n in IDs(ss) <==> exists i :: 0 <= i < |ss| && ss[i].name == n
      {
        if n == last.name { assert ss[|init|].name == n; }
        if n in IDs(init) {
          var i :| 0 <= i < |init| && init[i].name == n;
          assert ss[i].name == n;
        }
      }
    }
  }

  /** With unique names, it has one entry per status and says what each status says. */
  lemma {:induction false} IDsOfUnique(ss: seq<CoreStatus>)
    requires UniqueNames(ss)
    ensures |IDs(ss)| == |ss|
    ensures forall i :: 0 <= i < |ss| ==> ss[i].name in IDs(ss) && IDs(ss)[ss[i].name] == ss[i].containerID
  {
    if ss != [] {
      var init, last := ss[..|ss| - 1], ss[|ss| - 1];
      IDsOfUnique(init);
      assert forall i :: 0 <= i < |init| ==> ss[i] == init[i];
      IDsNames(init);
      assert last.name !in IDs(init);
    }
  }

  lemma SubsetOfSameSize(a: set<string>, b: set<string>)
    requires a <= b && |a| == |b|
    ensures a == b
  {
    if a != b {
      var x :| x in b && x !in a;
      SubsetSize(a, b - {x});
    }
  }

  lemma SubsetSize(a: set<string>, b: set<string>)
    requires a <= b
    ensures |a| <= |b|
    decreases b
  {
    if x :| x in a {
      SubsetSize(a - {x}, b - {x});
    }
  }

  /** With unique names an update is suppressed exactly when phase and every container's ID, present or absent, stay. */
  lemma SameStateExactly(left: CorePod, right: CorePod)
    requires UniqueNames(left.statuses) && UniqueNames(right.statuses)
    ensures SameState(left, right) <==> left.phase == right.phase && IDs(left.statuses) == IDs(right.statuses)
  {
    if SameState(left, right) { SameStateIDs(left, right); }
    if left.phase == right.phase && IDs(left.statuses) == IDs(right.statuses) { SameIDsState(left, right); }
  }

  lemma SameStateIDs(left: CorePod, right: CorePod)
    requires UniqueNames(left.statuses) && UniqueNames(right.statuses) && SameState(left, right)
    ensures IDs(left.statuses) == IDs(right.statuses)
  {
    var l, r := IDs(left.statuses), IDs(right.statuses);
    IDsOfUnique(left.statuses);
    IDsOfUnique(right.statuses);
    IDsNames(right.statuses);
    assert r.Keys <= l.Keys;
    assert |l.Keys| == |l| && |r.Keys| == |r|;
    SubsetOfSameSize(r.Keys, l.Keys);
    forall n | n in r
      ensures l[n] == r[n]
    {
      var i :| 0 <= i < |right.statuses| && right.statuses[i].name == n;
    }
  }

  lemma SameIDsState(left: CorePod, right: CorePod)
    requires UniqueNames(left.statuses) && UniqueNames(right.statuses)
    requires left.phase == right.phase && IDs(left.statuses) == IDs(right.statuses)
    ensures SameState(left, right)
  {
    IDsOfUnique(left.statuses);
    IDsOfUnique(right.statuses);
  }

  /** Looking a container up by name is asking the map, when names are unique. */
  lemma {:induction false} StatusIsID(ss: seq<CoreStatus>, name: string)
    requires UniqueNames(ss)
    ensures var found, ids := StatusByName(Statuses(ss), name), IDs(ss);
            if name in ids && ids[name] != "" then found.Ok? && found.value.containerID == ids[name] else found.Err?
    decreases |ss|
  {
    IDsOfUnique(ss);
    if ss != [] && ss[0].name != name {
      var rest := ss[1..];
      assert Statuses(ss)[1..] == Statuses(rest);
      assert forall i :: 0 <= i < |rest| ==> rest[i] == ss[i + 1];
      StatusIsID(rest, name);
      IDsOfUnique(rest);
      IDsNames(ss);
      IDsNames(rest);
      if name in IDs(ss) {
        var i :| 0 <= i < |ss| && ss[i].name == name;
        assert rest[i - 1].name == name;
      }
    }
  }

  /** The same pod on the same node: what never changes in a pod's life once it is scheduled. */
  predicate SamePod(before: CorePod, after: CorePod) {
    && before.name == after.name && before.namespace == after.namespace && before.uid == after.uid
    && before.nodeName == after.nodeName && before.serviceAccountName == after.serviceAccountName
  }

  /**
    A suppressed update could not have changed a reconcile: for a pod whose
    identity, node and service account stay, every named record is reconciled
    the same with the old pod and with the new one.
  */
  lemma SuppressedUpdateChangesNothing(cfg: Config, w: World, snapshot: DesiredMount, before: CorePod, after: CorePod,
                                       a: Answers)
    requires UniqueNames(before.statuses) && UniqueNames(after.statuses) && SameState(before, after)
    requires SamePod(before, after)
    requires snapshot.request.containerName != ""
    ensures RunReconcile(cfg, w, Job(snapshot, Snapshot(before)), ReconcileGet, a)
         == RunReconcile(cfg, w, Job(snapshot, Snapshot(after)), ReconcileGet, a)
  {
    SameStateExactly(before, after);
    forall name | name != ""
      ensures SameChoice(SelectContainerStatus(Snapshot(before), name), SelectContainerStatus(Snapshot(after), name))
    {
      StatusIsID(before.statuses, name);
      StatusIsID(after.statuses, name);
    }
    AlikeReconcile(cfg, w, snapshot, Snapshot(before), Snapshot(after), ReconcileGet, a);
  }
}
