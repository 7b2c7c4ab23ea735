/**
  A run in which a mount is forgotten: an unmount's Delete fails after removing
  the file (the removal at internal/wrapper/state.go:187 succeeded, the directory
  sync at 190 did not), so the record stays in memory without a file; a pass then
  finds the pod's container replaced and mounts into the new one; the process
  dies before it writes the record back, and the next one knows nothing of it.
*/
module TornDeletes {
  import opened Results
  import opened MountRecords
  import opened Authorization
  import opened Sections
  import opened Protocol
  import opened ProtocolRuns
  import opened TornWrites
  import Kube
  import Lexical
  import NfsPaths

  const TORN_DELETE := Answers(Done, No, Done, Done, true, Done, Done, Torn, None)

  function Offering(pv: Kube.PersistentVolume): Answers {
    Answers(Done, No, Done, Done, true, Done, Done, Done, Some(pv))
  }

  /** The unmount: its delete is torn and it returns an error, leaving a record and no file. */
  lemma TornUnmount(m: Machine, act: Action, target: UnmountCall) returns (acts: seq<Action>)
    requires act.StartUnmount? && Enabled(m, act) && m.locks == map[]
    requires PrepareUnmount(m.cfg, act.raw, act.pod) == Ok(target)
    requires target.key in m.world.mem && m.world.mem[target.key].request.pvName == target.pvName
    ensures Leads(m, acts, m.(world := Delete(m.world, target.key, Torn)))
  {
    var t, k, w := act.t, target.key, m.world;
    var held, w1 := w.mem[k], Delete(w, k, Torn);
    var get, del := Unmounting(target, UnmountGet), Unmounting(target, UnmountRead(w, target));
    var done := Unmounting(target, UnmountExit(Some(held), UnmountRefused));
    Acquires(m, t, Handler, w, get);
    Advances(m, t, Handler, w, get, TORN_DELETE, w, del);
    Advances(m, t, Handler, w, del, TORN_DELETE, w1, done);
    Releases(m, t, w1, done);
    acts := Then(m, [], m, act, With(m, t, Handler, Waiting(get), w, None));
    acts := Then(m, acts, With(m, t, Handler, Waiting(get), w, None), Acquire(t),
                 With(m, t, Handler, Inside(get), w, Some(k)));
    acts := Then(m, acts, With(m, t, Handler, Inside(get), w, Some(k)), Advance(t, TORN_DELETE),
                 With(m, t, Handler, Inside(del), w, Some(k)));
    acts := Then(m, acts, With(m, t, Handler, Inside(del), w, Some(k)), Advance(t, TORN_DELETE),
                 With(m, t, Handler, Inside(done), w1, Some(k)));
    acts := Then(m, acts, With(m, t, Handler, Inside(done), w1, Some(k)), Release(t), m.(world := w1));
  }

  /** Wherever the record is in memory, a reconcile with this pod goes on to plan a mount for it. */
  ghost predicate Reads(cfg: Config, held: DesiredMount, pod: Kube.Pod) {
    forall w: World :: Lookup(w.mem, KeyOf(held)) == Some(held) ==>
      ReconcileRead(cfg, w, Job(held, pod)) == ReconcilePlan(held)
  }

  /** A record whose pod runs another container than it names, and the plan to mount into that one. */
  ghost predicate Moved(cfg: Config, held: DesiredMount, pod: Kube.Pod, pv: Kube.PersistentVolume,
                        plan: NfsPaths.MountPlan,
                        current: DesiredMount)
  {
    var job := Job(held, pod);
    && Kube.ContainersNamed(pod)
    && Reads(cfg, held, pod)
    && ReconcilePlanned(cfg, job, held, Some(pv)) == ReconcileNode(plan, current)
  }

  lemma ListsAndTakes(m: Machine, t: nat, held: DesiredMount, pod: Kube.Pod)
    requires t !in m.threads && m.locks == map[] && Kube.ContainersNamed(pod)
    requires Lookup(m.world.mem, KeyOf(held)) == Some(held)
    ensures var listed := m.(threads := m.threads[t := Thread(Idle, Pass([held]))]);
            var entry := Reconciling(Job(held, pod), ReconcileGet);
            && Enabled(m, StartPass(t, [held])) && Step(m, StartPass(t, [held])) == listed
            && Enabled(listed, TakeRecord(t, Found(pod)))
            && Step(listed, TakeRecord(t, Found(pod))) == With(m, t, Pass([]), Waiting(entry), m.world, None)
  {
    var listed := m.(threads := m.threads[t := Thread(Idle, Pass([held]))]);
    var entry := Reconciling(Job(held, pod), ReconcileGet);
    assert [held][1..] == [];
    assert listed.threads[t := Thread(Waiting(entry), Pass([]))] == m.threads[t := Thread(Waiting(entry), Pass([]))];
  }

  lemma PassTakes(m0: Machine, prefix: seq<Action>, m: Machine, t: nat, held: DesiredMount, pod: Kube.Pod)
    returns (acts: seq<Action>)
    requires Leads(m0, prefix, m) && t !in m.threads && m.locks == map[] && Kube.ContainersNamed(pod)
    requires Lookup(m.world.mem, KeyOf(held)) == Some(held)
    ensures var entry := Reconciling(Job(held, pod), ReconcileGet);
            Leads(m0, acts, With(m, t, Pass([]), Waiting(entry), m.world, None))
  {
    var listed := m.(threads := m.threads[t := Thread(Idle, Pass([held]))]);
    var entry := Reconciling(Job(held, pod), ReconcileGet);
    ListsAndTakes(m, t, held, pod);
    acts := Then(m0, prefix, m, StartPass(t, [held]), listed);
    acts := Then(m0, acts, listed, TakeRecord(t, Found(pod)), With(m, t, Pass([]), Waiting(entry), m.world, None));
  }

  /** A pass takes the record up, as far as the point where it would plan the mount. */
  lemma PassReads(m0: Machine, prefix: seq<Action>, m: Machine, t: nat, held: DesiredMount, pod: Kube.Pod)
    returns (acts: seq<Action>)
    requires Leads(m0, prefix, m) && t !in m.threads && m.locks == map[]
    requires Lookup(m.world.mem, KeyOf(held)) == Some(held) && Kube.ContainersNamed(pod)
    requires ReconcileRead(m.cfg, m.world, Job(held, pod)) == ReconcilePlan(held)
    ensures var pc := Reconciling(Job(held, pod), ReconcilePlan(held));
            Leads(m0, acts, With(m, t, Pass([]), Inside(pc), m.world, Some(KeyOf(held))))
  {
    var k, w, role, job := KeyOf(held), m.world, Pass([]), Job(held, pod);
    var get, plan := Reconciling(job, ReconcileGet), Reconciling(job, ReconcilePlan(held));
    acts := PassTakes(m0, prefix, m, t, held, pod);
    Acquires(m, t, role, w, get);
    Advances(m, t, role, w, get, QUIET, w, plan);
    acts := Then(m0, acts, With(m, t, role, Waiting(get), w, None), Acquire(t),
                 With(m, t, role, Inside(get), w, Some(k)));
    acts := Then(m0, acts, With(m, t, role, Inside(get), w, Some(k)), Advance(t, QUIET),
                 With(m, t, role, Inside(plan), w, Some(k)));
  }

  /** It plans and makes the mount, and stands before its write. */
  lemma PassMounts(m0: Machine, prefix: seq<Action>, m: Machine, t: nat, held: DesiredMount, pod: Kube.Pod,
                   pv: Kube.PersistentVolume, plan: NfsPaths.MountPlan, current: DesiredMount)
    returns (acts: seq<Action>)
    requires var pc := Reconciling(Job(held, pod), ReconcilePlan(held));
             Leads(m0, prefix, With(m, t, Pass([]), Inside(pc), m.world, Some(KeyOf(held))))
    requires ReconcilePlanned(m.cfg, Job(held, pod), held, Some(pv)) == ReconcileNode(plan, current)
    ensures var pc := Reconciling(Job(held, pod), ReconcileRecord(current.(containerID := plan.containerID)));
            var w := Log(m.world, NodeMount(plan, m.cfg.rootKey, true));
            Leads(m0, acts, With(m, t, Pass([]), Inside(pc), w, Some(KeyOf(held))))
  {
    var k, w, role, job, a := KeyOf(held), m.world, Pass([]), Job(held, pod), Offering(pv);
    var w1 := Log(w, NodeMount(plan, m.cfg.rootKey, true));
    var get, node := Reconciling(job, ReconcilePlan(held)), Reconciling(job, ReconcileNode(plan, current));
    var record := Reconciling(job, ReconcileRecord(current.(containerID := plan.containerID)));
    Advances(m, t, role, w, get, a, w, node);
    Advances(m, t, role, w, node, a, w1, record);
    acts := Then(m0, prefix, With(m, t, role, Inside(get), w, Some(k)), Advance(t, a),
                 With(m, t, role, Inside(node), w, Some(k)));
    acts := Then(m0, acts, With(m, t, role, Inside(node), w, Some(k)), Advance(t, a),
                 With(m, t, role, Inside(record), w1, Some(k)));
  }

  /**
    For any record, unmount and replaced container there is such a run: it ends
    with a successful node Mount and a restart, and no record of it in memory or
    on disk.
  */
  lemma TornDeleteForgets(m: Machine, unmount: Action, target: UnmountCall, t: nat, held: DesiredMount, pod: Kube.Pod,
                          pv: Kube.PersistentVolume, plan: NfsPaths.MountPlan, current: DesiredMount)
    returns (acts: seq<Action>)
    requires unmount.StartUnmount? && Enabled(m, unmount) && m.locks == map[] && t !in m.threads
    requires PrepareUnmount(m.cfg, unmount.raw, unmount.pod) == Ok(target)
    requires Lookup(m.world.mem, target.key) == Some(held) && KeyOf(held) == target.key
    requires held.request.pvName == target.pvName && Moved(m.cfg, held, pod, pv, plan, current)
    ensures Runs(m, acts)
    ensures var m' := After(m, acts);
            && m'.world.history ==
               m.world.history + [TornDelete(target.key)] + [NodeMount(plan, m.cfg.rootKey, true), Restarted]
            && target.key !in m'.world.mem && target.key !in m'.world.disk
  {
    var m1;
    acts, m1 := UnmountLosesFile(m, unmount, target);
    acts := PassForgets(m, acts, m1, t, held, pod, pv, plan, current);
  }

  lemma UnmountLosesFile(m: Machine, unmount: Action, target: UnmountCall) returns (acts: seq<Action>, m': Machine)
    requires unmount.StartUnmount? && Enabled(m, unmount) && m.locks == map[]
    requires PrepareUnmount(m.cfg, unmount.raw, unmount.pod) == Ok(target)
    requires target.key in m.world.mem && m.world.mem[target.key].request.pvName == target.pvName
    ensures Leads(m, acts, m') && m'.cfg == m.cfg && m'.threads == m.threads && m'.locks == map[]
    ensures m'.world.mem == m.world.mem && target.key !in m'.world.disk
    ensures m'.world.history == m.world.history + [TornDelete(target.key)]
  {
    m' := m.(world := Delete(m.world, target.key, Torn));
    acts := TornUnmount(m, unmount, target);
  }

  /** With the file gone, a pass mounts for the record, and a restart before its write forgets it. */
  lemma PassForgets(m0: Machine, prefix: seq<Action>, m: Machine, t: nat, held: DesiredMount, pod: Kube.Pod,
                    pv: Kube.PersistentVolume, plan: NfsPaths.MountPlan, current: DesiredMount)
    returns (acts: seq<Action>)
    requires Leads(m0, prefix, m) && t !in m.threads && m.locks == map[]
    requires Lookup(m.world.mem, KeyOf(held)) == Some(held) && KeyOf(held) !in m.world.disk
    requires Moved(m.cfg, held, pod, pv, plan, current)
    ensures Runs(m0, acts)
    ensures var m' := After(m0, acts);
            && m'.world.history == m.world.history + [NodeMount(plan, m.cfg.rootKey, true), Restarted]
            && KeyOf(held) !in m'.world.mem && KeyOf(held) !in m'.world.disk
  {
    var m2 := Stranded(m, t, held, pod, plan, current);
    acts := PassStrands(m0, prefix, m, t, held, pod, pv, plan, current);
    RestartForgets(m2, KeyOf(held));
    acts := Then(m0, acts, m2, Restart(m.cfg), RestartStep(m2, m.cfg));
  }

  /** The machine in which a pass has made the mount and stands before its write. */
  function Stranded(m: Machine, t: nat, held: DesiredMount, pod: Kube.Pod, plan: NfsPaths.MountPlan,
                    current: DesiredMount): Machine {
    var pc := Reconciling(Job(held, pod), ReconcileRecord(current.(containerID := plan.containerID)));
    With(m, t, Pass([]), Inside(pc), Log(m.world, NodeMount(plan, m.cfg.rootKey, true)), Some(KeyOf(held)))
  }

  lemma PassStrands(m0: Machine, prefix: seq<Action>, m: Machine, t: nat, held: DesiredMount, pod: Kube.Pod,
                    pv: Kube.PersistentVolume, plan: NfsPaths.MountPlan, current: DesiredMount)
    returns (acts: seq<Action>)
    requires Leads(m0, prefix, m) && t !in m.threads && m.locks == map[]
    requires Lookup(m.world.mem, KeyOf(held)) == Some(held) && Moved(m.cfg, held, pod, pv, plan, current)
    ensures Leads(m0, acts, Stranded(m, t, held, pod, plan, current))
  {
    acts := PassReads(m0, prefix, m, t, held, pod);
    acts := PassMounts(m0, acts, m, t, held, pod, pv, plan, current);
  }

  lemma RestartForgets(m: Machine, k: Key)
    requires k !in m.world.disk
    ensures var m' := RestartStep(m, m.cfg);
            m'.world.history == m.world.history + [Restarted] && k !in m'.world.mem && k !in m'.world.disk
  {
  }

  // ----- a concrete instance -----

  const FILE := StateFile(LEGACY_VERSION, REQUEST, "c1", false, "")

  /** A first start on one version 1 file, whose mount an earlier version left in container c1. */
  const START := Machine(
    CONFIG,
    World(map[RequestKey(REQUEST) := Load(FILE)], map[RequestKey(REQUEST) := FILE],
          [Inherited(RequestKey(REQUEST), "c1")]),
    map[], map[], {}, [])

  /** The same pod with its container replaced. */
  const NEW_POD := POD.(status := Kube.PodStatus("Running", [Kube.ContainerStatus("main", "c2", true)]))

  lemma StartIsInitial()
    ensures Initial(START)
  {
    RequestIsNormal();
    NormalizeYieldsFixed(CONFIG, REQUEST);
    var k := RequestKey(REQUEST);
    assert START.world.history[0] == Inherited(k, "c1");
    assert START.world.mem == map x | x in START.world.disk :: Load(START.world.disk[x]);
  }

  lemma StartCanUnmount()
    ensures var target := UnmountCall(RequestKey(REQUEST), "pv", "c1");
            && Enabled(START, StartUnmount(0, REQUEST, POD))
            && PrepareUnmount(CONFIG, REQUEST, POD) == Ok(target)
            && Lookup(START.world.mem, target.key) == Some(Load(FILE)) && KeyOf(Load(FILE)) == target.key
            && Load(FILE).request.pvName == target.pvName
  {
    CallsArePrepared();
  }

  lemma SecondToLast(h: seq<Event>, e: Event, f: Event)
    ensures |h + [e, f]| >= 2 && (h + [e, f])[|h + [e, f]| - 2] == e
  {
  }

  /** No record of the mount survives this run of an initial machine. */
  lemma ForgottenExample() returns (acts: seq<Action>, plan: NfsPaths.MountPlan)
    ensures Initial(START) && Runs(START, acts)
    ensures var m, k := After(START, acts), RequestKey(REQUEST);
            && |m.world.history| >= 2
            && m.world.history[|m.world.history| - 2] == NodeMount(plan, None, true) && PlanKey(plan) == k
            && k !in m.world.mem && k !in m.world.disk
  {
    StartIsInitial();
    StartCanUnmount();
    var current;
    plan, current := MovesToNew(Load(FILE));
    acts := TornDeleteForgets(START, StartUnmount(0, REQUEST, POD), UnmountCall(RequestKey(REQUEST), "pv", "c1"), 1,
                              Load(FILE), NEW_POD, VOLUME, plan, current);
    SecondToLast(START.world.history + [TornDelete(RequestKey(REQUEST))], NodeMount(plan, None, true), Restarted);
  }

  lemma NewContainer()
    ensures SelectContainerStatus(NEW_POD, "main") == Ok(Kube.ContainerStatus("main", "c2", true))
    ensures MountPlanForPod(CONFIG, REQUEST, NEW_POD, VOLUME).Ok?
    ensures var planned := MountPlanForPod(CONFIG, REQUEST, NEW_POD, VOLUME).value;
            planned.request == REQUEST && planned.plan.containerID == "c2"
              && PlanKey(planned.plan) == RequestKey(REQUEST)
  {
    NfsPaths.NormalizeMeans("");
    assert Lexical.Split("") == [""];
    assert NEW_POD.status.containerStatuses[0].name == "main";
  }

  lemma ReadsNew(held: DesiredMount)
    requires held == Load(FILE)
    ensures Reads(CONFIG, held, NEW_POD)
  {
    RequestIsNormal();
    NewContainer();
    assert PodIdentity(NEW_POD, REQUEST) && PodOnNode(NEW_POD, CONFIG.nodeName);
    assert held.(request := REQUEST.(containerName := "main")) == held;
    assert held.containerID == "c1" && "c1" != "c2";
  }

  lemma MovesToNew(held: DesiredMount) returns (plan: NfsPaths.MountPlan, current: DesiredMount)
    requires held == Load(FILE)
    ensures Moved(CONFIG, held, NEW_POD, VOLUME, plan, current) && PlanKey(plan) == RequestKey(REQUEST)
  {
    ReadsNew(held);
    NewContainer();
    plan := MountPlanForPod(CONFIG, REQUEST, NEW_POD, VOLUME).value.plan;
    current := Reclassify(CONFIG, held, NfsPaths.IsNFSExportRoot(plan)).value;
    assert held.(request := REQUEST) == held;
    assert held.containerID == "c1" && "c1" != "c2";
  }
}
