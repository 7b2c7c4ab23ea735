/**
  A run in which an unmounted record comes back: a mount's first Put fails after
  replacing the file (the rename at internal/wrapper/state.go:253 succeeded, the
  directory sync at 256 did not), so memory has no record; unmount then finds
  nothing and succeeds; the next start loads the file.
*/
module TornWrites {
  import opened Results
  import opened MountRecords
  import opened Authorization
  import opened Sections
  import opened Protocol
  import opened ProtocolRuns
  import Kube
  import Lexical
  import NfsPaths
  import TargetPaths

  const QUIET := Answers(Done, No, Done, Done, true, Done, Done, Done, None)
  const TORN_PEND := Answers(Done, No, Done, Torn, true, Done, Done, Done, None)

  /** The mount: its pending Put is torn and it returns an error, leaving a file and no record. */
  lemma TornMount(m: Machine, act: Action, call: MountCall) returns (acts: seq<Action>, w: World)
    requires act.StartMount? && Enabled(m, act) && m.locks == map[]
    requires PrepareMount(m.cfg, act.raw, act.providedKey, act.pod, act.pv) == Ok(call)
    requires RequestKey(call.request) !in m.world.mem
    ensures Leads(m, acts, m.(world := w))
    ensures w.mem == m.world.mem && w.disk == m.world.disk[RequestKey(call.request) := Persist(Pending(call))]
  {
    var t, k := act.t, RequestKey(call.request);
    var pend := Mounting(call, MountPend(None, None));
    var done := Mounting(call, MountExit(None, MountStoreFailed));
    var w1 := Log(m.world, KeyPresented(k, ShownKey(m.cfg, act.providedKey)));
    var w2 := Log(w1, MountEntered(k));
    w := Put(w2, Pending(call), Torn);
    acts := MountPends(m, act, call);
    Advances(m, t, Handler, w2, pend, TORN_PEND, w, done);
    Releases(m, t, w, done);
    acts := Then(m, acts, With(m, t, Handler, Inside(pend), w2, Some(k)), Advance(t, TORN_PEND),
                 With(m, t, Handler, Inside(done), w, Some(k)));
    acts := Then(m, acts, With(m, t, Handler, Inside(done), w, Some(k)), Release(t), m.(world := w));
  }

  /** A mount of an absent key, up to its first Put. */
  lemma MountPends(m: Machine, act: Action, call: MountCall) returns (acts: seq<Action>)
    requires act.StartMount? && Enabled(m, act) && m.locks == map[]
    requires PrepareMount(m.cfg, act.raw, act.providedKey, act.pod, act.pv) == Ok(call)
    requires RequestKey(call.request) !in m.world.mem
    ensures var k := RequestKey(call.request);
            var w := Log(Log(m.world, KeyPresented(k, ShownKey(m.cfg, act.providedKey))), MountEntered(k));
            Leads(m, acts, With(m, act.t, Handler, Inside(Mounting(call, MountPend(None, None))), w, Some(k)))
  {
    var t, k := act.t, RequestKey(call.request);
    var get, pend := Mounting(call, MountGet), Mounting(call, MountPend(None, None));
    var w1 := Log(m.world, KeyPresented(k, ShownKey(m.cfg, act.providedKey)));
    var w2 := Log(w1, MountEntered(k));
    Acquires(m, t, Handler, w1, get);
    Advances(m, t, Handler, w2, get, QUIET, w2, pend);
    acts := Then(m, [], m, act, With(m, t, Handler, Waiting(get), w1, None));
    acts := Then(m, acts, With(m, t, Handler, Waiting(get), w1, None), Acquire(t),
                 With(m, t, Handler, Inside(get), w2, Some(k)));
    acts := Then(m, acts, With(m, t, Handler, Inside(get), w2, Some(k)), Advance(t, QUIET),
                 With(m, t, Handler, Inside(pend), w2, Some(k)));
  }

  /** Then the unmount: it finds no record in memory and succeeds. */
  lemma EmptyUnmount(m0: Machine, prefix: seq<Action>, m: Machine, act: Action, target: UnmountCall)
    returns (acts: seq<Action>)
    requires Leads(m0, prefix, m)
    requires act.StartUnmount? && Enabled(m, act) && m.locks == map[]
    requires PrepareUnmount(m.cfg, act.raw, act.pod) == Ok(target)
    requires target.key !in m.world.mem
    ensures Leads(m0, acts, m.(world := Log(m.world, Unmounted(target.key))))
  {
    var t, k, w := act.t, target.key, m.world;
    var get, done := Unmounting(target, UnmountGet), Unmounting(target, UnmountExit(None, UnmountDone));
    Acquires(m, t, Handler, w, get);
    Advances(m, t, Handler, w, get, QUIET, w, done);
    Releases(m, t, w, done);
    acts := Then(m0, prefix, m, act, With(m, t, Handler, Waiting(get), w, None));
    acts := Then(m0, acts, With(m, t, Handler, Waiting(get), w, None), Acquire(t),
                 With(m, t, Handler, Inside(get), w, Some(k)));
    acts := Then(m0, acts, With(m, t, Handler, Inside(get), w, Some(k)), Advance(t, QUIET),
                 With(m, t, Handler, Inside(done), w, Some(k)));
    acts := Then(m0, acts, With(m, t, Handler, Inside(done), w, Some(k)), Release(t),
                 m.(world := Log(w, Unmounted(k))));
  }

  /** Any prepared mount and unmount of one absent key give such a run. */
  lemma TornPutResurrects(m: Machine, mount: Action, call: MountCall, unmount: Action) returns (acts: seq<Action>)
    requires mount.StartMount? && Enabled(m, mount) && m.locks == map[]
    requires PrepareMount(m.cfg, mount.raw, mount.providedKey, mount.pod, mount.pv) == Ok(call)
    requires RequestKey(call.request) !in m.world.mem
    requires unmount.StartUnmount? && Enabled(m, unmount)
    requires PrepareUnmount(m.cfg, unmount.raw, unmount.pod).value.key == RequestKey(call.request)
    ensures Runs(m, acts)
    ensures var m', k := After(m, acts), RequestKey(call.request);
            && |m'.world.history| >= 2
            && m'.world.history[|m'.world.history| - 2] == Unmounted(k)
            && k in m'.world.mem
            && m'.world.mem[k] == Pending(call)
  {
    var target := PrepareUnmount(m.cfg, unmount.raw, unmount.pod).value;
    var first, w := TornMount(m, mount, call);
    var m1 := m.(world := w);
    var second := EmptyUnmount(m, first, m1, unmount, target);
    var m2 := m1.(world := Log(w, Unmounted(target.key)));
    acts := Then(m, second, m2, Restart(m.cfg), RestartStep(m2, m.cfg));
    ReloadBrings(m.world, w, call);
  }

  /** The last step of that run: the reload reads the pending record of the file. */
  lemma ReloadBrings(w0: World, w: World, call: MountCall)
    requires w.disk == w0.disk[RequestKey(call.request) := Persist(Pending(call))]
    ensures var k := RequestKey(call.request);
            var w' := Reload(Log(w, Unmounted(k)));
            && |w'.history| >= 2
            && w'.history[|w'.history| - 2] == Unmounted(k)
            && k in w'.mem
            && w'.mem[k] == Pending(call)
  {
  }

  // ----- a concrete instance -----

  const CONFIG := Config("nfs", "", (s: string) => s, None)
  const EMPTY := Machine(CONFIG, World(map[], map[], []), map[], map[], {}, [])
  const REQUEST := MountRequest(API_VERSION, "nfs", "ns", "pod", "uid", "pv", "", "/data", "main")
  const POD := Kube.Pod(
    Kube.ObjectMeta("pod", "ns", "uid", map[], map[], []),
    Kube.PodSpec("sa", "", [], []),
    Kube.PodStatus("Running", [Kube.ContainerStatus("main", "c1", true)]))
  const VOLUME := Kube.PersistentVolume(
    "pv", map[], Some(Kube.CSISource("nfs", "v", map["server" := "s", "share" := "e"])), [])

  lemma DataIsAllowed()
    ensures TargetPaths.ValidateTargetPath("/data") == Ok("/data")
  {
    assert "" + "/" + "data" == "/data";
    Lexical.SplitAt("", "data");
    Lexical.SplitSlashFree("data");
    assert Lexical.Split("") == [""];
    assert Lexical.Split("/data") == ["", "data"];
    assert ["", "data"][1..] == ["data"];
    assert ["data"][1..] == [];
    assert [] + ["data"] == ["data"];
    assert Lexical.Stack("/data") == ["data"];
    TargetPaths.VerdictIsLexical("/data");
    DataOutsideDenied();
    assert TargetPaths.Absolute(["data"]) == "/data";
  }

  lemma DataOutsideDenied()
    ensures TargetPaths.AllowedStack(["data"])
  {
    var roots := TargetPaths.DENIED_ROOTS;
    forall i | 0 <= i < |roots|
      ensures !(roots[i] <= ["data"])
    {
      assert roots[i] != [] && roots[i][0] != "data";
    }
    forall i | 0 <= i < |TargetPaths.DENIED_LEAVES|
      ensures TargetPaths.DENIED_LEAVES[i] != ["data"]
    {
      assert |TargetPaths.DENIED_LEAVES[i]| == 2;
    }
  }

  lemma PlanIsBuilt()
    ensures MountPlanForPod(CONFIG, REQUEST, POD, VOLUME).Ok?
    ensures MountPlanForPod(CONFIG, REQUEST, POD, VOLUME).value.request == REQUEST
  {
    NfsPaths.NormalizeMeans("");
    assert Lexical.Split("") == [""];
    assert SelectContainerStatus(POD, "main") == Ok(POD.status.containerStatuses[0]);
  }

  lemma RequestIsNormal()
    ensures NormalizeMountRequest(CONFIG, REQUEST, true) == Ok(REQUEST)
    ensures NormalizeMountRequest(CONFIG, REQUEST, false) == Ok(REQUEST)
  {
    DataIsAllowed();
  }

  lemma CallsArePrepared()
    ensures PrepareMount(CONFIG, REQUEST, "", POD, VOLUME).Ok?
    ensures PrepareMount(CONFIG, REQUEST, "", POD, VOLUME).value.request == REQUEST
    ensures PrepareUnmount(CONFIG, REQUEST, POD) == Ok(UnmountCall(RequestKey(REQUEST), "pv", "c1"))
  {
    PlanIsBuilt();
    RequestIsNormal();
    assert SelectContainerStatus(POD, "main") == Ok(POD.status.containerStatuses[0]);
  }

  /** No resurrection fails for this run of the empty wrapper. */
  lemma ResurrectionExample() returns (acts: seq<Action>)
    ensures Protocol.Initial(EMPTY) && Runs(EMPTY, acts)
    ensures var m, k := After(EMPTY, acts), RequestKey(REQUEST);
            && |m.world.history| >= 2
            && m.world.history[|m.world.history| - 2] == Unmounted(k)
            && k in m.world.mem
  {
    CallsArePrepared();
    acts := TornPutResurrects(EMPTY, StartMount(0, REQUEST, "", POD, VOLUME),
                              PrepareMount(CONFIG, REQUEST, "", POD, VOLUME).value, StartUnmount(1, REQUEST, POD));
  }
}
