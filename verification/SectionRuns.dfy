/** A critical section run from its entry to its exit with nothing in between, and what that achieves. */
module SectionRuns {
  import opened Results
  import opened MountRecords
  import opened Authorization
  import opened Sections
  import opened Histories
  import opened SectionInvariants
  import Protocol
  import Kube
  import NfsPaths

  function MountLeft(at: MountPoint): nat {
    match at
    case MountGet => 6
    case MountRefresh(_, _) => 5
    case MountCheck(_, _) => 4
    case MountPend(_, _) => 3
    case MountNode(_, _) => 2
    case MountExit(_, _) => 0
    case _ => 1
  }

  function RunMount(cfg: Config, w: World, call: MountCall, at: MountPoint, a: Answers): (r: (World, MountPoint))
    ensures r.1.MountExit?
    decreases MountLeft(at)
  {
    if at.MountExit? then (w, at)
    else
      var (w', at') := MountStep(cfg, w, call, at, a);
      RunMount(cfg, w', call, at', a)
  }

  function UnmountLeft(at: UnmountPoint): nat {
    match at
    case UnmountGet => 5
    case UnmountDelete(_) => 4
    case UnmountCheck(_) => 3
    case UnmountNode(_) => 2
    case UnmountExit(_, _) => 0
    case _ => 1
  }

  function RunUnmount(w: World, target: UnmountCall, at: UnmountPoint, a: Answers): (r: (World, UnmountPoint))
    ensures r.1.UnmountExit?
    decreases UnmountLeft(at)
  {
    if at.UnmountExit? then (w, at)
    else
      var (w', at') := UnmountStep(w, target, at, a);
      RunUnmount(w', target, at', a)
  }

  function ReconcileLeft(at: ReconcilePoint): nat {
    match at
    case ReconcileGet => 5
    case ReconcilePlan(_) => 4
    case ReconcileCheck(_, _) => 3
    case ReconcileNode(_, _) => 2
    case ReconcileRecord(_) => 1
    case ReconcileExit(_, _) => 0
  }

  function RunReconcile(cfg: Config, w: World, job: Job, at: ReconcilePoint, a: Answers): (r: (World, ReconcilePoint))
    ensures r.1.ReconcileExit?
    decreases ReconcileLeft(at)
  {
    if at.ReconcileExit? then (w, at)
    else
      ReconcileShrinks(cfg, w, job, at, a);
      var (w', at') := ReconcileStep(cfg, w, job, at, a);
      RunReconcile(cfg, w', job, at', a)
  }

  lemma ReconcileShrinks(cfg: Config, w: World, job: Job, at: ReconcilePoint, a: Answers)
    requires !at.ReconcileExit?
    ensures ReconcileLeft(ReconcileStep(cfg, w, job, at, a).1) < ReconcileLeft(at)
  {
  }

  lemma NextReconcile(cfg: Config, w: World, job: Job, at: ReconcilePoint, a: Answers)
    requires !at.ReconcileExit?
    ensures var (w', at') := ReconcileStep(cfg, w, job, at, a);
            ReconcileLeft(at') < ReconcileLeft(at)
              && RunReconcile(cfg, w, job, at, a) == RunReconcile(cfg, w', job, at', a)
  {
  }

  function RemoveLeft(at: RemovePoint): nat {
    match at
    case RemoveGet => 2
    case RemoveDelete => 1
    case RemoveExit => 0
  }

  function RunRemove(w: World, snapshot: DesiredMount, at: RemovePoint, a: Answers): (r: (World, RemovePoint))
    ensures r.1.RemoveExit?
    decreases RemoveLeft(at)
  {
    if at.RemoveExit? then (w, at)
    else
      var (w', at') := RemoveStep(w, snapshot, at, a);
      RunRemove(w', snapshot, at', a)
  }

  // ----- a few steps at once -----

  lemma LastMountRestore(cfg: Config, w: World, call: MountCall, entry: Option<DesiredMount>,
                         prev: Option<DesiredMount>, a: Answers)
    ensures var k := RequestKey(call.request);
            RunMount(cfg, w, call, MountRestore(entry, prev), a) ==
            if prev.Some? then
              (Put(w, prev.value, a.restore),
               MountExit(entry, if a.restore.Done? then MountRolledBack else MountRestoreFailed))
            else
              (Delete(w, k, a.restore),
               MountExit(entry, if DeleteOk(w, k, a.restore) then MountRolledBack else MountRestoreFailed))
  {
    var (w', at') := MountStep(cfg, w, call, MountRestore(entry, prev), a);
    assert RunMount(cfg, w, call, MountRestore(entry, prev), a) == RunMount(cfg, w', call, at', a);
  }

  lemma LastMountRecord(cfg: Config, w: World, call: MountCall, entry: Option<DesiredMount>, a: Answers)
    ensures RunMount(cfg, w, call, MountRecord(entry), a) ==
            (Put(w, Pending(call).(containerID := call.plan.containerID), a.record), MountExit(entry, Mounted))
  {
    var (w', at') := MountStep(cfg, w, call, MountRecord(entry), a);
    assert RunMount(cfg, w, call, MountRecord(entry), a) == RunMount(cfg, w', call, at', a);
  }

  lemma LastUnmountRestore(w: World, target: UnmountCall, held: DesiredMount, a: Answers)
    ensures RunUnmount(w, target, UnmountRestore(held), a) ==
            (Put(w, held, a.restore),
             UnmountExit(Some(held), if a.restore.Done? then UnmountRolledBack else UnmountRestoreFailed))
  {
    var (w', at') := UnmountStep(w, target, UnmountRestore(held), a);
    assert RunUnmount(w, target, UnmountRestore(held), a) == RunUnmount(w', target, at', a);
  }

  lemma LastReconcileRecord(cfg: Config, w: World, job: Job, current: DesiredMount, a: Answers)
    ensures RunReconcile(cfg, w, job, ReconcileRecord(current), a) ==
            (Put(w, current, a.record), ReconcileExit(if a.record.Done? then Settled else Failed, true))
  {
    var (w', at') := ReconcileStep(cfg, w, job, ReconcileRecord(current), a);
    assert RunReconcile(cfg, w, job, ReconcileRecord(current), a) == RunReconcile(cfg, w', job, at', a);
  }

  lemma BegunMount(cfg: Config, w: World, call: MountCall, a: Answers)
    ensures var entry := Lookup(w.mem, RequestKey(call.request));
            RunMount(cfg, w, call, MountGet, a) ==
            if && entry.Some?
               && (entry.value.request != call.request || entry.value.rootAuthorized != Pending(call).rootAuthorized)
            then (w, MountExit(entry, MountRefused))
            else if entry.Some? && entry.value.fingerprint != call.fingerprint then
              var refreshed := entry.value.(fingerprint := call.fingerprint);
              var w1 := Put(w, refreshed, a.refresh);
              if a.refresh.Done? then RunMount(cfg, w1, call, MountAfterRefresh(call, entry, Some(refreshed)), a)
              else (w1, MountExit(entry, MountStoreFailed))
            else RunMount(cfg, w, call, MountAfterRefresh(call, entry, entry), a)
  {
    var at := MountRead(w, call);
    assert RunMount(cfg, w, call, MountGet, a) == RunMount(cfg, w, call, at, a);
    if at.MountRefresh? {
      var (w1, at1) := MountStep(cfg, w, call, at, a);
      assert RunMount(cfg, w, call, at, a) == RunMount(cfg, w1, call, at1, a);
    }
  }

  lemma BegunUnmount(w: World, target: UnmountCall, a: Answers)
    ensures var met, w1 := Lookup(w.mem, target.key), Delete(w, target.key, a.delete);
            RunUnmount(w, target, UnmountGet, a) ==
            if met.None? then (w, UnmountExit(met, UnmountDone))
            else if met.value.request.pvName != target.pvName then (w, UnmountExit(met, UnmountRefused))
            else if met.value.containerID == "" || met.value.containerID != target.containerID then
              (w1, UnmountExit(met, if a.delete.Done? then UnmountDone else UnmountRefused))
            else if a.delete.Done? then RunUnmount(w1, target, UnmountCheck(met.value), a)
            else (w1, UnmountExit(met, UnmountRefused))
  {
    var at := UnmountRead(w, target);
    assert RunUnmount(w, target, UnmountGet, a) == RunUnmount(w, target, at, a);
    if !at.UnmountExit? {
      var (w1, at1) := UnmountStep(w, target, at, a);
      assert RunUnmount(w, target, at, a) == RunUnmount(w1, target, at1, a);
    }
  }

  lemma CheckedMount(cfg: Config, w: World, call: MountCall, entry: Option<DesiredMount>, found: DesiredMount,
                     a: Answers)
    ensures var c := call.plan.containerID;
            RunMount(cfg, w, call, MountCheck(entry, found), a) ==
            match a.check
            case CheckFailed => (w, MountExit(entry, CheckError))
            case No => RunMount(cfg, w, call, MountPend(entry, Some(found)), a)
            case Yes =>
              if found.containerID == c then (w, MountExit(entry, AlreadyMounted))
              else (Put(Log(w, Observed(RequestKey(call.request), c)), found.(containerID := c), a.adopt),
                    MountExit(entry, if a.adopt.Done? then AlreadyMounted else MountStoreFailed))
  {
    var (w1, at1) := MountStep(cfg, w, call, MountCheck(entry, found), a);
    assert RunMount(cfg, w, call, MountCheck(entry, found), a) == RunMount(cfg, w1, call, at1, a);
    if at1.MountAdopt? {
      var (w2, at2) := MountStep(cfg, w1, call, at1, a);
      assert RunMount(cfg, w1, call, at1, a) == RunMount(cfg, w2, call, at2, a);
    }
  }

  lemma PendedMount(cfg: Config, w: World, call: MountCall, entry: Option<DesiredMount>, prev: Option<DesiredMount>,
                    a: Answers)
    ensures var w1 := Put(w, Pending(call), a.pend);
            RunMount(cfg, w, call, MountPend(entry, prev), a) ==
            if a.pend.Done? then RunMount(cfg, w1, call, MountNode(entry, prev), a)
            else (w1, MountExit(entry, MountStoreFailed))
  {
    var (w1, at1) := MountStep(cfg, w, call, MountPend(entry, prev), a);
    assert RunMount(cfg, w, call, MountPend(entry, prev), a) == RunMount(cfg, w1, call, at1, a);
  }

  lemma CalledMount(cfg: Config, w: World, call: MountCall, entry: Option<DesiredMount>, prev: Option<DesiredMount>,
                    a: Answers)
    ensures var w1 := Log(w, NodeMount(call.plan, cfg.rootKey, a.node));
            RunMount(cfg, w, call, MountNode(entry, prev), a) ==
            RunMount(cfg, w1, call, if a.node then MountRecord(entry) else MountRestore(entry, prev), a)
  {
    var (w1, at1) := MountStep(cfg, w, call, MountNode(entry, prev), a);
    assert RunMount(cfg, w, call, MountNode(entry, prev), a) == RunMount(cfg, w1, call, at1, a);
  }

  lemma CheckedUnmountRun(w: World, target: UnmountCall, held: DesiredMount, a: Answers)
    ensures var w1 := Log(w, NodeUnmount(target.key, target.containerID, a.node));
            RunUnmount(w, target, UnmountCheck(held), a) ==
            match a.check
            case CheckFailed => RunUnmount(w, target, UnmountRestore(held), a)
            case No => (w, UnmountExit(Some(held), UnmountDone))
            case Yes =>
              if a.node then (w1, UnmountExit(Some(held), UnmountDone))
              else RunUnmount(w1, target, UnmountRestore(held), a)
  {
    var (w1, at1) := UnmountStep(w, target, UnmountCheck(held), a);
    assert RunUnmount(w, target, UnmountCheck(held), a) == RunUnmount(w1, target, at1, a);
    if at1.UnmountNode? {
      var (w2, at2) := UnmountStep(w1, target, at1, a);
      assert RunUnmount(w1, target, at1, a) == RunUnmount(w2, target, at2, a);
    }
  }

  lemma ReadReconcile(cfg: Config, w: World, job: Job, a: Answers)
    ensures var at := ReconcileRead(cfg, w, job);
            RunReconcile(cfg, w, job, ReconcileGet, a) ==
            if at.ReconcileExit? then (w, at) else RunReconcile(cfg, w, job, at, a)
  {
    assert RunReconcile(cfg, w, job, ReconcileGet, a) == RunReconcile(cfg, w, job, ReconcileRead(cfg, w, job), a);
  }

  lemma PlannedReconcile(cfg: Config, w: World, job: Job, current: DesiredMount, a: Answers)
    ensures var at := ReconcilePlanned(cfg, job, current, a.pv);
            RunReconcile(cfg, w, job, ReconcilePlan(current), a) ==
            if at.ReconcileExit? then (w, at) else RunReconcile(cfg, w, job, at, a)
  {
    var at := ReconcilePlanned(cfg, job, current, a.pv);
    assert RunReconcile(cfg, w, job, ReconcilePlan(current), a) == RunReconcile(cfg, w, job, at, a);
  }

  lemma CheckedReconcile(cfg: Config, w: World, job: Job, plan: NfsPaths.MountPlan, current: DesiredMount, a: Answers)
    ensures var c := plan.containerID;
            RunReconcile(cfg, w, job, ReconcileCheck(plan, current), a) ==
            match a.check
            case CheckFailed => (w, ReconcileExit(Failed))
            case No => RunReconcile(cfg, w, job, ReconcileNode(plan, current), a)
            case Yes =>
              if current.containerID == c then (w, ReconcileExit(Settled))
              else RunReconcile(cfg, Log(w, Observed(KeyOf(job.snapshot), c)), job,
                                ReconcileRecord(current.(containerID := c)), a)
  {
    var (w1, at1) := ReconcileStep(cfg, w, job, ReconcileCheck(plan, current), a);
    assert RunReconcile(cfg, w, job, ReconcileCheck(plan, current), a) == RunReconcile(cfg, w1, job, at1, a);
  }

  lemma CalledReconcile(cfg: Config, w: World, job: Job, plan: NfsPaths.MountPlan, current: DesiredMount, a: Answers)
    ensures var w1 := Log(w, NodeMount(plan, cfg.rootKey, a.node));
            RunReconcile(cfg, w, job, ReconcileNode(plan, current), a) ==
            if a.node then RunReconcile(cfg, w1, job, ReconcileRecord(current.(containerID := plan.containerID)), a)
            else (w1, ReconcileExit(Failed))
  {
    var (w1, at1) := ReconcileStep(cfg, w, job, ReconcileNode(plan, current), a);
    assert RunReconcile(cfg, w, job, ReconcileNode(plan, current), a) == RunReconcile(cfg, w1, job, at1, a);
  }

  // ----- what stays -----

  /** From w to w' only k was touched, and every event logged is about k. */
  ghost predicate Within(w: World, w': World, k: Key) {
    && SameElsewhere(w, w', k)
    && w.history <= w'.history
    && forall i :: |w.history| <= i < |w'.history| ==> About(w'.history[i], k)
  }

  lemma WithinStep(w: World, w': World, w'': World, k: Key)
    requires Confined(w, w', k) && Within(w', w'', k)
    ensures Within(w, w'', k)
  {
    forall x | x != k
      ensures Lookup(w.mem, x) == Lookup(w''.mem, x) && Lookup(w.disk, x) == Lookup(w''.disk, x)
    {
      assert Lookup(w.mem, x) == Lookup(w'.mem, x) && Lookup(w.disk, x) == Lookup(w'.disk, x);
    }
    assert w.history <= w'.history;
  }

  lemma MountStepShrinks(cfg: Config, w: World, call: MountCall, at: MountPoint, a: Answers)
    requires !at.MountExit?
    ensures MountLeft(MountStep(cfg, w, call, at, a).1) < MountLeft(at)
  {
  }

  lemma {:induction false} RunMountKnows(cfg: Config, w: World, call: MountCall, at: MountPoint, a: Answers)
    requires WorldOk(w) && MountKnows(cfg, w, call, at)
    ensures var (w', at') := RunMount(cfg, w, call, at, a); WorldOk(w') && MountKnows(cfg, w', call, at')
    decreases MountLeft(at)
  {
    if !at.MountExit? {
      MountStepShrinks(cfg, w, call, at, a);
      MountKeeps(cfg, w, call, at, a);
      var (w1, at1) := MountStep(cfg, w, call, at, a);
      RunMountKnows(cfg, w1, call, at1, a);
    }
  }

  lemma {:induction false} RunMountWithin(cfg: Config, w: World, call: MountCall, at: MountPoint, a: Answers)
    requires WorldOk(w) && MountKnows(cfg, w, call, at)
    ensures Within(w, RunMount(cfg, w, call, at, a).0, RequestKey(call.request))
    decreases MountLeft(at)
  {
    if !at.MountExit? {
      MountStepShrinks(cfg, w, call, at, a);
      MountKeeps(cfg, w, call, at, a);
      var (w1, at1) := MountStep(cfg, w, call, at, a);
      RunMountWithin(cfg, w1, call, at1, a);
      WithinStep(w, w1, RunMount(cfg, w1, call, at1, a).0, RequestKey(call.request));
    }
  }

  lemma RunMountKeeps(cfg: Config, w: World, call: MountCall, at: MountPoint, a: Answers)
    requires WorldOk(w) && MountKnows(cfg, w, call, at)
    ensures var (w', at') := RunMount(cfg, w, call, at, a);
            WorldOk(w') && MountKnows(cfg, w', call, at') && Within(w, w', RequestKey(call.request))
  {
    RunMountKnows(cfg, w, call, at, a);
    RunMountWithin(cfg, w, call, at, a);
  }

  lemma {:induction false} RunUnmountKeeps(w: World, target: UnmountCall, at: UnmountPoint, a: Answers)
    requires WorldOk(w) && UnmountKnows(w, target, at)
    ensures var (w', at') := RunUnmount(w, target, at, a);
            WorldOk(w') && UnmountKnows(w', target, at') && Within(w, w', target.key)
    decreases UnmountLeft(at)
  {
    if !at.UnmountExit? {
      UnmountKeeps(w, target, at, a);
      var (w1, at1) := UnmountStep(w, target, at, a);
      RunUnmountKeeps(w1, target, at1, a);
      WithinStep(w, w1, RunUnmount(w1, target, at1, a).0, target.key);
    }
  }

  lemma {:induction false} RunReconcileKeeps(cfg: Config, w: World, job: Job, at: ReconcilePoint, a: Answers)
    requires WorldOk(w) && ReconcileKnows(cfg, w, job, at)
    ensures var (w', at') := RunReconcile(cfg, w, job, at, a);
            WorldOk(w') && ReconcileKnows(cfg, w', job, at') && Within(w, w', KeyOf(job.snapshot))
    decreases ReconcileLeft(at)
  {
    if !at.ReconcileExit? {
      ReconcileKeeps(cfg, w, job, at, a);
      var (w1, at1) := ReconcileStep(cfg, w, job, at, a);
      RunReconcileKeeps(cfg, w1, job, at1, a);
      WithinStep(w, w1, RunReconcile(cfg, w1, job, at1, a).0, KeyOf(job.snapshot));
    }
  }

  /**
    Removing a stale record: one that is not the record that was judged stays, and
    nothing at all happens; one that is goes from memory and disk if the store
    lets it, stays if it does not, and loses its file alone if the delete is torn.
  */
  lemma RemoveMeans(w: World, snapshot: DesiredMount, a: Answers)
    ensures var k := KeyOf(snapshot);
            RunRemove(w, snapshot, RemoveGet, a).0 ==
            if k !in w.mem || w.mem[k] != snapshot || a.delete.Refused? then w
            else if a.delete.Done? then World(w.mem - {k}, w.disk - {k}, w.history + [Removed(k)])
            else World(w.mem, w.disk - {k}, w.history + [TornDelete(k)])
  {
    var (w1, at1) := RemoveStep(w, snapshot, RemoveGet, a);
    assert RunRemove(w, snapshot, RemoveGet, a) == RunRemove(w1, snapshot, at1, a);
    if at1.RemoveDelete? {
      var (w2, at2) := RemoveStep(w1, snapshot, at1, a);
      assert RunRemove(w1, snapshot, at1, a) == RunRemove(w2, snapshot, at2, a);
    }
  }

  lemma RunRemoveKeeps(w: World, snapshot: DesiredMount, a: Answers)
    requires WorldOk(w)
    ensures var (w', _) := RunRemove(w, snapshot, RemoveGet, a); WorldOk(w') && Within(w, w', KeyOf(snapshot))
  {
    RemoveMeans(w, snapshot, a);
    DeleteKeeps(w, KeyOf(snapshot), a.delete);
    var (w', _) := RunRemove(w, snapshot, RemoveGet, a);
    assert w' == w || w' == Delete(w, KeyOf(snapshot), a.delete);
    WithinStep(w, w', w', KeyOf(snapshot));
  }

  // ----- rollback -----

  function EntryOf(at: MountPoint): Option<DesiredMount>
    requires !at.MountGet?
  {
    at.entry
  }

  lemma {:induction false} EntryStays(cfg: Config, w: World, call: MountCall, at: MountPoint, a: Answers)
    requires !at.MountGet?
    ensures EntryOf(RunMount(cfg, w, call, at, a).1) == EntryOf(at)
    decreases MountLeft(at)
  {
    if !at.MountExit? {
      var (w1, at1) := MountStep(cfg, w, call, at, a);
      EntryStays(cfg, w1, call, at1, a);
    }
  }

  /**
    A whole mount section that was rolled back, or refused, leaves every other
    key alone, an absent key absent, and a present record as it was, except for
    the fingerprint the call was authorized with.
  */
  lemma MountRollback(cfg: Config, w: World, call: MountCall, a: Answers)
    requires WorldOk(w) && MountKnows(cfg, w, call, MountGet)
    ensures var (w', at') := RunMount(cfg, w, call, MountGet, a);
            var k := RequestKey(call.request);
            && SameElsewhere(w, w', k)
            && (at'.outcome.MountRefused? ==> Lookup(w'.mem, k) == Lookup(w.mem, k))
            && (at'.outcome.MountRolledBack? ==>
                  if k !in w.mem then k !in w'.mem
                  else Lookup(w'.mem, k) == Some(w.mem[k].(fingerprint := call.fingerprint)))
  {
    RunMountKeeps(cfg, w, call, MountGet, a);
    EntryStays(cfg, w, call, MountRead(w, call), a);
  }

  function MetOf(at: UnmountPoint): Option<DesiredMount>
    requires !at.UnmountGet?
  {
    if at.UnmountExit? then at.met else Some(at.held)
  }

  lemma {:induction false} MetStays(w: World, target: UnmountCall, at: UnmountPoint, a: Answers)
    requires !at.UnmountGet?
    ensures MetOf(RunUnmount(w, target, at, a).1) == MetOf(at)
    decreases UnmountLeft(at)
  {
    if !at.UnmountExit? {
      var (w1, at1) := UnmountStep(w, target, at, a);
      MetStays(w1, target, at1, a);
    }
  }

  /**
    A whole unmount section leaves every other key alone; it either removes the record
    or, refused or rolled back, keeps it exactly.
  */
  lemma UnmountRollback(w: World, target: UnmountCall, a: Answers)
    requires WorldOk(w)
    ensures var (w', at') := RunUnmount(w, target, UnmountGet, a);
            && SameElsewhere(w, w', target.key)
            && (at'.outcome.UnmountDone? ==> target.key !in w'.mem)
            && (at'.outcome.UnmountRefused? || at'.outcome.UnmountRolledBack? ==>
                  Lookup(w'.mem, target.key) == Lookup(w.mem, target.key))
  {
    RunUnmountKeeps(w, target, UnmountGet, a);
    MetStays(w, target, UnmountRead(w, target), a);
  }

  // ----- what an unmount's success says about the node -----

  /**
    A successful unmount called the node exactly when it found a record naming
    the container it was asked about and the mount still there; a pending record
    or one of another container is dropped with the node left alone.
  */
  lemma UnmountDoneMeans(w: World, target: UnmountCall, a: Answers)
    requires RunUnmount(w, target, UnmountGet, a).1.outcome.UnmountDone? && target.containerID != ""
    ensures var w' := RunUnmount(w, target, UnmountGet, a).0;
            (exists i :: |w.history| <= i < |w'.history| &&
                         w'.history[i] == NodeUnmount(target.key, target.containerID, true)) <==>
            target.key in w.mem && w.mem[target.key].containerID == target.containerID && a.check.Yes?
  {
    var k := target.key;
    if k in w.mem && w.mem[k].containerID == target.containerID {
      UnmountOwnContainer(w, target, a);
      var w' := RunUnmount(w, target, UnmountGet, a).0;
      assert w'.history[|w.history|] == Removed(k);
      if a.check.Yes? {
        assert w'.history[|w.history| + 1] == NodeUnmount(k, target.containerID, true);
      }
    } else {
      UnmountLeavesNode(w, target, a);
    }
  }

  lemma UnmountOwnContainer(w: World, target: UnmountCall, a: Answers)
    requires RunUnmount(w, target, UnmountGet, a).1.outcome.UnmountDone?
    requires target.key in w.mem && w.mem[target.key].containerID == target.containerID != ""
    ensures var w', w1 := RunUnmount(w, target, UnmountGet, a).0, Delete(w, target.key, a.delete);
            && a.delete.Done?
            && w' == (if a.check.Yes? then Log(w1, NodeUnmount(target.key, target.containerID, true)) else w1)
            && w1.history == w.history + [Removed(target.key)]
  {
    var k, held := target.key, w.mem[target.key];
    if held.request.pvName == target.pvName {
      var w1 := Delete(w, k, a.delete);
      assert RunUnmount(w, target, UnmountGet, a) == RunUnmount(w, target, UnmountDelete(held), a);
      if a.delete.Done? {
        assert RunUnmount(w, target, UnmountDelete(held), a) == RunUnmount(w1, target, UnmountCheck(held), a);
        CheckedUnmount(w1, target, held, a);
      }
    }
  }

  lemma CheckedUnmount(w: World, target: UnmountCall, held: DesiredMount, a: Answers)
    ensures var (w', at') := RunUnmount(w, target, UnmountCheck(held), a);
            at'.outcome.UnmountDone? ==>
              w' == if a.check.Yes? then Log(w, NodeUnmount(target.key, target.containerID, true)) else w
  {
    CheckedUnmountRun(w, target, held, a);
    RestoredIsNotDone(w, target, held, a);
    RestoredIsNotDone(Log(w, NodeUnmount(target.key, target.containerID, a.node)), target, held, a);
  }

  lemma RestoredIsNotDone(w: World, target: UnmountCall, held: DesiredMount, a: Answers)
    ensures !RunUnmount(w, target, UnmountRestore(held), a).1.outcome.UnmountDone?
  {
    LastUnmountRestore(w, target, held, a);
  }

  lemma UnmountLeavesNode(w: World, target: UnmountCall, a: Answers)
    requires !(target.key in w.mem && w.mem[target.key].containerID == target.containerID && target.containerID != "")
    ensures var w' := RunUnmount(w, target, UnmountGet, a).0;
            forall i :: |w.history| <= i < |w'.history| ==> !w'.history[i].NodeUnmount?
  {
    var at := UnmountRead(w, target);
    assert !at.UnmountDelete?;
    assert RunUnmount(w, target, UnmountGet, a) == RunUnmount(w, target, at, a);
  }

  // ----- idempotent remount -----

  predicate NodeMountFree(h: History, h': History) {
    && h <= h'
    && forall i :: |h| <= i < |h'| ==> !h'[i].NodeMount?
  }

  /** k's record is for this request, root selection and container, and its file says so too. */
  ghost predicate Recorded(w: World, request: MountRequest, isRoot: bool, containerID: string) {
    var k := RequestKey(request);
    && k in w.mem && w.mem[k].request == request && w.mem[k].rootAuthorized == isRoot
       && w.mem[k].containerID == containerID
    && k in w.disk && ReadsBackAs(w.disk[k], w.mem[k])
  }

  /** Mounting again what is recorded and mounted changes at most the fingerprint and leaves the node alone. */
  lemma RemountIsIdempotent(cfg: Config, w: World, call: MountCall, a: Answers)
    requires Recorded(w, call.request, NfsPaths.IsNFSExportRoot(call.plan), call.plan.containerID)
    requires a.refresh.Done? && a.check.Yes?
    ensures var (w', at') := RunMount(cfg, w, call, MountGet, a);
            var k := RequestKey(call.request);
            && at'.outcome.AlreadyMounted?
            && w'.mem == w.mem[k := w.mem[k].(fingerprint := call.fingerprint)]
            && Recorded(w', call.request, NfsPaths.IsNFSExportRoot(call.plan), call.plan.containerID)
            && NodeMountFree(w.history, w'.history)
            && (w.mem[k].fingerprint == call.fingerprint ==> w' == w)
  {
    var k := RequestKey(call.request);
    var entry := w.mem[k];
    var refreshed := entry.(fingerprint := call.fingerprint);
    if entry.fingerprint == call.fingerprint {
      assert refreshed == entry && w.mem[k := entry] == w.mem;
      assert MountRead(w, call) == MountCheck(Some(entry), entry);
      assert RunMount(cfg, w, call, MountGet, a) == RunMount(cfg, w, call, MountCheck(Some(entry), entry), a);
    } else {
      var w1 := Put(w, refreshed, Done);
      assert MountRead(w, call) == MountRefresh(Some(entry), refreshed);
      assert RunMount(cfg, w, call, MountGet, a) == RunMount(cfg, w, call, MountRefresh(Some(entry), refreshed), a);
      assert MountAfterRefresh(call, Some(entry), Some(refreshed)) == MountCheck(Some(entry), refreshed);
      assert RunMount(cfg, w, call, MountRefresh(Some(entry), refreshed), a)
          == RunMount(cfg, w1, call, MountCheck(Some(entry), refreshed), a);
      assert RunMount(cfg, w1, call, MountCheck(Some(entry), refreshed), a) ==
        (w1, MountExit(Some(entry), AlreadyMounted));
    }
  }

  /** A first mount that called the node and recorded its container is recorded. */
  lemma MountIsRecorded(cfg: Config, w: World, call: MountCall, a: Answers)
    requires WorldOk(w) && MountKnows(cfg, w, call, MountGet)
    requires RunMount(cfg, w, call, MountGet, a).1.outcome.Mounted? && a.record.Done?
    ensures Recorded(RunMount(cfg, w, call, MountGet, a).0, call.request, NfsPaths.IsNFSExportRoot(call.plan),
                     call.plan.containerID)
  {
    RunRecorded(cfg, w, call, MountGet, a);
  }

  lemma {:induction false} RunRecorded(cfg: Config, w: World, call: MountCall, at: MountPoint, a: Answers)
    requires a.record.Done? && !(at.MountExit? && at.outcome.Mounted?)
    requires RunMount(cfg, w, call, at, a).1.outcome.Mounted?
    ensures Recorded(RunMount(cfg, w, call, at, a).0, call.request, NfsPaths.IsNFSExportRoot(call.plan),
                     call.plan.containerID)
    decreases MountLeft(at)
  {
    if at.MountRecord? {
      LastMountRecord(cfg, w, call, at.entry, a);
    } else if !at.MountExit? {
      var (w1, at1) := MountStep(cfg, w, call, at, a);
      RunRecorded(cfg, w1, call, at1, a);
    }
  }

  /** One more call for a recorded mount, perhaps after a restart with another key. */
  datatype Remount = Remount(restart: bool, cfg: Config, call: MountCall, answers: Answers)

  function AfterRemount(w: World, m: Remount): World {
    RunMount(m.cfg, if m.restart then Protocol.Reload(w) else w, m.call, MountGet, m.answers).0
  }

  function AfterRemounts(w: World, ms: seq<Remount>): World
    decreases |ms|
  {
    if ms == [] then w else AfterRemounts(AfterRemount(w, ms[0]), ms[1..])
  }

  /** The call is for this request, root selection and container, and finds the target mounted. */
  predicate Matches(m: Remount, request: MountRequest, isRoot: bool, containerID: string) {
    && m.call.request == request
    && NfsPaths.IsNFSExportRoot(m.call.plan) == isRoot
    && m.call.plan.containerID == containerID
    && m.answers.refresh.Done? && m.answers.check.Yes?
  }

  /** What each of the calls returned. */
  function Outcomes(w: World, ms: seq<Remount>): (outcomes: seq<MountOutcome>)
    ensures |outcomes| == |ms|
    decreases |ms|
  {
    if ms == [] then []
    else
      var w1 := if ms[0].restart then Protocol.Reload(w) else w;
      [RunMount(ms[0].cfg, w1, ms[0].call, MountGet, ms[0].answers).1.outcome] +
        Outcomes(AfterRemount(w, ms[0]), ms[1..])
  }

  lemma ReloadKeepsRecorded(w: World, request: MountRequest, isRoot: bool, containerID: string)
    requires Recorded(w, request, isRoot, containerID)
    ensures Recorded(Protocol.Reload(w), request, isRoot, containerID)
    ensures NodeMountFree(w.history, Protocol.Reload(w).history)
  {
  }

  lemma OneRemount(w: World, m: Remount, request: MountRequest, isRoot: bool, containerID: string)
    requires Recorded(w, request, isRoot, containerID) && Matches(m, request, isRoot, containerID)
    ensures var w' := AfterRemount(w, m);
            && Recorded(w', request, isRoot, containerID)
            && NodeMountFree(w.history, w'.history)
            && w'.mem[RequestKey(request)].fingerprint == m.call.fingerprint
    ensures Outcomes(w, [m]) == [AlreadyMounted]
  {
    ReloadKeepsRecorded(w, request, isRoot, containerID);
    RemountIsIdempotent(m.cfg, if m.restart then Protocol.Reload(w) else w, m.call, m.answers);
  }

  lemma FreeChain(h: History, h': History, h'': History)
    requires NodeMountFree(h, h') && NodeMountFree(h', h'')
    ensures NodeMountFree(h, h'')
  {
  }

  lemma {:induction false} RemountsAreIdempotent(w: World, ms: seq<Remount>, request: MountRequest, isRoot: bool,
                                                 containerID: string)
    requires Recorded(w, request, isRoot, containerID)
    requires forall i :: 0 <= i < |ms| ==> Matches(ms[i], request, isRoot, containerID)
    ensures var w' := AfterRemounts(w, ms);
            && Recorded(w', request, isRoot, containerID)
            && NodeMountFree(w.history, w'.history)
            && (ms != [] ==> w'.mem[RequestKey(request)].fingerprint == ms[|ms| - 1].call.fingerprint)
    ensures forall i :: 0 <= i < |ms| ==> Outcomes(w, ms)[i] == AlreadyMounted
    decreases |ms|
  {
    if ms != [] {
      var w1 := AfterRemount(w, ms[0]);
      OneRemount(w, ms[0], request, isRoot, containerID);
      RemountsAreIdempotent(w1, ms[1..], request, isRoot, containerID);
      FreeChain(w.history, w1.history, AfterRemounts(w1, ms[1..]).history);
      assert Outcomes(w, ms) == Outcomes(w, [ms[0]])[..1] + Outcomes(w1, ms[1..]);
    }
  }

  /** A repeat as its caller makes it. */
  datatype Repeat = Repeat(
    restart: bool,
    cfg: Config,
    raw: MountRequest,
    providedKey: string,
    pod: Kube.Pod,
    pv: Kube.PersistentVolume,
    answers: Answers)

  /** It is authorized as the given call. */
  ghost predicate Calls(r: Repeat, m: Remount) {
    && PrepareMount(r.cfg, r.raw, r.providedKey, r.pod, r.pv) == Ok(m.call)
    && m.restart == r.restart && m.cfg == r.cfg && m.answers == r.answers
  }

  lemma CallMatches(r: Repeat, m: Remount, request: MountRequest, isRoot: bool, containerID: string)
    requires Calls(r, m) && Matches(m, request, isRoot, containerID)
    ensures m.call.fingerprint == if isRoot && r.cfg.rootKey.Some? then r.cfg.rootKey.value else ""
  {
  }

  /**
    Any number of repeats of a recorded mount, in any spelling that normalizes to
    the same request and across restarts that change the key, each satisfied by
    its caller, while the container lives and the target stays mounted: no node
    Mount, and a record that differs at most in its fingerprint, which ends as
    the key last configured, or empty if there is none or the plan is no root.
  */
  lemma RepeatsAreIdempotent(w: World, rs: seq<Repeat>, ms: seq<Remount>, request: MountRequest, isRoot: bool,
                             containerID: string)
    requires Recorded(w, request, isRoot, containerID)
    requires |rs| == |ms| && forall i :: 0 <= i < |ms| ==>
             Calls(rs[i], ms[i]) && Matches(ms[i], request, isRoot, containerID)
    ensures var w', key := AfterRemounts(w, ms), if rs == [] then None else rs[|rs| - 1].cfg.rootKey;
            && Recorded(w', request, isRoot, containerID)
            && NodeMountFree(w.history, w'.history)
            && (rs != [] ==> w'.mem[RequestKey(request)].fingerprint == if isRoot && key.Some? then key.value else "")
    ensures forall i :: 0 <= i < |ms| ==> Outcomes(w, ms)[i] == AlreadyMounted
  {
    RemountsAreIdempotent(w, ms, request, isRoot, containerID);
    if rs != [] {
      CallMatches(rs[|rs| - 1], ms[|ms| - 1], request, isRoot, containerID);
    }
  }

  // ----- convergence -----

  /** The record names the container its pod now runs, and the pod is still the record's. */
  predicate Converged(cfg: Config, r: DesiredMount, pod: Kube.Pod) {
    var status := SelectContainerStatus(pod, r.request.containerName);
    && ValidShape(cfg, r.request)
    && PodIdentity(pod, r.request)
    && PodOnNode(pod, cfg.nodeName)
    && status.Ok?
    && r.containerID == status.value.containerID
  }

  /** What a reconcile of a canonical record is on its way to. */
  ghost predicate Heading(cfg: Config, w: World, job: Job, at: ReconcilePoint) {
    var k, request := KeyOf(job.snapshot), job.snapshot.request;
    var status := SelectContainerStatus(job.pod, request.containerName);
    match at
    case ReconcileGet => true
    case ReconcileExit(verdict, _) => verdict.Settled? ==> k in w.mem && Converged(cfg, w.mem[k], job.pod)
    case _ =>
      && ValidShape(cfg, request) && PodIdentity(job.pod, request) && PodOnNode(job.pod, cfg.nodeName) && status.Ok?
      && match at
         case ReconcileCheck(plan, current) => plan.containerID == status.value.containerID
         case ReconcileNode(plan, current) => plan.containerID == status.value.containerID
         case ReconcileRecord(current) => current.containerID == status.value.containerID
         case _ => true
  }

  lemma HeadingRead(cfg: Config, w: World, job: Job)
    requires WorldOk(w) && Lookup(w.mem, KeyOf(job.snapshot)) == Some(job.snapshot)
    ensures Heading(cfg, w, job, ReconcileRead(cfg, w, job))
  {
    assert KeyOk(w, KeyOf(job.snapshot));
    NormalizeCanonical(cfg, job.snapshot.request);
  }

  lemma HeadingPlanned(cfg: Config, w: World, job: Job, current: DesiredMount, pv: Option<Kube.PersistentVolume>)
    requires WorldOk(w) && ReconcileKnows(cfg, w, job, ReconcilePlan(current))
             && Heading(cfg, w, job, ReconcilePlan(current))
    ensures Heading(cfg, w, job, ReconcilePlanned(cfg, job, current, pv))
  {
    assert KeyOk(w, KeyOf(job.snapshot));
    if pv.Some? && MountPlanForPod(cfg, current.request, job.pod, pv.value).Ok? {
      PlanForCanonical(cfg, current.request, job.pod, pv.value);
      ReconcilePlannedMeans(cfg, job, current, pv, MountPlanForPod(cfg, current.request, job.pod, pv.value).value.plan);
    }
  }

  lemma HeadingActs(cfg: Config, w: World, job: Job, at: ReconcilePoint, a: Answers)
    requires at.ReconcileCheck? || at.ReconcileNode? || at.ReconcileRecord?
    requires ReconcileKnows(cfg, w, job, at) && Heading(cfg, w, job, at)
    requires at.ReconcileCheck? ==> at.current.containerID == job.snapshot.containerID
    ensures var (w', at') := ReconcileStep(cfg, w, job, at, a); Heading(cfg, w', job, at')
  {
  }

  /** Until the check, a reconcile's record names the container its snapshot does. */
  predicate SameContainer(job: Job, at: ReconcilePoint) {
    at.ReconcileCheck? ==> at.current.containerID == job.snapshot.containerID
  }

  lemma PlannedSameContainer(cfg: Config, job: Job, current: DesiredMount, pv: Option<Kube.PersistentVolume>)
    requires current.containerID == job.snapshot.containerID
    ensures SameContainer(job, ReconcilePlanned(cfg, job, current, pv))
  {
  }

  /** What a converging reconcile keeps from point to point. */
  ghost predicate Converging(cfg: Config, w: World, job: Job, at: ReconcilePoint) {
    && WorldOk(w) && ReconcileKnows(cfg, w, job, at) && Heading(cfg, w, job, at) && SameContainer(job, at)
    && (at.ReconcileGet? ==> Lookup(w.mem, KeyOf(job.snapshot)) == Some(job.snapshot))
  }

  lemma ConvergeStep(cfg: Config, w: World, job: Job, at: ReconcilePoint, a: Answers)
    requires !at.ReconcileExit? && Converging(cfg, w, job, at)
    ensures var (w', at') := ReconcileStep(cfg, w, job, at, a); Converging(cfg, w', job, at')
  {
    ReconcileKeeps(cfg, w, job, at, a);
    match at
    case ReconcileGet => HeadingRead(cfg, w, job);
    case ReconcilePlan(current) =>
      HeadingPlanned(cfg, w, job, current, a.pv);
      PlannedSameContainer(cfg, job, current, a.pv);
    case _ => HeadingActs(cfg, w, job, at, a);
  }

  lemma ConvergeNext(cfg: Config, w: World, job: Job, at: ReconcilePoint, a: Answers)
    returns (w': World, at': ReconcilePoint)
    requires !at.ReconcileExit? && Converging(cfg, w, job, at)
    ensures Converging(cfg, w', job, at') && ReconcileLeft(at') < ReconcileLeft(at)
    ensures RunReconcile(cfg, w, job, at, a) == RunReconcile(cfg, w', job, at', a)
  {
    ConvergeStep(cfg, w, job, at, a);
    w', at' := ReconcileStep(cfg, w, job, at, a).0, ReconcileStep(cfg, w, job, at, a).1;
  }

  lemma {:induction false} RunConverges(cfg: Config, w: World, job: Job, at: ReconcilePoint, a: Answers)
    requires Converging(cfg, w, job, at)
    ensures var (w', at') := RunReconcile(cfg, w, job, at, a); Heading(cfg, w', job, at')
    decreases ReconcileLeft(at)
  {
    if !at.ReconcileExit? {
      var w1, at1 := ConvergeNext(cfg, w, job, at, a);
      RunConverges(cfg, w1, job, at1, a);
    }
  }

  /**
    A reconcile that returns nil has either found its record gone or changed, and
    done nothing, or leaves it naming the container its pod runs now.
  */
  lemma ReconcileConverges(cfg: Config, w: World, job: Job, a: Answers)
    requires WorldOk(w)
    ensures var (w', at') := RunReconcile(cfg, w, job, ReconcileGet, a);
            at'.verdict.Settled? ==>
              if Lookup(w.mem, KeyOf(job.snapshot)) == Some(job.snapshot) then
                KeyOf(job.snapshot) in w'.mem && Converged(cfg, w'.mem[KeyOf(job.snapshot)], job.pod)
              else w' == w
  {
    if Lookup(w.mem, KeyOf(job.snapshot)) == Some(job.snapshot) {
      RunConverges(cfg, w, job, ReconcileGet, a);
    } else {
      ReadReconcile(cfg, w, job, a);
    }
  }

  /** Reconciling a converged record with the same pod does nothing at all. */
  lemma ConvergedIsStable(cfg: Config, w: World, job: Job, a: Answers)
    requires WorldOk(w) && Lookup(w.mem, KeyOf(job.snapshot)) == Some(job.snapshot)
             && Converged(cfg, job.snapshot, job.pod)
    ensures RunReconcile(cfg, w, job, ReconcileGet, a) == (w, ReconcileExit(Settled))
  {
    assert KeyOk(w, KeyOf(job.snapshot));
    NormalizeCanonical(cfg, job.snapshot.request);
    assert ReconcileRead(cfg, w, job) == ReconcileExit(Settled);
  }
}
