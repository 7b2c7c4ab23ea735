/** What every action of a critical section keeps, for the key whose lock the section holds. */
module SectionInvariants {
  import opened Results
  import opened MountRecords
  import opened Authorization
  import opened Sections
  import opened Histories
  import NfsPaths
  import Kube

  // ----- the store -----

  /** A record as the wrapper may keep it at k, in memory or on disk. */
  ghost predicate RecordOk(h: History, k: Key, r: DesiredMount) {
    && KeyOf(r) == k
    && Canonical(r.request)
    && (r.fingerprint != "" ==> r.rootAuthorized && Presented(h, k, r.fingerprint))
    && (r.legacyRootUnknown ==> !r.rootAuthorized && r.fingerprint == "")
    && (r.containerID != "" ==> Owned(h, k, r.containerID))
  }

  /** Memory and disk agree on k, exactly up to what a torn write of k leaves. */
  ghost predicate Synced(w: World, k: Key) {
    match LastStore(w.history, k)
    case Clean =>
      (k in w.mem <==> k in w.disk) && (k in w.mem ==> ReadsBackAs(w.disk[k], w.mem[k]))
    case AfterTornPut =>
      k in w.disk && (k in w.mem ==> SameIntent(w.mem[k], Load(w.disk[k])))
    case AfterTornDelete =>
      k in w.mem && k !in w.disk
  }

  ghost predicate KeyOk(w: World, k: Key) {
    && (k in w.mem ==> RecordOk(w.history, k, w.mem[k]))
    && (k in w.disk ==> RecordOk(w.history, k, Load(w.disk[k])))
    && Synced(w, k)
    && (Closed(w.history, k) ==> k !in w.mem)
  }

  ghost predicate WorldOk(w: World) {
    HistoryOk(w.history) && forall k :: KeyOk(w, k)
  }

  /** An event that only a section for k can log. */
  predicate About(e: Event, k: Key) {
    match e
    case Stored(k') => k' == k
    case Removed(k') => k' == k
    case TornPut(k') => k' == k
    case TornDelete(k') => k' == k
    case NodeMount(plan, _, _) => PlanKey(plan) == k
    case NodeUnmount(k', _, _) => k' == k
    case Observed(k', _) => k' == k
    case _ => false
  }

  ghost predicate SameElsewhere(w: World, w': World, k: Key) {
    && (forall x :: x != k ==> Lookup(w.mem, x) == Lookup(w'.mem, x))
    && (forall x :: x != k ==> Lookup(w.disk, x) == Lookup(w'.disk, x))
  }

  /** A section's action: it touches nothing outside its key and logs at most one event, about its key. */
  ghost predicate Confined(w: World, w': World, k: Key) {
    && SameElsewhere(w, w', k)
    && (w'.history == w.history
        || (|w'.history| == |w.history| + 1
            && w'.history == w.history + [w'.history[|w.history|]]
            && About(w'.history[|w.history|], k)))
  }

  /** Events about one key leave what the history says about the others. */
  lemma OtherKey(h: History, e: Event, k: Key, x: Key)
    requires About(e, k) && x != k
    ensures LastStore(h + [e], x) == LastStore(h, x)
    ensures Closed(h + [e], x) == Closed(h, x)
    ensures forall c :: Owned(h + [e], x, c) == Owned(h, x, c)
    ensures forall f :: Presented(h, x, f) ==> Presented(h + [e], x, f)
  {
    Extend(h, e, x);
  }

  lemma RecordOkOther(h: History, e: Event, k: Key, x: Key, r: DesiredMount)
    requires About(e, k) && x != k && RecordOk(h, x, r)
    ensures RecordOk(h + [e], x, r)
  {
    OtherKey(h, e, k, x);
  }

  lemma RecordOkSame(h: History, e: Event, k: Key, r: DesiredMount)
    requires RecordOk(h, k, r)
    requires !(e.NodeUnmount? && e.ok && e.key == k && e.containerID == r.containerID)
    ensures RecordOk(h + [e], k, r)
  {
    Extend(h, e, k);
  }

  lemma KeyOkElsewhere(w: World, w': World, k: Key, x: Key)
    requires KeyOk(w, x) && Confined(w, w', k) && x != k
    ensures KeyOk(w', x)
  {
    assert Lookup(w.mem, x) == Lookup(w'.mem, x);
    assert Lookup(w.disk, x) == Lookup(w'.disk, x);
    if w'.history != w.history {
      var e := w'.history[|w.history|];
      OtherKey(w.history, e, k, x);
      if x in w.mem { RecordOkOther(w.history, e, k, x, w.mem[x]); }
      if x in w.disk { RecordOkOther(w.history, e, k, x, Load(w.disk[x])); }
    }
  }

  /** To keep the world, an action confined to k only has to keep k. */
  lemma ConfinedKeeps(w: World, w': World, k: Key)
    requires WorldOk(w) && Confined(w, w', k) && KeyOk(w', k)
    requires w'.history == w.history || EventOk(w.history, w'.history[|w.history|])
    ensures WorldOk(w')
  {
    forall x
      ensures KeyOk(w', x)
    {
      if x != k { KeyOkElsewhere(w, w', k, x); }
    }
    if w'.history != w.history {
      ExtendOk(w.history, w'.history[|w.history|]);
    }
  }

  lemma PersistedOk(h: History, k: Key, r: DesiredMount)
    requires RecordOk(h, k, r)
    ensures RecordOk(h, k, Load(Persist(r))) && ReadsBackAs(Persist(r), r)
  {
  }

  lemma PutKeeps(w: World, r: DesiredMount, answer: StoreAnswer)
    requires WorldOk(w) && RecordOk(w.history, KeyOf(r), r) && !Closed(w.history, KeyOf(r))
    requires KeyOf(r) in w.mem ==> SameIntent(w.mem[KeyOf(r)], Load(Persist(r)))
    ensures var w' := Put(w, r, answer); WorldOk(w') && Confined(w, w', KeyOf(r)) && KeyOk(w', KeyOf(r))
    ensures var w', k := Put(w, r, answer), KeyOf(r);
            && Closed(w'.history, k) == Closed(w.history, k)
            && (forall c :: Owned(w'.history, k, c) == Owned(w.history, k, c))
            && (forall f :: Presented(w.history, k, f) ==> Presented(w'.history, k, f))
            && (answer.Done? ==> LastStore(w'.history, k).Clean?)
  {
    var k := KeyOf(r);
    var w' := Put(w, r, answer);
    PersistedOk(w.history, k, r);
    assert KeyOk(w, k);
    if !answer.Refused? {
      var e := if answer.Done? then Stored(k) else TornPut(k);
      Extend(w.history, e, k);
      RecordOkSame(w.history, e, k, r);
      RecordOkSame(w.history, e, k, Load(Persist(r)));
      if k in w.mem { RecordOkSame(w.history, e, k, w.mem[k]); }
    }
    ConfinedKeeps(w, w', k);
  }

  lemma DeleteKeeps(w: World, k: Key, answer: StoreAnswer)
    requires WorldOk(w)
    ensures var w' := Delete(w, k, answer); WorldOk(w') && Confined(w, w', k) && KeyOk(w', k)
    ensures var w' := Delete(w, k, answer);
            && Closed(w'.history, k) == Closed(w.history, k)
            && (forall c :: Owned(w'.history, k, c) == Owned(w.history, k, c))
            && (forall f :: Presented(w.history, k, f) ==> Presented(w'.history, k, f))
            && (k in w.mem && answer.Done? ==> LastStore(w'.history, k).Clean? && k !in w'.disk)
  {
    var w' := Delete(w, k, answer);
    assert KeyOk(w, k);
    match answer {
      case Refused =>
      case Done => if k in w.mem { DoneDeleteKeeps(w, k); }
      case Torn => if k in w.mem { TornDeleteKeeps(w, k); }
    }
  }

  lemma DoneDeleteKeeps(w: World, k: Key)
    requires WorldOk(w) && k in w.mem
    ensures var w' := Delete(w, k, Done);
            && WorldOk(w') && Confined(w, w', k) && KeyOk(w', k)
            && Closed(w'.history, k) == Closed(w.history, k)
            && (forall c :: Owned(w'.history, k, c) == Owned(w.history, k, c))
            && (forall f :: Presented(w.history, k, f) ==> Presented(w'.history, k, f))
            && LastStore(w'.history, k).Clean?
  {
    assert KeyOk(w, k);
    Extend(w.history, Removed(k), k);
    ConfinedKeeps(w, Delete(w, k, Done), k);
  }

  lemma TornDeleteKeeps(w: World, k: Key)
    requires WorldOk(w) && k in w.mem
    ensures var w' := Delete(w, k, Torn);
            && WorldOk(w') && Confined(w, w', k) && KeyOk(w', k)
            && Closed(w'.history, k) == Closed(w.history, k)
            && (forall c :: Owned(w'.history, k, c) == Owned(w.history, k, c))
            && (forall f :: Presented(w.history, k, f) ==> Presented(w'.history, k, f))
  {
    assert KeyOk(w, k);
    Extend(w.history, TornDelete(k), k);
    RecordOkSame(w.history, TornDelete(k), k, w.mem[k]);
    ConfinedKeeps(w, Delete(w, k, Torn), k);
  }

  lemma LogKeeps(w: World, e: Event, k: Key)
    requires WorldOk(w) && About(e, k) && EventOk(w.history, e)
    requires e.NodeMount? || e.Observed? || (e.NodeUnmount? && k !in w.mem && k !in w.disk)
    ensures WorldOk(Log(w, e)) && Confined(w, Log(w, e), k) && KeyOk(Log(w, e), k)
    ensures Closed(w.history + [e], k) == Closed(w.history, k)
    ensures LastStore(w.history + [e], k) == LastStore(w.history, k)
    ensures forall f :: Presented(w.history, k, f) ==> Presented(w.history + [e], k, f)
  {
    var w' := Log(w, e);
    Extend(w.history, e, k);
    assert KeyOk(w, k);
    if k in w.mem { RecordOkSame(w.history, e, k, w.mem[k]); }
    if k in w.disk { RecordOkSame(w.history, e, k, Load(w.disk[k])); }
    ConfinedKeeps(w, w', k);
  }

  // ----- what a thread knows at each point -----

  ghost predicate CallOk(cfg: Config, h: History, call: MountCall) {
    && Canonical(call.request)
    && PlanKey(call.plan) == RequestKey(call.request)
    && call.plan.containerID != ""
    && call.fingerprint == (if NfsPaths.IsNFSExportRoot(call.plan) && cfg.rootKey.Some? then cfg.rootKey.value else "")
    && RootKeyShown(h, call.plan, cfg.rootKey)
  }

  /** `prev` is the entry with the call's fingerprint, and the call is for the same intent. */
  ghost predicate Previous(h: History, call: MountCall, entry: Option<DesiredMount>, prev: Option<DesiredMount>) {
    match entry
    case None => prev.None?
    case Some(e) =>
      && prev == Some(e.(fingerprint := call.fingerprint))
      && e.request == call.request
      && e.rootAuthorized == NfsPaths.IsNFSExportRoot(call.plan)
      && RecordOk(h, RequestKey(call.request), prev.value)
  }

  ghost predicate MountKnows(cfg: Config, w: World, call: MountCall, at: MountPoint) {
    var k := RequestKey(call.request);
    && CallOk(cfg, w.history, call)
    && !Closed(w.history, k)
    && match at
       case MountGet => true
       case MountRefresh(entry, refreshed) =>
         Previous(w.history, call, entry, Some(refreshed)) && Lookup(w.mem, k) == entry
       case MountCheck(entry, found) =>
         Previous(w.history, call, entry, Some(found)) && Lookup(w.mem, k) == Some(found)
       case MountAdopt(entry, adopted) =>
         && k in w.mem
         && Previous(w.history, call, entry, Some(w.mem[k]))
         && adopted == w.mem[k].(containerID := call.plan.containerID)
         && Owned(w.history, k, call.plan.containerID)
       case MountPend(entry, prev) =>
         Previous(w.history, call, entry, prev) && Lookup(w.mem, k) == prev
       case MountNode(entry, prev) =>
         Previous(w.history, call, entry, prev) && Lookup(w.mem, k) == Some(Pending(call)) && k in w.disk
       case MountRestore(entry, prev) =>
         Previous(w.history, call, entry, prev) && Lookup(w.mem, k) == Some(Pending(call)) && k in w.disk
       case MountRecord(entry) =>
         && Lookup(w.mem, k) == Some(Pending(call))
         && k in w.disk
         && Owned(w.history, k, call.plan.containerID)
       case MountExit(entry, outcome) =>
         && (outcome.MountRefused? ==> Lookup(w.mem, k) == entry)
         && (outcome.MountRolledBack? ==>
               if entry.None? then k !in w.mem
               else Lookup(w.mem, k) == Some(entry.value.(fingerprint := call.fingerprint)))
         && (outcome.Mounted? ==> k in w.disk)
         && (outcome.Mounted? || outcome.AlreadyMounted? ==> k in w.mem && w.mem[k].request == call.request)
  }

  /** The record is gone from memory and disk, and the thread holds it. */
  ghost predicate Withdrawn(w: World, target: UnmountCall, held: DesiredMount) {
    && target.key !in w.mem
    && target.key !in w.disk
    && !Closed(w.history, target.key)
    && RecordOk(w.history, target.key, held)
    && held.containerID == target.containerID != ""
  }

  ghost predicate UnmountKnows(w: World, target: UnmountCall, at: UnmountPoint) {
    var k := target.key;
    match at
    case UnmountGet => true
    case UnmountStale(held) => Lookup(w.mem, k) == Some(held)
    case UnmountDelete(held) => Lookup(w.mem, k) == Some(held) && held.containerID == target.containerID != ""
    case UnmountCheck(held) => Withdrawn(w, target, held)
    case UnmountNode(held) => Withdrawn(w, target, held)
    case UnmountRestore(held) => Withdrawn(w, target, held)
    case UnmountExit(met, outcome) =>
      && (outcome.UnmountDone? ==> k !in w.mem)
      && (outcome.UnmountRefused? || outcome.UnmountRolledBack? ==> Lookup(w.mem, k) == met)
  }

  /** A record a reconcile has classified against its plan and may write back. */
  ghost predicate Classified(cfg: Config, h: History, snapshot: DesiredMount, plan: NfsPaths.MountPlan,
                             current: DesiredMount) {
    var k := KeyOf(snapshot);
    && RecordOk(h, k, current)
    && SameIntent(snapshot, current)
    && !current.legacyRootUnknown
    && current.rootAuthorized == NfsPaths.IsNFSExportRoot(plan)
    && PlanKey(plan) == k
    && plan.containerID != ""
    && RootKeyShown(h, plan, cfg.rootKey)
  }

  ghost predicate ReconcileKnows(cfg: Config, w: World, job: Job, at: ReconcilePoint) {
    var snapshot := job.snapshot;
    if at.ReconcileExit? then
      at.acted ==> KeyOf(snapshot) in w.mem && w.mem[KeyOf(snapshot)].request == snapshot.request
    else !at.ReconcileGet? ==>
      && Lookup(w.mem, KeyOf(snapshot)) == Some(snapshot)
      && match at
         case ReconcilePlan(current) => current == snapshot && job.pod.metadata.uid == snapshot.request.podUID
         case ReconcileCheck(plan, current) => Classified(cfg, w.history, snapshot, plan, current)
         case ReconcileNode(plan, current) => Classified(cfg, w.history, snapshot, plan, current)
         case ReconcileRecord(current) =>
           RecordOk(w.history, KeyOf(snapshot), current) && SameIntent(snapshot, current) && !current.legacyRootUnknown
  }

  ghost predicate RemoveKnows(w: World, snapshot: DesiredMount, at: RemovePoint) {
    at.RemoveDelete? ==> Lookup(w.mem, KeyOf(snapshot)) == Some(snapshot)
  }

  ghost predicate Knows(cfg: Config, w: World, pc: Pc) {
    match pc
    case Mounting(call, at) => MountKnows(cfg, w, call, at)
    case Unmounting(target, at) => UnmountKnows(w, target, at)
    case Reconciling(job, at) => ReconcileKnows(cfg, w, job, at)
    case Removing(snapshot, at) => RemoveKnows(w, snapshot, at)
  }

  /** What one action for k keeps: the world, every other key, and the intent at k. */
  ghost predicate Kept(w: World, w': World, k: Key) {
    && WorldOk(w')
    && Confined(w, w', k)
    && (k in w.mem && k in w'.mem ==> SameIntent(w.mem[k], w'.mem[k]))
  }

  // ----- mount -----

  lemma PendingOk(cfg: Config, h: History, call: MountCall)
    requires CallOk(cfg, h, call)
    ensures RecordOk(h, RequestKey(call.request), Pending(call))
  {
  }

  lemma PendingIntent(h: History, call: MountCall, entry: Option<DesiredMount>, prev: Option<DesiredMount>)
    requires Previous(h, call, entry, prev) && prev.Some?
    ensures SameIntent(prev.value, Pending(call)) && SameIntent(Pending(call), prev.value)
    ensures SameIntent(prev.value, Load(Persist(Pending(call)))) && SameIntent(Pending(call), Load(Persist(prev.value)))
  {
  }

  lemma PreviousKept(h: History, call: MountCall, entry: Option<DesiredMount>, prev: Option<DesiredMount>, e: Event)
    requires Previous(h, call, entry, prev) && !e.NodeUnmount?
    ensures Previous(h + [e], call, entry, prev)
  {
    if prev.Some? {
      RecordOkSame(h, e, RequestKey(call.request), prev.value);
    }
  }

  lemma MountGetKeeps(cfg: Config, w: World, call: MountCall, a: Answers)
    requires WorldOk(w) && MountKnows(cfg, w, call, MountGet)
    ensures MountKnows(cfg, w, call, MountRead(w, call))
  {
    assert KeyOk(w, RequestKey(call.request));
  }

  lemma MountRefreshKeeps(cfg: Config, w: World, call: MountCall, at: MountPoint, a: Answers)
    requires at.MountRefresh? && WorldOk(w) && MountKnows(cfg, w, call, at)
    ensures var (w', at') := MountStep(cfg, w, call, at, a);
            Kept(w, w', RequestKey(call.request)) && MountKnows(cfg, w', call, at')
  {
    RefreshStored(w, call, at.entry, at.refreshed, a.refresh);
    var w' := Put(w, at.refreshed, a.refresh);
    assert CallOk(cfg, w'.history, call);
    if a.refresh.Done? {
      assert MountKnows(cfg, w', call, MountAfterRefresh(call, at.entry, Some(at.refreshed)));
    }
  }

  lemma RefreshStored(w: World, call: MountCall, entry: Option<DesiredMount>, refreshed: DesiredMount,
                      answer: StoreAnswer)
    requires WorldOk(w) && Previous(w.history, call, entry, Some(refreshed))
    requires Lookup(w.mem, RequestKey(call.request)) == entry && !Closed(w.history, RequestKey(call.request))
    ensures var w', k := Put(w, refreshed, answer), RequestKey(call.request);
            && Kept(w, w', k) && !Closed(w'.history, k)
            && (forall f :: Presented(w.history, k, f) ==> Presented(w'.history, k, f))
            && (answer.Done? ==>
                  Previous(w'.history, call, entry, Some(refreshed)) && Lookup(w'.mem, k) == Some(refreshed))
  {
    PutKeeps(w, refreshed, answer);
    RecordOkSame(w.history, Stored(RequestKey(call.request)), RequestKey(call.request), refreshed);
  }

  lemma MountCheckKeeps(cfg: Config, w: World, call: MountCall, at: MountPoint, a: Answers)
    requires at.MountCheck? && WorldOk(w) && MountKnows(cfg, w, call, at)
    ensures var (w', at') := MountStep(cfg, w, call, at, a);
            Kept(w, w', RequestKey(call.request)) && MountKnows(cfg, w', call, at')
  {
    var k, c := RequestKey(call.request), call.plan.containerID;
    if a.check.Yes? && at.found.containerID != c {
      LogKeeps(w, Observed(k, c), k);
      Extend(w.history, Observed(k, c), k);
      RecordOkSame(w.history, Observed(k, c), k, at.found);
    }
  }

  lemma MountAdoptKeeps(cfg: Config, w: World, call: MountCall, at: MountPoint, a: Answers)
    requires at.MountAdopt? && WorldOk(w) && MountKnows(cfg, w, call, at)
    ensures var (w', at') := MountStep(cfg, w, call, at, a);
            Kept(w, w', RequestKey(call.request)) && MountKnows(cfg, w', call, at')
  {
    PutKeeps(w, at.adopted, a.adopt);
  }

  lemma MountPendKeeps(cfg: Config, w: World, call: MountCall, at: MountPoint, a: Answers)
    requires at.MountPend? && WorldOk(w) && MountKnows(cfg, w, call, at)
    ensures var (w', at') := MountStep(cfg, w, call, at, a);
            Kept(w, w', RequestKey(call.request)) && MountKnows(cfg, w', call, at')
  {
    PendingOk(cfg, w.history, call);
    if at.prev.Some? {
      PendingIntent(w.history, call, at.entry, at.prev);
    }
    PutKeeps(w, Pending(call), a.pend);
    if a.pend.Done? {
      PreviousKept(w.history, call, at.entry, at.prev, Stored(RequestKey(call.request)));
    }
  }

  lemma MountNodeKeeps(cfg: Config, w: World, call: MountCall, at: MountPoint, a: Answers)
    requires at.MountNode? && WorldOk(w) && MountKnows(cfg, w, call, at)
    ensures var (w', at') := MountStep(cfg, w, call, at, a);
            Kept(w, w', RequestKey(call.request)) && MountKnows(cfg, w', call, at')
  {
    var k := RequestKey(call.request);
    var e := NodeMount(call.plan, cfg.rootKey, a.node);
    LogKeeps(w, e, k);
    Extend(w.history, e, k);
    PreviousKept(w.history, call, at.entry, at.prev, e);
  }

  lemma MountRestoreKeeps(cfg: Config, w: World, call: MountCall, at: MountPoint, a: Answers)
    requires at.MountRestore? && WorldOk(w) && MountKnows(cfg, w, call, at)
    ensures var (w', at') := MountStep(cfg, w, call, at, a);
            Kept(w, w', RequestKey(call.request)) && MountKnows(cfg, w', call, at')
  {
    if at.prev.Some? {
      PendingIntent(w.history, call, at.entry, at.prev);
      PutKeeps(w, at.prev.value, a.restore);
    } else {
      DeleteKeeps(w, RequestKey(call.request), a.restore);
    }
  }

  lemma MountRecordKeeps(cfg: Config, w: World, call: MountCall, at: MountPoint, a: Answers)
    requires at.MountRecord? && WorldOk(w) && MountKnows(cfg, w, call, at)
    ensures var (w', at') := MountStep(cfg, w, call, at, a);
            Kept(w, w', RequestKey(call.request)) && MountKnows(cfg, w', call, at')
  {
    PendingOk(cfg, w.history, call);
    PutKeeps(w, Pending(call).(containerID := call.plan.containerID), a.record);
  }

  lemma MountKeeps(cfg: Config, w: World, call: MountCall, at: MountPoint, a: Answers)
    requires !at.MountExit? && WorldOk(w) && MountKnows(cfg, w, call, at)
    ensures var (w', at') := MountStep(cfg, w, call, at, a);
            Kept(w, w', RequestKey(call.request)) && MountKnows(cfg, w', call, at')
  {
    match at
    case MountGet => MountGetKeeps(cfg, w, call, a);
    case MountRefresh(_, _) => MountRefreshKeeps(cfg, w, call, at, a);
    case MountCheck(_, _) => MountCheckKeeps(cfg, w, call, at, a);
    case MountAdopt(_, _) => MountAdoptKeeps(cfg, w, call, at, a);
    case MountPend(_, _) => MountPendKeeps(cfg, w, call, at, a);
    case MountNode(_, _) => MountNodeKeeps(cfg, w, call, at, a);
    case MountRestore(_, _) => MountRestoreKeeps(cfg, w, call, at, a);
    case MountRecord(_) => MountRecordKeeps(cfg, w, call, at, a);
  }

  // ----- unmount -----

  lemma UnmountDeletes(w: World, target: UnmountCall, at: UnmountPoint, a: Answers)
    requires (at.UnmountStale? || at.UnmountDelete?) && WorldOk(w) && UnmountKnows(w, target, at)
    ensures var (w', at') := UnmountStep(w, target, at, a); Kept(w, w', target.key) && UnmountKnows(w', target, at')
  {
    var k := target.key;
    assert KeyOk(w, k);
    DeleteKeeps(w, k, a.delete);
    RecordOkSame(w.history, Removed(k), k, at.held);
  }

  lemma UnmountNodeKeeps(w: World, target: UnmountCall, at: UnmountPoint, a: Answers)
    requires at.UnmountNode? && WorldOk(w) && UnmountKnows(w, target, at)
    ensures var (w', at') := UnmountStep(w, target, at, a); Kept(w, w', target.key) && UnmountKnows(w', target, at')
  {
    var e := NodeUnmount(target.key, target.containerID, a.node);
    LogKeeps(w, e, target.key);
    if !a.node {
      RecordOkSame(w.history, e, target.key, at.held);
    }
  }

  lemma UnmountKeeps(w: World, target: UnmountCall, at: UnmountPoint, a: Answers)
    requires !at.UnmountExit? && WorldOk(w) && UnmountKnows(w, target, at)
    ensures var (w', at') := UnmountStep(w, target, at, a); Kept(w, w', target.key) && UnmountKnows(w', target, at')
  {
    match at
    case UnmountGet => assert KeyOk(w, target.key);
    case UnmountStale(_) => UnmountDeletes(w, target, at, a);
    case UnmountDelete(_) => UnmountDeletes(w, target, at, a);
    case UnmountCheck(_) =>
    case UnmountNode(_) => UnmountNodeKeeps(w, target, at, a);
    case UnmountRestore(held) => PutKeeps(w, held, a.restore);
  }

  // ----- reconcile -----

  lemma ReconcileReadKeeps(cfg: Config, w: World, job: Job)
    requires WorldOk(w)
    ensures ReconcileKnows(cfg, w, job, ReconcileRead(cfg, w, job))
  {
    var snapshot := job.snapshot;
    assert KeyOk(w, KeyOf(snapshot));
    if Lookup(w.mem, KeyOf(snapshot)) == Some(snapshot) {
      NormalizeCanonical(cfg, snapshot.request);
    }
  }

  lemma ReclassifyOk(cfg: Config, h: History, k: Key, current: DesiredMount, plan: NfsPaths.MountPlan)
    requires RecordOk(h, k, current) && PlanKey(plan) == k && plan.containerID != ""
    requires Reclassify(cfg, current, NfsPaths.IsNFSExportRoot(plan)).Ok?
    ensures Classified(cfg, h, current, plan, Reclassify(cfg, current, NfsPaths.IsNFSExportRoot(plan)).value)
  {
  }

  lemma ReconcilePlannedMeans(cfg: Config, job: Job, current: DesiredMount, pv: Option<Kube.PersistentVolume>,
                              plan: NfsPaths.MountPlan)
    requires pv.Some? && MountPlanForPod(cfg, current.request, job.pod, pv.value) == Ok(Planned(current.request, plan))
    ensures var classified := Reclassify(cfg, current, NfsPaths.IsNFSExportRoot(plan));
            ReconcilePlanned(cfg, job, current, pv) ==
            if classified.Err? then ReconcileExit(Unauthorized)
            else if current.containerID == "" || current.containerID == plan.containerID
              then ReconcileCheck(plan, classified.value)
            else ReconcileNode(plan, classified.value)
  {
    assert current.(request := current.request) == current;
  }

  lemma ReconcilePlanKeeps(cfg: Config, w: World, job: Job, current: DesiredMount, a: Answers)
    requires WorldOk(w) && ReconcileKnows(cfg, w, job, ReconcilePlan(current))
    ensures ReconcileKnows(cfg, w, job, ReconcilePlanned(cfg, job, current, a.pv))
  {
    var k := KeyOf(current);
    assert KeyOk(w, k);
    if a.pv.Some? {
      var planned := MountPlanForPod(cfg, current.request, job.pod, a.pv.value);
      if planned.Ok? {
        PlanForCanonical(cfg, current.request, job.pod, a.pv.value);
        ReconcilePlannedMeans(cfg, job, current, a.pv, planned.value.plan);
        if Reclassify(cfg, current, NfsPaths.IsNFSExportRoot(planned.value.plan)).Ok? {
          ReclassifyOk(cfg, w.history, k, current, planned.value.plan);
        }
      }
    }
  }

  lemma ClassifiedRecord(cfg: Config, h: History, snapshot: DesiredMount, plan: NfsPaths.MountPlan,
                         current: DesiredMount, e: Event)
    requires Classified(cfg, h, snapshot, plan, current)
    requires e == Observed(KeyOf(snapshot), plan.containerID) || (e.NodeMount? && e.plan == plan && e.ok)
    ensures RecordOk(h + [e], KeyOf(snapshot), current.(containerID := plan.containerID))
  {
    Extend(h, e, KeyOf(snapshot));
  }

  lemma ReconcileCheckKeeps(cfg: Config, w: World, job: Job, at: ReconcilePoint, a: Answers)
    requires at.ReconcileCheck? && WorldOk(w) && ReconcileKnows(cfg, w, job, at)
    ensures var (w', at') := ReconcileStep(cfg, w, job, at, a);
            Kept(w, w', KeyOf(job.snapshot)) && ReconcileKnows(cfg, w', job, at')
  {
    var k, c := KeyOf(job.snapshot), at.plan.containerID;
    if a.check.Yes? && at.current.containerID != c {
      LogKeeps(w, Observed(k, c), k);
      ClassifiedRecord(cfg, w.history, job.snapshot, at.plan, at.current, Observed(k, c));
    }
  }

  lemma ReconcileNodeKeeps(cfg: Config, w: World, job: Job, at: ReconcilePoint, a: Answers)
    requires at.ReconcileNode? && WorldOk(w) && ReconcileKnows(cfg, w, job, at)
    ensures var (w', at') := ReconcileStep(cfg, w, job, at, a);
            Kept(w, w', KeyOf(job.snapshot)) && ReconcileKnows(cfg, w', job, at')
  {
    var k := KeyOf(job.snapshot);
    var e := NodeMount(at.plan, cfg.rootKey, a.node);
    assert KeyOk(w, k);
    LogKeeps(w, e, k);
    if a.node {
      ClassifiedRecord(cfg, w.history, job.snapshot, at.plan, at.current, e);
    }
  }

  lemma ReconcileRecordKeeps(cfg: Config, w: World, job: Job, at: ReconcilePoint, a: Answers)
    requires at.ReconcileRecord? && WorldOk(w) && ReconcileKnows(cfg, w, job, at)
    ensures var (w', at') := ReconcileStep(cfg, w, job, at, a);
            Kept(w, w', KeyOf(job.snapshot)) && ReconcileKnows(cfg, w', job, at')
  {
    assert KeyOk(w, KeyOf(job.snapshot));
    PutKeeps(w, at.current, a.record);
  }

  lemma ReconcileKeeps(cfg: Config, w: World, job: Job, at: ReconcilePoint, a: Answers)
    requires !at.ReconcileExit? && WorldOk(w) && ReconcileKnows(cfg, w, job, at)
    ensures var (w', at') := ReconcileStep(cfg, w, job, at, a);
            Kept(w, w', KeyOf(job.snapshot)) && ReconcileKnows(cfg, w', job, at')
  {
    match at
    case ReconcileGet => ReconcileReadKeeps(cfg, w, job);
    case ReconcilePlan(current) => ReconcilePlanKeeps(cfg, w, job, current, a);
    case ReconcileCheck(_, _) => ReconcileCheckKeeps(cfg, w, job, at, a);
    case ReconcileNode(_, _) => ReconcileNodeKeeps(cfg, w, job, at, a);
    case ReconcileRecord(_) => ReconcileRecordKeeps(cfg, w, job, at, a);
  }

  // ----- removal and the whole -----

  lemma RemoveKeeps(w: World, snapshot: DesiredMount, at: RemovePoint, a: Answers)
    requires !at.RemoveExit? && WorldOk(w) && RemoveKnows(w, snapshot, at)
    ensures var (w', at') := RemoveStep(w, snapshot, at, a);
            Kept(w, w', KeyOf(snapshot)) && RemoveKnows(w', snapshot, at')
  {
    if at.RemoveDelete? {
      DeleteKeeps(w, KeyOf(snapshot), a.delete);
    }
  }

  /**
    Every action of every section keeps the world, what the thread knows, every other
    key, and the intent at its own.
  */
  lemma SectionKeeps(cfg: Config, w: World, pc: Pc, a: Answers)
    requires !IsExit(pc) && WorldOk(w) && Knows(cfg, w, pc)
    ensures var (w', pc') := SectionStep(cfg, w, pc, a);
            && Kept(w, w', SectionKey(pc))
            && Knows(cfg, w', pc')
            && SectionKey(pc') == SectionKey(pc)
  {
    match pc
    case Mounting(call, at) => MountKeeps(cfg, w, call, at, a);
    case Unmounting(target, at) => UnmountKeeps(w, target, at, a);
    case Reconciling(job, at) => ReconcileKeeps(cfg, w, job, at, a);
    case Removing(snapshot, at) => RemoveKeeps(w, snapshot, at, a);
  }
}
