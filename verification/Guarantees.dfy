/** What every run of the wrapper guarantees. */
module Guarantees {
  import opened Results
  import opened MountRecords
  import opened Authorization
  import opened Sections
  import opened Histories
  import opened SectionInvariants
  import opened Protocol
  import opened ProtocolInvariants
  import NfsPaths

  ghost predicate Reachable(m: Machine) {
    exists m0, acts :: Initial(m0) && Runs(m0, acts) && After(m0, acts) == m
  }

  lemma ReachableInv(m: Machine)
    requires Reachable(m)
    ensures Inv(m)
  {
    var m0, acts :| Initial(m0) && Runs(m0, acts) && After(m0, acts) == m;
    InitialInv(m0);
    RunInv(m0, acts);
  }

  // ----- no resurrection -----

  /** Between i and j a restart found a file for k that a torn Put had left. */
  ghost predicate TornRestart(h: History, i: nat, j: nat, k: Key)
    requires j <= |h|
  {
    exists r :: i < r < j && h[r] == Restarted && LastStore(h[..r], k).AfterTornPut?
  }

  ghost predicate MountSince(h: History, i: nat, j: nat, k: Key)
    requires j <= |h|
  {
    exists r :: i < r < j && h[r] == MountEntered(k)
  }

  /** A key stays closed from a successful unmount until a mount enters or a restart finds a torn file. */
  lemma {:induction false} StaysClosed(h: History, i: nat, j: nat, k: Key)
    requires i < j <= |h| && h[i] == Unmounted(k)
    requires !MountSince(h, i, j, k) && !TornRestart(h, i, j, k)
    ensures Closed(h[..j], k)
    decreases j
  {
    var p := h[..j];
    assert p[..j - 1] == h[..j - 1];
    if i < j - 1 {
      StaysClosed(h, i, j - 1, k);
      assert h[j - 1] != MountEntered(k);
    }
  }

  /** A key is closed exactly from a successful unmount on, until a mount enters or a restart finds a torn file. */
  lemma {:induction false} ClosedMeans(h: History, k: Key)
    ensures Closed(h, k) <==>
            exists i :: 0 <= i < |h| && h[i] == Unmounted(k)
                        && !MountSince(h, i, |h|, k) && !TornRestart(h, i, |h|, k)
  {
    if h != [] {
      var p := h[..|h| - 1];
      if i :| 0 <= i < |h| && h[i] == Unmounted(k) && !MountSince(h, i, |h|, k) && !TornRestart(h, i, |h|, k) {
        StaysClosed(h, i, |h|, k);
        assert h[..|h|] == h;
      }
      if Closed(h, k) && h[|h| - 1] != Unmounted(k) {
        ClosedMeans(p, k);
        var i :| 0 <= i < |p| && p[i] == Unmounted(k) && !MountSince(p, i, |p|, k) && !TornRestart(p, i, |p|, k);
        StillClosed(h, i, k);
      }
    }
  }

  lemma StillClosed(h: History, i: nat, k: Key)
    requires Closed(h, k) && i < |h| - 1 && h[|h| - 1] != Unmounted(k)
    requires !MountSince(h[..|h| - 1], i, |h| - 1, k) && !TornRestart(h[..|h| - 1], i, |h| - 1, k)
    ensures !MountSince(h, i, |h|, k) && !TornRestart(h, i, |h|, k)
  {
    var p := h[..|h| - 1];
    forall r | i < r < |h|
      ensures h[r] != MountEntered(k)
      ensures !(h[r] == Restarted && LastStore(h[..r], k).AfterTornPut?)
    {
      if r < |p| {
        assert p[r] == h[r] && p[..r] == h[..r];
      }
    }
  }

  lemma {:induction false} TornNeedsTornPut(h: History, k: Key)
    requires LastStore(h, k).AfterTornPut?
    ensures TornPut(k) in h
  {
    if h[|h| - 1] != TornPut(k) {
      TornNeedsTornPut(h[..|h| - 1], k);
    }
  }

  /**
    Once an unmount of k has returned success, no snapshot, pod event, stale
    verdict, queued retry or restart leads to a node Mount at k or to a record
    of k, until a mount call for k enters its critical section. The one way
    around this is a Put of k that failed after replacing the file, followed by
    a restart.
  */
  lemma NoResurrection(m: Machine, i: nat, k: Key)
    requires Reachable(m) && i < |m.world.history| && m.world.history[i] == Unmounted(k)
    ensures var h := m.world.history;
            forall j :: i < j < |h| && h[j].NodeMount? && PlanKey(h[j].plan) == k ==>
              MountSince(h, i, j, k) || TornRestart(h, i, j, k)
    ensures var h := m.world.history;
            k in m.world.mem ==> MountSince(h, i, |h|, k) || TornRestart(h, i, |h|, k)
    ensures var h := m.world.history;
            k in m.world.disk ==> MountSince(h, i, |h|, k) || TornRestart(h, i, |h|, k) || LastStore(h, k).AfterTornPut?
  {
    ReachableInv(m);
    var h := m.world.history;
    forall j | i < j < |h| && h[j].NodeMount? && PlanKey(h[j].plan) == k
      ensures MountSince(h, i, j, k) || TornRestart(h, i, j, k)
    {
      assert EventOk(h[..j], h[j]);
      if !MountSince(h, i, j, k) && !TornRestart(h, i, j, k) {
        StaysClosed(h, i, j, k);
      }
    }
    assert h[..|h|] == h;
    assert KeyOk(m.world, k);
    if !MountSince(h, i, |h|, k) && !TornRestart(h, i, |h|, k) {
      StaysClosed(h, i, |h|, k);
    }
  }

  /** When no Put of k was ever torn, or no restart came between, only a mount call brings k back. */
  lemma NoResurrectionAtomic(m: Machine, i: nat, j: nat, k: Key)
    requires Reachable(m) && i < j < |m.world.history| && m.world.history[i] == Unmounted(k)
    requires m.world.history[j].NodeMount? && PlanKey(m.world.history[j].plan) == k
    requires TornPut(k) !in m.world.history || Restarted !in m.world.history[i..j]
    ensures MountSince(m.world.history, i, j, k)
  {
    NoResurrection(m, i, k);
    var h := m.world.history;
    forall r | i < r < j
      ensures h[r] in h[i..j]
      ensures LastStore(h[..r], k).AfterTornPut? ==> TornPut(k) in h
    {
      assert h[i..j][r - i] == h[r];
      if LastStore(h[..r], k).AfterTornPut? {
        TornNeedsTornPut(h[..r], k);
      }
    }
  }

  /** Exactly when a closed key comes back with a restart: when its last store write was a torn Put. */
  lemma ClosedReturnsIffTorn(m: Machine, k: Key, cfg: Config)
    requires Reachable(m) && Closed(m.world.history, k)
    ensures k in RestartStep(m, cfg).world.mem <==> LastStore(m.world.history, k).AfterTornPut?
  {
    ReachableInv(m);
    assert KeyOk(m.world, k);
  }

  // ----- export-root safety -----

  /** A node Mount of an export-root plan under a configured key has had that key presented for its record. */
  lemma ExportRootSafety(m: Machine, j: nat)
    requires Reachable(m) && j < |m.world.history| && m.world.history[j].NodeMount?
    requires NfsPaths.IsNFSExportRoot(m.world.history[j].plan) && m.world.history[j].rootKey.Some?
    ensures exists i :: 0 <= i < j &&
              m.world.history[i] == KeyPresented(PlanKey(m.world.history[j].plan), m.world.history[j].rootKey.value)
  {
    ReachableInv(m);
    var h := m.world.history;
    assert EventOk(h[..j], h[j]);
    var i :| 0 <= i < j && h[..j][i] == KeyPresented(PlanKey(h[j].plan), h[j].rootKey.value);
  }

  /** The record invariants this rests on: a fingerprint means an authorized root; legacy means neither. */
  lemma RecordFlags(m: Machine, k: Key)
    requires Reachable(m) && k in m.world.mem
    ensures m.world.mem[k].fingerprint != "" ==>
              m.world.mem[k].rootAuthorized && KeyPresented(k, m.world.mem[k].fingerprint) in m.world.history
    ensures m.world.mem[k].legacyRootUnknown ==> !m.world.mem[k].rootAuthorized && m.world.mem[k].fingerprint == ""
  {
    ReachableInv(m);
    assert KeyOk(m.world, k);
  }

  // ----- intent immutability -----

  /** Between two worlds, no record that stays changes its intent. */
  ghost predicate IntentsKept(w: World, w': World) {
    forall k :: k in w.mem && k in w'.mem ==> SameIntent(w.mem[k], w'.mem[k])
  }

  /** No action changes the intent of a record it leaves in place. */
  lemma StepKeepsIntents(m: Machine, act: Action)
    requires Inv(m) && Enabled(m, act)
    ensures IntentsKept(m.world, Step(m, act).world)
  {
    var m' := Step(m, act);
    if act.Restart? {
      forall k | k in m.world.mem && k in m'.world.mem
        ensures SameIntent(m.world.mem[k], m'.world.mem[k])
      {
        assert KeyOk(m.world, k);
      }
    } else if act.Advance? {
      AdvanceKeepsIntents(m, act.t, m.threads[act.t].stage.pc, act.answers);
    } else {
      OtherActionsKeepStore(m, act);
    }
  }

  lemma AdvanceKeepsIntents(m: Machine, t: nat, pc: Pc, a: Answers)
    requires Inv(m) && t in m.threads && m.threads[t].stage == Inside(pc) && !IsExit(pc)
    ensures IntentsKept(m.world, AdvanceStep(m, t, pc, a).world)
    ensures SameElsewhere(m.world, AdvanceStep(m, t, pc, a).world, SectionKey(pc))
  {
    assert StageKnows(m.cfg, m.world, m.threads[t].stage);
    SectionKeeps(m.cfg, m.world, pc, a);
    var w' := SectionStep(m.cfg, m.world, pc, a).0;
    forall k | k in m.world.mem && k in w'.mem
      ensures SameIntent(m.world.mem[k], w'.mem[k])
    {
      if k != SectionKey(pc) {
        assert Lookup(m.world.mem, k) == Lookup(w'.mem, k);
      }
    }
  }

  lemma OtherActionsKeepStore(m: Machine, act: Action)
    requires Enabled(m, act) && !act.Restart? && !act.Advance?
    ensures Step(m, act).world.mem == m.world.mem && Step(m, act).world.disk == m.world.disk
  {
  }

  /** k has a record before and after every action of the run. */
  ghost predicate Persists(m: Machine, acts: seq<Action>, k: Key)
    requires Runs(m, acts)
    decreases |acts|
  {
    k in m.world.mem && (acts != [] ==> Persists(Step(m, acts[0]), acts[1..], k))
  }

  /** Somewhere along the run, k's record does not know its root selection. */
  ghost predicate EverUnknown(m: Machine, acts: seq<Action>, k: Key)
    requires Runs(m, acts)
    decreases |acts|
  {
    (k in m.world.mem && m.world.mem[k].legacyRootUnknown)
      || (acts != [] && EverUnknown(Step(m, acts[0]), acts[1..], k))
  }

  /**
    While a record persists its request never changes. Its root flag can only go
    from false to true, and only along a run on which the record was one that an
    earlier version left without a known root selection.
  */
  lemma {:induction false} IntentImmutable(m: Machine, acts: seq<Action>, k: Key)
    requires Inv(m) && Runs(m, acts) && Persists(m, acts, k)
    ensures var m' := After(m, acts);
            && k in m'.world.mem
            && m'.world.mem[k].request == m.world.mem[k].request
            && (m'.world.mem[k].rootAuthorized == m.world.mem[k].rootAuthorized
                || (m'.world.mem[k].rootAuthorized && EverUnknown(m, acts, k)))
    decreases |acts|
  {
    if acts != [] {
      var next := Step(m, acts[0]);
      StepKeepsIntents(m, acts[0]);
      StepInv(m, acts[0]);
      assert k in next.world.mem;
      assert KeyOk(m.world, k);
      IntentImmutable(next, acts[1..], k);
    }
  }

  // ----- container provenance -----

  /** The event that gave container c its mount at k. */
  predicate Gives(e: Event, k: Key, c: string) {
    || e == Inherited(k, c)
    || e == Observed(k, c)
    || (e.NodeMount? && e.ok && PlanKey(e.plan) == k && e.plan.containerID == c)
  }

  ghost predicate GivenAt(h: History, i: nat, k: Key, c: string) {
    && i < |h| && Gives(h[i], k, c)
    && forall j :: i < j < |h| ==> h[j] != NodeUnmount(k, c, true)
  }

  lemma {:induction false} OwnedMeans(h: History, k: Key, c: string)
    ensures Owned(h, k, c) <==> exists i :: GivenAt(h, i, k, c)
  {
    if h != [] {
      var p, e := h[..|h| - 1], h[|h| - 1];
      OwnedMeans(p, k, c);
      if Gives(e, k, c) {
        assert GivenAt(h, |h| - 1, k, c);
      } else if e != NodeUnmount(k, c, true) {
        if i :| GivenAt(p, i, k, c) {
          assert GivenAt(h, i, k, c);
        }
        if i :| GivenAt(h, i, k, c) {
          assert GivenAt(p, i, k, c);
        }
      }
    }
  }

  /**
    A record that names a container was given it by a successful node Mount, by
    a mount observed while it was pending, or by an earlier version, and the node
    has not successfully unmounted it since. This holds for what a restart would
    load as well.
  */
  lemma ContainerProvenance(m: Machine, k: Key)
    requires Reachable(m)
    ensures k in m.world.mem && m.world.mem[k].containerID != "" ==>
              exists i :: GivenAt(m.world.history, i, k, m.world.mem[k].containerID)
    ensures k in m.world.disk && m.world.disk[k].containerID != "" ==>
              exists i :: GivenAt(m.world.history, i, k, m.world.disk[k].containerID)
  {
    ReachableInv(m);
    assert KeyOk(m.world, k);
    if k in m.world.mem { OwnedMeans(m.world.history, k, m.world.mem[k].containerID); }
    if k in m.world.disk { OwnedMeans(m.world.history, k, m.world.disk[k].containerID); }
  }

  /** Every node Unmount is of a mount that was given and not yet unmounted. */
  lemma UnmountsOnlyGiven(m: Machine, j: nat)
    requires Reachable(m) && j < |m.world.history| && m.world.history[j].NodeUnmount?
    ensures exists i :: GivenAt(m.world.history[..j], i, m.world.history[j].key, m.world.history[j].containerID)
  {
    ReachableInv(m);
    var h := m.world.history;
    assert EventOk(h[..j], h[j]);
    OwnedMeans(h[..j], h[j].key, h[j].containerID);
  }

  // ----- journal before act -----

  /** From the node call on, to the end of a mount that made it. */
  predicate MountActing(at: MountPoint) {
    at.MountNode? || at.MountRestore? || at.MountRecord? || (at.MountExit? && at.outcome.Mounted?)
  }

  predicate UnmountActing(at: UnmountPoint) { at.UnmountCheck? || at.UnmountNode? || at.UnmountRestore? }

  predicate ReconcileActing(at: ReconcilePoint) {
    at.ReconcileNode? || at.ReconcileRecord? || (at.ReconcileExit? && at.acted)
  }

  /** A process that dies while a mount is calling the node leaves a record of its request for the next one. */
  lemma MountIsJournaled(m: Machine, t: nat, call: MountCall, at: MountPoint, cfg: Config)
    requires Reachable(m) && t in m.threads && m.threads[t].stage == Inside(Mounting(call, at)) && MountActing(at)
    ensures var after, k := RestartStep(m, cfg).world.mem, RequestKey(call.request);
            k in after && after[k].request == call.request
  {
    ReachableInv(m);
    MountReached(m, t, call, at);
    ActingIsOnDisk(m.cfg, m.world, call, at);
  }

  lemma ActingIsOnDisk(cfg: Config, w: World, call: MountCall, at: MountPoint)
    requires KeyOk(w, RequestKey(call.request)) && MountKnows(cfg, w, call, at) && MountActing(at)
    ensures RequestKey(call.request) in w.disk
    ensures Load(w.disk[RequestKey(call.request)]).request == call.request
  {
  }

  /** Dying inside an unmount, after its delete and before a restore, leaves no record. */
  lemma UnmountIsJournaled(m: Machine, t: nat, target: UnmountCall, at: UnmountPoint, cfg: Config)
    requires Reachable(m) && t in m.threads && m.threads[t].stage == Inside(Unmounting(target, at)) && UnmountActing(at)
    ensures target.key !in RestartStep(m, cfg).world.mem
  {
    ReachableInv(m);
    assert StageKnows(m.cfg, m.world, m.threads[t].stage);
  }

  /**
    A reconcile calls the node for a record in memory; it is durable too unless its
    last store write was a torn Delete.
  */
  lemma ReconcileIsJournaledIff(m: Machine, t: nat, job: Job, at: ReconcilePoint, cfg: Config)
    requires Reachable(m) && t in m.threads && m.threads[t].stage == Inside(Reconciling(job, at)) && ReconcileActing(at)
    ensures var after, k := RestartStep(m, cfg).world.mem, KeyOf(job.snapshot);
            && (k in after <==> !LastStore(m.world.history, k).AfterTornDelete?)
            && (k in after ==> after[k].request == job.snapshot.request)
  {
    ReachableInv(m);
    assert StageKnows(m.cfg, m.world, m.threads[t].stage);
    assert KeyOk(m.world, KeyOf(job.snapshot));
  }

  /** Memory and the files agree on every key whose last store write was not torn. */
  lemma MemoryIsDurable(m: Machine, k: Key, cfg: Config)
    requires Reachable(m) && LastStore(m.world.history, k).Clean?
    ensures var after := RestartStep(m, cfg).world.mem;
            && (k in after <==> k in m.world.mem)
            && (k in after ==>
                  || after[k] == m.world.mem[k]
                  || (m.world.mem[k].legacyRootUnknown && after[k] == m.world.mem[k].(legacyRootUnknown := false)
                      && !after[k].rootAuthorized))
  {
    ReachableInv(m);
    assert KeyOk(m.world, k);
  }

  // ----- stale verdicts -----

  /** A stale verdict, however old, only ever removes the very record it was given on. */
  lemma StaleRemovesJudged(m: Machine, act: Action, snapshot: DesiredMount, at: RemovePoint)
    requires Reachable(m) && Enabled(m, act) && act.Advance?
    requires m.threads[act.t].stage == Inside(Removing(snapshot, at))
    requires Step(m, act).world != m.world
    ensures Lookup(m.world.mem, KeyOf(snapshot)) == Some(snapshot)
    ensures Step(m, act).world.mem == m.world.mem || Step(m, act).world.mem == m.world.mem - {KeyOf(snapshot)}
  {
    ReachableInv(m);
    assert StageKnows(m.cfg, m.world, m.threads[act.t].stage);
  }

  // ----- lock discipline -----

  /**
    Whatever changes a key's record or file, short of a restart, is the holder of the
    key's lock inside a section for it.
  */
  lemma WritesHoldLock(m: Machine, act: Action, k: Key)
    requires Reachable(m) && Enabled(m, act) && !act.Restart?
    requires var m' := Step(m, act);
             Lookup(m'.world.mem, k) != Lookup(m.world.mem, k) || Lookup(m'.world.disk, k) != Lookup(m.world.disk, k)
    ensures act.Advance? && InsideAt(m, act.t) && SectionKey(m.threads[act.t].stage.pc) == k
    ensures Stripe(k) in m.locks && m.locks[Stripe(k)] == act.t
  {
    ReachableInv(m);
    if act.Advance? {
      var pc := m.threads[act.t].stage.pc;
      AdvanceKeepsIntents(m, act.t, pc, act.answers);
      assert InsideAt(m, act.t);
    } else {
      OtherActionsKeepStore(m, act);
    }
  }

  /** One stripe, one thread; one thread, at most one stripe, and none while it waits for one. */
  lemma LocksExclusive(m: Machine)
    requires Reachable(m)
    ensures forall t, u :: InsideAt(m, t) && InsideAt(m, u) && StripeAt(m, t) == StripeAt(m, u) ==> t == u
    ensures forall a, b :: a in m.locks && b in m.locks && m.locks[a] == m.locks[b] ==> a == b
    ensures forall t, s :: t in m.threads && m.threads[t].stage.Waiting? && s in m.locks ==> m.locks[s] != t
  {
    ReachableInv(m);
  }

  // ----- retry tokens -----

  lemma {:induction false} RetriesBounded(h: History, k: Key)
    requires HistoryOk(h)
    ensures RetriesSince(h, k) <= MAX_RETRIES
  {
    if h != [] {
      var p, e := h[..|h| - 1], h[|h| - 1];
      forall i | 0 <= i < |p|
        ensures EventOk(p[..i], p[i])
      {
        assert p[..i] == h[..i];
        assert EventOk(h[..i], h[i]);
      }
      RetriesBounded(p, k);
      assert EventOk(h[..|h| - 1], e);
    }
  }

  /**
    A key is in `retrying` exactly when one token for it exists, in the queue or
    in a thread's hands, and never two; the queue is bounded, every attempt
    indexes a delay, and between two schedulings of a key the workers reconcile
    it at most five times.
  */
  lemma RetryTokens(m: Machine, k: Key)
    requires Reachable(m)
    ensures k in m.retrying <==> Queued(m, k) || exists t :: HeldBy(m, t).Some? && HeldBy(m, t).value.key == k
    ensures forall i, j :: 0 <= i < j < |m.queue| ==> m.queue[i].key != m.queue[j].key
    ensures forall t :: HeldBy(m, t).Some? && HeldBy(m, t).value.key == k ==>
              !Queued(m, k) && forall u :: u != t && HeldBy(m, u).Some? ==> HeldBy(m, u).value.key != k
    ensures |m.queue| <= 4096
    ensures forall i :: 0 <= i < |m.queue| ==> m.queue[i].attempt < 5
    ensures forall t :: HeldBy(m, t).Some? ==> HeldBy(m, t).value.attempt < 5
    ensures RetriesSince(m.world.history, k) <= 5
  {
    ReachableInv(m);
    RetriesBounded(m.world.history, k);
  }

  // ----- rollback -----

  lemma MountReached(m: Machine, t: nat, call: MountCall, at: MountPoint)
    requires Reachable(m) && t in m.threads && m.threads[t].stage == Inside(Mounting(call, at))
    ensures MountKnows(m.cfg, m.world, call, at)
  {
    ReachableInv(m);
    assert StageKnows(m.cfg, m.world, m.threads[t].stage);
  }

  lemma UnmountReached(m: Machine, t: nat, target: UnmountCall, at: UnmountPoint)
    requires Reachable(m) && t in m.threads && m.threads[t].stage == Inside(Unmounting(target, at))
    ensures UnmountKnows(m.world, target, at)
  {
    ReachableInv(m);
    assert StageKnows(m.cfg, m.world, m.threads[t].stage);
  }

  /**
    At the end of a mount that failed at the node and was rolled back, an absent
    key is absent again and a present record is as it was found, except for the
    fingerprint the call was just authorized with.
  */
  lemma MountRollsBack(m: Machine, t: nat, call: MountCall, entry: Option<DesiredMount>)
    requires Reachable(m) && t in m.threads
    requires m.threads[t].stage == Inside(Mounting(call, MountExit(entry, MountRolledBack)))
    ensures var k := RequestKey(call.request);
            && (entry.None? ==> k !in m.world.mem)
            && (entry.Some? ==> Lookup(m.world.mem, k) == Some(entry.value.(fingerprint := call.fingerprint)))
  {
    MountReached(m, t, call, MountExit(entry, MountRolledBack));
  }

  /** At the end of an unmount that failed and was rolled back, the record is exactly as it was found. */
  lemma UnmountRollsBack(m: Machine, t: nat, target: UnmountCall, met: Option<DesiredMount>)
    requires Reachable(m) && t in m.threads
    requires m.threads[t].stage == Inside(Unmounting(target, UnmountExit(met, UnmountRolledBack)))
    ensures Lookup(m.world.mem, target.key) == met
  {
    UnmountReached(m, t, target, UnmountExit(met, UnmountRolledBack));
  }
}
