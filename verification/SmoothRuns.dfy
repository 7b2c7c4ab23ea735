/** Runs with no restart and no store failure: the wrapper unmounts only mounts it was given outright. */
module SmoothRuns {
  import opened Results
  import opened MountRecords
  import opened Authorization
  import opened Sections
  import opened Histories
  import opened SectionInvariants
  import opened Protocol
  import opened ProtocolInvariants
  import opened Guarantees

  predicate AllDone(a: Answers) {
    a.refresh.Done? && a.adopt.Done? && a.pend.Done? && a.restore.Done? && a.record.Done? && a.delete.Done?
  }

  predicate Smooth(act: Action) { !act.Restart? && (act.Advance? ==> AllDone(act.answers)) }

  predicate Named(r: DesiredMount) { r.containerID != "" }

  /** The only time a pending record is in memory: its own mount is between its first write and its last. */
  predicate Acting(pc: Pc) { pc.Mounting? && (pc.mount.MountNode? || pc.mount.MountRestore? || pc.mount.MountRecord?) }

  predicate SmoothMount(call: MountCall, at: MountPoint) {
    match at
    case MountRefresh(_, refreshed) => Named(refreshed)
    case MountCheck(_, found) => Named(found) && found.containerID == call.plan.containerID
    case MountAdopt(_, _) => false
    case MountPend(_, prev) => prev.Some? ==> Named(prev.value)
    case MountNode(_, prev) => prev.Some? ==> Named(prev.value)
    case MountRestore(_, prev) => prev.Some? ==> Named(prev.value)
    case _ => true
  }

  predicate SmoothReconcile(at: ReconcilePoint) {
    match at
    case ReconcilePlan(current) => Named(current)
    case ReconcileCheck(plan, current) => Named(current) && current.containerID == plan.containerID
    case ReconcileRecord(current) => Named(current)
    case _ => true
  }

  predicate SmoothPc(pc: Pc) {
    match pc
    case Mounting(call, at) => SmoothMount(call, at)
    case Reconciling(_, at) => SmoothReconcile(at)
    case _ => true
  }

  /** Seen from a section's key, a pending record is the section's own. */
  predicate OwnPending(w: World, pc: Pc) {
    SectionKey(pc) in w.mem ==> Named(w.mem[SectionKey(pc)]) || Acting(pc)
  }

  predicate NoObservation(h: History) { forall i :: 0 <= i < |h| ==> !h[i].Observed? }

  lemma MountStaysSmooth(cfg: Config, w: World, call: MountCall, at: MountPoint, a: Answers)
    requires !at.MountExit? && MountKnows(cfg, w, call, at) && AllDone(a)
    requires SmoothMount(call, at) && OwnPending(w, Mounting(call, at)) && NoObservation(w.history)
    ensures var (w', at') := MountStep(cfg, w, call, at, a);
            SmoothMount(call, at') && OwnPending(w', Mounting(call, at')) && NoObservation(w'.history)
  {
  }

  lemma UnmountStaysSmooth(w: World, target: UnmountCall, at: UnmountPoint, a: Answers)
    requires !at.UnmountExit? && UnmountKnows(w, target, at) && AllDone(a)
    requires OwnPending(w, Unmounting(target, at)) && NoObservation(w.history)
    ensures var (w', at') := UnmountStep(w, target, at, a);
            OwnPending(w', Unmounting(target, at')) && NoObservation(w'.history)
  {
  }

  lemma ReconcileStaysSmooth(cfg: Config, w: World, job: Job, at: ReconcilePoint, a: Answers)
    requires !at.ReconcileExit? && ReconcileKnows(cfg, w, job, at) && AllDone(a)
    requires SmoothReconcile(at) && OwnPending(w, Reconciling(job, at)) && NoObservation(w.history)
    ensures var (w', at') := ReconcileStep(cfg, w, job, at, a);
            SmoothReconcile(at') && OwnPending(w', Reconciling(job, at')) && NoObservation(w'.history)
  {
  }

  lemma SectionStaysSmooth(cfg: Config, w: World, pc: Pc, a: Answers)
    requires !IsExit(pc) && Knows(cfg, w, pc) && AllDone(a)
    requires SmoothPc(pc) && OwnPending(w, pc) && NoObservation(w.history)
    ensures var (w', pc') := SectionStep(cfg, w, pc, a);
            SmoothPc(pc') && OwnPending(w', pc') && NoObservation(w'.history)
  {
    match pc
    case Mounting(call, at) => MountStaysSmooth(cfg, w, call, at, a);
    case Unmounting(target, at) => UnmountStaysSmooth(w, target, at, a);
    case Reconciling(job, at) => ReconcileStaysSmooth(cfg, w, job, at, a);
    case Removing(_, _) =>
  }

  predicate PendingBy(m: Machine, t: nat, k: Key) {
    InsideAt(m, t) && Acting(m.threads[t].stage.pc) && SectionKey(m.threads[t].stage.pc) == k
  }

  ghost predicate SmoothInv(m: Machine) {
    && (forall k :: k in m.world.mem && !Named(m.world.mem[k]) ==> exists t :: PendingBy(m, t, k))
    && (forall t :: InsideAt(m, t) ==> SmoothPc(m.threads[t].stage.pc))
    && NoObservation(m.world.history)
  }

  lemma OwnKeyPending(m: Machine, t: nat)
    requires Inv(m) && SmoothInv(m) && InsideAt(m, t)
    ensures OwnPending(m.world, m.threads[t].stage.pc)
  {
    var k := SectionKey(m.threads[t].stage.pc);
    if k in m.world.mem && !Named(m.world.mem[k]) {
      var u :| PendingBy(m, u, k);
      assert StripeAt(m, u) == StripeAt(m, t);
    }
  }

  lemma AdvancedStaysSmooth(m: Machine, m': Machine, t: nat, pc: Pc, pc': Pc)
    requires LocksOk(m) && SmoothInv(m) && t in m.threads && m.threads[t].stage == Inside(pc)
    requires SectionKey(pc') == SectionKey(pc) && SmoothPc(pc') && OwnPending(m'.world, pc')
    requires SameElsewhere(m.world, m'.world, SectionKey(pc)) && NoObservation(m'.world.history)
    requires m'.threads == m.threads[t := m.threads[t].(stage := Inside(pc'))]
    ensures SmoothInv(m')
  {
    var k := SectionKey(pc);
    forall x | x in m'.world.mem && !Named(m'.world.mem[x])
      ensures exists u :: PendingBy(m', u, x)
    {
      if x == k {
        assert PendingBy(m', t, x);
      } else {
        assert Lookup(m.world.mem, x) == Lookup(m'.world.mem, x);
        var u :| PendingBy(m, u, x);
        assert PendingBy(m', u, x);
      }
    }
    forall u | InsideAt(m', u)
      ensures SmoothPc(m'.threads[u].stage.pc)
    {
      if u != t { assert InsideAt(m, u); }
    }
  }

  lemma AdvanceStaysSmooth(m: Machine, t: nat, pc: Pc, a: Answers)
    requires Inv(m) && SmoothInv(m) && t in m.threads && m.threads[t].stage == Inside(pc) && !IsExit(pc) && AllDone(a)
    ensures SmoothInv(AdvanceStep(m, t, pc, a))
  {
    assert StageKnows(m.cfg, m.world, m.threads[t].stage);
    assert InsideAt(m, t);
    OwnKeyPending(m, t);
    SectionStaysSmooth(m.cfg, m.world, pc, a);
    SectionKeeps(m.cfg, m.world, pc, a);
    AdvancedStaysSmooth(m, AdvanceStep(m, t, pc, a), t, pc, SectionStep(m.cfg, m.world, pc, a).1);
  }

  /**
    A smooth action of t outside the sections: it keeps the records, observes nothing,
    and enters a section at its entry.
  */
  ghost predicate Apart(m: Machine, m': Machine, t: nat) {
    && m'.world.mem == m.world.mem
    && NoObservation(m'.world.history)
    && (forall u :: u != t ==> Lookup(m'.threads, u) == Lookup(m.threads, u))
    && (InsideAt(m, t) ==> IsExit(m.threads[t].stage.pc))
    && (InsideAt(m', t) ==> IsEntry(m'.threads[t].stage.pc))
  }

  lemma ApartStaysSmooth(m: Machine, m': Machine, t: nat)
    requires SmoothInv(m) && Apart(m, m', t)
    ensures SmoothInv(m')
  {
    forall k | k in m'.world.mem && !Named(m'.world.mem[k])
      ensures exists u :: PendingBy(m', u, k)
    {
      var u :| PendingBy(m, u, k);
      assert u != t;
      assert Lookup(m'.threads, u) == Lookup(m.threads, u);
      assert PendingBy(m', u, k);
    }
    forall u | InsideAt(m', u)
      ensures SmoothPc(m'.threads[u].stage.pc)
    {
      if u != t {
        assert Lookup(m'.threads, u) == Lookup(m.threads, u);
        assert InsideAt(m, u);
      }
    }
  }

  lemma StartsApart(m: Machine, act: Action)
    requires Enabled(m, act) && NoObservation(m.world.history)
    requires act.StartMount? || act.StartUnmount? || act.StartPass? || act.StartWorker?
    ensures Apart(m, Step(m, act), act.t)
  {
  }

  lemma MovesApart(m: Machine, act: Action)
    requires Enabled(m, act) && NoObservation(m.world.history)
    requires act.TakeRecord? || act.TakeToken? || act.Handle? || act.Push?
    ensures Apart(m, Step(m, act), act.t)
  {
  }

  lemma RetryApart(m: Machine, t: nat, token: Token, answer: PodAnswer)
    requires t in m.threads && !InsideAt(m, t) && NoObservation(m.world.history)
    ensures Apart(m, RetryStep(m, t, token, answer), t)
  {
  }

  lemma ScheduleApart(m: Machine, t: nat, snapshot: DesiredMount, verdict: Verdict)
    requires t in m.threads && !InsideAt(m, t) && NoObservation(m.world.history)
    ensures Apart(m, ScheduleStep(m, t, snapshot, verdict), t)
  {
    ScheduleShape(m, t, snapshot, verdict);
    assert ScheduleStep(m, t, snapshot, verdict).world.mem == m.world.mem;
  }

  lemma AcquireApart(m: Machine, t: nat, entry: Pc)
    requires t in m.threads && !InsideAt(m, t) && IsEntry(entry) && NoObservation(m.world.history)
    ensures Apart(m, AcquireStep(m, t, entry), t)
  {
  }

  lemma ReleaseApart(m: Machine, t: nat, pc: Pc)
    requires t in m.threads && m.threads[t].stage == Inside(pc) && IsExit(pc) && NoObservation(m.world.history)
    ensures Apart(m, ReleaseStep(m, t, pc), t)
  {
  }

  lemma StepStaysSmooth(m: Machine, act: Action)
    requires Inv(m) && SmoothInv(m) && Enabled(m, act) && Smooth(act)
    ensures SmoothInv(Step(m, act))
  {
    if act.Advance? {
      AdvanceStaysSmooth(m, act.t, m.threads[act.t].stage.pc, act.answers);
    } else {
      OtherStaysSmooth(m, act);
    }
  }

  lemma LocksApart(m: Machine, act: Action)
    requires ThreadsOk(m) && NoObservation(m.world.history) && Enabled(m, act) && (act.Acquire? || act.Release?)
    ensures Apart(m, Step(m, act), act.t)
  {
    if act.Acquire? {
      assert StageKnows(m.cfg, m.world, m.threads[act.t].stage);
      AcquireApart(m, act.t, m.threads[act.t].stage.entry);
    } else {
      ReleaseApart(m, act.t, m.threads[act.t].stage.pc);
    }
  }

  lemma RetriesApart(m: Machine, act: Action)
    requires NoObservation(m.world.history) && Enabled(m, act) && (act.Retry? || act.Schedule?)
    ensures Apart(m, Step(m, act), act.t)
  {
    if act.Retry? {
      RetryApart(m, act.t, m.threads[act.t].role.token.value, act.answer);
    } else {
      ScheduleApart(m, act.t, m.threads[act.t].stage.snapshot, m.threads[act.t].stage.verdict);
    }
  }

  lemma OtherApart(m: Machine, act: Action)
    requires ThreadsOk(m) && NoObservation(m.world.history) && Enabled(m, act) && !act.Advance? && !act.Restart?
    ensures Apart(m, Step(m, act), act.t)
  {
    if act.Acquire? || act.Release? {
      LocksApart(m, act);
    } else if act.Retry? || act.Schedule? {
      RetriesApart(m, act);
    } else if act.TakeRecord? || act.TakeToken? || act.Handle? || act.Push? {
      MovesApart(m, act);
    } else {
      StartsApart(m, act);
    }
  }

  lemma OtherStaysSmooth(m: Machine, act: Action)
    requires ThreadsOk(m) && SmoothInv(m) && Enabled(m, act) && !act.Advance? && !act.Restart?
    ensures SmoothInv(Step(m, act))
  {
    OtherApart(m, act);
    ApartStaysSmooth(m, Step(m, act), act.t);
  }

  lemma {:induction false} SmoothRun(m: Machine, acts: seq<Action>)
    requires Inv(m) && SmoothInv(m) && Runs(m, acts) && forall i :: 0 <= i < |acts| ==> Smooth(acts[i])
    ensures SmoothInv(After(m, acts))
    decreases |acts|
  {
    if acts != [] {
      assert Smooth(acts[0]);
      StepStaysSmooth(m, acts[0]);
      StepInv(m, acts[0]);
      SmoothRun(Step(m, acts[0]), acts[1..]);
    }
  }

  lemma GivenUnobserved(m: Machine, j: nat)
    requires Reachable(m) && NoObservation(m.world.history)
    requires j < |m.world.history| && m.world.history[j].NodeUnmount?
    ensures var h := m.world.history;
            exists i :: 0 <= i < j && GivenAt(h[..j], i, h[j].key, h[j].containerID)
              && (h[i].Inherited? || h[i].NodeMount?)
  {
    var h := m.world.history;
    UnmountsOnlyGiven(m, j);
    var i: nat :| GivenAt(h[..j], i, h[j].key, h[j].containerID);
    assert h[..j][i] == h[i];
    assert !h[i].Observed?;
  }

  /**
    With no restart, no store failure and no pending record at the start, every
    node Unmount undoes a successful node Mount of the wrapper itself (or of the
    version that left its records behind), never a mount it merely came across.
  */
  lemma UnmountsOnlyOwnMounts(m: Machine, acts: seq<Action>, j: nat)
    requires Initial(m) && Runs(m, acts) && forall i :: 0 <= i < |acts| ==> Smooth(acts[i])
    requires forall k :: k in m.world.mem ==> Named(m.world.mem[k])
    requires j < |After(m, acts).world.history| && After(m, acts).world.history[j].NodeUnmount?
    ensures var h := After(m, acts).world.history;
            exists i :: 0 <= i < j && GivenAt(h[..j], i, h[j].key, h[j].containerID)
              && (h[i].Inherited? || h[i].NodeMount?)
  {
    InitialInv(m);
    SmoothRun(m, acts);
    assert Reachable(After(m, acts));
    GivenUnobserved(After(m, acts), j);
  }
}
