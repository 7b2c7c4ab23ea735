/** The invariant of every reachable machine, kept by each action. */
module ProtocolInvariants {
  import opened Results
  import opened MountRecords
  import opened Authorization
  import opened Sections
  import opened Histories
  import opened SectionInvariants
  import opened Protocol

  // ----- locks -----

  predicate InsideAt(m: Machine, t: nat) { t in m.threads && m.threads[t].stage.Inside? }

  function StripeAt(m: Machine, t: nat): nat
    requires InsideAt(m, t)
  {
    Stripe(SectionKey(m.threads[t].stage.pc))
  }

  /** A thread is inside a section exactly when it holds the section's lock. */
  ghost predicate LocksOk(m: Machine) {
    && (forall t :: InsideAt(m, t) ==> StripeAt(m, t) in m.locks && m.locks[StripeAt(m, t)] == t)
    && (forall s :: s in m.locks ==> InsideAt(m, m.locks[s]) && StripeAt(m, m.locks[s]) == s)
  }

  // ----- threads -----

  ghost predicate EntryKnows(cfg: Config, h: History, entry: Pc) {
    IsEntry(entry) && (entry.Mounting? ==> CallOk(cfg, h, entry.call))
  }

  ghost predicate StageKnows(cfg: Config, w: World, stage: Stage) {
    match stage
    case Waiting(entry) => EntryKnows(cfg, w.history, entry)
    case Inside(pc) => Knows(cfg, w, pc)
    case _ => true
  }

  ghost predicate ThreadsOk(m: Machine) {
    forall t :: t in m.threads ==> StageKnows(m.cfg, m.world, m.threads[t].stage)
  }

  // ----- retry tokens -----

  function Held(th: Thread): Option<Token> {
    if th.stage.Enqueue? then Some(th.stage.token)
    else if th.role.Worker? then th.role.token
    else None
  }

  function HeldBy(m: Machine, t: nat): Option<Token> { if t in m.threads then Held(m.threads[t]) else None }

  /** The reconciles a token's chain has made: one more once its worker has started on it. */
  function Tries(th: Thread, token: Token): nat {
    if th.stage.Idle? || th.stage.Enqueue? then token.attempt else token.attempt + 1
  }

  predicate Queued(m: Machine, k: Key) { exists i :: 0 <= i < |m.queue| && m.queue[i].key == k }

  ghost predicate QueueOk(m: Machine) {
    && |m.queue| <= RETRY_QUEUE_SIZE
    && (forall i :: 0 <= i < |m.queue| ==>
          && m.queue[i].attempt < MAX_RETRIES
          && m.queue[i].key in m.retrying
          && RetriesSince(m.world.history, m.queue[i].key) == m.queue[i].attempt)
    && (forall i, j :: 0 <= i < j < |m.queue| ==> m.queue[i].key != m.queue[j].key)
  }

  ghost predicate HoldersOk(m: Machine) {
    && (forall t :: HeldBy(m, t).Some? ==>
          var token := HeldBy(m, t).value;
          && token.attempt < MAX_RETRIES
          && token.key in m.retrying
          && !Queued(m, token.key)
          && RetriesSince(m.world.history, token.key) == Tries(m.threads[t], token))
    && (forall t, u :: t != u && HeldBy(m, t).Some? && HeldBy(m, u).Some? ==>
          HeldBy(m, t).value.key != HeldBy(m, u).value.key)
  }

  ghost predicate RetryingOk(m: Machine) {
    forall k :: k in m.retrying ==> Queued(m, k) || exists t :: HeldBy(m, t).Some? && HeldBy(m, t).value.key == k
  }

  /** Each key in `retrying` has exactly one token, in the queue or in a thread's hands. */
  ghost predicate TokensOk(m: Machine) { QueueOk(m) && HoldersOk(m) && RetryingOk(m) }

  predicate HandlerOnly(pc: Pc) { pc.Mounting? || pc.Unmounting? }

  /** Handlers mount and unmount and do nothing else; a worker's token is in its role or on its way to the queue. */
  predicate RoleOk(th: Thread) {
    && (th.role.Handler? <==>
          (th.stage.Waiting? && HandlerOnly(th.stage.entry)) || (th.stage.Inside? && HandlerOnly(th.stage.pc)))
    && (th.role.Worker? ==> th.stage.Idle? || (th.stage.Enqueue? <==> th.role.token.None?))
  }

  ghost predicate RolesOk(m: Machine) { forall t :: t in m.threads ==> RoleOk(m.threads[t]) }

  ghost predicate Inv(m: Machine) { WorldOk(m.world) && LocksOk(m) && ThreadsOk(m) && RolesOk(m) && TokensOk(m) }

  // ----- what the other threads know survives -----

  predicate IsOuter(e: Event) {
    e.KeyPresented? || e.MountEntered? || e.Unmounted? || e.RetryScheduled? || e.RetryReconciled?
  }

  lemma OuterKeeps(w: World, e: Event)
    requires WorldOk(w) && IsOuter(e) && EventOk(w.history, e)
    requires e.Unmounted? ==> e.key !in w.mem
    ensures WorldOk(Log(w, e))
  {
    forall k
      ensures KeyOk(Log(w, e), k)
    {
      assert KeyOk(w, k);
      Extend(w.history, e, k);
      if k in w.mem { RecordOkSame(w.history, e, k, w.mem[k]); }
      if k in w.disk { RecordOkSame(w.history, e, k, Load(w.disk[k])); }
    }
    ExtendOk(w.history, e);
  }

  lemma CallOkGrows(cfg: Config, h: History, e: Event, call: MountCall)
    requires CallOk(cfg, h, call)
    ensures CallOk(cfg, h + [e], call)
  {
    Extend(h, e, RequestKey(call.request));
  }

  /** Two worlds that look the same from k. */
  ghost predicate SameView(w: World, w': World, k: Key) {
    && Lookup(w.mem, k) == Lookup(w'.mem, k)
    && Lookup(w.disk, k) == Lookup(w'.disk, k)
    && (Closed(w'.history, k) ==> Closed(w.history, k))
    && (forall c :: Owned(w'.history, k, c) == Owned(w.history, k, c))
    && (forall f :: Presented(w.history, k, f) ==> Presented(w'.history, k, f))
  }

  lemma RecordOkView(w: World, w': World, k: Key, r: DesiredMount)
    requires SameView(w, w', k) && RecordOk(w.history, k, r)
    ensures RecordOk(w'.history, k, r)
  {
  }

  lemma MountKnowsView(cfg: Config, w: World, w': World, call: MountCall, at: MountPoint)
    requires MountKnows(cfg, w, call, at) && SameView(w, w', RequestKey(call.request))
    ensures MountKnows(cfg, w', call, at)
  {
    if (at.MountPend? || at.MountNode? || at.MountRestore?) && at.prev.Some? {
      RecordOkView(w, w', RequestKey(call.request), at.prev.value);
    }
  }

  lemma UnmountKnowsView(w: World, w': World, target: UnmountCall, at: UnmountPoint)
    requires UnmountKnows(w, target, at) && SameView(w, w', target.key)
    ensures UnmountKnows(w', target, at)
  {
    if at.UnmountCheck? || at.UnmountNode? || at.UnmountRestore? {
      RecordOkView(w, w', target.key, at.held);
    }
  }

  lemma ReconcileKnowsView(cfg: Config, w: World, w': World, job: Job, at: ReconcilePoint)
    requires ReconcileKnows(cfg, w, job, at) && SameView(w, w', KeyOf(job.snapshot))
    ensures ReconcileKnows(cfg, w', job, at)
  {
    if at.ReconcileCheck? || at.ReconcileNode? || at.ReconcileRecord? {
      RecordOkView(w, w', KeyOf(job.snapshot), at.current);
    }
  }

  lemma KnowsView(cfg: Config, w: World, w': World, pc: Pc)
    requires Knows(cfg, w, pc) && SameView(w, w', SectionKey(pc))
    ensures Knows(cfg, w', pc)
  {
    match pc
    case Mounting(call, at) => MountKnowsView(cfg, w, w', call, at);
    case Unmounting(target, at) => UnmountKnowsView(w, w', target, at);
    case Reconciling(job, at) => ReconcileKnowsView(cfg, w, w', job, at);
    case Removing(_, _) =>
  }

  lemma OuterView(w: World, e: Event, k: Key)
    requires IsOuter(e) && e != Unmounted(k)
    ensures SameView(w, Log(w, e), k)
  {
    Extend(w.history, e, k);
  }

  lemma ConfinedView(w: World, w': World, k: Key, x: Key)
    requires Confined(w, w', k) && x != k
    ensures SameView(w, w', x)
  {
    if w'.history != w.history {
      OtherKey(w.history, w'.history[|w.history|], k, x);
    }
  }

  /** Only the thread at k can change what is seen from k, so every other stage keeps what it knows. */
  lemma StageKept(cfg: Config, w: World, w': World, stage: Stage)
    requires StageKnows(cfg, w, stage)
    requires stage.Inside? ==> SameView(w, w', SectionKey(stage.pc))
    requires stage.Waiting? ==> w'.history == w.history || exists e :: w'.history == w.history + [e]
    ensures StageKnows(cfg, w', stage)
  {
    if stage.Inside? {
      KnowsView(cfg, w, w', stage.pc);
    } else if stage.Waiting? && stage.entry.Mounting? && w'.history != w.history {
      var e :| w'.history == w.history + [e];
      CallOkGrows(cfg, w.history, e, stage.entry.call);
    }
  }

  // ----- each action -----

  ghost predicate WorldAndThreads(m: Machine) { WorldOk(m.world) && LocksOk(m) && ThreadsOk(m) }

  /** A step of t after which everything seen by another thread inside a section is as before. */
  ghost predicate OthersSee(m: Machine, m': Machine, t: nat) {
    && m'.cfg == m.cfg
    && (forall u :: u in m'.threads && u != t ==> u in m.threads && m'.threads[u] == m.threads[u])
    && (m'.world.history == m.world.history || exists e :: m'.world.history == m.world.history + [e])
    && (forall u :: InsideAt(m, u) && u != t ==> SameView(m.world, m'.world, SectionKey(m.threads[u].stage.pc)))
  }

  lemma OthersKnow(m: Machine, m': Machine, t: nat)
    requires ThreadsOk(m) && OthersSee(m, m', t)
    requires t in m'.threads ==> StageKnows(m'.cfg, m'.world, m'.threads[t].stage)
    ensures ThreadsOk(m')
  {
    forall u | u in m'.threads
      ensures StageKnows(m'.cfg, m'.world, m'.threads[u].stage)
    {
      if u != t {
        assert m.threads[u].stage.Inside? ==> InsideAt(m, u);
        StageKept(m.cfg, m.world, m'.world, m.threads[u].stage);
      }
    }
  }

  /** The locks stay right when t neither enters nor leaves a section. */
  lemma SameLocks(m: Machine, m': Machine, t: nat)
    requires LocksOk(m) && m'.locks == m.locks
    requires forall u :: u != t ==> Lookup(m'.threads, u) == Lookup(m.threads, u)
    requires InsideAt(m', t) <==> InsideAt(m, t)
    requires InsideAt(m, t) ==> StripeAt(m', t) == StripeAt(m, t)
    ensures LocksOk(m')
  {
    forall u
      ensures InsideAt(m', u) <==> InsideAt(m, u)
      ensures InsideAt(m, u) ==> StripeAt(m', u) == StripeAt(m, u)
    {
      assert u != t ==> Lookup(m'.threads, u) == Lookup(m.threads, u);
    }
  }

  lemma OuterSeen(m: Machine, m': Machine, t: nat, e: Event)
    requires IsOuter(e) && m'.cfg == m.cfg
    requires m'.world == m.world || m'.world == Log(m.world, e)
    requires forall u :: u in m'.threads && u != t ==> u in m.threads && m'.threads[u] == m.threads[u]
    requires forall u :: InsideAt(m, u) && u != t ==> e != Unmounted(SectionKey(m.threads[u].stage.pc))
    ensures OthersSee(m, m', t)
  {
    forall u | InsideAt(m, u) && u != t
      ensures SameView(m.world, m'.world, SectionKey(m.threads[u].stage.pc))
    {
      if m'.world != m.world {
        OuterView(m.world, e, SectionKey(m.threads[u].stage.pc));
      }
    }
  }

  /** Thread t moves between stages outside any section. */
  lemma StepOutside(m: Machine, m': Machine, t: nat)
    requires WorldAndThreads(m) && m'.cfg == m.cfg && m'.locks == m.locks && m'.world == m.world
    requires t in m'.threads && m'.threads == m.threads[t := m'.threads[t]]
    requires !InsideAt(m, t) && !m'.threads[t].stage.Inside?
    requires StageKnows(m.cfg, m.world, m'.threads[t].stage)
    ensures WorldAndThreads(m')
  {
    OthersKnow(m, m', t);
    SameLocks(m, m', t);
  }

  /** The same, with an event logged. */
  lemma StepOutsideLog(m: Machine, m': Machine, t: nat, e: Event)
    requires WorldAndThreads(m) && IsOuter(e) && !e.Unmounted? && EventOk(m.world.history, e)
    requires m'.cfg == m.cfg && m'.locks == m.locks && m'.world == Log(m.world, e)
    requires t in m'.threads && m'.threads == m.threads[t := m'.threads[t]]
    requires !InsideAt(m, t) && !m'.threads[t].stage.Inside?
    requires StageKnows(m'.cfg, m'.world, m'.threads[t].stage)
    ensures WorldAndThreads(m')
  {
    OuterKeeps(m.world, e);
    OuterSeen(m, m', t, e);
    OthersKnow(m, m', t);
    SameLocks(m, m', t);
  }

  lemma StartMountKeeps(m: Machine, act: Action)
    requires Inv(m) && act.StartMount? && Enabled(m, act)
    ensures WorldAndThreads(Step(m, act))
  {
    var call := PrepareMount(m.cfg, act.raw, act.providedKey, act.pod, act.pv).value;
    var e := KeyPresented(RequestKey(call.request), ShownKey(m.cfg, act.providedKey));
    var m' := StartMountStep(m, act.t, call, ShownKey(m.cfg, act.providedKey));
    PreparedCall(m.cfg, act.raw, act.providedKey, act.pod, act.pv);
    assert e in m'.world.history;
    assert CallOk(m.cfg, m'.world.history, call);
    StepOutsideLog(m, m', act.t, e);
  }

  lemma AcquireLocks(m: Machine, t: nat, entry: Pc)
    requires LocksOk(m) && t in m.threads && m.threads[t].stage == Waiting(entry)
             && Stripe(SectionKey(entry)) !in m.locks
    ensures LocksOk(AcquireStep(m, t, entry))
  {
    var m' := AcquireStep(m, t, entry);
    forall u | InsideAt(m', u)
      ensures StripeAt(m', u) in m'.locks && m'.locks[StripeAt(m', u)] == u
    {
      if u != t { assert InsideAt(m, u); }
    }
    forall s | s in m'.locks
      ensures InsideAt(m', m'.locks[s]) && StripeAt(m', m'.locks[s]) == s
    {
      if s != Stripe(SectionKey(entry)) { assert s in m.locks; }
    }
  }

  lemma EntryBecomesKnown(cfg: Config, w: World, w': World, entry: Pc)
    requires WorldOk(w) && EntryKnows(cfg, w.history, entry)
    requires w' == if entry.Mounting? then Log(w, MountEntered(SectionKey(entry))) else w
    ensures WorldOk(w') && Knows(cfg, w', entry)
  {
    if entry.Mounting? {
      var e := MountEntered(SectionKey(entry));
      OuterKeeps(w, e);
      CallOkGrows(cfg, w.history, e, entry.call);
      Extend(w.history, e, SectionKey(entry));
    }
  }

  lemma AcquireKeeps(m: Machine, t: nat, entry: Pc)
    requires Inv(m) && t in m.threads && m.threads[t].stage == Waiting(entry) && Stripe(SectionKey(entry)) !in m.locks
    ensures WorldAndThreads(AcquireStep(m, t, entry))
  {
    var m' := AcquireStep(m, t, entry);
    assert StageKnows(m.cfg, m.world, m.threads[t].stage);
    var e := MountEntered(SectionKey(entry));
    EntryBecomesKnown(m.cfg, m.world, m'.world, entry);
    OuterSeen(m, m', t, e);
    OthersKnow(m, m', t);
    AcquireLocks(m, t, entry);
  }

  /** Two threads inside sections work on keys of different stripes. */
  lemma ApartInside(m: Machine, t: nat, u: nat)
    requires LocksOk(m) && InsideAt(m, t) && InsideAt(m, u) && t != u
    ensures StripeAt(m, t) != StripeAt(m, u)
    ensures SectionKey(m.threads[t].stage.pc) != SectionKey(m.threads[u].stage.pc)
  {
  }

  lemma AdvancedOthers(m: Machine, m': Machine, t: nat, k: Key)
    requires LocksOk(m) && InsideAt(m, t) && SectionKey(m.threads[t].stage.pc) == k
    requires m'.cfg == m.cfg && Confined(m.world, m'.world, k)
    requires t in m'.threads && m'.threads == m.threads[t := m'.threads[t]]
    ensures OthersSee(m, m', t)
  {
    forall u | InsideAt(m, u) && u != t
      ensures SameView(m.world, m'.world, SectionKey(m.threads[u].stage.pc))
    {
      ApartInside(m, t, u);
      ConfinedView(m.world, m'.world, k, SectionKey(m.threads[u].stage.pc));
    }
  }

  lemma AdvancedThreads(m: Machine, m': Machine, t: nat, k: Key)
    requires LocksOk(m) && ThreadsOk(m) && InsideAt(m, t) && SectionKey(m.threads[t].stage.pc) == k
    requires m'.cfg == m.cfg && Confined(m.world, m'.world, k)
    requires t in m'.threads && m'.threads == m.threads[t := m'.threads[t]]
    requires StageKnows(m'.cfg, m'.world, m'.threads[t].stage)
    ensures ThreadsOk(m')
  {
    AdvancedOthers(m, m', t, k);
    OthersKnow(m, m', t);
  }

  lemma AdvancedLocks(m: Machine, t: nat, pc: Pc, w': World, pc': Pc)
    requires LocksOk(m) && t in m.threads && m.threads[t].stage == Inside(pc) && SectionKey(pc') == SectionKey(pc)
    ensures LocksOk(At(m, t, Inside(pc')).(world := w'))
  {
    var m' := At(m, t, Inside(pc')).(world := w');
    assert InsideAt(m, t) && InsideAt(m', t) && StripeAt(m', t) == StripeAt(m, t);
    SameLocks(m, m', t);
  }

  lemma AdvanceKeeps(m: Machine, t: nat, pc: Pc, a: Answers)
    requires WorldAndThreads(m) && t in m.threads && m.threads[t].stage == Inside(pc) && !IsExit(pc)
    ensures WorldAndThreads(AdvanceStep(m, t, pc, a))
  {
    assert StageKnows(m.cfg, m.world, m.threads[t].stage);
    SectionKeeps(m.cfg, m.world, pc, a);
    var (w', pc') := SectionStep(m.cfg, m.world, pc, a);
    assert InsideAt(m, t);
    AdvancedThreads(m, AdvanceStep(m, t, pc, a), t, SectionKey(pc));
    AdvancedLocks(m, t, pc, w', pc');
  }

  lemma ReleaseLocks(m: Machine, t: nat, pc: Pc)
    requires LocksOk(m) && t in m.threads && m.threads[t].stage == Inside(pc) && IsExit(pc)
    ensures LocksOk(ReleaseStep(m, t, pc))
  {
    var m' := ReleaseStep(m, t, pc);
    assert InsideAt(m, t);
    forall u | InsideAt(m', u)
      ensures StripeAt(m', u) in m'.locks && m'.locks[StripeAt(m', u)] == u
    {
      assert u != t && InsideAt(m, u);
      ApartInside(m, t, u);
    }
    forall s | s in m'.locks
      ensures InsideAt(m', m'.locks[s]) && StripeAt(m', m'.locks[s]) == s
    {
      assert s in m.locks && s != StripeAt(m, t);
      assert m.locks[s] != t;
    }
  }

  lemma ReleasedOthers(m: Machine, m': Machine, t: nat, k: Key)
    requires LocksOk(m) && InsideAt(m, t) && SectionKey(m.threads[t].stage.pc) == k && m'.cfg == m.cfg
    requires m'.world == m.world || m'.world == Log(m.world, Unmounted(k))
    requires forall u :: u in m'.threads && u != t ==> u in m.threads && m'.threads[u] == m.threads[u]
    ensures OthersSee(m, m', t)
  {
    forall u | InsideAt(m, u) && u != t
      ensures SectionKey(m.threads[u].stage.pc) != k
    {
      ApartInside(m, t, u);
    }
    OuterSeen(m, m', t, Unmounted(k));
  }

  /** Releasing logs at most a finished unmount, whose key has no record. */
  lemma ReleaseShape(m: Machine, t: nat, pc: Pc)
    requires ThreadsOk(m) && t in m.threads && m.threads[t].stage == Inside(pc) && IsExit(pc)
    ensures var m' := ReleaseStep(m, t, pc);
            && m'.cfg == m.cfg
            && (forall u :: u in m'.threads && u != t ==> u in m.threads && m'.threads[u] == m.threads[u])
            && (t in m'.threads ==> m'.threads[t].stage.Judged? || m'.threads[t].stage.Reported?)
            && (m'.world == m.world
                || (m'.world == Log(m.world, Unmounted(SectionKey(pc))) && SectionKey(pc) !in m.world.mem))
  {
    assert StageKnows(m.cfg, m.world, m.threads[t].stage);
  }

  lemma ReleaseKeeps(m: Machine, t: nat, pc: Pc)
    requires WorldAndThreads(m) && t in m.threads && m.threads[t].stage == Inside(pc) && IsExit(pc)
    ensures WorldAndThreads(ReleaseStep(m, t, pc))
  {
    var m' := ReleaseStep(m, t, pc);
    assert InsideAt(m, t);
    ReleaseShape(m, t, pc);
    if m'.world != m.world {
      OuterKeeps(m.world, Unmounted(SectionKey(pc)));
    }
    ReleasedOthers(m, m', t, SectionKey(pc));
    OthersKnow(m, m', t);
    ReleaseLocks(m, t, pc);
  }

  lemma ReloadKeeps(w: World)
    requires WorldOk(w)
    ensures WorldOk(Reload(w))
  {
    var w' := Reload(w);
    forall k
      ensures KeyOk(w', k)
    {
      assert KeyOk(w, k);
      Extend(w.history, Restarted, k);
      if k in w.disk { RecordOkSame(w.history, Restarted, k, Load(w.disk[k])); }
    }
    ExtendOk(w.history, Restarted);
  }

  lemma RetryKeeps(m: Machine, act: Action)
    requires Inv(m) && act.Retry? && Enabled(m, act)
    ensures WorldAndThreads(Step(m, act))
  {
    var t := act.t;
    var token := m.threads[t].role.token.value;
    assert HeldBy(m, t) == Some(token);
    var m' := RetryStep(m, t, token, act.answer);
    if token.key in m.world.mem {
      StepOutsideLog(m, m', t, RetryReconciled(token.key));
    } else {
      StepOutside(m, m', t);
    }
  }

  lemma ScheduleKeeps(m: Machine, t: nat, snapshot: DesiredMount, verdict: Verdict)
    requires WorldAndThreads(m) && t in m.threads && m.threads[t].stage == Reported(snapshot, verdict)
    ensures WorldAndThreads(ScheduleStep(m, t, snapshot, verdict))
  {
    var m' := ScheduleStep(m, t, snapshot, verdict);
    ScheduleShape(m, t, snapshot, verdict);
    if m'.world != m.world {
      StepOutsideLog(m, m', t, RetryScheduled(KeyOf(snapshot)));
    } else {
      StepOutside(m, m', t);
    }
  }

  lemma ScheduleShape(m: Machine, t: nat, snapshot: DesiredMount, verdict: Verdict)
    requires t in m.threads
    ensures var m' := ScheduleStep(m, t, snapshot, verdict);
            && m'.cfg == m.cfg && m'.locks == m.locks
            && t in m'.threads && m'.threads == m.threads[t := m'.threads[t]]
            && (m'.threads[t].stage.Idle? || m'.threads[t].stage.Enqueue?)
            && (m'.world == m.world || m'.world == Log(m.world, RetryScheduled(KeyOf(snapshot))))
  {
  }

  /** Actions that only move one thread between stages. */
  predicate Moves(act: Action) {
    act.StartUnmount? || act.StartPass? || act.StartWorker? || act.TakeRecord? || act.TakeToken? || act.Handle?
      || act.Push?
  }

  lemma MoveShape(m: Machine, act: Action)
    requires Moves(act) && Enabled(m, act)
    ensures var m' := Step(m, act);
            && m'.cfg == m.cfg && m'.locks == m.locks && m'.world == m.world
            && act.t in m'.threads && m'.threads == m.threads[act.t := m'.threads[act.t]]
            && !InsideAt(m, act.t)
            && !m'.threads[act.t].stage.Inside?
            && (m'.threads[act.t].stage.Waiting? ==>
                  IsEntry(m'.threads[act.t].stage.entry) && !m'.threads[act.t].stage.entry.Mounting?)
  {
  }

  lemma MovesKeep(m: Machine, act: Action)
    requires WorldAndThreads(m) && Moves(act) && Enabled(m, act)
    ensures WorldAndThreads(Step(m, act))
  {
    MoveShape(m, act);
    StepOutside(m, Step(m, act), act.t);
  }

  /** Every action keeps the world, the locks and what each thread knows. */
  lemma StepKeepsWorld(m: Machine, act: Action)
    requires Inv(m) && Enabled(m, act)
    ensures WorldAndThreads(Step(m, act))
  {
    if Moves(act) { MovesKeep(m, act); }
    else {
      match act
      case StartMount(_, _, _, _, _) => StartMountKeeps(m, act);
      case Acquire(t) => AcquireKeeps(m, t, m.threads[t].stage.entry);
      case Advance(t, a) => AdvanceKeeps(m, t, m.threads[t].stage.pc, a);
      case Release(t) => ReleaseKeeps(m, t, m.threads[t].stage.pc);
      case Restart(_) => ReloadKeeps(m.world);
      case Retry(_, _) => RetryKeeps(m, act);
      case Schedule(t) => ScheduleKeeps(m, t, m.threads[t].stage.snapshot, m.threads[t].stage.verdict);
    }
  }

  // ----- tokens -----

  /** An action that moves no token and counts no retry keeps them all. */
  lemma TokensFrame(m: Machine, m': Machine)
    requires TokensOk(m) && m'.queue == m.queue && m'.retrying == m.retrying
    requires forall t :: HeldBy(m', t) == HeldBy(m, t)
    requires forall t :: HeldBy(m, t).Some? ==>
             t in m'.threads && Tries(m'.threads[t], HeldBy(m, t).value) == Tries(m.threads[t], HeldBy(m, t).value)
    requires forall k :: RetriesSince(m'.world.history, k) == RetriesSince(m.world.history, k)
    ensures TokensOk(m')
  {
    forall k | k in m'.retrying
      ensures Queued(m', k) || exists t :: HeldBy(m', t).Some? && HeldBy(m', t).value.key == k
    {
      if !Queued(m, k) {
        var t :| HeldBy(m, t).Some? && HeldBy(m, t).value.key == k;
        assert HeldBy(m', t).Some? && HeldBy(m', t).value.key == k;
      }
    }
  }

  lemma LogCounts(w: World, e: Event)
    requires !e.RetryScheduled? && !e.RetryReconciled?
    ensures forall k :: RetriesSince(Log(w, e).history, k) == RetriesSince(w.history, k)
  {
    forall k
      ensures RetriesSince(Log(w, e).history, k) == RetriesSince(w.history, k)
    {
      Extend(w.history, e, k);
    }
  }

  lemma SectionCounts(w: World, w': World, k: Key)
    requires Confined(w, w', k)
    ensures forall x :: RetriesSince(w'.history, x) == RetriesSince(w.history, x)
  {
    if w'.history != w.history {
      LogCounts(w, w'.history[|w.history|]);
    }
  }

  /** An action of thread t that leaves the queue, its own token and every count alone. */
  lemma StepTokens(m: Machine, m': Machine, t: nat)
    requires TokensOk(m) && m'.queue == m.queue && m'.retrying == m.retrying
    requires forall u :: u != t ==> Lookup(m'.threads, u) == Lookup(m.threads, u)
    requires HeldBy(m', t) == HeldBy(m, t)
    requires HeldBy(m, t).Some? ==> Tries(m'.threads[t], HeldBy(m, t).value) == Tries(m.threads[t], HeldBy(m, t).value)
    requires forall k :: RetriesSince(m'.world.history, k) == RetriesSince(m.world.history, k)
    ensures TokensOk(m')
  {
    forall u
      ensures HeldBy(m', u) == HeldBy(m, u)
      ensures HeldBy(m, u).Some? ==>
              u in m'.threads && Tries(m'.threads[u], HeldBy(m, u).value) == Tries(m.threads[u], HeldBy(m, u).value)
    {
      assert u != t ==> Lookup(m'.threads, u) == Lookup(m.threads, u);
    }
    TokensFrame(m, m');
  }

  lemma PlainTokens(m: Machine, act: Action)
    requires TokensOk(m) && Enabled(m, act)
    requires act.StartMount? || act.StartUnmount? || act.StartPass? || act.StartWorker? || act.TakeRecord?
             || act.Acquire? || act.Handle?
    ensures TokensOk(Step(m, act))
  {
    var m' := Step(m, act);
    if act.StartMount? {
      var call := PrepareMount(m.cfg, act.raw, act.providedKey, act.pod, act.pv).value;
      LogCounts(m.world, KeyPresented(RequestKey(call.request), ShownKey(m.cfg, act.providedKey)));
    }
    if act.Acquire? {
      LogCounts(m.world, MountEntered(SectionKey(m.threads[act.t].stage.entry)));
    }
    StepTokens(m, m', act.t);
  }

  lemma AdvanceTokens(m: Machine, act: Action)
    requires Inv(m) && act.Advance? && Enabled(m, act)
    ensures TokensOk(Step(m, act))
  {
    var t, pc := act.t, m.threads[act.t].stage.pc;
    var m' := AdvanceStep(m, t, pc, act.answers);
    assert StageKnows(m.cfg, m.world, m.threads[t].stage);
    SectionKeeps(m.cfg, m.world, pc, act.answers);
    SectionCounts(m.world, m'.world, SectionKey(pc));
    StepTokens(m, m', t);
  }

  lemma ReleaseTokens(m: Machine, act: Action)
    requires Inv(m) && act.Release? && Enabled(m, act)
    ensures TokensOk(Step(m, act))
  {
    var t, pc := act.t, m.threads[act.t].stage.pc;
    var m' := ReleaseStep(m, t, pc);
    assert RoleOk(m.threads[t]);
    LogCounts(m.world, Unmounted(SectionKey(pc)));
    StepTokens(m, m', t);
  }

  /** Thread t gives up its token together with the key's place in `retrying`. */
  lemma DropToken(m: Machine, m': Machine, t: nat)
    requires TokensOk(m) && HeldBy(m, t).Some? && HeldBy(m', t).None?
    requires forall u :: u != t ==> Lookup(m'.threads, u) == Lookup(m.threads, u)
    requires m'.queue == m.queue && m'.retrying == m.retrying - {HeldBy(m, t).value.key}
    requires m'.world == m.world
    ensures TokensOk(m')
  {
    var gone := HeldBy(m, t).value.key;
    forall u | u != t
      ensures HeldBy(m', u) == HeldBy(m, u)
      ensures HeldBy(m, u).Some? ==> u in m'.threads && m'.threads[u] == m.threads[u]
    {
      assert Lookup(m'.threads, u) == Lookup(m.threads, u);
    }
    assert forall k :: Queued(m', k) == Queued(m, k);
    assert !Queued(m, gone);
    forall k | k in m'.retrying
      ensures Queued(m', k) || exists u :: HeldBy(m', u).Some? && HeldBy(m', u).value.key == k
    {
      if !Queued(m, k) {
        var u :| HeldBy(m, u).Some? && HeldBy(m, u).value.key == k;
        assert u != t;
        assert HeldBy(m', u).Some? && HeldBy(m', u).value.key == k;
      }
    }
  }

  /** Thread t keeps holding a token for the same key, with a count that still fits. */
  lemma RecountToken(m: Machine, m': Machine, t: nat)
    requires TokensOk(m) && HeldBy(m, t).Some? && HeldBy(m', t).Some?
    requires forall u :: u != t ==> Lookup(m'.threads, u) == Lookup(m.threads, u)
    requires m'.queue == m.queue && m'.retrying == m.retrying
    requires HeldBy(m', t).value.key == HeldBy(m, t).value.key && HeldBy(m', t).value.attempt < MAX_RETRIES
    requires forall k :: k != HeldBy(m, t).value.key ==>
             RetriesSince(m'.world.history, k) == RetriesSince(m.world.history, k)
    requires RetriesSince(m'.world.history, HeldBy(m', t).value.key) == Tries(m'.threads[t], HeldBy(m', t).value)
    ensures TokensOk(m')
  {
    forall u | u != t
      ensures HeldBy(m', u) == HeldBy(m, u)
      ensures HeldBy(m, u).Some? ==> m'.threads[u] == m.threads[u]
    {
      assert Lookup(m'.threads, u) == Lookup(m.threads, u);
    }
    forall k
      ensures Queued(m', k) == Queued(m, k)
    {
    }
    forall k | k in m'.retrying
      ensures Queued(m', k) || exists u :: HeldBy(m', u).Some? && HeldBy(m', u).value.key == k
    {
      if !Queued(m, k) {
        var u :| HeldBy(m, u).Some? && HeldBy(m, u).value.key == k;
        assert HeldBy(m', u).Some? && HeldBy(m', u).value.key == k;
      }
    }
  }

  lemma RetryTokens(m: Machine, act: Action)
    requires TokensOk(m) && act.Retry? && Enabled(m, act)
    ensures TokensOk(Step(m, act))
  {
    var t := act.t;
    var token := m.threads[t].role.token.value;
    var m' := RetryStep(m, t, token, act.answer);
    assert HeldBy(m, t) == Some(token);
    if token.key !in m.world.mem {
      DropToken(m, m', t);
    } else {
      forall k
        ensures RetriesSince(m'.world.history, k) == RetriesSince(m.world.history, k) + if k == token.key then 1 else 0
      {
        Extend(m.world.history, RetryReconciled(token.key), k);
      }
      RecountToken(m, m', t);
    }
  }

  lemma TakeTokenTokens(m: Machine, act: Action)
    requires TokensOk(m) && act.TakeToken? && Enabled(m, act)
    ensures TokensOk(Step(m, act))
  {
    var t, taken := act.t, m.queue[0];
    var m' := Step(m, act);
    forall u | u != t
      ensures HeldBy(m', u) == HeldBy(m, u)
    {
    }
    assert HeldBy(m', t) == Some(taken);
    forall i | 0 <= i < |m'.queue|
      ensures m'.queue[i] == m.queue[i + 1] && m'.queue[i].key != taken.key
    {
    }
    assert !Queued(m', taken.key);
    forall k | Queued(m', k)
      ensures Queued(m, k)
    {
      var i :| 0 <= i < |m'.queue| && m'.queue[i].key == k;
      assert m.queue[i + 1].key == k;
    }
    assert Queued(m, taken.key);
    forall k | k in m'.retrying
      ensures Queued(m', k) || exists u :: HeldBy(m', u).Some? && HeldBy(m', u).value.key == k
    {
      if Queued(m, k) {
        var i :| 0 <= i < |m.queue| && m.queue[i].key == k;
        if i == 0 {
          assert HeldBy(m', t).value.key == k;
        } else {
          assert m'.queue[i - 1].key == k;
        }
      } else {
        var u :| HeldBy(m, u).Some? && HeldBy(m, u).value.key == k;
        assert HeldBy(m', u).Some? && HeldBy(m', u).value.key == k;
      }
    }
  }

  lemma NewToken(m: Machine, m': Machine, t: nat, k: Key)
    requires TokensOk(m) && k !in m.retrying && HeldBy(m, t).None? && t in m.threads
    requires m' == At(m, t, Enqueue(Token(k, 0))).(
               retrying := m.retrying + {k}, world := Log(m.world, RetryScheduled(k)))
    requires !m.threads[t].role.Worker?
    ensures TokensOk(m')
  {
    forall u | u != t
      ensures HeldBy(m', u) == HeldBy(m, u)
    {
    }
    assert HeldBy(m', t) == Some(Token(k, 0));
    forall x
      ensures RetriesSince(m'.world.history, x) == if x == k then 0 else RetriesSince(m.world.history, x)
      ensures Queued(m', x) == Queued(m, x)
    {
      Extend(m.world.history, RetryScheduled(k), x);
    }
    assert !Queued(m, k);
    forall x | x in m'.retrying
      ensures Queued(m', x) || exists u :: HeldBy(m', u).Some? && HeldBy(m', u).value.key == x
    {
      if x == k {
        assert HeldBy(m', t).value.key == x;
      } else if !Queued(m, x) {
        var u :| HeldBy(m, u).Some? && HeldBy(m, u).value.key == x;
        assert HeldBy(m', u).Some? && HeldBy(m', u).value.key == x;
      }
    }
  }

  lemma ScheduleTokens(m: Machine, act: Action)
    requires TokensOk(m) && RolesOk(m) && act.Schedule? && Enabled(m, act)
    ensures TokensOk(Step(m, act))
  {
    var t, th := act.t, m.threads[act.t];
    var m' := ScheduleStep(m, t, th.stage.snapshot, th.stage.verdict);
    var k := KeyOf(th.stage.snapshot);
    assert RoleOk(th);
    if th.role.Worker? {
      var token := th.role.token.value;
      assert HeldBy(m, t) == Some(token);
      if Final(th.stage.verdict) || token.attempt + 1 >= MAX_RETRIES {
        DropToken(m, m', t);
      } else {
        RecountToken(m, m', t);
      }
    } else if Final(th.stage.verdict) || k in m.retrying {
      StepTokens(m, m', t);
    } else {
      NewToken(m, m', t, k);
    }
  }

  lemma EnqueueToken(m: Machine, m': Machine, t: nat, token: Token)
    requires TokensOk(m) && HeldBy(m, t) == Some(token) && HeldBy(m', t).None?
    requires RetriesSince(m.world.history, token.key) == token.attempt
    requires forall u :: u != t ==> Lookup(m'.threads, u) == Lookup(m.threads, u)
    requires |m.queue| < RETRY_QUEUE_SIZE && m'.queue == m.queue + [token] && m'.retrying == m.retrying
             && m'.world == m.world
    ensures TokensOk(m')
  {
    forall u | u != t
      ensures HeldBy(m', u) == HeldBy(m, u)
      ensures HeldBy(m, u).Some? ==> u in m'.threads && m'.threads[u] == m.threads[u]
    {
      assert Lookup(m'.threads, u) == Lookup(m.threads, u);
    }
    forall k
      ensures Queued(m', k) <==> Queued(m, k) || k == token.key
    {
      if Queued(m, k) {
        var i :| 0 <= i < |m.queue| && m.queue[i].key == k;
        assert m'.queue[i].key == k;
      }
      assert m'.queue[|m.queue|] == token;
    }
    assert !Queued(m, token.key);
    forall i | 0 <= i < |m.queue|
      ensures m.queue[i].key != token.key
    {
    }
    forall k | k in m'.retrying
      ensures Queued(m', k) || exists u :: HeldBy(m', u).Some? && HeldBy(m', u).value.key == k
    {
      if !Queued(m', k) {
        var u :| HeldBy(m, u).Some? && HeldBy(m, u).value.key == k;
        assert HeldBy(m', u).Some? && HeldBy(m', u).value.key == k;
      }
    }
  }

  lemma PushTokens(m: Machine, act: Action)
    requires TokensOk(m) && RolesOk(m) && act.Push? && Enabled(m, act)
    ensures TokensOk(Step(m, act))
  {
    var t, th := act.t, m.threads[act.t];
    var m' := PushStep(m, t, th.stage.token);
    assert RoleOk(th);
    assert HeldBy(m, t) == Some(th.stage.token);
    if |m.queue| < RETRY_QUEUE_SIZE {
      EnqueueToken(m, m', t, th.stage.token);
    } else {
      DropToken(m, m', t);
    }
  }

  lemma RestartTokens(m: Machine, cfg: Config)
    ensures TokensOk(RestartStep(m, cfg))
  {
  }

  /** The actions that put a token somewhere else. */
  predicate HandsToken(act: Action) { act.Retry? || act.TakeToken? || act.Schedule? || act.Push? }

  lemma HandsTokens(m: Machine, act: Action)
    requires TokensOk(m) && RolesOk(m) && HandsToken(act) && Enabled(m, act)
    ensures TokensOk(Step(m, act))
  {
    match act
    case Retry(_, _) => RetryTokens(m, act);
    case TakeToken(_) => TakeTokenTokens(m, act);
    case Schedule(_) => ScheduleTokens(m, act);
    case Push(_) => PushTokens(m, act);
  }

  lemma InsideTokens(m: Machine, act: Action)
    requires Inv(m) && (act.Advance? || act.Release?) && Enabled(m, act)
    ensures TokensOk(Step(m, act))
  {
    if act.Advance? { AdvanceTokens(m, act); } else { ReleaseTokens(m, act); }
  }

  lemma OutsideTokens(m: Machine, act: Action)
    requires TokensOk(m) && !HandsToken(act) && !act.Advance? && !act.Release? && Enabled(m, act)
    ensures TokensOk(Step(m, act))
  {
    if act.Restart? { RestartTokens(m, act.cfg); } else { PlainTokens(m, act); }
  }

  lemma StepKeepsTokens(m: Machine, act: Action)
    requires Inv(m) && Enabled(m, act)
    ensures TokensOk(Step(m, act))
  {
    if HandsToken(act) {
      HandsTokens(m, act);
    } else if act.Advance? || act.Release? {
      InsideTokens(m, act);
    } else {
      OutsideTokens(m, act);
    }
  }

  lemma StepThread(m: Machine, act: Action)
    requires Enabled(m, act) && !act.Restart?
    ensures forall u :: u != act.t ==> Lookup(Step(m, act).threads, u) == Lookup(m.threads, u)
  {
  }

  lemma StepRole(m: Machine, act: Action)
    requires Enabled(m, act) && !act.Restart? && (act.t in m.threads ==> RoleOk(m.threads[act.t]))
    ensures act.t in Step(m, act).threads ==> RoleOk(Step(m, act).threads[act.t])
  {
  }

  lemma StepKeepsRoles(m: Machine, act: Action)
    requires Inv(m) && Enabled(m, act)
    ensures RolesOk(Step(m, act))
  {
    if !act.Restart? {
      StepThread(m, act);
      StepRole(m, act);
      var m' := Step(m, act);
      forall u | u in m'.threads
        ensures RoleOk(m'.threads[u])
      {
        if u != act.t { assert Lookup(m'.threads, u) == Lookup(m.threads, u); }
      }
    }
  }

  // ----- every reachable machine -----

  lemma InitialInv(m: Machine)
    requires Initial(m)
    ensures Inv(m)
  {
    forall k
      ensures KeyOk(m.world, k)
    {
      InheritedOnly(m.world.history, k);
    }
    forall i | 0 <= i < |m.world.history|
      ensures EventOk(m.world.history[..i], m.world.history[i])
    {
    }
  }

  lemma {:induction false} InheritedOnly(h: History, k: Key)
    requires forall i :: 0 <= i < |h| ==> h[i].Inherited?
    ensures LastStore(h, k).Clean? && !Closed(h, k) && RetriesSince(h, k) == 0
    ensures forall c :: Inherited(k, c) in h ==> Owned(h, k, c)
  {
    if h != [] {
      InheritedOnly(h[..|h| - 1], k);
      assert h == h[..|h| - 1] + [h[|h| - 1]];
    }
  }

  lemma StepInv(m: Machine, act: Action)
    requires Inv(m) && Enabled(m, act)
    ensures Inv(Step(m, act))
  {
    StepKeepsWorld(m, act);
    StepKeepsRoles(m, act);
    StepKeepsTokens(m, act);
  }

  lemma {:induction false} RunInv(m: Machine, acts: seq<Action>)
    requires Inv(m) && Runs(m, acts)
    ensures Inv(After(m, acts))
    decreases |acts|
  {
    if acts != [] {
      StepInv(m, acts[0]);
      RunInv(Step(m, acts[0]), acts[1..]);
    }
  }
}
