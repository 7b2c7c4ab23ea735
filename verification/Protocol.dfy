/**
  The wrapper as a state machine: request handlers, informer passes and retry
  workers taking single actions in any order, a striped set of target locks, a
  bounded retry queue, and a process that may die at any point and start again
  with another configuration. Pods, PVs, store and node answers are arbitrary.
*/
module Protocol {
  import opened Results
  import opened MountRecords
  import opened Authorization
  import opened Sections
  import opened Histories
  import Kube
  import WhiteSpace

  const RETRY_QUEUE_SIZE: nat := 4096

  datatype Token = Token(key: Key, attempt: nat)

  /** A pass works through records it listed; a worker may hold one retry token. */
  datatype Role =
    | Handler
    | Pass(remaining: seq<DesiredMount>)
    | Worker(token: Option<Token>)

  datatype Stage =
    | Idle
    | Waiting(entry: Pc)                                  // for the lock of the section's key
    | Inside(pc: Pc)                                      // with that lock held
    | Judged(snapshot: DesiredMount, verdict: Verdict)    // handleReconcileResult
    | Reported(snapshot: DesiredMount, verdict: Verdict)  // scheduleReconcileRetry, or the worker's own decision
    | Enqueue(token: Token)                               // holding a token that is about to be queued

  datatype Thread = Thread(stage: Stage, role: Role)

  datatype Machine = Machine(
    cfg: Config,
    world: World,
    locks: map<nat, nat>,
    threads: map<nat, Thread>,
    retrying: set<Key>,
    queue: seq<Token>)

  /** How the API answers for a record's pod; Gone covers a deleted pod and one that moved to another node. */
  datatype PodAnswer = Found(pod: Kube.Pod) | Gone | Unavailable

  datatype Action =
    | StartMount(t: nat, raw: MountRequest, providedKey: string, pod: Kube.Pod, pv: Kube.PersistentVolume)
    | StartUnmount(t: nat, raw: MountRequest, pod: Kube.Pod)
    | StartPass(t: nat, records: seq<DesiredMount>)
    | StartWorker(t: nat)
    | TakeRecord(t: nat, answer: PodAnswer)
    | TakeToken(t: nat)
    | Retry(t: nat, answer: PodAnswer)
    | Acquire(t: nat)
    | Advance(t: nat, answers: Answers)
    | Release(t: nat)
    | Handle(t: nat)
    | Schedule(t: nat)
    | Push(t: nat)
    | Restart(cfg: Config)

  predicate PodFits(answer: PodAnswer) { answer.Found? ==> Kube.ContainersNamed(answer.pod) }

  predicate Enabled(m: Machine, act: Action) {
    match act
    case StartMount(t, raw, providedKey, pod, pv) =>
      t !in m.threads && Kube.ContainersNamed(pod) && PrepareMount(m.cfg, raw, providedKey, pod, pv).Ok?
    case StartUnmount(t, raw, pod) =>
      t !in m.threads && Kube.ContainersNamed(pod) && PrepareUnmount(m.cfg, raw, pod).Ok?
    case StartPass(t, records) =>
      t !in m.threads && forall r :: r in records ==> Lookup(m.world.mem, KeyOf(r)) == Some(r)
    case StartWorker(t) =>
      t !in m.threads
    case Restart(_) =>
      true
    case _ =>
      act.t in m.threads &&
      var th := m.threads[act.t];
      match act
      case TakeRecord(_, answer) => th.stage.Idle? && th.role.Pass? && th.role.remaining != [] && PodFits(answer)
      case TakeToken(_) => th.stage.Idle? && th.role == Worker(None) && m.queue != []
      case Retry(_, answer) => th.stage.Idle? && th.role.Worker? && th.role.token.Some? && PodFits(answer)
      case Acquire(_) => th.stage.Waiting? && Stripe(SectionKey(th.stage.entry)) !in m.locks
      case Advance(_, _) => th.stage.Inside? && !IsExit(th.stage.pc)
      case Release(_) => th.stage.Inside? && IsExit(th.stage.pc)
      case Handle(_) => th.stage.Judged?
      case Schedule(_) => th.stage.Reported?
      case Push(_) => th.stage.Enqueue?
      case _ => false
  }

  // ----- actions -----

  function AfterPod(snapshot: DesiredMount, answer: PodAnswer): Stage {
    match answer
    case Found(pod) => Waiting(Reconciling(Job(snapshot, pod), ReconcileGet))
    case Gone => Judged(snapshot, Stale)
    case Unavailable => Judged(snapshot, Failed)
  }

  function ShownKey(cfg: Config, providedKey: string): string { cfg.hash(WhiteSpace.TrimSpace(providedKey)) }

  function At(m: Machine, t: nat, stage: Stage): Machine
    requires t in m.threads
  {
    m.(threads := m.threads[t := m.threads[t].(stage := stage)])
  }

  function StartMountStep(m: Machine, t: nat, call: MountCall, shown: string): Machine {
    m.(threads := m.threads[t := Thread(Waiting(Mounting(call, MountGet)), Handler)],
       world := Log(m.world, KeyPresented(RequestKey(call.request), shown)))
  }

  function RetryStep(m: Machine, t: nat, token: Token, answer: PodAnswer): Machine
    requires t in m.threads
  {
    if token.key !in m.world.mem then
      m.(threads := m.threads[t := Thread(Idle, Worker(None))], retrying := m.retrying - {token.key})
    else
      At(m, t, AfterPod(m.world.mem[token.key], answer)).(world := Log(m.world, RetryReconciled(token.key)))
  }

  function AcquireStep(m: Machine, t: nat, entry: Pc): Machine
    requires t in m.threads
  {
    var k := SectionKey(entry);
    At(m, t, Inside(entry)).(
      locks := m.locks[Stripe(k) := t],
      world := if entry.Mounting? then Log(m.world, MountEntered(k)) else m.world)
  }

  function AdvanceStep(m: Machine, t: nat, pc: Pc, a: Answers): Machine
    requires t in m.threads && !IsExit(pc)
  {
    var (w', pc') := SectionStep(m.cfg, m.world, pc, a);
    At(m, t, Inside(pc')).(world := w')
  }

  function ReleaseStep(m: Machine, t: nat, pc: Pc): Machine
    requires t in m.threads && IsExit(pc)
  {
    var unlocked := m.(locks := m.locks - {Stripe(SectionKey(pc))});
    match pc
    case Mounting(_, _) => unlocked.(threads := m.threads - {t})
    case Unmounting(target, at) =>
      unlocked.(threads := m.threads - {t},
                world := if at.outcome.UnmountDone? then Log(m.world, Unmounted(target.key)) else m.world)
    case Reconciling(job, at) => At(unlocked, t, Judged(job.snapshot, at.verdict))
    case Removing(snapshot, _) => At(unlocked, t, Reported(snapshot, Stale))
  }

  predicate Final(verdict: Verdict) { !verdict.Failed? }

  function ScheduleStep(m: Machine, t: nat, snapshot: DesiredMount, verdict: Verdict): Machine
    requires t in m.threads
  {
    var role := m.threads[t].role;
    var k := KeyOf(snapshot);
    match role
    case Worker(Some(token)) =>
      if Final(verdict) || token.attempt + 1 >= MAX_RETRIES then
        m.(threads := m.threads[t := Thread(Idle, Worker(None))], retrying := m.retrying - {token.key})
      else
        m.(threads := m.threads[t := Thread(Enqueue(Token(token.key, token.attempt + 1)), Worker(None))])
    case _ =>
      if Final(verdict) || k in m.retrying then At(m, t, Idle)
      else
        At(m, t, Enqueue(Token(k, 0))).(retrying := m.retrying + {k}, world := Log(m.world, RetryScheduled(k)))
  }

  function PushStep(m: Machine, t: nat, token: Token): Machine
    requires t in m.threads
  {
    if |m.queue| < RETRY_QUEUE_SIZE then At(m, t, Idle).(queue := m.queue + [token])
    else At(m, t, Idle).(retrying := m.retrying - {token.key})
  }

  /** A new process: memory comes from the files, everything else is gone. */
  function Reload(w: World): World {
    World(map k | k in w.disk :: Load(w.disk[k]), w.disk, w.history + [Restarted])
  }

  function RestartStep(m: Machine, cfg: Config): Machine {
    Machine(cfg, Reload(m.world), map[], map[], {}, [])
  }

  function Step(m: Machine, act: Action): Machine
    requires Enabled(m, act)
  {
    match act
    case StartMount(t, raw, providedKey, pod, pv) =>
      StartMountStep(m, t, PrepareMount(m.cfg, raw, providedKey, pod, pv).value, ShownKey(m.cfg, providedKey))
    case StartUnmount(t, raw, pod) =>
      var target := PrepareUnmount(m.cfg, raw, pod).value;
      m.(threads := m.threads[t := Thread(Waiting(Unmounting(target, UnmountGet)), Handler)])
    case StartPass(t, records) =>
      m.(threads := m.threads[t := Thread(Idle, Pass(records))])
    case StartWorker(t) =>
      m.(threads := m.threads[t := Thread(Idle, Worker(None))])
    case TakeRecord(t, answer) =>
      var remaining := m.threads[t].role.remaining;
      m.(threads := m.threads[t := Thread(AfterPod(remaining[0], answer), Pass(remaining[1..]))])
    case TakeToken(t) =>
      m.(threads := m.threads[t := Thread(Idle, Worker(Some(m.queue[0])))], queue := m.queue[1..])
    case Retry(t, answer) =>
      RetryStep(m, t, m.threads[t].role.token.value, answer)
    case Acquire(t) =>
      AcquireStep(m, t, m.threads[t].stage.entry)
    case Advance(t, a) =>
      AdvanceStep(m, t, m.threads[t].stage.pc, a)
    case Release(t) =>
      ReleaseStep(m, t, m.threads[t].stage.pc)
    case Handle(t) =>
      var stage := m.threads[t].stage;
      if stage.verdict.Stale? then At(m, t, Waiting(Removing(stage.snapshot, RemoveGet)))
      else At(m, t, Reported(stage.snapshot, stage.verdict))
    case Schedule(t) =>
      ScheduleStep(m, t, m.threads[t].stage.snapshot, m.threads[t].stage.verdict)
    case Push(t) =>
      PushStep(m, t, m.threads[t].stage.token)
    case Restart(cfg) =>
      RestartStep(m, cfg)
  }

  // ----- runs -----

  /**
    A first start: nothing has happened, and the state directory holds only well-formed
    version 1 files, whose mounts an earlier version left behind.
  */
  ghost predicate Initial(m: Machine) {
    && (forall i :: 0 <= i < |m.world.history| ==> m.world.history[i].Inherited?)
    && (forall k :: k in m.world.disk ==>
          && m.world.disk[k].version == LEGACY_VERSION
          && RequestKey(m.world.disk[k].request) == k
          && Canonical(m.world.disk[k].request)
          && (m.world.disk[k].containerID != "" ==> Inherited(k, m.world.disk[k].containerID) in m.world.history))
    && m.world.mem == (map k | k in m.world.disk :: Load(m.world.disk[k]))
    && m.locks == map[] && m.threads == map[] && m.retrying == {} && m.queue == []
  }

  ghost predicate Runs(m: Machine, acts: seq<Action>)
    decreases |acts|
  {
    acts == [] || (Enabled(m, acts[0]) && Runs(Step(m, acts[0]), acts[1..]))
  }

  function After(m: Machine, acts: seq<Action>): Machine
    requires Runs(m, acts)
    decreases |acts|
  {
    if acts == [] then m else After(Step(m, acts[0]), acts[1..])
  }
}
