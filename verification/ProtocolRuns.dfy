/**
  Runs of the protocol in which one thread acts alone. Its actions, from the first
  to the last, do what the server's methods do: a mount or unmount call is its
  section between the events around it, a pass or a worker handles its record and
  queues its retry. So what is proved of sections, of handling a record and of the
  queue is said of the protocol's own steps.
*/
module ProtocolRuns {
  import opened Results
  import opened MountRecords
  import opened Authorization
  import opened Sections
  import opened SectionRuns
  import opened Histories
  import opened Protocol
  import opened Passes
  import opened RetryQueues
  import WhiteSpace

  lemma {:induction false} RunsThen(m: Machine, acts: seq<Action>, act: Action)
    requires Runs(m, acts) && Enabled(After(m, acts), act)
    ensures Runs(m, acts + [act]) && After(m, acts + [act]) == Step(After(m, acts), act)
    decreases |acts|
  {
    if acts == [] {
      assert acts + [act] == [act];
      assert [act][1..] == [];
    } else {
      assert (acts + [act])[1..] == acts[1..] + [act];
      RunsThen(Step(m, acts[0]), acts[1..], act);
    }
  }

  ghost predicate Leads(m: Machine, acts: seq<Action>, m': Machine) { Runs(m, acts) && After(m, acts) == m' }

  lemma Then(m: Machine, acts: seq<Action>, m': Machine, act: Action, next: Machine) returns (longer: seq<Action>)
    requires Leads(m, acts, m') && Enabled(m', act) && Step(m', act) == next
    ensures longer == acts + [act] && Leads(m, longer, next)
  {
    RunsThen(m, acts, act);
    longer := acts + [act];
  }

  /** Machine m with thread t of a role at a stage, in a world, holding the lock of k or none. */
  function With(m: Machine, t: nat, role: Role, stage: Stage, w: World, holds: Option<Key>): Machine {
    m.(threads := m.threads[t := Thread(stage, role)],
       world := w,
       locks := if holds.Some? then map[Stripe(holds.value) := t] else map[])
  }

  lemma Acquires(m: Machine, t: nat, role: Role, w: World, entry: Pc)
    ensures var before := With(m, t, role, Waiting(entry), w, None);
            && Enabled(before, Acquire(t))
            && Step(before, Acquire(t)) ==
               With(m, t, role, Inside(entry),
                    if entry.Mounting? then Log(w, MountEntered(SectionKey(entry))) else w, Some(SectionKey(entry)))
  {
    assert map[][Stripe(SectionKey(entry)) := t] == map[Stripe(SectionKey(entry)) := t];
  }

  lemma Advances(m: Machine, t: nat, role: Role, w: World, pc: Pc, a: Answers, w': World, pc': Pc)
    requires !IsExit(pc) && SectionStep(m.cfg, w, pc, a) == (w', pc')
    ensures var before := With(m, t, role, Inside(pc), w, Some(SectionKey(pc)));
            && Enabled(before, Advance(t, a))
            && Step(before, Advance(t, a)) == With(m, t, role, Inside(pc'), w', Some(SectionKey(pc)))
  {
    AdvancesInside(m, t, role, w, pc, a, w', pc');
  }

  lemma AdvancesInside(m: Machine, t: nat, role: Role, w: World, pc: Pc, a: Answers, w': World, pc': Pc)
    requires !IsExit(pc) && SectionStep(m.cfg, w, pc, a) == (w', pc')
    ensures var before := With(m, t, role, Inside(pc), w, Some(SectionKey(pc)));
            AdvanceStep(before, t, pc, a) == With(m, t, role, Inside(pc'), w', Some(SectionKey(pc)))
  {
    var there, after := Thread(Inside(pc), role), Thread(Inside(pc'), role);
    assert m.threads[t := there][t := after] == m.threads[t := after];
  }

  lemma Releases(m: Machine, t: nat, w: World, pc: Pc)
    requires IsExit(pc) && t !in m.threads && (pc.Mounting? || pc.Unmounting?)
    ensures var before := With(m, t, Handler, Inside(pc), w, Some(SectionKey(pc)));
            && Enabled(before, Release(t))
            && Step(before, Release(t)) ==
               m.(locks := map[],
                  world :=
                    if pc.Unmounting? && pc.unmount.outcome.UnmountDone? then Log(w, Unmounted(pc.target.key)) else w)
  {
    assert m.threads[t := Thread(Inside(pc), Handler)] - {t} == m.threads;
    assert map[Stripe(SectionKey(pc)) := t] - {Stripe(SectionKey(pc))} == map[];
  }

  // ----- one section -----

  function RunSection(cfg: Config, w: World, pc: Pc, a: Answers): (World, Pc) {
    match pc
    case Mounting(call, at) =>
      var (w', at') := RunMount(cfg, w, call, at, a);
      (w', Mounting(call, at'))
    case Unmounting(target, at) =>
      var (w', at') := RunUnmount(w, target, at, a);
      (w', Unmounting(target, at'))
    case Reconciling(job, at) =>
      var (w', at') := RunReconcile(cfg, w, job, at, a);
      (w', Reconciling(job, at'))
    case Removing(snapshot, at) =>
      var (w', at') := RunRemove(w, snapshot, at, a);
      (w', Removing(snapshot, at'))
  }

  function SectionLeft(pc: Pc): nat {
    match pc
    case Mounting(_, at) => MountLeft(at)
    case Unmounting(_, at) => UnmountLeft(at)
    case Reconciling(_, at) => ReconcileLeft(at)
    case Removing(_, at) => RemoveLeft(at)
  }

  lemma NextInSection(cfg: Config, w: World, pc: Pc, a: Answers)
    requires !IsExit(pc)
    ensures var (w', pc') := SectionStep(cfg, w, pc, a);
            && SectionKey(pc') == SectionKey(pc) && SectionLeft(pc') < SectionLeft(pc)
            && RunSection(cfg, w, pc, a) == RunSection(cfg, w', pc', a)
  {
    match pc
    case Mounting(call, at) => MountStepShrinks(cfg, w, call, at, a);
    case Unmounting(target, at) => NextUnmount(w, target, at, a);
    case Reconciling(job, at) => NextReconcile(cfg, w, job, at, a);
    case Removing(snapshot, at) =>
  }

  lemma NextUnmount(w: World, target: UnmountCall, at: UnmountPoint, a: Answers)
    requires !at.UnmountExit?
    ensures var (w', at') := UnmountStep(w, target, at, a);
            UnmountLeft(at') < UnmountLeft(at) && RunUnmount(w, target, at, a) == RunUnmount(w', target, at', a)
  {
  }

  /** Inside its section, a thread that advances alone comes to where the uninterrupted section ends. */
  lemma {:induction false} SectionAlone(m0: Machine, prefix: seq<Action>, m: Machine, t: nat, role: Role, w: World,
                                        pc: Pc, a: Answers)
    returns (acts: seq<Action>)
    requires Leads(m0, prefix, With(m, t, role, Inside(pc), w, Some(SectionKey(pc))))
    ensures var (w', pc') := RunSection(m.cfg, w, pc, a);
            && IsExit(pc') && SectionKey(pc') == SectionKey(pc)
            && Leads(m0, acts, With(m, t, role, Inside(pc'), w', Some(SectionKey(pc))))
    decreases SectionLeft(pc)
  {
    if IsExit(pc) {
      acts := prefix;
    } else {
      var k := SectionKey(pc);
      var (w1, pc1) := SectionStep(m.cfg, w, pc, a);
      NextInSection(m.cfg, w, pc, a);
      Advances(m, t, role, w, pc, a, w1, pc1);
      acts := Then(m0, prefix, With(m, t, role, Inside(pc), w, Some(k)), Advance(t, a),
                   With(m, t, role, Inside(pc1), w1, Some(k)));
      acts := SectionAlone(m0, acts, m, t, role, w1, pc1, a);
    }
  }

  /** From waiting for its lock to its section's end. */
  lemma LockedAlone(m0: Machine, prefix: seq<Action>, m: Machine, t: nat, role: Role, w: World, entry: Pc, a: Answers)
    returns (acts: seq<Action>)
    requires Leads(m0, prefix, With(m, t, role, Waiting(entry), w, None))
    ensures var w1 := if entry.Mounting? then Log(w, MountEntered(SectionKey(entry))) else w;
            var (w', pc') := RunSection(m.cfg, w1, entry, a);
            && IsExit(pc') && SectionKey(pc') == SectionKey(entry)
            && Leads(m0, acts, With(m, t, role, Inside(pc'), w', Some(SectionKey(entry))))
  {
    var w1 := if entry.Mounting? then Log(w, MountEntered(SectionKey(entry))) else w;
    Acquires(m, t, role, w, entry);
    acts := Then(m0, prefix, With(m, t, role, Waiting(entry), w, None), Acquire(t),
                 With(m, t, role, Inside(entry), w1, Some(SectionKey(entry))));
    acts := SectionAlone(m0, acts, m, t, role, w1, entry, a);
  }

  // ----- calls -----

  /** A mount call alone: the key it shows, its entry, the section's run; nothing else of the machine changes. */
  lemma MountAlone(m: Machine, act: Action, call: MountCall, a: Answers) returns (acts: seq<Action>)
    requires act.StartMount? && Enabled(m, act) && m.locks == map[]
    requires PrepareMount(m.cfg, act.raw, act.providedKey, act.pod, act.pv) == Ok(call)
    ensures var k := RequestKey(call.request);
            var shown := m.cfg.hash(WhiteSpace.TrimSpace(act.providedKey));
            var w := Log(Log(m.world, KeyPresented(k, shown)), MountEntered(k));
            Leads(m, acts, m.(world := RunMount(m.cfg, w, call, MountGet, a).0))
  {
    var t, k, entry := act.t, RequestKey(call.request), Mounting(call, MountGet);
    var w1 := Log(m.world, KeyPresented(k, ShownKey(m.cfg, act.providedKey)));
    var (w', pc') := RunSection(m.cfg, Log(w1, MountEntered(k)), entry, a);
    acts := Then(m, [], m, act, With(m, t, Handler, Waiting(entry), w1, None));
    acts := LockedAlone(m, acts, m, t, Handler, w1, entry, a);
    Releases(m, t, w', pc');
    acts := Then(m, acts, With(m, t, Handler, Inside(pc'), w', Some(k)), Release(t), m.(world := w'));
  }

  /** An unmount call alone: the section's run, and its success on record. */
  lemma UnmountAlone(m: Machine, act: Action, target: UnmountCall, a: Answers) returns (acts: seq<Action>)
    requires act.StartUnmount? && Enabled(m, act) && m.locks == map[]
    requires PrepareUnmount(m.cfg, act.raw, act.pod) == Ok(target)
    ensures var (w, at) := RunUnmount(m.world, target, UnmountGet, a);
            Leads(m, acts, m.(world := if at.outcome.UnmountDone? then Log(w, Unmounted(target.key)) else w))
  {
    var t, w, entry := act.t, m.world, Unmounting(target, UnmountGet);
    var (w', pc') := RunSection(m.cfg, w, entry, a);
    var done := m.(world := if pc'.unmount.outcome.UnmountDone? then Log(w', Unmounted(target.key)) else w');
    acts := Then(m, [], m, act, With(m, t, Handler, Waiting(entry), w, None));
    acts := LockedAlone(m, acts, m, t, Handler, w, entry, a);
    Releases(m, t, w', pc');
    acts := Then(m, acts, With(m, t, Handler, Inside(pc'), w', Some(target.key)), Release(t), done);
  }

  // ----- a record of a pass or a worker -----

  lemma ReleasesJudged(m: Machine, t: nat, role: Role, w: World, job: Job, at: ReconcilePoint)
    requires at.ReconcileExit?
    ensures var before := With(m, t, role, Inside(Reconciling(job, at)), w, Some(KeyOf(job.snapshot)));
            && Enabled(before, Release(t))
            && Step(before, Release(t)) == With(m, t, role, Judged(job.snapshot, at.verdict), w, None)
  {
    var k := KeyOf(job.snapshot);
    assert map[Stripe(k) := t] - {Stripe(k)} == map[];
    Retells(m, t, Thread(Inside(Reconciling(job, at)), role), Thread(Judged(job.snapshot, at.verdict), role));
  }

  lemma Retells(m: Machine, t: nat, before: Thread, after: Thread)
    ensures m.threads[t := before][t := after] == m.threads[t := after]
  {
  }

  lemma ReleasesRemoved(m: Machine, t: nat, role: Role, w: World, snapshot: DesiredMount)
    ensures var before := With(m, t, role, Inside(Removing(snapshot, RemoveExit)), w, Some(KeyOf(snapshot)));
            && Enabled(before, Release(t))
            && Step(before, Release(t)) == With(m, t, role, Reported(snapshot, Stale), w, None)
  {
    var k := KeyOf(snapshot);
    assert map[Stripe(k) := t] - {Stripe(k)} == map[];
    Retells(m, t, Thread(Inside(Removing(snapshot, RemoveExit)), role), Thread(Reported(snapshot, Stale), role));
  }

  /** With its pod's answer a record is judged as JudgeBy judges it. */
  lemma JudgeAlone(m0: Machine, prefix: seq<Action>, m: Machine, t: nat, role: Role, w: World, r: DesiredMount,
                   answer: PodAnswer, a: Answers)
    returns (acts: seq<Action>)
    requires Leads(m0, prefix, With(m, t, role, AfterPod(r, answer), w, None))
    ensures var (w', verdict) := JudgeBy(m.cfg, w, r, answer, a);
            Leads(m0, acts, With(m, t, role, Judged(r, verdict), w', None))
  {
    acts := prefix;
    if answer.Found? {
      var job := Job(r, answer.pod);
      var (w', at) := RunReconcile(m.cfg, w, job, ReconcileGet, a);
      acts := LockedAlone(m0, acts, m, t, role, w, Reconciling(job, ReconcileGet), a);
      ReleasesJudged(m, t, role, w', job, at);
      acts := Then(m0, acts, With(m, t, role, Inside(Reconciling(job, at)), w', Some(KeyOf(r))), Release(t),
                   With(m, t, role, Judged(r, at.verdict), w', None));
    }
  }

  lemma HandlesJudged(m: Machine, t: nat, role: Role, w: World, r: DesiredMount, verdict: Verdict)
    ensures var before := With(m, t, role, Judged(r, verdict), w, None);
            var next := if verdict.Stale? then Waiting(Removing(r, RemoveGet)) else Reported(r, verdict);
            Enabled(before, Handle(t)) && Step(before, Handle(t)) == With(m, t, role, next, w, None)
  {
    Retells(m, t, Thread(Judged(r, verdict), role), Thread(Waiting(Removing(r, RemoveGet)), role));
    Retells(m, t, Thread(Judged(r, verdict), role), Thread(Reported(r, verdict), role));
  }

  /** Its verdict is handled: a stale record is removed, in a section of its own. */
  lemma SettleAlone(m0: Machine, prefix: seq<Action>, m: Machine, t: nat, role: Role, w: World, r: DesiredMount,
                    verdict: Verdict, a: Answers)
    returns (acts: seq<Action>)
    requires Leads(m0, prefix, With(m, t, role, Judged(r, verdict), w, None))
    ensures Leads(m0, acts, With(m, t, role, Reported(r, verdict), Settle(w, r, verdict, a), None))
  {
    var entry := Removing(r, RemoveGet);
    var next := if verdict.Stale? then Waiting(entry) else Reported(r, verdict);
    HandlesJudged(m, t, role, w, r, verdict);
    acts := Then(m0, prefix, With(m, t, role, Judged(r, verdict), w, None), Handle(t),
                 With(m, t, role, next, w, None));
    if verdict.Stale? {
      var (w', at) := RunRemove(w, r, RemoveGet, a);
      acts := LockedAlone(m0, acts, m, t, role, w, entry, a);
      ReleasesRemoved(m, t, role, w', r);
      acts := Then(m0, acts, With(m, t, role, Inside(Removing(r, at)), w', Some(KeyOf(r))), Release(t),
                   With(m, t, role, Reported(r, verdict), w', None));
    }
  }

  lemma HandleAlone(m0: Machine, prefix: seq<Action>, m: Machine, t: nat, role: Role, w: World, r: DesiredMount,
                    answer: PodAnswer, a: Answers)
    returns (acts: seq<Action>)
    requires Leads(m0, prefix, With(m, t, role, AfterPod(r, answer), w, None))
    ensures var (w', verdict) := HandleRecord(m.cfg, w, r, answer, a);
            Leads(m0, acts, With(m, t, role, Reported(r, verdict), w', None))
  {
    var (w', verdict) := JudgeBy(m.cfg, w, r, answer, a);
    acts := JudgeAlone(m0, prefix, m, t, role, w, r, answer, a);
    acts := SettleAlone(m0, acts, m, t, role, w', r, verdict, a);
  }

  /** The thread goes back to work, and the queue and the waiting keys are these. */
  function Resting(m: Machine, t: nat, role: Role, w: World, p: Retries): Machine {
    m.(threads := m.threads[t := Thread(Idle, role)], world := w, retrying := p.retrying, queue := p.tokens,
       locks := map[])
  }

  lemma SchedulesPass(m: Machine, t: nat, rest: seq<DesiredMount>, w: World, r: DesiredMount, verdict: Verdict)
    ensures var before := With(m, t, Pass(rest), Reported(r, verdict), w, None);
            var again := !Final(verdict) && KeyOf(r) !in m.retrying;
            && Enabled(before, Schedule(t))
            && Step(before, Schedule(t)) ==
               if again then
                 With(m, t, Pass(rest), Enqueue(Token(KeyOf(r), 0)), Log(w, RetryScheduled(KeyOf(r))), None).
                   (retrying := m.retrying + {KeyOf(r)})
               else With(m, t, Pass(rest), Idle, w, None)
  {
    var was := Thread(Reported(r, verdict), Pass(rest));
    Retells(m, t, was, Thread(Idle, Pass(rest)));
    Retells(m, t, was, Thread(Enqueue(Token(KeyOf(r), 0)), Pass(rest)));
  }

  lemma Pushes(m: Machine, t: nat, role: Role, w: World, token: Token)
    ensures var before := With(m, t, role, Enqueue(token), w, None);
            && Enabled(before, Push(t))
            && Step(before, Push(t)) == Resting(m, t, role, w, Pushed(RetriesOf(m), token))
  {
    Retells(m, t, Thread(Enqueue(token), role), Thread(Idle, role));
  }

  /** A pass's retry: scheduled if the verdict asks for one and the key is not waiting, and queued if there is room. */
  lemma ScheduleAlone(m0: Machine, prefix: seq<Action>, m: Machine, t: nat, rest: seq<DesiredMount>, w: World,
                      r: DesiredMount, verdict: Verdict)
    returns (acts: seq<Action>)
    requires Leads(m0, prefix, With(m, t, Pass(rest), Reported(r, verdict), w, None))
    ensures var again := !Final(verdict) && KeyOf(r) !in m.retrying;
            Leads(m0, acts, Resting(m, t, Pass(rest), if again then Log(w, RetryScheduled(KeyOf(r))) else w,
                                    Scheduled(RetriesOf(m), KeyOf(r), verdict)))
  {
    var before, k := With(m, t, Pass(rest), Reported(r, verdict), w, None), KeyOf(r);
    SchedulesPass(m, t, rest, w, r, verdict);
    acts := Then(m0, prefix, before, Schedule(t), Step(before, Schedule(t)));
    if !Final(verdict) && k !in m.retrying {
      var waiting, w' := m.(retrying := m.retrying + {k}), Log(w, RetryScheduled(k));
      Pushes(waiting, t, Pass(rest), w', Token(k, 0));
      acts := Then(m0, acts, With(waiting, t, Pass(rest), Enqueue(Token(k, 0)), w', None), Push(t),
                   Resting(waiting, t, Pass(rest), w', Pushed(RetriesOf(waiting), Token(k, 0))));
    }
  }

  lemma TakesRecord(m: Machine, t: nat, r: DesiredMount, rest: seq<DesiredMount>, answer: PodAnswer)
    requires t in m.threads && m.threads[t] == Thread(Idle, Pass([r] + rest)) && PodFits(answer) && m.locks == map[]
    ensures Enabled(m, TakeRecord(t, answer))
    ensures Step(m, TakeRecord(t, answer)) == With(m, t, Pass(rest), AfterPod(r, answer), m.world, None)
  {
    assert ([r] + rest)[1..] == rest;
  }

  /**
    A pass alone on its next record: the record is handled as HandleRecord
    handles it, its retry queued as the queue's Schedule queues it, and the pass
    goes on to the rest.
  */
  lemma PassAlone(m: Machine, t: nat, r: DesiredMount, rest: seq<DesiredMount>, answer: PodAnswer, a: Answers)
    returns (acts: seq<Action>)
    requires m.locks == map[] && t in m.threads && m.threads[t] == Thread(Idle, Pass([r] + rest)) && PodFits(answer)
    ensures var (w, verdict) := HandleRecord(m.cfg, m.world, r, answer, a);
            var again := !Final(verdict) && KeyOf(r) !in m.retrying;
            Leads(m, acts, Resting(m, t, Pass(rest), if again then Log(w, RetryScheduled(KeyOf(r))) else w,
                                   Scheduled(RetriesOf(m), KeyOf(r), verdict)))
  {
    var (w, verdict) := HandleRecord(m.cfg, m.world, r, answer, a);
    TakesRecord(m, t, r, rest, answer);
    acts := Then(m, [], m, TakeRecord(t, answer), With(m, t, Pass(rest), AfterPod(r, answer), m.world, None));
    acts := HandleAlone(m, acts, m, t, Pass(rest), m.world, r, answer, a);
    acts := ScheduleAlone(m, acts, m, t, rest, w, r, verdict);
  }

  // ----- a worker -----

  lemma SchedulesWorker(m: Machine, t: nat, w: World, token: Token, r: DesiredMount, verdict: Verdict)
    ensures var before := With(m, t, Worker(Some(token)), Reported(r, verdict), w, None);
            && Enabled(before, Schedule(t))
            && Step(before, Schedule(t)) ==
               if Final(verdict) || token.attempt + 1 >= MAX_RETRIES then
                 With(m, t, Worker(None), Idle, w, None).(retrying := m.retrying - {token.key})
               else With(m, t, Worker(None), Enqueue(Token(token.key, token.attempt + 1)), w, None)
  {
    var was := Thread(Reported(r, verdict), Worker(Some(token)));
    Retells(m, t, was, Thread(Idle, Worker(None)));
    Retells(m, t, was, Thread(Enqueue(Token(token.key, token.attempt + 1)), Worker(None)));
  }

  lemma ReturnAlone(m0: Machine, prefix: seq<Action>, m: Machine, t: nat, w: World, token: Token, r: DesiredMount,
                    verdict: Verdict)
    returns (acts: seq<Action>)
    requires Leads(m0, prefix, With(m, t, Worker(Some(token)), Reported(r, verdict), w, None))
    ensures Leads(m0, acts, Resting(m, t, Worker(None), w, Returned(RetriesOf(m), token, verdict)))
  {
    var before := With(m, t, Worker(Some(token)), Reported(r, verdict), w, None);
    SchedulesWorker(m, t, w, token, r, verdict);
    acts := Then(m0, prefix, before, Schedule(t), Step(before, Schedule(t)));
    if !Final(verdict) && token.attempt + 1 < MAX_RETRIES {
      var next := Token(token.key, token.attempt + 1);
      Pushes(m, t, Worker(None), w, next);
      acts := Then(m0, acts, With(m, t, Worker(None), Enqueue(next), w, None), Push(t),
                   Resting(m, t, Worker(None), w, Pushed(RetriesOf(m), next)));
    }
  }

  lemma TakesToken(m: Machine, t: nat, token: Token, tail: seq<Token>, answer: PodAnswer)
    requires t in m.threads && m.threads[t] == Thread(Idle, Worker(None)) && m.queue == [token] + tail
    requires m.locks == map[] && PodFits(answer)
    ensures Enabled(m, TakeToken(t))
    ensures var m1 := With(m.(queue := tail), t, Worker(Some(token)), Idle, m.world, None);
            && Step(m, TakeToken(t)) == m1
            && Enabled(m1, Retry(t, answer))
            && Step(m1, Retry(t, answer)) ==
               if token.key in m.world.mem then
                 With(m.(queue := tail), t, Worker(Some(token)), AfterPod(m.world.mem[token.key], answer),
                      Log(m.world, RetryReconciled(token.key)), None)
               else Resting(m, t, Worker(None), m.world, Retries(m.retrying - {token.key}, tail))
  {
    assert ([token] + tail)[1..] == tail;
    var was := Thread(Idle, Worker(Some(token)));
    Retells(m, t, was, Thread(Idle, Worker(None)));
    if token.key in m.world.mem {
      Retells(m, t, was, Thread(AfterPod(m.world.mem[token.key], answer), Worker(Some(token))));
    }
  }

  /**
    A worker alone on the next token: a key without a record stops waiting; a
    record is handled, the reconcile on record, and the token goes back or stops
    waiting as the queue's Return has it.
  */
  lemma WorkerAlone(m: Machine, t: nat, token: Token, tail: seq<Token>, answer: PodAnswer, a: Answers)
    returns (acts: seq<Action>)
    requires m.locks == map[] && t in m.threads && m.threads[t] == Thread(Idle, Worker(None))
    requires m.queue == [token] + tail && PodFits(answer)
    ensures if token.key in m.world.mem then
              var w1, r := Log(m.world, RetryReconciled(token.key)), m.world.mem[token.key];
              var (w, verdict) := HandleRecord(m.cfg, w1, r, answer, a);
              Leads(m, acts, Resting(m, t, Worker(None), w, Returned(Retries(m.retrying, tail), token, verdict)))
            else Leads(m, acts, Resting(m, t, Worker(None), m.world, Retries(m.retrying - {token.key}, tail)))
  {
    var taken := m.(queue := tail);
    var m1 := With(taken, t, Worker(Some(token)), Idle, m.world, None);
    TakesToken(m, t, token, tail, answer);
    acts := Then(m, [], m, TakeToken(t), m1);
    acts := Then(m, acts, m1, Retry(t, answer), Step(m1, Retry(t, answer)));
    if token.key in m.world.mem {
      var w1, r := Log(m.world, RetryReconciled(token.key)), m.world.mem[token.key];
      var (w, verdict) := HandleRecord(m.cfg, w1, r, answer, a);
      acts := HandleAlone(m, acts, taken, t, Worker(Some(token)), w1, r, answer, a);
      acts := ReturnAlone(m, acts, taken, t, w, token, r, verdict);
    }
  }
}
