/**
  What a reconcile pass and a retry worker make of the records they go over,
  as functions of the world they start from: each record is judged by its pod
  and its verdict handled, and what happens at one key depends on that key alone.
*/
module Passes {
  import opened Results
  import opened MountRecords
  import opened Authorization
  import opened Sections
  import opened Histories
  import opened SectionInvariants
  import opened SectionRuns
  import opened RecordOrder
  import opened Protocol
  import Kube
  import ProtocolInvariants
  import SectionOutcomes

  // ----- where a record's pod comes from -----

  /** The API's answer to a GetPod. */
  datatype PodLookup = Live(pod: Kube.Pod) | NotFound | ApiError

  /** A snapshot pass has the node's pods and may ask the API for others; an event brings one pod. */
  datatype Source =
    | FromPods(pods: seq<Kube.Pod>, live: PodKey -> PodLookup)
    | FromEvent(pod: Kube.Pod, deleted: bool)

  function PodKeyOfPod(pod: Kube.Pod): PodKey { PodKey(pod.metadata.namespace, pod.metadata.name, pod.metadata.uid) }

  /** The last pod of the list with a key, as building the source's map leaves it. */
  function PodIn(pods: seq<Kube.Pod>, k: PodKey): Option<Kube.Pod> {
    if pods == [] then None
    else if PodKeyOfPod(pods[|pods| - 1]) == k then Some(pods[|pods| - 1])
    else PodIn(pods[..|pods| - 1], k)
  }

  predicate MovedAway(cfg: Config, pod: Kube.Pod) { pod.spec.nodeName != "" && pod.spec.nodeName != cfg.nodeName }

  function LiveAnswer(cfg: Config, lookup: PodLookup): PodAnswer {
    match lookup
    case Live(pod) => if MovedAway(cfg, pod) then Gone else Found(pod)
    case NotFound => Gone
    case ApiError => Unavailable
  }

  function RetryAnswer(lookup: PodLookup): PodAnswer {
    match lookup
    case Live(pod) => Found(pod)
    case NotFound => Gone
    case ApiError => Unavailable
  }

  function AnswerFor(cfg: Config, source: Source, r: DesiredMount): PodAnswer {
    match source
    case FromPods(pods, live) =>
      var listed := PodIn(pods, PodKeyOf(r));
      if listed.Some? then Found(listed.value) else LiveAnswer(cfg, live(PodKeyOf(r)))
    case FromEvent(pod, deleted) => if deleted then Gone else Found(pod)
  }

  // ----- one record -----

  function JudgeBy(cfg: Config, w: World, desired: DesiredMount, answer: PodAnswer, a: Answers): (World, Verdict) {
    match answer
    case Found(pod) =>
      var (w', at) := RunReconcile(cfg, w, Job(desired, pod), ReconcileGet, a);
      (w', at.verdict)
    case Gone => (w, Stale)
    case Unavailable => (w, Failed)
  }

  function Settle(w: World, desired: DesiredMount, verdict: Verdict, a: Answers): World {
    if verdict.Stale? then RunRemove(w, desired, RemoveGet, a).0 else w
  }

  /** A record judged by its pod, and its verdict handled. */
  function HandleRecord(cfg: Config, w: World, desired: DesiredMount, answer: PodAnswer, a: Answers): (World, Verdict) {
    var (w', verdict) := JudgeBy(cfg, w, desired, answer, a);
    (Settle(w', desired, verdict, a), verdict)
  }

  // ----- what happens at one key -----

  /** The events of a history that are about k. */
  function AboutKey(h: History, k: Key): History {
    if h == [] then []
    else AboutKey(h[..|h| - 1], k) + if About(h[|h| - 1], k) then [h[|h| - 1]] else []
  }

  /** The two worlds are the same at k: its record, its file, and all that happened there. */
  ghost predicate SameAt(w: World, w': World, k: Key) {
    && Lookup(w.mem, k) == Lookup(w'.mem, k)
    && Lookup(w.disk, k) == Lookup(w'.disk, k)
    && AboutKey(w.history, k) == AboutKey(w'.history, k)
  }

  lemma AboutNext(h: History, e: Event, k: Key)
    ensures AboutKey(h + [e], k) == AboutKey(h, k) + if About(e, k) then [e] else []
  {
    assert (h + [e])[..|h|] == h;
  }

  lemma LogAt(w: World, v: World, e: Event, k: Key)
    requires SameAt(w, v, k)
    ensures SameAt(Log(w, e), Log(v, e), k)
  {
    AboutNext(w.history, e, k);
    AboutNext(v.history, e, k);
  }

  lemma PutAt(w: World, v: World, r: DesiredMount, answer: StoreAnswer, k: Key)
    requires SameAt(w, v, k)
    ensures SameAt(Put(w, r, answer), Put(v, r, answer), k)
  {
    var e := if answer.Done? then Stored(KeyOf(r)) else TornPut(KeyOf(r));
    AboutNext(w.history, e, k);
    AboutNext(v.history, e, k);
  }

  lemma DeleteAt(w: World, v: World, k: Key, answer: StoreAnswer)
    requires SameAt(w, v, k)
    ensures SameAt(Delete(w, k, answer), Delete(v, k, answer), k)
  {
    var e := if answer.Done? then Removed(k) else TornDelete(k);
    AboutNext(w.history, e, k);
    AboutNext(v.history, e, k);
    assert k in w.mem <==> k in v.mem;
  }

  lemma StepAt(cfg: Config, w: World, v: World, job: Job, at: ReconcilePoint, a: Answers)
    requires !at.ReconcileExit? && SameAt(w, v, KeyOf(job.snapshot))
    ensures var (w', at'), (v', at'') := ReconcileStep(cfg, w, job, at, a), ReconcileStep(cfg, v, job, at, a);
            at' == at'' && SameAt(w', v', KeyOf(job.snapshot))
  {
    var k := KeyOf(job.snapshot);
    match at
    case ReconcileCheck(plan, _) => LogAt(w, v, Observed(k, plan.containerID), k);
    case ReconcileNode(plan, _) => LogAt(w, v, NodeMount(plan, cfg.rootKey, a.node), k);
    case ReconcileRecord(current) => PutAt(w, v, current, a.record, k);
    case _ =>
  }

  /** One step from two worlds that agree at the key: the same point comes next, and they still agree. */
  lemma NextAt(cfg: Config, w: World, v: World, job: Job, at: ReconcilePoint, a: Answers)
    returns (w': World, v': World, at': ReconcilePoint)
    requires !at.ReconcileExit? && SameAt(w, v, KeyOf(job.snapshot))
    ensures SameAt(w', v', KeyOf(job.snapshot)) && ReconcileLeft(at') < ReconcileLeft(at)
    ensures RunReconcile(cfg, w, job, at, a) == RunReconcile(cfg, w', job, at', a)
    ensures RunReconcile(cfg, v, job, at, a) == RunReconcile(cfg, v', job, at', a)
  {
    StepAt(cfg, w, v, job, at, a);
    NextReconcile(cfg, w, job, at, a);
    NextReconcile(cfg, v, job, at, a);
    w', at' := ReconcileStep(cfg, w, job, at, a).0, ReconcileStep(cfg, w, job, at, a).1;
    v' := ReconcileStep(cfg, v, job, at, a).0;
  }

  /**
    A reconcile of a record reads and changes nothing but its key: from worlds that
    agree there, it does the same there.
  */
  lemma {:induction false} ReconcileAt(cfg: Config, w: World, v: World, job: Job, at: ReconcilePoint, a: Answers)
    requires SameAt(w, v, KeyOf(job.snapshot))
    ensures var (w', at'), (v', at'') := RunReconcile(cfg, w, job, at, a), RunReconcile(cfg, v, job, at, a);
            at' == at'' && SameAt(w', v', KeyOf(job.snapshot))
    decreases ReconcileLeft(at)
  {
    if !at.ReconcileExit? {
      var w1, v1, at1 := NextAt(cfg, w, v, job, at, a);
      ReconcileAt(cfg, w1, v1, job, at1, a);
    }
  }

  lemma HandleAt(cfg: Config, w: World, v: World, desired: DesiredMount, answer: PodAnswer, a: Answers)
    requires SameAt(w, v, KeyOf(desired))
    ensures var (w', verdict) := HandleRecord(cfg, w, desired, answer, a);
            var (v', verdict') := HandleRecord(cfg, v, desired, answer, a);
            verdict == verdict' && SameAt(w', v', KeyOf(desired))
  {
    if answer.Found? {
      ReconcileAt(cfg, w, v, Job(desired, answer.pod), ReconcileGet, a);
    }
    var (w1, verdict) := JudgeBy(cfg, w, desired, answer, a);
    var (v1, _) := JudgeBy(cfg, v, desired, answer, a);
    if verdict.Stale? { RemoveAt(w1, v1, desired, a); }
  }

  lemma RemoveAt(w: World, v: World, desired: DesiredMount, a: Answers)
    requires SameAt(w, v, KeyOf(desired))
    ensures SameAt(RunRemove(w, desired, RemoveGet, a).0, RunRemove(v, desired, RemoveGet, a).0, KeyOf(desired))
  {
    RemoveMeans(w, desired, a);
    RemoveMeans(v, desired, a);
    DeleteAt(w, v, KeyOf(desired), a.delete);
    assert KeyOf(desired) in w.mem <==> KeyOf(desired) in v.mem;
  }

  // ----- and at the others -----

  lemma WithinChain(w: World, w': World, w'': World, k: Key)
    requires Within(w, w', k) && Within(w', w'', k)
    ensures Within(w, w'', k)
  {
    forall x | x != k
      ensures Lookup(w.mem, x) == Lookup(w''.mem, x) && Lookup(w.disk, x) == Lookup(w''.disk, x)
    {
      assert Lookup(w.mem, x) == Lookup(w'.mem, x) && Lookup(w.disk, x) == Lookup(w'.disk, x);
    }
  }

  lemma OneKey(e: Event, k: Key, x: Key)
    requires About(e, k) && x != k
    ensures !About(e, x)
  {
  }

  lemma {:induction false} AboutOthers(h: History, h': History, k: Key, x: Key)
    requires h <= h' && x != k && forall i :: |h| <= i < |h'| ==> About(h'[i], k)
    ensures AboutKey(h', x) == AboutKey(h, x)
    decreases |h'|
  {
    if |h'| > |h| {
      var init := h'[..|h'| - 1];
      OneKey(h'[|h'| - 1], k, x);
      AboutOthers(h, init, k, x);
    } else {
      assert h' == h;
    }
  }

  lemma WithinElsewhere(w: World, w': World, k: Key, x: Key)
    requires Within(w, w', k) && x != k
    ensures SameAt(w, w', x)
  {
    AboutOthers(w.history, w'.history, k, x);
  }

  lemma JudgeWithin(cfg: Config, w: World, desired: DesiredMount, answer: PodAnswer, a: Answers)
    requires WorldOk(w)
    ensures var (w', _) := JudgeBy(cfg, w, desired, answer, a); WorldOk(w') && Within(w, w', KeyOf(desired))
  {
    if answer.Found? {
      RunReconcileKeeps(cfg, w, Job(desired, answer.pod), ReconcileGet, a);
    }
  }

  /** Handling a record keeps the world and touches no other key. */
  lemma HandleWithin(cfg: Config, w: World, desired: DesiredMount, answer: PodAnswer, a: Answers)
    requires WorldOk(w)
    ensures var (w', _) := HandleRecord(cfg, w, desired, answer, a); WorldOk(w') && Within(w, w', KeyOf(desired))
  {
    JudgeWithin(cfg, w, desired, answer, a);
    var (w', verdict) := JudgeBy(cfg, w, desired, answer, a);
    if verdict.Stale? {
      RunRemoveKeeps(w', desired, a);
      WithinChain(w, w', RunRemove(w', desired, RemoveGet, a).0, KeyOf(desired));
    }
  }

  lemma OuterSame(w: World, e: Event, k: Key)
    requires ProtocolInvariants.IsOuter(e)
    ensures SameAt(w, Log(w, e), k)
  {
    AboutNext(w.history, e, k);
  }

  // ----- a pass -----

  /** The verdict is, and w is at the record's key, what handling the record in the starting world gives. */
  ghost predicate Handled(cfg: Config, start: World, w: World, r: DesiredMount, answer: PodAnswer, a: Answers,
                          verdict: Verdict) {
    var (w', v) := HandleRecord(cfg, start, r, answer, a);
    verdict == v && SameAt(w', w, KeyOf(r))
  }

  /** What a finished pass over the records in scope has done: handled each of them, and nothing else. */
  ghost predicate Passed(cfg: Config, start: World, w: World, source: Source, answers: Key -> Answers,
                         scope: map<Key, DesiredMount>, verdicts: map<Key, Verdict>)
  {
    && verdicts.Keys == scope.Keys
    && (forall k :: k !in scope ==> SameAt(start, w, k))
    && (forall k :: k in scope ==>
        Handled(cfg, start, w, scope[k], AnswerFor(cfg, source, scope[k]), answers(k), verdicts[k]))
  }

  /** A pass that has gone over the first i of the listed records. */
  ghost predicate Passing(cfg: Config, start: World, w: World, source: Source, answers: Key -> Answers,
                          scope: map<Key, DesiredMount>, records: seq<DesiredMount>, i: nat,
                          verdicts: map<Key, Verdict>)
  {
    && i <= |records| && Listing(records, scope)
    && (forall k :: k in verdicts ==> k in scope)
    && (forall k :: k !in scope ==> SameAt(start, w, k))
    && (forall j :: i <= j < |records| ==> SameAt(start, w, KeyOf(records[j])))
    && (forall j :: 0 <= j < i ==> HandledAs(cfg, start, w, source, answers, records[j], verdicts))
  }

  ghost predicate HandledAs(cfg: Config, start: World, w: World, source: Source, answers: Key -> Answers,
                            r: DesiredMount, verdicts: map<Key, Verdict>)
  {
    var k := KeyOf(r);
    k in verdicts && Handled(cfg, start, w, r, AnswerFor(cfg, source, r), answers(k), verdicts[k])
  }

  lemma HandledStays(cfg: Config, start: World, w: World, w': World, source: Source, answers: Key -> Answers,
                     r: DesiredMount, verdicts: map<Key, Verdict>, at: Key, verdict: Verdict)
    requires HandledAs(cfg, start, w, source, answers, r, verdicts) && SameAt(w, w', KeyOf(r)) && KeyOf(r) != at
    ensures HandledAs(cfg, start, w', source, answers, r, verdicts[at := verdict])
  {
  }

  /** One more record of a pass, perhaps with a retry scheduled after it. */
  lemma PassOne(cfg: Config, start: World, w: World, w': World, source: Source, answers: Key -> Answers,
                scope: map<Key, DesiredMount>, records: seq<DesiredMount>, i: nat, verdicts: map<Key, Verdict>,
                verdict: Verdict)
    requires i < |records| && Passing(cfg, start, w, source, answers, scope, records, i, verdicts)
    requires HandledAs(cfg, start, w', source, answers, records[i], map[KeyOf(records[i]) := verdict])
    requires forall x :: x != KeyOf(records[i]) ==> SameAt(w, w', x)
    ensures Passing(cfg, start, w', source, answers, scope, records, i + 1, verdicts[KeyOf(records[i]) := verdict])
  {
    assert records[i] in records;
    RestSame(start, w, w', scope, records, i);
    SoFarHandled(cfg, start, w, w', source, answers, records, i, verdicts, verdict);
  }

  lemma RestSame(start: World, w: World, w': World, scope: map<Key, DesiredMount>, records: seq<DesiredMount>, i: nat)
    requires i < |records| && Sorted(records) && KeyOf(records[i]) in scope
    requires forall x :: x != KeyOf(records[i]) ==> SameAt(w, w', x)
    requires forall k :: k !in scope ==> SameAt(start, w, k)
    requires forall j :: i <= j < |records| ==> SameAt(start, w, KeyOf(records[j]))
    ensures forall k :: k !in scope ==> SameAt(start, w', k)
    ensures forall j :: i < j < |records| ==> SameAt(start, w', KeyOf(records[j]))
  {
    forall k | k !in scope
      ensures SameAt(start, w', k)
    {
      SameChain(start, w, w', k);
    }
    forall j | i < j < |records|
      ensures SameAt(start, w', KeyOf(records[j]))
    {
      KeyLessStrict(KeyOf(records[i]), KeyOf(records[j]));
      SameChain(start, w, w', KeyOf(records[j]));
    }
  }

  lemma SoFarHandled(cfg: Config, start: World, w: World, w': World, source: Source, answers: Key -> Answers,
                     records: seq<DesiredMount>, i: nat, verdicts: map<Key, Verdict>, verdict: Verdict)
    requires i < |records| && Sorted(records)
    requires forall j :: 0 <= j < i ==> HandledAs(cfg, start, w, source, answers, records[j], verdicts)
    requires HandledAs(cfg, start, w', source, answers, records[i], map[KeyOf(records[i]) := verdict])
    requires forall x :: x != KeyOf(records[i]) ==> SameAt(w, w', x)
    ensures forall j :: 0 <= j < i + 1 ==>
              HandledAs(cfg, start, w', source, answers, records[j], verdicts[KeyOf(records[i]) := verdict])
  {
    forall j | 0 <= j < i + 1
      ensures HandledAs(cfg, start, w', source, answers, records[j], verdicts[KeyOf(records[i]) := verdict])
    {
      if j < i {
        KeyLessStrict(KeyOf(records[j]), KeyOf(records[i]));
        HandledStays(cfg, start, w, w', source, answers, records[j], verdicts, KeyOf(records[i]), verdict);
      } else {
        HandledHere(cfg, start, w', source, answers, records[i], verdicts, verdict);
      }
    }
  }

  lemma SameChain(w: World, w': World, w'': World, k: Key)
    requires SameAt(w, w', k) && SameAt(w', w'', k)
    ensures SameAt(w, w'', k)
  {
  }

  lemma HandledHere(cfg: Config, start: World, w: World, source: Source, answers: Key -> Answers,
                    r: DesiredMount, verdicts: map<Key, Verdict>, verdict: Verdict)
    requires HandledAs(cfg, start, w, source, answers, r, map[KeyOf(r) := verdict])
    ensures HandledAs(cfg, start, w, source, answers, r, verdicts[KeyOf(r) := verdict])
  {
  }

  /** Handling the next record in the current world is handling it in the starting one. */
  lemma HandledNext(cfg: Config, start: World, w: World, r: DesiredMount, answer: PodAnswer, a: Answers)
    requires WorldOk(w) && SameAt(start, w, KeyOf(r))
    ensures var (w', verdict) := HandleRecord(cfg, w, r, answer, a);
            && WorldOk(w')
            && Handled(cfg, start, w', r, answer, a, verdict)
            && (forall x :: x != KeyOf(r) ==> SameAt(w, w', x))
  {
    HandleAt(cfg, start, w, r, answer, a);
    HandleWithin(cfg, w, r, answer, a);
    var (w', _) := HandleRecord(cfg, w, r, answer, a);
    forall x | x != KeyOf(r)
      ensures SameAt(w, w', x)
    {
      WithinElsewhere(w, w', KeyOf(r), x);
    }
  }

  /** One turn of a pass: the record is handled, and perhaps a retry scheduled. */
  ghost predicate PassStep(cfg: Config, w: World, w': World, desired: DesiredMount, answer: PodAnswer, a: Answers,
                           verdict: Verdict)
  {
    var (handled, v) := HandleRecord(cfg, w, desired, answer, a);
    verdict == v && (w' == handled || w' == Log(handled, RetryScheduled(KeyOf(desired))))
  }

  lemma HandledThrough(cfg: Config, start: World, w: World, w': World, r: DesiredMount, answer: PodAnswer, a: Answers,
                       verdict: Verdict)
    requires WorldOk(w) && SameAt(start, w, KeyOf(r)) && PassStep(cfg, w, w', r, answer, a, verdict)
    ensures Handled(cfg, start, w', r, answer, a, verdict)
    ensures forall x :: x != KeyOf(r) ==> SameAt(w, w', x)
  {
    HandledNext(cfg, start, w, r, answer, a);
    var (handled, _) := HandleRecord(cfg, w, r, answer, a);
    ScheduledSame(handled, w', KeyOf(r));
    SameAfter(cfg, start, handled, w', r, answer, a, verdict);
    forall x | x != KeyOf(r)
      ensures SameAt(w, w', x)
    {
      SameChain(w, handled, w', x);
    }
  }

  lemma ScheduledSame(w: World, w': World, k: Key)
    requires w' == w || w' == Log(w, RetryScheduled(k))
    ensures forall x :: SameAt(w, w', x)
  {
    forall x
      ensures SameAt(w, w', x)
    {
      if w' != w { OuterSame(w, RetryScheduled(k), x); }
    }
  }

  lemma SameAfter(cfg: Config, start: World, w: World, w': World, r: DesiredMount, answer: PodAnswer, a: Answers,
                  verdict: Verdict)
    requires Handled(cfg, start, w, r, answer, a, verdict) && SameAt(w, w', KeyOf(r))
    ensures Handled(cfg, start, w', r, answer, a, verdict)
  {
  }

  lemma PassTurn(cfg: Config, start: World, w: World, w': World, source: Source, answers: Key -> Answers,
                 scope: map<Key, DesiredMount>, records: seq<DesiredMount>, i: nat, verdicts: map<Key, Verdict>,
                 verdict: Verdict)
    requires WorldOk(w) && i < |records| && Passing(cfg, start, w, source, answers, scope, records, i, verdicts)
    requires PassStep(cfg, w, w', records[i], AnswerFor(cfg, source, records[i]), answers(KeyOf(records[i])), verdict)
    ensures Passing(cfg, start, w', source, answers, scope, records, i + 1, verdicts[KeyOf(records[i]) := verdict])
  {
    HandledThrough(cfg, start, w, w', records[i], AnswerFor(cfg, source, records[i]), answers(KeyOf(records[i])),
                   verdict);
    PassOne(cfg, start, w, w', source, answers, scope, records, i, verdicts, verdict);
  }

  lemma PassStart(cfg: Config, start: World, source: Source, answers: Key -> Answers, scope: map<Key, DesiredMount>,
                  records: seq<DesiredMount>)
    requires Listing(records, scope)
    ensures Passing(cfg, start, start, source, answers, scope, records, 0, map[])
  {
  }

  lemma PassedAll(cfg: Config, start: World, w: World, source: Source, answers: Key -> Answers,
                  scope: map<Key, DesiredMount>, records: seq<DesiredMount>, verdicts: map<Key, Verdict>)
    requires Passing(cfg, start, w, source, answers, scope, records, |records|, verdicts)
    ensures Passed(cfg, start, w, source, answers, scope, verdicts)
  {
    forall k | k in scope
      ensures k in verdicts
      ensures Handled(cfg, start, w, scope[k], AnswerFor(cfg, source, scope[k]), answers(k), verdicts[k])
    {
      assert scope[k] in records;
      var j :| 0 <= j < |records| && records[j] == scope[k];
      assert HandledAs(cfg, start, w, source, answers, records[j], verdicts);
    }
  }

  // ----- which verdict a record gets, from the pods -----

  predicate IsPodOf(pod: Kube.Pod, r: DesiredMount) {
    && pod.metadata.namespace == r.request.namespace
    && pod.metadata.name == r.request.podName
    && pod.metadata.uid == r.request.podUID
  }

  /** The last of the listed pods that is the record's is the i-th. */
  predicate ListedAt(pods: seq<Kube.Pod>, r: DesiredMount, i: int) {
    0 <= i < |pods| && IsPodOf(pods[i], r) && forall j :: i < j < |pods| ==> !IsPodOf(pods[j], r)
  }

  lemma {:induction false} PodInMeans(pods: seq<Kube.Pod>, r: DesiredMount)
    ensures forall i :: ListedAt(pods, r, i) ==> PodIn(pods, PodKeyOf(r)) == Some(pods[i])
    ensures (forall i :: !ListedAt(pods, r, i)) ==> PodIn(pods, PodKeyOf(r)) == None
  {
    if pods != [] {
      var init, last := pods[..|pods| - 1], pods[|pods| - 1];
      PodInMeans(init, r);
      if IsPodOf(last, r) {
        assert ListedAt(pods, r, |pods| - 1);
      } else {
        assert forall i :: ListedAt(pods, r, i) <==> ListedAt(init, r, i);
      }
    }
  }

  /** The record went through its reconcile section with this pod, and its removal if that found it stale. */
  ghost predicate JudgedBy(cfg: Config, start: World, w: World, r: DesiredMount, pod: Kube.Pod, a: Answers,
                           verdict: Verdict)
  {
    var (w', at) := RunReconcile(cfg, start, Job(r, pod), ReconcileGet, a);
    && verdict == at.verdict
    && SameAt(if verdict.Stale? then RunRemove(w', r, RemoveGet, a).0 else w', w, KeyOf(r))
  }

  /** The record was found stale with no reconcile, and removed as far as the store let it be. */
  ghost predicate Dropped(start: World, w: World, r: DesiredMount, a: Answers, verdict: Verdict) {
    && verdict.Stale?
    && (a.delete.Done? ==> KeyOf(r) !in w.mem && KeyOf(r) !in w.disk)
    && (a.delete.Torn? ==> Lookup(w.mem, KeyOf(r)) == Some(r) && KeyOf(r) !in w.disk)
    && (a.delete.Refused? ==> SameAt(start, w, KeyOf(r)))
  }

  lemma GoneIsDropped(cfg: Config, start: World, w: World, r: DesiredMount, a: Answers, verdict: Verdict)
    requires Handled(cfg, start, w, r, Gone, a, verdict) && Lookup(start.mem, KeyOf(r)) == Some(r)
    ensures Dropped(start, w, r, a, verdict)
  {
    RemoveMeans(start, r, a);
  }

  /**
    A snapshot pass judges a record by the last listed pod of its namespace, name
    and UID. Without one the API is asked: the record is dropped if there is no
    such pod or it is on another node, left alone if the API fails, and judged by
    the pod otherwise.
  */
  lemma SnapshotVerdicts(cfg: Config, start: World, w: World, pods: seq<Kube.Pod>, live: PodKey -> PodLookup,
                         answers: Key -> Answers, scope: map<Key, DesiredMount>, verdicts: map<Key, Verdict>, k: Key)
    requires Passed(cfg, start, w, FromPods(pods, live), answers, scope, verdicts)
    requires k in scope && KeyOf(scope[k]) == k && Lookup(start.mem, k) == Some(scope[k])
    ensures var r := scope[k];
            && (forall i :: ListedAt(pods, r, i) ==> JudgedBy(cfg, start, w, r, pods[i], answers(k), verdicts[k]))
            && ((forall i :: !ListedAt(pods, r, i)) ==>
                  match live(PodKey(r.request.namespace, r.request.podName, r.request.podUID))
                  case NotFound => Dropped(start, w, r, answers(k), verdicts[k])
                  case ApiError => verdicts[k].Failed? && SameAt(start, w, k)
                  case Live(pod) =>
                    if pod.spec.nodeName != "" && pod.spec.nodeName != cfg.nodeName
                    then Dropped(start, w, r, answers(k), verdicts[k])
                    else JudgedBy(cfg, start, w, r, pod, answers(k), verdicts[k]))
  {
    var r := scope[k];
    var answer := AnswerFor(cfg, FromPods(pods, live), r);
    PodInMeans(pods, r);
    assert Handled(cfg, start, w, r, answer, answers(k), verdicts[k]);
    if answer.Gone? { GoneIsDropped(cfg, start, w, r, answers(k), verdicts[k]); }
  }

  /** An event judges exactly the records of its pod, by that pod, or drops them if it was deleted. */
  lemma EventVerdicts(cfg: Config, start: World, w: World, pod: Kube.Pod, deleted: bool, answers: Key -> Answers,
                      verdicts: map<Key, Verdict>, k: Key)
    requires Passed(cfg, start, w, FromEvent(pod, deleted), answers, OfPod(start.mem, PodKeyOfPod(pod)), verdicts)
    requires k in start.mem ==> KeyOf(start.mem[k]) == k
    ensures k in verdicts <==> k in start.mem && IsPodOf(pod, start.mem[k])
    ensures k in verdicts ==>
              if deleted then Dropped(start, w, start.mem[k], answers(k), verdicts[k])
              else JudgedBy(cfg, start, w, start.mem[k], pod, answers(k), verdicts[k])
    ensures k !in verdicts ==> SameAt(start, w, k)
  {
    var scope := OfPod(start.mem, PodKeyOfPod(pod));
    if k in scope {
      var answer := AnswerFor(cfg, FromEvent(pod, deleted), scope[k]);
      assert Handled(cfg, start, w, scope[k], answer, answers(k), verdicts[k]);
      if deleted { GoneIsDropped(cfg, start, w, scope[k], answers(k), verdicts[k]); }
    }
  }

  // ----- what a pass achieves -----

  /** The pod a pass judges the record by is there, and runs the container the record names. */
  ghost predicate Right(cfg: Config, source: Source, r: DesiredMount) {
    var answer := AnswerFor(cfg, source, r);
    answer.Found? && Converged(cfg, r, answer.pod)
  }

  lemma HandledConverges(cfg: Config, start: World, w: World, r: DesiredMount, answer: PodAnswer, a: Answers,
                         verdict: Verdict)
    requires WorldOk(start) && Lookup(start.mem, KeyOf(r)) == Some(r)
    requires Handled(cfg, start, w, r, answer, a, verdict)
    ensures verdict.Settled? ==>
              answer.Found? && KeyOf(r) in w.mem && Converged(cfg, w.mem[KeyOf(r)], answer.pod)
    ensures answer.Found? && Converged(cfg, r, answer.pod) ==> verdict.Settled? && SameAt(start, w, KeyOf(r))
    ensures verdict.Stale? && a.delete.Done? ==> KeyOf(r) !in w.mem
  {
    if answer.Found? {
      var job := Job(r, answer.pod);
      ReconcileConverges(cfg, start, job, a);
      if Converged(cfg, r, answer.pod) {
        ConvergedIsStable(cfg, start, job, a);
      }
      StaleChangesNothing(cfg, start, job, a);
    }
    StaleIsRemoved(cfg, start, r, answer, a);
  }

  lemma StaleIsRemoved(cfg: Config, w: World, r: DesiredMount, answer: PodAnswer, a: Answers)
    requires Lookup(w.mem, KeyOf(r)) == Some(r)
    ensures var (w', verdict) := HandleRecord(cfg, w, r, answer, a);
            verdict.Stale? && a.delete.Done? ==> KeyOf(r) !in w'.mem
  {
    RemoveMeans(w, r, a);
    if answer.Found? {
      StaleChangesNothing(cfg, w, Job(r, answer.pod), a);
    }
  }

  /** A reconcile that finds its record stale has changed nothing. */
  lemma StaleChangesNothing(cfg: Config, w: World, job: Job, a: Answers)
    ensures RunReconcile(cfg, w, job, ReconcileGet, a).1.verdict.Stale? ==>
            RunReconcile(cfg, w, job, ReconcileGet, a).0 == w
  {
    var at := ReconcileRead(cfg, w, job);
    assert RunReconcile(cfg, w, job, ReconcileGet, a) == RunReconcile(cfg, w, job, at, a);
    if at.ReconcilePlan? {
      SectionOutcomes.OnlyReadIsStale(cfg, w, job, at, a);
    }
  }

  /**
    After a pass every record that remains and whose reconcile returned nil names
    the container its pod now runs, a stale record is gone if the store let it
    go, and a record that was right already is untouched: no store write and no
    node call at its key.
  */
  lemma PassConverges(cfg: Config, start: World, w: World, source: Source, answers: Key -> Answers,
                      scope: map<Key, DesiredMount>, verdicts: map<Key, Verdict>, k: Key)
    requires WorldOk(start) && Passed(cfg, start, w, source, answers, scope, verdicts)
    requires k in scope && Lookup(start.mem, k) == Some(scope[k])
    ensures verdicts[k].Settled? ==>
              var answer := AnswerFor(cfg, source, scope[k]);
              answer.Found? && k in w.mem && Converged(cfg, w.mem[k], answer.pod)
    ensures verdicts[k].Stale? && answers(k).delete.Done? ==> k !in w.mem
    ensures Right(cfg, source, scope[k]) ==> verdicts[k].Settled? && SameAt(start, w, k)
  {
    assert KeyOk(start, k);
    HandledConverges(cfg, start, w, scope[k], AnswerFor(cfg, source, scope[k]), answers(k), verdicts[k]);
  }
}
