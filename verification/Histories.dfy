/** What a history of events says about one record key. */
module Histories {
  import opened Results
  import opened MountRecords
  import opened Authorization
  import opened Sections
  import NfsPaths

  type History = seq<Event>

  /** How the last write of a key's file ended, as far as memory and disk are concerned. */
  datatype StoreState = Clean | AfterTornPut | AfterTornDelete

  function StoreStateBy(e: Event, k: Key, before: StoreState): StoreState {
    match e
    case Stored(k') => if k' == k then Clean else before
    case Removed(k') => if k' == k then Clean else before
    case TornPut(k') => if k' == k then AfterTornPut else before
    case TornDelete(k') => if k' == k then AfterTornDelete else before
    case Restarted => Clean
    case _ => before
  }

  function LastStore(h: History, k: Key): StoreState {
    if h == [] then Clean else StoreStateBy(h[|h| - 1], k, LastStore(h[..|h| - 1], k))
  }

  predicate ClosedBy(e: Event, k: Key, before: bool, store: StoreState) {
    match e
    case Unmounted(k') => k' == k || before
    case MountEntered(k') => k' != k && before
    case Restarted => before && !store.AfterTornPut?
    case _ => before
  }

  /**
    An unmount of k succeeded and since then no mount call entered its critical
    section for k; a restart ends this if it finds a file that a torn Put left.
  */
  predicate Closed(h: History, k: Key) {
    h != [] && ClosedBy(h[|h| - 1], k, Closed(h[..|h| - 1], k), LastStore(h[..|h| - 1], k))
  }

  predicate OwnedBy(e: Event, k: Key, c: string, before: bool) {
    match e
    case Inherited(k', c') => (k' == k && c' == c) || before
    case Observed(k', c') => (k' == k && c' == c) || before
    case NodeMount(plan, _, ok) => (ok && PlanKey(plan) == k && plan.containerID == c) || before
    case NodeUnmount(k', c', ok) => !(ok && k' == k && c' == c) && before
    case _ => before
  }

  /** Container c got its mount at k by a node Mount or an observed one, with no successful node Unmount since. */
  predicate Owned(h: History, k: Key, c: string) {
    h != [] && OwnedBy(h[|h| - 1], k, c, Owned(h[..|h| - 1], k, c))
  }

  function RetriesBy(e: Event, k: Key, before: nat): nat {
    match e
    case RetryScheduled(k') => if k' == k then 0 else before
    case RetryReconciled(k') => if k' == k then before + 1 else before
    case _ => before
  }

  /** Reconciles made by retry workers for k since a retry of k was last scheduled. */
  function RetriesSince(h: History, k: Key): nat {
    if h == [] then 0 else RetriesBy(h[|h| - 1], k, RetriesSince(h[..|h| - 1], k))
  }

  predicate Presented(h: History, k: Key, fingerprint: string) { KeyPresented(k, fingerprint) in h }

  /** A root plan under a configured key has had that key presented for its record. */
  predicate RootKeyShown(h: History, plan: NfsPaths.MountPlan, rootKey: Option<string>) {
    NfsPaths.IsNFSExportRoot(plan) && rootKey.Some? ==> Presented(h, PlanKey(plan), rootKey.value)
  }

  const MAX_RETRIES: nat := 5

  /** What must hold of the past for an event to happen. */
  predicate EventOk(h: History, e: Event) {
    match e
    case NodeMount(plan, rootKey, ok) => !Closed(h, PlanKey(plan)) && RootKeyShown(h, plan, rootKey)
    case NodeUnmount(k, c, ok) => Owned(h, k, c)
    case RetryReconciled(k) => RetriesSince(h, k) < MAX_RETRIES
    case _ => true
  }

  ghost predicate HistoryOk(h: History) {
    forall i {:trigger EventOk(h[..i], h[i])} :: 0 <= i < |h| ==> EventOk(h[..i], h[i])
  }

  /** What ends or replaces the state that a store write left a key in. */
  predicate Settles(e: Event, k: Key) { e in {Stored(k), Removed(k), TornPut(k), TornDelete(k), Restarted} }

  /** Event e of k, and since then nothing that settles it. */
  predicate LastSettled(h: History, k: Key, e: Event, i: nat) {
    i < |h| && h[i] == e && forall j :: i < j < |h| ==> !Settles(h[j], k)
  }

  lemma {:induction false} LastStoreMeans(h: History, k: Key)
    ensures LastStore(h, k).AfterTornPut? <==> exists i :: LastSettled(h, k, TornPut(k), i)
    ensures LastStore(h, k).AfterTornDelete? <==> exists i :: LastSettled(h, k, TornDelete(k), i)
  {
    if h != [] {
      var p, e := h[..|h| - 1], h[|h| - 1];
      LastStoreMeans(p, k);
      if Settles(e, k) {
        assert LastSettled(h, k, e, |h| - 1);
        assert forall x, i :: LastSettled(h, k, x, i) ==> i == |h| - 1;
      } else {
        forall x, i: nat | Settles(x, k)
          ensures LastSettled(h, k, x, i) <==> LastSettled(p, k, x, i)
        {
        }
      }
    }
  }

  /** The reconciles of k that workers made from position i of a history on. */
  function RetriesFrom(h: History, k: Key, i: nat): nat {
    |set j | i <= j < |h| && h[j] == RetryReconciled(k)|
  }

  /** Position i is just after the last scheduling of k, or the start if there is none. */
  predicate LastScheduled(h: History, k: Key, i: nat) {
    && i <= |h| && (i == 0 || h[i - 1] == RetryScheduled(k))
    && forall j :: i <= j < |h| ==> h[j] != RetryScheduled(k)
  }

  lemma RetriesFromNext(h: History, e: Event, k: Key, i: nat)
    requires i <= |h|
    ensures RetriesFrom(h + [e], k, i) == RetriesFrom(h, k, i) + if e == RetryReconciled(k) then 1 else 0
  {
    var before := set j | i <= j < |h| && h[j] == RetryReconciled(k);
    var after := set j | i <= j < |h + [e]| && (h + [e])[j] == RetryReconciled(k);
    assert after == before + if e == RetryReconciled(k) then {|h|} else {};
  }

  lemma {:induction false} RetriesMeans(h: History, k: Key)
    ensures exists i :: LastScheduled(h, k, i) && RetriesSince(h, k) == RetriesFrom(h, k, i)
  {
    if h == [] {
      assert LastScheduled(h, k, 0);
    } else {
      var p, e := h[..|h| - 1], h[|h| - 1];
      RetriesMeans(p, k);
      var i: nat :| LastScheduled(p, k, i) && RetriesSince(p, k) == RetriesFrom(p, k, i);
      if e == RetryScheduled(k) {
        assert LastScheduled(h, k, |h|);
      } else {
        assert LastScheduled(h, k, i);
        RetriesFromNext(p, e, k, i);
        assert h == p + [e];
      }
    }
  }

  /** One appended event, seen by every measure above. */
  lemma Extend(h: History, e: Event, k: Key)
    ensures LastStore(h + [e], k) == StoreStateBy(e, k, LastStore(h, k))
    ensures Closed(h + [e], k) == ClosedBy(e, k, Closed(h, k), LastStore(h, k))
    ensures forall c :: Owned(h + [e], k, c) == OwnedBy(e, k, c, Owned(h, k, c))
    ensures RetriesSince(h + [e], k) == RetriesBy(e, k, RetriesSince(h, k))
    ensures forall f :: Presented(h, k, f) ==> Presented(h + [e], k, f)
  {
    assert (h + [e])[..|h|] == h;
  }

  lemma ExtendOk(h: History, e: Event)
    requires HistoryOk(h) && EventOk(h, e)
    ensures HistoryOk(h + [e])
  {
    forall i | 0 <= i < |h + [e]|
      ensures EventOk((h + [e])[..i], (h + [e])[i])
    {
      if i < |h| {
        assert (h + [e])[..i] == h[..i];
      } else {
        assert (h + [e])[..i] == h;
      }
    }
  }
}
