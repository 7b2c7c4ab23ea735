# A verified model of the NFS mount wrapper

The wrapper is a node agent that mounts NFS persistent volumes into running
containers. It accepts `mount` and `unmount` calls over a local socket, keeps a
durable record of every mount it is meant to maintain (a *desired mount*, one
JSON file each), and puts mounts back after a container restarts. HTTP handlers,
an informer's event thread, a snapshot pass and four retry workers all change
the same records and the same mounts on the node.

This project models that and proves what it is for: that an unmounted record
does not come back, that the NFS export root is mounted only with the key, that
a record's intent does not change under it, that a mount is in the journal
before it is on the node, that the paths a request may name are what they look
like, and that the walk to a sub-path follows no link and leaks no descriptor.

`dafny verify dfyconfig.toml` checks everything.

## How it is built

*Paths.* `Lexical` defines splitting and cleaning by the rules of "Lexical File
Names in Plan 9" as a machine on a stack of segments. `SourceSubPaths`,
`TargetPaths` and `NfsPaths` are the repository's path rules over it, with
`WhiteSpace` for what Go trims, and `DirectoryWalk` is the no-follow walk, over a kernel whose tree and foreign
descriptors may change arbitrarily between any two system calls.

*Records.* `MountRecords`, `RecordOrder` and `StateStore` are the records, their
order and the indexed file store (a class). `Authorization` is the way from a
request, a pod and a PV to a mount plan; `CallDecisions` says of the fields of
the three exactly when a call is accepted and what it then asks for.

*The protocol.* `Sections` gives the four critical sections (mount, unmount,
reconcile, removal of a stale record) one atomic action at a time: a store read,
a store write, a node call. `Protocol` interleaves any number of handlers,
passes and workers that take those actions in any order, together with the
striped locks, the bounded retry queue, and restarts at any moment with any new
configuration. Pods, PVs, node answers and store answers are arbitrary, so a
thread may act on a snapshot of any age. The history of a run records every
node call, presented key, store write and finished unmount; `Histories` reads
from it whether a key is *closed* (unmounted and not mounted again) and whether
a container *owns* a mount. `SectionInvariants` and `ProtocolInvariants` prove
the inductive invariant, and `Guarantees` and `SmoothRuns` state what follows
for every run; `TornWrites` and `TornDeletes` build the runs in which a promise
fails.

*The sections.* `SectionRuns` runs a section to its end with nothing in between;
`SectionOutcomes` says what it then does and answers, case by case, from the
record it finds, the pod's and the PV's fields, and the answers of store and node.

*The server.* `WrapperServer` writes the same operations as the source does,
as methods over the store object, and proves each critical section equal to
the protocol's own section run without interruption (`SectionRuns`). What
handling one record does is a function of the world, and depends on the record's
key alone (`Passes`); a worker's attempts at one key form a chain of such steps
(`RetryChains`). The server's passes and its retry worker are loops proved to do,
key by key, exactly that from the world they start in. `RetryQueues` is the queue
with its set of waiting keys, tied to the protocol's. `ProtocolRuns` closes the
circle: a thread of the protocol that acts alone, from its first action to its
last, does what the server's method does. `Informer` is the pod cache.

## The store's faults

A write is one of three things: done; refused, with an error and no effect; or
*torn*, with an error after the rename or removal has already happened
(internal/wrapper/state.go:186-191 and 252-256: the directory sync failed).
Results say what a torn write changes instead of excluding it. Two promises fail
exactly there:

* A record can come back after a successful unmount, without a mount call, if a
  write of that key was torn and the process restarted with nothing written in
  between. `TornWrites.ResurrectionExample` is such a run, and
  `Guarantees.ClosedReturnsIffTorn` says it is the only way.
* A reconcile may mount for a record whose file a torn delete has removed; then,
  and only then, a restart forgets the mount (`Guarantees.ReconcileIsJournaledIff`);
  `TornDeletes.ForgottenExample` is such a run.

One more promise holds only on a condition: cleaning a PV's `subDir` twice is
cleaning it once if and only if, in the trimmed value, the first segment does not
start and the last does not end with white space
(`NfsPaths.NormalizeFixedIffBare`); `"/ a"` is the counterexample. Target paths
and request sub-paths have no such case.

## What is assumed

* A node call that returns an error had no effect.
* Every container status has a name, and no key contains NUL.
* SHA-256 is a function on strings; it keeps the keys that are stored apart.
* The state directory is written only by the wrapper; at the first start of this
  version it holds well-formed version 1 files, or nothing, and the mounts those
  files name exist.
* Strings stand for Go's byte strings, one character a byte.

## Model

| member | source | states |
|---|---|---|
| Guarantees.NoResurrection | internal/wrapper/server.go:222-305 | In every interleaving, after `unmount` of a key has succeeded no snapshot, event, stale verdict, queued retry or restart mounts at the key or stores a record of it before a `mount` call enters its section for it; the one exception is a torn write of the key followed by a restart |
| Guarantees.NoResurrectionAtomic | internal/wrapper/reconciler.go:149-182 | With no torn write of the key, or no restart in between, a node Mount after a successful unmount has a `mount` call before it |
| Guarantees.ClosedReturnsIffTorn | internal/wrapper/state.go:222-257 | A restart brings an unmounted key back exactly when the last write of its file was a torn Put |
| Guarantees.ExportRootSafety | internal/wrapper/rootauth.go:53-66 | Over whole runs, and restarts that add, rotate or drop the key: whenever the node is asked to mount an export root while a key is configured, a mount call for that record has presented that key |
| Guarantees.RecordFlags | internal/wrapper/reconciler.go:303-326 | In every reachable state a fingerprint implies an authorized root and a presented key, and a legacy record is neither authorized nor fingerprinted |
| Guarantees.StepKeepsIntents | internal/wrapper/reconciler.go:279-350 | No action of any thread, and no restart, changes the request of a record it leaves in place, or its root flag once that is known |
| Guarantees.IntentImmutable | internal/wrapper/server.go:160-206 | While a record persists through a run its request never changes; its root flag changes only from false to true, and only if the record at some point did not know its root selection |
| Guarantees.ContainerProvenance | internal/wrapper/reconciler.go:327-350 | In memory and on disk, a record naming container C has behind it a successful node Mount for C, a mount observed while the record was pending, or a legacy mount, and no successful node Unmount since |
| Guarantees.UnmountsOnlyGiven | internal/wrapper/server.go:251-295 | Every node Unmount, in every run, is of a mount so acquired and not yet unmounted |
| Guarantees.OwnedMeans | internal/wrapper/server.go:180-206 | The running ownership mark used by the invariant is exactly: an acquiring event at some point of the history and no successful node Unmount after it |
| SmoothRuns.UnmountsOnlyOwnMounts | internal/wrapper/server.go:251-295 | With no crash or store failure, from no pending record, the node is only asked to unmount what the wrapper itself (or its previous version) mounted |
| Guarantees.MountIsJournaled | internal/wrapper/server.go:196-206 | A crash at any point from a mount's node call to the release of its lock leaves, after reload, a record of the call's request |
| Guarantees.UnmountIsJournaled | internal/wrapper/server.go:284-295 | A crash inside an unmount after its delete leaves no record |
| Guarantees.ReconcileIsJournaledIff | internal/wrapper/reconciler.go:343-350 | A crash at any point from a reconcile's node call to the release of its lock leaves the record of the same request, exactly unless its file was lost to a torn delete |
| Guarantees.MemoryIsDurable | internal/wrapper/state.go:105-131 | For a key whose last write was not torn, a reload gives the same record, except that a rewritten legacy record loses its unknown flag and comes back as not authorized for the root |
| Guarantees.StaleRemovesJudged | internal/wrapper/reconciler.go:233-260 | In every interleaving a stale verdict, however old, removes only the very record it was given on |
| Guarantees.ClosedMeans | internal/wrapper/server.go:222-305 | The running mark of an unmounted key equals: a successful unmount somewhere, with no mount entry and no restart on a torn file after it |
| Histories.LastStoreMeans | internal/wrapper/state.go:167-194 | A key's last write counts as torn exactly when that torn write stands in the history with no later write of the key and no restart |
| Histories.RetriesMeans | internal/wrapper/reconciler.go:131-182 | The running count of a key's retries is the number of reconciles workers made since its last scheduling |
| Guarantees.WritesHoldLock | internal/wrapper/server.go:320-329 | Any action but a restart that changes a key's record or file is taken inside a section for that key by the holder of its stripe |
| Guarantees.LocksExclusive | internal/wrapper/reconciler.go:239-247 | One stripe has at most one thread inside, a thread holds at most one stripe, and none while it waits for one |
| Guarantees.RetryTokens | internal/wrapper/reconciler.go:131-182 | In every reachable state a key is waiting exactly when one token for it exists, in the queue or in a thread's hands, never two; the queue stays within 4096, attempts index the delay table, and a scheduled key is reconciled at most five times |
| Guarantees.MountRollsBack | internal/wrapper/server.go:199-201 | Under any interleaving, a mount whose node call failed and whose restore succeeded leaves an absent key absent and a present record as found, but for the fingerprint the call was authorized with |
| Guarantees.UnmountRollsBack | internal/wrapper/server.go:284-295 | Under any interleaving, a rolled-back unmount leaves exactly the record it found |
| ProtocolInvariants.StepInv | internal/wrapper/reconciler.go:35-64 | Every action of every thread, and every restart, keeps the whole invariant: records and files, what each thread knows, locks, roles and tokens |
| ProtocolInvariants.InitialInv | internal/wrapper/state.go:89-133 | A first start on a directory of version 1 files establishes the invariant |
| ProtocolRuns.MountAlone | internal/wrapper/server.go:146-209 | A mount thread's actions, with no lock held by another, end in the world of the section's uninterrupted run after its key and its entry are on record, and change nothing else of the machine |
| ProtocolRuns.UnmountAlone | internal/wrapper/server.go:222-305 | The same for an unmount thread, its success on record |
| ProtocolRuns.PassAlone | internal/wrapper/reconciler.go:83-107 | A pass thread's actions on its next record, from taking it over both critical sections to queueing its retry, do what handling the record and the queue's own scheduling do, and leave it at the next record |
| ProtocolRuns.WorkerAlone | internal/wrapper/reconciler.go:149-182 | A worker thread's actions on a token do what handling its record and returning the token do; a token without a record stops waiting |
| SectionInvariants.SectionKeeps | internal/wrapper/server.go:146-305 | Every single action of the four critical sections touches no other key, keeps the intent at its own, and keeps what its thread relies on |
| SectionInvariants.PutKeeps | internal/wrapper/state.go:167-176 | A write, done, refused or torn, keeps memory and files consistent with what the history says of them |
| SectionInvariants.DeleteKeeps | internal/wrapper/state.go:178-194 | A delete, done, refused or torn, keeps memory and files consistent with what the history says of them |
| TornWrites.TornPutResurrects | internal/wrapper/state.go:252-256 | From any machine without locks, a torn mount and an unmount of one absent key, then a restart, end with the record back and nothing after the unmount but the restart |
| TornWrites.ResurrectionExample | internal/wrapper/server.go:243-250 | The concrete request, pod and volume for which that happens from an empty start |
| TornDeletes.TornDeleteForgets | internal/wrapper/state.go:186-191 | From any machine without locks: for any record, an unmount whose delete is torn, a pass that finds the container replaced and mounts, and a restart before its write leave no record of the mount in memory or on disk |
| TornDeletes.ForgottenExample | internal/wrapper/reconciler.go:340-350 | The concrete record, request and pods for which that happens from a first start |
| SectionRuns.MountRollback | internal/wrapper/server.go:160-201 | A whole mount section touches only its key; refused, it leaves the record; rolled back, it restores it up to the fingerprint |
| SectionRuns.UnmountRollback | internal/wrapper/server.go:246-295 | A whole unmount section touches only its key; it removes the record, or when refused or rolled back keeps it exactly |
| SectionRuns.UnmountDoneMeans | internal/wrapper/server.go:264-295 | A successful unmount unmounted on the node exactly when it found a record naming the caller's container and the mount was there; a pending record or another container's is dropped with the node untouched |
| SectionRuns.RemountIsIdempotent | internal/wrapper/server.go:173-194 | Mounting again what is recorded and mounted makes no node Mount, succeeds, and changes at most the fingerprint |
| SectionRuns.MountIsRecorded | internal/wrapper/server.go:196-206 | A mount that called the node and wrote the container down leaves the record, and its file, that the repeats below start from |
| SectionRuns.RepeatsAreIdempotent | internal/wrapper/server.go:146-194 | Any number of repeats, in any spelling that normalizes to the same request, across restarts that add, rotate or drop the key, each satisfied by its caller, all succeed without a node Mount and change at most the fingerprint, which ends as the key last configured, or empty |
| SectionRuns.ReconcileConverges | internal/wrapper/reconciler.go:273-353 | A reconcile that returns nil has found its record gone or changed and done nothing, or leaves it naming the container its pod runs now |
| SectionRuns.ConvergedIsStable | internal/wrapper/reconciler.go:273-302 | Reconciling such a record with the same pod changes nothing and calls nothing |
| SectionRuns.RemoveMeans | internal/wrapper/reconciler.go:239-247 | A record that is not the one that was judged stays and nothing happens; one that is goes from memory and disk if the store deletes it, stays if it refuses, and loses its file alone if the delete is torn |
| SectionOutcomes.StaleExactly | internal/wrapper/reconciler.go:279-292 | A current record of a well-formed request is stale if and only if the pod's namespace, name, UID, phase or node does not fit it; a record of a malformed one never is; nothing is changed |
| SectionOutcomes.NoContainerFails | internal/wrapper/reconciler.go:283-296 | If the request no longer fits the configuration, or the pod's container has no status or no ID, the reconcile fails with an error that is retried, and nothing happens |
| SectionOutcomes.SameContainerSettles | internal/wrapper/reconciler.go:300-302 | A record that names the container its pod runs settles with nothing done |
| SectionOutcomes.UnplannedFails | internal/wrapper/reconciler.go:303-306 | Without a PV, or with one whose driver, allowlists or attributes do not serve the pod, it fails and nothing happens |
| SectionOutcomes.UnauthorizedExactly | internal/wrapper/reconciler.go:308-325 | With one, it is unauthorized if and only if a legacy record selects the root under a key, or the record's root flag is not the plan's, or a root record's fingerprint is not the configured key's; nothing is changed |
| SectionOutcomes.ReplacedRemounts | internal/wrapper/reconciler.go:343-350 | A record of a replaced container is mounted for the new one with the plan of the PV's and the pod's fields and no check before, for every answer of node and store |
| SectionOutcomes.ReplacedSettles | internal/wrapper/reconciler.go:343-353 | If both do their part: exactly one node Mount, of that plan, then one write, and memory and file name the new container, the root selection known and the fingerprint kept only where it is needed |
| SectionOutcomes.PendingReconciles | internal/wrapper/reconciler.go:327-350 | A pending record is mounted if the node says it is not, written down with its container if it is, and left if the node cannot say |
| SectionOutcomes.MountRefusedExactly | internal/wrapper/server.go:160-172 | A mount is refused if and only if a record of another request or another root selection holds its key, and then nothing happens |
| SectionOutcomes.MountRefreshes | internal/wrapper/server.go:173-179 | A record with another fingerprint is first written with the call's; if the store takes it the call goes on exactly as if it had been there, else it ends |
| SectionOutcomes.MountMeets | internal/wrapper/server.go:180-194 | A record of this very call, pending or for its container, has the node asked first: mounted, it is left alone, a pending one getting the container's name; not mounted, it is mounted anew; unknown, the call ends |
| SectionOutcomes.MountsAnew | internal/wrapper/server.go:196-209 | Without such a record: a pending record, the node, and the record or the rollback to what was there, for every answer of store and node |
| SectionOutcomes.MountSucceeds | internal/wrapper/server.go:196-209 | If all do their part: written, mounted and written again in that order, and memory and file name the container |
| SectionOutcomes.UnmountWithout | internal/wrapper/server.go:250-263 | Without a record unmount succeeds, with one of another PV it is refused, and nothing happens |
| SectionOutcomes.UnmountForgets | internal/wrapper/server.go:264-276 | A pending record or one of another container is deleted with no node call |
| SectionOutcomes.UnmountWithdraws | internal/wrapper/server.go:277-305 | The record of the very container is deleted before the node is asked; a mount that is there is unmounted, and what the node fails to answer or do puts the record back |
| WrapperServer.Server.MountSection | internal/wrapper/server.go:160-209 | The critical section as written is the protocol's mount section run to its end: same world, same outcome |
| WrapperServer.Server.Mount | internal/wrapper/server.go:146-209 | A mount call changes nothing if it is not authorized; otherwise world and outcome are those of the protocol's section entered with its key on record: only its key is touched, the record is kept when refused, restored when rolled back, and is of its request when it succeeds |
| WrapperServer.Server.UnmountSection | internal/wrapper/server.go:246-305 | The critical section as written is the protocol's unmount section run to its end |
| WrapperServer.Server.Unmount | internal/wrapper/server.go:222-305 | An unmount call changes nothing if it is not authorized; otherwise world and outcome are those of the protocol's section: only its key is touched, no record is left on success, the same record when refused or rolled back |
| WrapperServer.Server.RestoreDesiredMount | internal/wrapper/server.go:307-318 | Restoring writes the earlier record back, or removes the pending one if there was none, and reports whether the store took it |
| WrapperServer.Server.ReconcileMountForPod | internal/wrapper/reconciler.go:273-353 | The critical section as written is the protocol's reconcile section run to its end |
| WrapperServer.Server.ReclassifyInPlace | internal/wrapper/reconciler.go:303-326 | Rewriting a record's flags one after the other gives the classification the protocol uses, and refuses the same records |
| WrapperServer.Server.HandleReconcileResult | internal/wrapper/reconciler.go:233-260 | A stale verdict removes the record, from memory and disk, if it is still the one that was judged and the store lets it; if it is another one, or the verdict is another, nothing at all changes; the same as the protocol's removal section stepped to its end |
| WrapperServer.Server.ReconcilePodSnapshot | internal/wrapper/reconciler.go:77-108 | An undisturbed pass ends, at every listed key, as judging that record by its pod and handling the verdict in the starting world ends: same verdict, record, file, writes and node calls; nothing happens at other keys, and a failed key waits for a retry unless the queue is full |
| WrapperServer.Server.ReconcilePodEvent | internal/wrapper/reconciler.go:110-129 | An undisturbed event does the same for exactly the records of its pod, all of them stale if the pod was deleted |
| WrapperServer.Server.ReconcileMount | internal/wrapper/reconciler.go:262-271 | A retry's world and verdict are those of the reconcile section run with the pod the API returned; a pod that is gone makes the record stale, an API error fails |
| Passes.ReconcileAt | internal/wrapper/reconciler.go:273-353 | A reconcile depends on its own key only: from two worlds that agree on the key's record, file and events it takes the same course and leaves them agreeing |
| Passes.HandleWithin | internal/wrapper/reconciler.go:233-260 | Judging a record and handling its verdict keeps the invariant and touches no other key |
| Passes.SnapshotVerdicts | internal/wrapper/reconciler.go:77-108 | A snapshot pass judges a record by the last listed pod of its namespace, name and UID; without one, by the API's pod, dropping the record if there is none or it is on another node, and leaving it alone if the API fails |
| Passes.EventVerdicts | internal/wrapper/reconciler.go:110-129 | An event judges exactly the records of its pod's namespace, name and UID by that pod, or drops them all if it was deleted |
| Passes.PassConverges | internal/wrapper/reconciler.go:77-129 | After a pass every listed record whose reconcile returned nil names its pod's current container, a stale one is gone if the store let it go, and one that was right already has seen no store write and no node call |
| WrapperServer.Server.ProcessReconcileRetries | internal/wrapper/reconciler.go:149-182 | An undisturbed worker empties the queue; each key ends as the chain of its token's reconciles from the starting world ends, with that chain's last verdict and attempt reported, every reconcile on record, counted, and at most five since the key was scheduled; nothing happens at other keys |
| RetryChains.ChainMeans | internal/wrapper/reconciler.go:149-182 | A token's chain of reconciles stops within what is left of the five attempts, with a last verdict exactly if there was a record; that verdict is final or the fifth, and if it is nil the record names the container of the pod it was judged by |
| RetryChains.WorkedMeans | internal/wrapper/reconciler.go:149-182 | So after an undisturbed worker every key that was waiting has no record, or ended with a final verdict or its fifth attempt, counted from its scheduling |
| RetryChains.ChainAt | internal/wrapper/reconciler.go:149-182 | A chain depends on its own key only |
| RetryChains.TurnMeans | internal/wrapper/reconciler.go:159-180 | A retry without a pod is stale, with an API error failed and without effect, else as its section decides; a failed one leaves the next attempt's token unless it was the fifth, any other ends the chain |
| RetryQueues.RetryQueue.Schedule | internal/wrapper/reconciler.go:131-147 | A retryable error queues a key that is not already waiting, and a full queue takes the key back out |
| RetryQueues.RetryQueue.Return | internal/wrapper/reconciler.go:165-180 | A token goes back with one more attempt or is given up with its key's place, and the budget of reconciles left falls |
| RetryQueues.QueueIsProtocols | internal/wrapper/reconciler.go:131-182 | What the queue's methods do to the waiting keys and the tokens is what the protocol's schedule and push actions do |
| StateStore.FileMountStateStore.Load | internal/wrapper/state.go:105-131 | Loading skips directories and other names and succeeds exactly when every other entry is a state file of version 1 or 2 under its own name; memory then holds every file's request and container, its root selection and fingerprint from version 2 and an unknown one from version 1, whatever the order of the directory, and the store is usable if its files are of keys it is for |
| StateStore.FileMountStateStore.Put | internal/wrapper/state.go:167-176 | Memory, index and files after a write, for each of its three outcomes, also when the key moves to another pod |
| StateStore.FileMountStateStore.Delete | internal/wrapper/state.go:178-194 | Memory, index and files after a delete, which returns early for a key not in memory |
| StateStore.FileMountStateStore.PutInMemory | internal/wrapper/state.go:196-207 | The map changes at the record's key and nowhere else, and the index still says of every pod exactly which keys are its, with no empty entry |
| StateStore.FileMountStateStore.DeleteInMemory | internal/wrapper/state.go:209-220 | The map loses the key and nothing else, and the index still agrees with it, with no empty entry |
| StateStore.FileMountStateStore.List | internal/wrapper/state.go:148-158 | The listing holds every record once, in key order |
| StateStore.FileMountStateStore.ListForPod | internal/wrapper/state.go:135-146 | The index answers, as a sequence, what filtering the sorted listing of all records by the pod would |
| StateStore.Reopen | internal/wrapper/state.go:89-133 | What a store has written can be opened again, and starts with what each file reads as |
| StateStore.FilenameInjective | internal/wrapper/state.go:259-266 | Two NUL-free keys have different file names if the hash keeps their encodings apart |
| StateStore.ClassifyExact | internal/wrapper/state.go:106-108 | A name is the hash and the suffix exactly if it is so taken apart, and no two names are confused |
| StateStore.EncodeReads | internal/wrapper/state.go:259-266 | What is hashed into a file name reads back as the pod UID, the container name and the target, each up to its NUL, and nothing more |
| StateStore.MountStateFilename | internal/wrapper/state.go:259-266 | The loop over the key's fields hashes exactly that |
| MountRecords.PersistRoundTrip | internal/wrapper/state.go:222-226 | A record written and read again is the same, but that an unknown root selection reads as none |
| StateStore.TemporaryIgnored | internal/wrapper/state.go:230-235 | A name that the temporary pattern makes never ends in the suffix, so such a file left behind changes nothing about what the directory holds |
| StateStore.WriteFile | internal/wrapper/state.go:222-257 | Replacing a key's file adds that key's record to what the directory holds and disturbs no other |
| StateStore.RemoveFile | internal/wrapper/state.go:186-191 | Removing a key's file removes that key's record and no other |
| RecordOrder.SortDesiredMounts | internal/wrapper/state.go:268-280 | Sorting keeps exactly the records it was given and puts their keys in strict order |
| RecordOrder.ListingUnique | internal/wrapper/state.go:148-158 | A map of records has one sorted listing |
| RecordOrder.ForPodLists | internal/wrapper/state.go:135-146 | Filtering a listing by pod lists exactly that pod's records |
| RecordOrder.KeyLessStrict | internal/wrapper/state.go:268-280 | The comparison of pod UID, container and target is a strict total order on keys |
| RecordOrder.KeyLessMeans | internal/wrapper/state.go:268-280 | A key is less if its pod UID is, or with equal UIDs its container name, or with equal names its target |
| RecordOrder.LessMeans | internal/wrapper/state.go:273-278 | A string is less exactly if, where the two first differ, it ends or has the smaller byte |
| TargetLocks.TargetLock | internal/wrapper/server.go:320-329 | The nested loops over the key's fields compute one 32-bit FNV-1a fold over their concatenation, reduced to a stripe |
| TargetLocks.FoldAppend | internal/wrapper/server.go:322-327 | Hashing a concatenation is hashing its parts one after the other, for any mixing step |
| TargetLocks.RemainderIsMask | internal/wrapper/server.go:328-328 | The stripe is the hash's low seven bits, so always below 128 |
| TargetLocks.KnownAnswers | internal/wrapper/server.go:321-327 | The hash gives the published FNV-1a vectors |
| MountRecords.StripeMeans | internal/wrapper/server.go:320-329 | A key's stripe is the low seven bits of the hash of pod UID, container name and target in this order |
| Authorization.NormalizeYieldsFixed | internal/wrapper/server.go:365-385 | Normalization cleans both paths to fixed points and alters nothing else |
| Authorization.NormalizeIdempotent | internal/wrapper/server.go:365-385 | Normalizing an accepted request again accepts it unchanged, so a reconcile of a stored request writes under the key it read |
| Authorization.SpellingsNormalizeAlike | internal/wrapper/server.go:365-385 | Requests whose target paths resolve alike and whose sub-paths have the same segments normalize to the same request |
| Authorization.PlanForCanonical | internal/wrapper/server.go:387-407 | A plan for a stored request keeps the request, is for its key, and names the selected container's ID |
| Authorization.PreparedCall | internal/wrapper/server.go:146-154 | What a mount call takes into its section is canonical, planned for its own key, and carries the key's fingerprint exactly when its plan is an export root and a key is configured, the key having been shown |
| CallDecisions.RootCallsExact | internal/wrapper/authz.go:195-221 | For every accepted call, what is mounted is the segments of the PV's share attribute followed by those of its raw subDir and of the raw sub-path, never ".."; when these add none, another key is accepted if and only if it is the configured one or none is configured, and when they add some, every key is |
| CallDecisions.MountCallExact | internal/wrapper/server.go:331-407 | A mount call is accepted if and only if every field of request, pod and PV fits (API version, driver, the required fields, both paths, namespace, name, UID, phase, node, allowlists, server, share, subDir, a container with an ID, and the key where the root is selected), and then carries exactly the cleaned request, the plan field by field, and the fingerprint due |
| CallDecisions.MountNeedsContainer | internal/wrapper/authz.go:155-193 | A mount call that means no container of the pod is refused |
| CallDecisions.UnmountCallExact | internal/wrapper/server.go:222-245 | An unmount call is accepted if and only if the request's and the pod's fields fit and the meant container has an ID, and is then about the key, PV and container they name |
| CallDecisions.PlanExact | internal/wrapper/authz.go:195-221 | A plan takes server and share from the first of their two attributes that is not empty, the trimmed and cleaned subDir, and every other field from where it belongs, and exists exactly if the PV serves the pod |
| CallDecisions.AnnotationMeans | internal/wrapper/authz.go:130-153 | An allowlist names an identity exactly if no piece between its commas is blank or "*" and one is the identity, white space aside |
| CallDecisions.SplitMeans | internal/wrapper/authz.go:140-140 | Splitting at commas gives exactly the comma-free pieces that commas or the ends bound |
| CallDecisions.IsMainMeans | internal/wrapper/authz.go:184-193 | A container is marked as main exactly by the variable SANDBOX_MAIN_CONTAINER with any case of "true" |
| Authorization.AuthorizePVAnnotation | internal/wrapper/authz.go:130-153 | An absent annotation allows everyone; a present one allows exactly the identities it lists, provided every entry is well formed |
| Authorization.SelectionMeans | internal/wrapper/authz.go:155-193 | Selection finds the first status of the requested name; with no name, of the first container marked as the sandbox's main one; with no mark, the only status; it fails exactly when there is none or it has no ID |
| SourceSubPaths.ParsersAgree | internal/security/subpath.go:10-31 | The API's validation accepts exactly the strings the node's parser accepts, and its output is the slash-join of the node's segments, none of them ".." |
| SourceSubPaths.SourceSubPathSegments | internal/node/mounter_linux.go:372-392 | The node's loop accepts relative NUL-free paths without ".." and returns their naming segments in order |
| SourceSubPaths.OutputIsFixed | internal/security/subpath.go:24-30 | An accepted output is accepted again, unchanged, with the same segments |
| TargetPaths.VerdictIsLexical | internal/security/targetpath.go:35-57 | The verdict and the output of target validation are a function of the resolved segments alone: accepted exactly when these are neither at nor below a denied root nor a denied file nor the root |
| TargetPaths.SpellingIrrelevant | internal/security/targetpath.go:43-57 | Two spellings that resolve alike get the same verdict and output |
| TargetPaths.DeniedPrefixMeans | internal/security/targetpath.go:16-53 | The two string-prefix tests together hold exactly for paths at or below a denied root, never for a sibling with a longer name |
| TargetPaths.OutputIsFixed | internal/security/targetpath.go:43-57 | An accepted output is a fixed point, absolute, with no empty, "." or ".." segment, and outside every denied root |
| NfsPaths.NormalizeMeans | internal/node/nfspath.go:12-28 | A PV's subDir normalizes to the join of its trimmed value's naming segments, and is refused exactly for NUL or ".." |
| NfsPaths.NormalizeFixedIffBare | internal/node/nfspath.go:12-28 | Cleaning a subDir twice is cleaning it once if and only if its trimmed value has no white space at the start of its first or the end of its last segment |
| NfsPaths.NormalizeNotIdempotent | internal/node/nfspath.go:12-28 | "/ a" gives " a", which gives "a" |
| WhiteSpace.TrimSpaceLength | internal/node/nfspath.go:13-13 | Trimming leaves exactly the strings that have no white space character at an end as they are |
| WhiteSpace.TrimSpaceMeans | internal/node/nfspath.go:13-13 | A string is white space characters, then what trimming leaves, then white space characters, and that has none at either end |
| WhiteSpace.TrimSpaceOnly | internal/node/nfspath.go:13-13 | It is the only such middle part, however the white space around it is cut |
| WhiteSpace.SpaceCharMeans | internal/node/nfspath.go:13-13 | The byte sequences counted as white space are the UTF-8 encodings (section 3 of RFC 3629) of Unicode's white space characters |
| NfsPaths.RootClassificationExact | internal/node/nfspath.go:32-34 | The mounted segments are the share's, then the trimmed subDir's, then the sub-path's; a plan counts as export root exactly when the last two are empty |
| NfsPaths.RemoteSegments | internal/node/mounter_linux.go:240-245 | The remote path built for mount(8) reads back as the share's segments followed by the subDir's |
| Lexical.CleanStack | internal/security/targetpath.go:43-43 | Cleaning a cleaned path resolves to the same segments: cleaning is idempotent |
| Lexical.CleanRules | internal/security/targetpath.go:43-43 | Anywhere in a path, rooted or not, an empty segment and "." can be dropped, a name with the ".." after it, and ".." at the root, without changing what it resolves to: the rules path.Clean is documented by |
| DirectoryWalk.OpenDirectoryNoFollow | internal/node/mounter_linux.go:312-355 | For every tree, path and interference: success holds exactly one descriptor more, reached by one existing directory entry per segment; failure holds none more; no descriptor is closed that is not held; only missing components of the path are made, and none with creation off; a bad path touches nothing; an accepted one stops only on a failed call of its own, on the component it has come to, with the error that call's errno means, and with creation on a missing component stops it only if making it or opening it then fails |
| DirectoryWalk.WalkSegments | internal/node/mounter_linux.go:326-354 | The loop releases the stage's descriptor on every way out and keeps at most the last one it opened |
| DirectoryWalk.OpenOrCreate | internal/node/mounter_linux.go:328-344 | One component is opened as a directory below the current one; missing, with creation on, it is made and opened again, an existing one counting as made; every other failure is reported as what its errno means |
| DirectoryWalk.CloseDirectoryWalkFDs | internal/node/mounter_linux.go:411-416 | Both descriptors are released once, also when they are one |
| Informer.TrimPodForInformerCache | internal/kube/informer.go:74-109 | The loops keep of a pod exactly its identity, node, service account, phase, container names, main-container markers and container IDs |
| Informer.PodSnapshot | internal/kube/informer.go:143-191 | The loops convert every field the wrapper reads, in order |
| Informer.SameContainerState | internal/kube/informer.go:126-141 | The map and the second loop decide that phases and counts agree and every right-hand status has its ID on the left |
| Informer.TrimPreservesDecisions | internal/wrapper/authz.go:94-193 | Identity, node and PV authorization, container selection for any request and the mount plan are the same on the trimmed pod as on the whole one |
| Informer.TrimPreservesReconcile | internal/kube/informer.go:74-109 | A whole reconcile, with every store write, node call and verdict, is the same on the trimmed pod |
| Informer.SameStateExactly | internal/kube/informer.go:126-141 | With unique status names an update counts as no change if and only if the phase and every name's ID, present or absent, are the same |
| Informer.SuppressedUpdateChangesNothing | internal/kube/informer.go:126-141 | An update that is not passed on could not have changed the reconcile of any named record |
| Informer.SnapshotDecides | internal/kube/informer.go:143-191 | On the converted pod, identity, phase, node, allowlists, container choice and the main marker are decided by the API pod's own fields, each by the field of its name |
| Informer.TrimmedHolds | internal/kube/informer.go:74-109 | The cache keeps no label, annotation, owner, volume or image, of the environment only the marker variable, of a status only name and ID; trimming again changes nothing |

## Left out

- HTTP handling, JSON decoding, status codes and the bearer header: plumbing around the calls modelled here.
- Token review and its matching with the request: a call is modelled from the point where it has passed; a call that fails there changes nothing.
- Mount namespaces, `setns`, `mount(8)`, `open_tree` and the search for a container's process: foreign calls behind the three-method mounter contract.
- The mounter's own set of live mounts: what the node has mounted appears only as the events of its calls, and `IsMounted` may answer anything.
- `decodeMountInfoPath`: its encoder is in the kernel.
- Timers, contexts and shutdown: a timeout is an error answer, and shutdown is a restart; the waits between retries are not modelled.
- Logging and the map that de-duplicates reconcile errors: they feed nothing that is stored or mounted.
- `reconcileAll`: the running process never calls it.
- The switch that disables reconciliation when the node name is empty: the protocol simply allows passes and workers then as well.
- `fsync` and power loss: a restart is a process restart; what a completed write leaves in the directory stays.
- The number of workers and handlers: four in the source, any number here.
- internal/config, the command line, the client library and the charts: configuration and copying.
- WrapperServer.Server: its methods run one at a time and take no lock; interleaving, and why the locks suffice, is the subject of the protocol.
- WrapperServer.Server.ReconcilePodSnapshot: describes a pass with nothing else running; under interference the guarantees of the protocol apply.
- WrapperServer.Server.ProcessReconcileRetries: one worker with nothing else running; the bound of five per scheduling under interference is Guarantees.RetryTokens.
- StateStore.FilenameInjective: takes as a hypothesis that SHA-256 does not confuse the two keys; the store asks the same of the keys it is for.
- RecordOrder.SortDesiredMounts: sorts by insertion where the source calls `sort.Slice`; the listing is unique, so the result is the same.
- Authorization.EqualFold: folds ASCII letters; Go's function also folds the non-ASCII letters, none of which folds to a letter of "true".
- DirectoryWalk.OpenDirectoryNoFollow: the mode bits of created directories and the texts of errors are not modelled, and the staged mount is opened as some directory, wherever its path led.
- Informer.TrimPodForInformerCache: the fields of a pod that neither function reads are represented by a few (image, restart count, value source, controller flag).
