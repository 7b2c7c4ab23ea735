/** Requests, durable intents and the files that hold them (internal/api/types.go, internal/wrapper/state.go). */
module MountRecords {
  import opened Results
  import SourceSubPaths
  import TargetPaths
  import TargetLocks

  datatype MountRequest = MountRequest(
    apiVersion: string,
    driverName: string,
    namespace: string,
    podName: string,
    podUID: string,
    pvName: string,
    sourceSubPath: string,
    targetPath: string,
    containerName: string)

  datatype Key = Key(podUID: string, containerName: string, targetPath: string)

  datatype PodKey = PodKey(namespace: string, name: string, uid: string)

  datatype DesiredMount = DesiredMount(
    request: MountRequest,
    containerID: string,
    legacyRootUnknown: bool,
    rootAuthorized: bool,
    fingerprint: string)

  function RequestKey(request: MountRequest): Key {
    Key(request.podUID, request.containerName, request.targetPath)
  }

  function KeyOf(mount: DesiredMount): Key { RequestKey(mount.request) }

  function PodKeyOf(mount: DesiredMount): PodKey {
    PodKey(mount.request.namespace, mount.request.podName, mount.request.podUID)
  }

  function Stripe(k: Key): nat { TargetLocks.StripeOf(k.podUID, k.containerName, k.targetPath) }

  /** A key's stripe: the low seven bits of the FNV-1a hash of its pod UID, container name and target, in this order. */
  lemma StripeMeans(k: Key)
    ensures Stripe(k) == (TargetLocks.Fnv1a(k.podUID + k.containerName + k.targetPath) & 127) as nat
  {
    TargetLocks.RemainderIsMask(TargetLocks.Fnv1a(k.podUID + k.containerName + k.targetPath));
  }

  predicate SameMountIntent(left: DesiredMount, right: DesiredMount) {
    && left.request == right.request
    && left.rootAuthorized == right.rootAuthorized
    && left.fingerprint == right.fingerprint
  }

  /** A request the wrapper has normalized: both paths are fixed points and the container is named. */
  ghost predicate Canonical(request: MountRequest) {
    && TargetPaths.ValidateTargetPath(request.targetPath) == Ok(request.targetPath)
    && SourceSubPaths.ValidateSourceSubPath(request.sourceSubPath) == Ok(request.sourceSubPath)
    && request.containerName != ""
  }

  const LEGACY_VERSION: nat := 1
  const CURRENT_VERSION: nat := 2

  /** A state file's JSON: everything in a record except the legacy flag. */
  datatype StateFile = StateFile(
    version: nat,
    request: MountRequest,
    containerID: string,
    rootAuthorized: bool,
    fingerprint: string)

  function Persist(mount: DesiredMount): StateFile {
    StateFile(CURRENT_VERSION, mount.request, mount.containerID, mount.rootAuthorized, mount.fingerprint)
  }

  /** A version 1 file did not record its root selection, so nothing it says about it is taken. */
  function Load(file: StateFile): DesiredMount {
    if file.version == LEGACY_VERSION then DesiredMount(file.request, file.containerID, true, false, "")
    else DesiredMount(file.request, file.containerID, false, file.rootAuthorized, file.fingerprint)
  }

  /** Written and read again, a record is the same, but that an unknown root selection reads as none. */
  lemma PersistRoundTrip(mount: DesiredMount)
    ensures Load(Persist(mount)) == mount.(legacyRootUnknown := false)
    ensures Persist(mount).version == 2
  {
  }

  /** A file that reads back as the record, save that a rewritten legacy record loses its unknown flag. */
  predicate ReadsBackAs(file: StateFile, mount: DesiredMount) {
    Load(file) == mount || (mount.legacyRootUnknown && Load(file) == mount.(legacyRootUnknown := false))
  }

  /** The two versions of a record are one intent: only an unknown root selection may become known. */
  predicate SameIntent(before: DesiredMount, after: DesiredMount) {
    && before.request == after.request
    && (before.rootAuthorized == after.rootAuthorized || (before.legacyRootUnknown && !after.legacyRootUnknown))
  }
}
