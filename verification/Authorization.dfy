/**
  From a request, a pod and a PV to a mount plan: request shape and
  normalization, pod identity, container selection, PV authorization
  (internal/wrapper/authz.go, internal/wrapper/server.go:331-407) and the
  export-root key (internal/wrapper/rootauth.go).
*/
module Authorization {
  import opened Results
  import opened Kube
  import opened MountRecords
  import Lexical
  import SourceSubPaths
  import TargetPaths
  import NfsPaths
  import WhiteSpace

  const API_VERSION := "kruise-agents-nfs-csi.zhida/v1alpha1"

  /**
    The wrapper's configuration for one process. The hash stands for SHA-256 in
    hexadecimal; rootKey is the fingerprint of the configured export-root key.
  */
  datatype Config = Config(
    driverName: string,
    nodeName: string,
    hash: string -> string,
    rootKey: Option<string>)

  // ----- requests -----

  predicate ValidShape(cfg: Config, request: MountRequest) {
    && request.apiVersion == API_VERSION
    && request.driverName == cfg.driverName
    && request.namespace != ""
    && request.podName != ""
    && request.podUID != ""
    && request.pvName != ""
    && request.targetPath != ""
  }

  function NormalizeMountRequest(cfg: Config, request: MountRequest, validateSubPath: bool): Result<MountRequest> {
    if !ValidShape(cfg, request) then Err
    else
      var target :- TargetPaths.ValidateTargetPath(request.targetPath);
      if validateSubPath then
        var subPath :- SourceSubPaths.ValidateSourceSubPath(request.sourceSubPath);
        Ok(request.(targetPath := target, sourceSubPath := subPath))
      else
        Ok(request.(targetPath := target, sourceSubPath := ""))
  }

  // ----- pods and containers -----

  predicate PodIdentity(pod: Pod, request: MountRequest) {
    && pod.metadata.namespace == request.namespace
    && pod.metadata.name == request.podName
    && pod.metadata.uid == request.podUID
    && pod.status.phase != "Succeeded"
    && pod.status.phase != "Failed"
  }

  predicate PodOnNode(pod: Pod, nodeName: string) { nodeName == "" || pod.spec.nodeName == nodeName }

  const MAIN_CONTAINER_ENV := "SANDBOX_MAIN_CONTAINER"

  function ToLower(c: char): char { if 'A' <= c <= 'Z' then (c as int + 32) as char else c }

  predicate EqualFold(a: string, b: string) {
    |a| == |b| && forall i :: 0 <= i < |a| ==> ToLower(a[i]) == ToLower(b[i])
  }

  predicate MarksMain(env: EnvVar) { env.name == MAIN_CONTAINER_ENV && EqualFold(env.value, "true") }

  predicate IsMain(container: Container) {
    exists i :: 0 <= i < |container.env| && MarksMain(container.env[i])
  }

  /** The name of the first container marked as the sandbox's main one, or "". */
  function MainContainerName(containers: seq<Container>): string {
    if containers == [] then ""
    else if IsMain(containers[0]) then containers[0].name
    else MainContainerName(containers[1..])
  }

  function StatusByName(statuses: seq<ContainerStatus>, name: string): (r: Result<ContainerStatus>)
    ensures r.Ok? ==> r.value in statuses && r.value.name == name && r.value.containerID != ""
  {
    if statuses == [] then Err
    else if statuses[0].name == name then
      if statuses[0].containerID == "" then Err else Ok(statuses[0])
    else StatusByName(statuses[1..], name)
  }

  function SelectContainerStatus(pod: Pod, requestedName: string): (r: Result<ContainerStatus>)
    ensures r.Ok? ==> r.value.containerID != ""
    ensures r.Ok? && ContainersNamed(pod) ==> r.value.name != ""
    ensures r.Ok? && requestedName != "" ==> r.value.name == requestedName
  {
    var statuses := pod.status.containerStatuses;
    if requestedName != "" then StatusByName(statuses, requestedName)
    else if MainContainerName(pod.spec.containers) != ""
      then StatusByName(statuses, MainContainerName(pod.spec.containers))
    else if |statuses| != 1 then Err
    else if statuses[0].containerID == "" then Err
    else Ok(statuses[0])
  }

  predicate FirstNamed(statuses: seq<ContainerStatus>, name: string, i: int) {
    && 0 <= i < |statuses| && statuses[i].name == name
    && forall j :: 0 <= j < i ==> statuses[j].name != name
  }

  predicate FirstMain(containers: seq<Container>, i: int) {
    && 0 <= i < |containers| && IsMain(containers[i])
    && forall j :: 0 <= j < i ==> !IsMain(containers[j])
  }

  lemma {:induction false} StatusByNameMeans(statuses: seq<ContainerStatus>, name: string)
    ensures var found := StatusByName(statuses, name);
            forall i :: FirstNamed(statuses, name, i) ==>
              found == if statuses[i].containerID == "" then Err else Ok(statuses[i])
    ensures StatusByName(statuses, name).Ok? ==> exists i :: FirstNamed(statuses, name, i)
    decreases |statuses|
  {
    if statuses != [] {
      if statuses[0].name == name {
        assert FirstNamed(statuses, name, 0);
      } else {
        var rest := statuses[1..];
        StatusByNameMeans(rest, name);
        forall i | FirstNamed(statuses, name, i)
          ensures FirstNamed(rest, name, i - 1) && rest[i - 1] == statuses[i]
        {
          assert i != 0;
          assert forall j :: 0 <= j < i - 1 ==> rest[j] == statuses[j + 1];
        }
        if StatusByName(rest, name).Ok? {
          var i :| FirstNamed(rest, name, i);
          assert forall j :: 0 < j <= i ==> statuses[j] == rest[j - 1];
          assert FirstNamed(statuses, name, i + 1);
        }
      }
    }
  }

  lemma {:induction false} MainContainerNameMeans(containers: seq<Container>)
    ensures forall i :: FirstMain(containers, i) ==> MainContainerName(containers) == containers[i].name
    ensures MainContainerName(containers) != "" ==> exists i :: FirstMain(containers, i)
    decreases |containers|
  {
    if containers != [] {
      if IsMain(containers[0]) {
        assert FirstMain(containers, 0);
      } else {
        var rest := containers[1..];
        MainContainerNameMeans(rest);
        forall i | FirstMain(containers, i)
          ensures FirstMain(rest, i - 1) && rest[i - 1] == containers[i]
        {
          assert i != 0;
          assert forall j :: 0 <= j < i - 1 ==> rest[j] == containers[j + 1];
        }
        if MainContainerName(rest) != "" {
          var i :| FirstMain(rest, i);
          assert forall j :: 0 < j <= i ==> containers[j] == rest[j - 1];
          assert FirstMain(containers, i + 1);
        }
      }
    }
  }

  /** The container a request means: the one it names; else the one marked as main; else the only one. */
  ghost predicate Meant(pod: Pod, requestedName: string, i: int) {
    var statuses, containers := pod.status.containerStatuses, pod.spec.containers;
    if requestedName != "" then FirstNamed(statuses, requestedName, i)
    else if exists c :: FirstMain(containers, c) && containers[c].name != "" then
      exists c :: FirstMain(containers, c) && FirstNamed(statuses, containers[c].name, i)
    else i == 0 && |statuses| == 1
  }

  /** With no name in the request, the meant container is that of the marked name, or the only one. */
  lemma UnnamedMeans(pod: Pod, i: int)
    ensures var statuses, main := pod.status.containerStatuses, MainContainerName(pod.spec.containers);
            Meant(pod, "", i) <==> if main != "" then FirstNamed(statuses, main, i) else i == 0 && |statuses| == 1
  {
    var statuses, containers := pod.status.containerStatuses, pod.spec.containers;
    var main := MainContainerName(containers);
    MainContainerNameMeans(containers);
    if main != "" {
      var c :| FirstMain(containers, c);
      assert containers[c].name == main;
    }
  }

  /** Selection finds the container a request means, and fails exactly when there is none or it has no ID yet. */
  lemma SelectionMeans(pod: Pod, requestedName: string)
    ensures var selected := SelectContainerStatus(pod, requestedName);
            forall i :: Meant(pod, requestedName, i) ==>
              selected ==
              if pod.status.containerStatuses[i].containerID == "" then Err else Ok(pod.status.containerStatuses[i])
    ensures SelectContainerStatus(pod, requestedName).Ok? ==> exists i :: Meant(pod, requestedName, i)
  {
    var statuses := pod.status.containerStatuses;
    var name := if requestedName != "" then requestedName else MainContainerName(pod.spec.containers);
    StatusByNameMeans(statuses, name);
    forall i
      ensures Meant(pod, requestedName, i) <==>
              if name != "" then FirstNamed(statuses, name, i) else i == 0 && |statuses| == 1
    {
      if requestedName == "" {
        UnnamedMeans(pod, i);
      }
    }
    if name != "" {
      if StatusByName(statuses, name).Ok? {
        var i :| FirstNamed(statuses, name, i);
        assert Meant(pod, requestedName, i);
      }
    } else if |statuses| == 1 {
      assert Meant(pod, requestedName, 0);
    }
  }

  // ----- persistent volumes -----

  const ALLOW_NAMESPACE := "kary.dev/allow-namespace"
  const ALLOW_SERVICE_ACCOUNT := "kary.dev/allow-serviceaccount"

  /** strings.Split(raw, ","). */
  function SplitComma(s: string): (parts: seq<string>)
    ensures |parts| >= 1
  {
    if s == "" then [""]
    else
      var rest := SplitComma(s[1..]);
      if s[0] == ',' then [""] + rest else [[s[0]] + rest[0]] + rest[1..]
  }

  /** An absent annotation allows everyone; a present one is a list of named identities, all of them well formed. */
  predicate AnnotationAllows(pv: PersistentVolume, key: string, identity: string) {
    key in pv.annotations ==>
      var raw := pv.annotations[key];
      && raw != ""
      && (forall i :: 0 <= i < |SplitComma(raw)| ==>
           WhiteSpace.TrimSpace(SplitComma(raw)[i]) != "" && WhiteSpace.TrimSpace(SplitComma(raw)[i]) != "*")
      && (exists i :: 0 <= i < |SplitComma(raw)| && WhiteSpace.TrimSpace(SplitComma(raw)[i]) == identity)
  }

  method AuthorizePVAnnotation(pv: PersistentVolume, key: string, identity: string) returns (allowed: bool)
    ensures allowed == AnnotationAllows(pv, key, identity)
  {
    if key !in pv.annotations {
      return true;
    }
    var raw := pv.annotations[key];
    if raw == "" {
      return false;
    }
    var entries := SplitComma(raw);
    allowed := false;
    for i := 0 to |entries|
      invariant allowed == exists j :: 0 <= j < i && WhiteSpace.TrimSpace(entries[j]) == identity
      invariant forall j :: 0 <= j < i ==>
                WhiteSpace.TrimSpace(entries[j]) != "" && WhiteSpace.TrimSpace(entries[j]) != "*"
    {
      var entry := WhiteSpace.TrimSpace(entries[i]);
      if entry == "" || entry == "*" {
        return false;
      }
      if entry == identity {
        allowed := true;
      }
    }
  }

  predicate PVAllowsPod(driverName: string, pod: Pod, pv: PersistentVolume) {
    && pv.csi.Some?
    && pv.csi.value.driver == driverName
    && AnnotationAllows(pv, ALLOW_NAMESPACE, pod.metadata.namespace)
    && AnnotationAllows(pv, ALLOW_SERVICE_ACCOUNT, pod.spec.serviceAccountName)
  }

  function Attribute(attrs: map<string, string>, key: string): string { if key in attrs then attrs[key] else "" }

  function FirstNonEmpty(a: string, b: string): string { if a != "" then a else b }

  function BuildMountPlan(request: MountRequest, pod: Pod, pv: PersistentVolume,
                          containerID: string): Result<NfsPaths.MountPlan>
    requires pv.csi.Some?
  {
    var attrs := pv.csi.value.volumeAttributes;
    var server := FirstNonEmpty(Attribute(attrs, "server"), Attribute(attrs, "mountOptions.server"));
    var share := FirstNonEmpty(Attribute(attrs, "share"), Attribute(attrs, "mountOptions.share"));
    var subDir :- NfsPaths.NormalizeNFSSubDir(FirstNonEmpty(Attribute(attrs, "subDir"), Attribute(attrs, "subdir")));
    if server == "" || share == "" then Err
    else Ok(NfsPaths.MountPlan(
              NfsPaths.PersistentVolume(pv.name, pv.csi.value.volumeHandle, server, share, subDir, pv.mountOptions),
              pod.metadata.uid,
              request.containerName,
              containerID,
              request.sourceSubPath,
              request.targetPath))
  }

  datatype Planned = Planned(request: MountRequest, plan: NfsPaths.MountPlan)

  function MountPlanForPod(cfg: Config, request: MountRequest, pod: Pod, pv: PersistentVolume): Result<Planned> {
    if !PVAllowsPod(cfg.driverName, pod, pv) then Err
    else
      var status :- SelectContainerStatus(pod, request.containerName);
      var named := request.(containerName := status.name);
      var plan :- BuildMountPlan(named, pod, pv, status.containerID);
      Ok(Planned(named, plan))
  }

  // ----- the export-root key -----

  /** The fingerprint to store for an accepted plan: the configured key's for a root plan, else none. */
  function Authorize(cfg: Config, plan: NfsPaths.MountPlan, providedKey: string): Result<string> {
    if !NfsPaths.IsNFSExportRoot(plan) || cfg.rootKey.None? then Ok("")
    else if cfg.hash(WhiteSpace.TrimSpace(providedKey)) != cfg.rootKey.value then Err
    else Ok(cfg.rootKey.value)
  }

  predicate AuthorizesFingerprint(cfg: Config, fingerprint: string) {
    cfg.rootKey.Some? && fingerprint != "" && fingerprint == cfg.rootKey.value
  }

  // ----- what a call carries into its critical section -----

  datatype MountCall = MountCall(request: MountRequest, plan: NfsPaths.MountPlan, fingerprint: string)

  datatype UnmountCall = UnmountCall(key: Key, pvName: string, containerID: string)

  /** Everything mount does before it takes the target lock. */
  function PrepareMount(cfg: Config, raw: MountRequest, providedKey: string, pod: Pod,
                        pv: PersistentVolume): Result<MountCall> {
    var request :- NormalizeMountRequest(cfg, raw, true);
    if !PodIdentity(pod, request) || !PodOnNode(pod, cfg.nodeName) then Err
    else
      var planned :- MountPlanForPod(cfg, request, pod, pv);
      var fingerprint :- Authorize(cfg, planned.plan, providedKey);
      Ok(MountCall(planned.request, planned.plan, fingerprint))
  }

  /** Everything unmount does before it takes the target lock. */
  function PrepareUnmount(cfg: Config, raw: MountRequest, pod: Pod): Result<UnmountCall> {
    var request :- NormalizeMountRequest(cfg, raw, false);
    if !PodIdentity(pod, request) || !PodOnNode(pod, cfg.nodeName) then Err
    else
      var status :- SelectContainerStatus(pod, request.containerName);
      Ok(UnmountCall(RequestKey(request.(containerName := status.name)), request.pvName, status.containerID))
  }

  function PlanKey(plan: NfsPaths.MountPlan): Key { Key(plan.podUID, plan.containerName, plan.targetPath) }

  // ----- facts the protocol rests on -----

  /** Normalizing a canonical request again either fails or changes nothing. */
  lemma NormalizeCanonical(cfg: Config, request: MountRequest)
    requires Canonical(request)
    ensures NormalizeMountRequest(cfg, request, true) == if ValidShape(cfg, request) then Ok(request) else Err
  {
  }

  /** Normalization yields fixed points and keeps the fields it does not clean. */
  lemma NormalizeYieldsFixed(cfg: Config, raw: MountRequest)
    requires NormalizeMountRequest(cfg, raw, true).Ok?
    ensures var out := NormalizeMountRequest(cfg, raw, true).value;
            && TargetPaths.ValidateTargetPath(out.targetPath) == Ok(out.targetPath)
            && SourceSubPaths.ValidateSourceSubPath(out.sourceSubPath) == Ok(out.sourceSubPath)
            && out == raw.(targetPath := out.targetPath, sourceSubPath := out.sourceSubPath)
  {
    TargetPaths.OutputIsFixed(raw.targetPath);
    SourceSubPaths.OutputIsFixed(raw.sourceSubPath);
  }

  /** Requests that differ only in how their two paths are spelled normalize alike. */
  lemma SpellingsNormalizeAlike(cfg: Config, left: MountRequest, right: MountRequest)
    requires left == right.(targetPath := left.targetPath, sourceSubPath := left.sourceSubPath)
    requires Lexical.IsAbs(left.targetPath) && Lexical.IsAbs(right.targetPath)
    requires Lexical.NulFree(left.targetPath) && Lexical.NulFree(right.targetPath)
    requires Lexical.Stack(left.targetPath) == Lexical.Stack(right.targetPath)
    requires SourceSubPaths.Accepted(left.sourceSubPath) && SourceSubPaths.Accepted(right.sourceSubPath)
    requires Lexical.Segments(left.sourceSubPath) == Lexical.Segments(right.sourceSubPath)
    ensures NormalizeMountRequest(cfg, left, true) == NormalizeMountRequest(cfg, right, true)
  {
    TargetPaths.SpellingIrrelevant(left.targetPath, right.targetPath);
    SourceSubPaths.ParsersAgree(left.sourceSubPath);
    SourceSubPaths.ParsersAgree(right.sourceSubPath);
  }

  /** Normalizing twice is normalizing once. */
  lemma NormalizeIdempotent(cfg: Config, raw: MountRequest)
    requires NormalizeMountRequest(cfg, raw, true).Ok?
    ensures NormalizeMountRequest(cfg, NormalizeMountRequest(cfg, raw, true).value, true) ==
            NormalizeMountRequest(cfg, raw, true)
  {
    NormalizeYieldsFixed(cfg, raw);
    assert TargetPaths.ValidateTargetPath("").Err?;
  }

  /** A plan for a canonical request is for that request's own key, and names a container that has an ID. */
  lemma PlanForCanonical(cfg: Config, request: MountRequest, pod: Pod, pv: PersistentVolume)
    requires Canonical(request) && pod.metadata.uid == request.podUID
    requires MountPlanForPod(cfg, request, pod, pv).Ok?
    ensures var planned := MountPlanForPod(cfg, request, pod, pv).value;
            && planned.request == request
            && PlanKey(planned.plan) == RequestKey(request)
            && planned.plan.containerID != ""
            && SelectContainerStatus(pod, request.containerName).Ok?
            && planned.plan.containerID == SelectContainerStatus(pod, request.containerName).value.containerID
  {
  }

  /** What a prepared mount call is: canonical, planned for its own key, and carrying the fingerprint its plan needs. */
  lemma PreparedCall(cfg: Config, raw: MountRequest, providedKey: string, pod: Pod, pv: PersistentVolume)
    requires ContainersNamed(pod) && PrepareMount(cfg, raw, providedKey, pod, pv).Ok?
    ensures var call := PrepareMount(cfg, raw, providedKey, pod, pv).value;
            && Canonical(call.request)
            && PlanKey(call.plan) == RequestKey(call.request)
            && call.plan.containerID != ""
            && call.fingerprint ==
               (if NfsPaths.IsNFSExportRoot(call.plan) && cfg.rootKey.Some? then cfg.rootKey.value else "")
            && (NfsPaths.IsNFSExportRoot(call.plan) && cfg.rootKey.Some? ==>
                  cfg.hash(WhiteSpace.TrimSpace(providedKey)) == cfg.rootKey.value)
  {
    NormalizeYieldsFixed(cfg, raw);
  }
}
