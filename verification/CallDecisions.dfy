/**
  When a mount or an unmount call is accepted, and what it then asks for, said of
  the request's, the pod's and the PV's own fields (internal/wrapper/authz.go,
  internal/wrapper/server.go:146-154, 222-245 and 331-407).
*/
module CallDecisions {
  import opened Results
  import opened Kube
  import opened MountRecords
  import opened Authorization
  import Lexical
  import NfsPaths
  import SourceSubPaths
  import TargetPaths
  import WhiteSpace

  // ----- allowlists -----

  /** raw[i..j] is e, and the commas of raw, or its ends, bound it. */
  predicate PieceAt(raw: string, e: string, i: nat, j: nat) {
    && i <= j <= |raw| && raw[i..j] == e
    && (i == 0 || raw[i - 1] == ',') && (j == |raw| || raw[j] == ',')
  }

  /** e is comma-free and bounded by commas, starting at or after `from`. */
  ghost predicate PieceFrom(raw: string, e: string, from: nat) {
    ',' !in e && exists i, j :: from <= i && PieceAt(raw, e, i, j)
  }

  ghost predicate Piece(raw: string, e: string) { PieceFrom(raw, e, 0) }

  lemma PieceShifts(raw: string, e: string, from: nat)
    requires raw != ""
    ensures PieceFrom(raw, e, from + 2) <==> PieceFrom(raw[1..], e, from + 1)
    ensures raw[0] == ',' ==> (PieceFrom(raw, e, 1) <==> PieceFrom(raw[1..], e, 0))
    ensures raw[0] != ',' ==> (PieceFrom(raw, e, 1) <==> PieceFrom(raw[1..], e, 1))
  {
    var rest := raw[1..];
    forall i: nat, j: nat | i + 1 <= |raw| && i <= j && (i > 0 || raw[0] == ',')
      ensures PieceAt(raw, e, i + 1, j + 1) <==> PieceAt(rest, e, i, j)
    {
      if j <= |rest| { assert raw[i + 1..j + 1] == rest[i..j]; }
    }
    forall i: nat, j: nat | PieceAt(raw, e, i, j) && i > 0
      ensures PieceAt(rest, e, i - 1, j - 1)
    {
      assert PieceAt(raw, e, (i - 1) + 1, (j - 1) + 1) <==> PieceAt(rest, e, i - 1, j - 1);
    }
    forall i: nat, j: nat | PieceAt(rest, e, i, j) && (i > 0 || raw[0] == ',')
      ensures PieceAt(raw, e, i + 1, j + 1)
    {
    }
  }

  lemma {:induction false} LaterPieces(raw: string)
    ensures var first := SplitComma(raw)[0]; ',' !in first && PieceAt(raw, first, 0, |first|)
    ensures forall e :: e in SplitComma(raw)[1..] <==> PieceFrom(raw, e, 1)
    decreases |raw|
  {
    if raw == "" {
      assert forall e, i: nat, j: nat :: PieceAt(raw, e, i, j) ==> i == 0;
    } else {
      var rest := SplitComma(raw[1..]);
      LaterPieces(raw[1..]);
      if raw[0] == ',' {
        assert SplitComma(raw)[1..] == rest;
        assert rest == [rest[0]] + rest[1..];
        FirstPiece(raw[1..]);
      } else {
        assert SplitComma(raw)[1..] == rest[1..];
        assert raw[..|rest[0]| + 1] == [raw[0]] + raw[1..][..|rest[0]|];
      }
      forall e
        ensures e in SplitComma(raw)[1..] <==> PieceFrom(raw, e, 1)
      {
        PieceShifts(raw, e, 0);
      }
    }
  }

  /** The piece at the start ends at the first comma. */
  lemma FirstPiece(raw: string)
    requires var first := SplitComma(raw)[0]; ',' !in first && PieceAt(raw, first, 0, |first|)
    requires forall e :: e in SplitComma(raw)[1..] <==> PieceFrom(raw, e, 1)
    ensures forall e :: e in SplitComma(raw) <==> PieceFrom(raw, e, 0)
  {
    var parts := SplitComma(raw);
    var first := parts[0];
    assert parts == [first] + parts[1..];
    forall e, j: nat | ',' !in e && PieceAt(raw, e, 0, j)
      ensures e == first
    {
      assert forall k :: 0 <= k < |first| ==> raw[k] == raw[..|first|][k] && first[k] in first;
      assert forall k :: 0 <= k < j ==> raw[k] == raw[..j][k] && e[k] in e;
    }
    forall e
      ensures e in parts <==> PieceFrom(raw, e, 0)
    {
      if i: nat, j: nat :| PieceAt(raw, e, i, j) && ',' !in e {
        if i > 0 { assert PieceFrom(raw, e, 1); }
      }
    }
  }

  /** Splitting at commas gives exactly the pieces between them. */
  lemma SplitMeans(raw: string)
    ensures forall e :: e in SplitComma(raw) <==> Piece(raw, e)
  {
    LaterPieces(raw);
    FirstPiece(raw);
  }

  /** A list names an identity when no piece is blank or "*", and one is the identity, white space aside. */
  ghost predicate Lists(raw: string, identity: string) {
    && (forall e :: Piece(raw, e) ==> WhiteSpace.TrimSpace(e) != "" && WhiteSpace.TrimSpace(e) != "*")
    && exists e :: Piece(raw, e) && WhiteSpace.TrimSpace(e) == identity
  }

  lemma AnnotationMeans(pv: PersistentVolume, key: string, identity: string)
    ensures AnnotationAllows(pv, key, identity) <==> (key in pv.annotations ==> Lists(pv.annotations[key], identity))
  {
    if key in pv.annotations {
      var raw := pv.annotations[key];
      var parts := SplitComma(raw);
      SplitMeans(raw);
      forall i | 0 <= i < |parts|
        ensures Piece(raw, parts[i])
      {
        assert parts[i] in parts;
      }
      forall e | Piece(raw, e)
        ensures exists i :: 0 <= i < |parts| && parts[i] == e
      {
        assert e in parts;
      }
      if raw == "" { BlankList(); }
    }
  }

  lemma BlankList()
    ensures Piece("", "") && WhiteSpace.TrimSpace("") == ""
  {
    assert PieceAt("", "", 0, 0);
  }

  /** The mark of a pod's main container, any case of "true" counting. */
  predicate Marked(env: EnvVar) {
    && env.name == "SANDBOX_MAIN_CONTAINER" && |env.value| == 4
    && env.value[0] in {'t', 'T'} && env.value[1] in {'r', 'R'} && env.value[2] in {'u', 'U'}
    && env.value[3] in {'e', 'E'}
  }

  lemma IsMainMeans(container: Container)
    ensures IsMain(container) <==> exists i :: 0 <= i < |container.env| && Marked(container.env[i])
  {
    forall i | 0 <= i < |container.env|
      ensures MarksMain(container.env[i]) <==> Marked(container.env[i])
    {
      MarkMeans(container.env[i]);
    }
  }

  lemma MarkMeans(env: EnvVar)
    ensures MarksMain(env) <==> Marked(env)
  {
    var t := "true";
    assert EqualFold(env.value, t) ==>
      ToLower(env.value[0]) == ToLower(t[0]) && ToLower(env.value[1]) == ToLower(t[1])
      && ToLower(env.value[2]) == ToLower(t[2]) && ToLower(env.value[3]) == ToLower(t[3]);
  }

  // ----- the facts a call is judged by -----

  /** The first of two attributes, if it is there and not empty; else the second. */
  ghost function Either(attrs: map<string, string>, first: string, second: string): string {
    if first in attrs && attrs[first] != "" then attrs[first] else if second in attrs then attrs[second] else ""
  }

  ghost predicate RequestFits(cfg: Config, request: MountRequest) {
    && request.apiVersion == "kruise-agents-nfs-csi.zhida/v1alpha1"
    && request.driverName == cfg.driverName
    && request.namespace != "" && request.podName != "" && request.podUID != "" && request.pvName != ""
    && Lexical.NulFree(request.targetPath) && Lexical.IsAbs(request.targetPath)
    && TargetPaths.AllowedStack(Lexical.Stack(request.targetPath))
  }

  predicate PodServes(cfg: Config, request: MountRequest, pod: Pod) {
    && pod.metadata.namespace == request.namespace
    && pod.metadata.name == request.podName
    && pod.metadata.uid == request.podUID
    && pod.status.phase != "Succeeded" && pod.status.phase != "Failed"
    && (cfg.nodeName != "" ==> pod.spec.nodeName == cfg.nodeName)
  }

  ghost predicate VolumeServes(cfg: Config, pod: Pod, pv: PersistentVolume) {
    && pv.csi.Some? && pv.csi.value.driver == cfg.driverName
    && ("kary.dev/allow-namespace" in pv.annotations ==>
          Lists(pv.annotations["kary.dev/allow-namespace"], pod.metadata.namespace))
    && ("kary.dev/allow-serviceaccount" in pv.annotations ==>
          Lists(pv.annotations["kary.dev/allow-serviceaccount"], pod.spec.serviceAccountName))
    && Either(pv.csi.value.volumeAttributes, "server", "mountOptions.server") != ""
    && Either(pv.csi.value.volumeAttributes, "share", "mountOptions.share") != ""
    && Lexical.NulFree(SubDir(pv)) && ".." !in Lexical.Split(SubDir(pv))
  }

  /** The PV's subDir without the white space around it. */
  ghost function SubDir(pv: PersistentVolume): string
    requires pv.csi.Some?
  {
    WhiteSpace.TrimSpace(Either(pv.csi.value.volumeAttributes, "subDir", "subdir"))
  }

  /** Nothing is mounted but the share itself. */
  ghost predicate SelectsRoot(request: MountRequest, pv: PersistentVolume)
    requires pv.csi.Some?
  {
    Lexical.Segments(SubDir(pv)) == [] && Lexical.Segments(request.sourceSubPath) == []
  }

  /** The plan for a pod's container, field by field. */
  ghost function WantedPlan(request: MountRequest, pod: Pod, pv: PersistentVolume,
                            status: ContainerStatus): NfsPaths.MountPlan
    requires pv.csi.Some?
  {
    var attrs := pv.csi.value.volumeAttributes;
    var volume := NfsPaths.PersistentVolume(
                    name := pv.name,
                    volumeHandle := pv.csi.value.volumeHandle,
                    server := Either(attrs, "server", "mountOptions.server"),
                    share := Either(attrs, "share", "mountOptions.share"),
                    subDir := Lexical.Join(Lexical.Segments(SubDir(pv))),
                    mountOptions := pv.mountOptions);
    NfsPaths.MountPlan(
      pv := volume,
      podUID := pod.metadata.uid,
      containerName := status.name,
      containerID := status.containerID,
      sourceSubPath := request.sourceSubPath,
      targetPath := request.targetPath)
  }

  /** The request as it is kept: both paths cleaned, and the container named. */
  ghost function Cleaned(request: MountRequest, containerName: string): MountRequest {
    request.(targetPath := "/" + Lexical.Join(Lexical.Stack(request.targetPath)),
             sourceSubPath := Lexical.Join(Lexical.Segments(request.sourceSubPath)),
             containerName := containerName)
  }

  // ----- plans -----

  lemma EitherMeans(attrs: map<string, string>, first: string, second: string)
    ensures Either(attrs, first, second) == FirstNonEmpty(Attribute(attrs, first), Attribute(attrs, second))
  {
  }

  lemma VolumeMeans(cfg: Config, request: MountRequest, pod: Pod, pv: PersistentVolume, status: ContainerStatus)
    ensures PVAllowsPod(cfg.driverName, pod, pv)
            && BuildMountPlan(request.(containerName := status.name), pod, pv, status.containerID).Ok? <==>
            VolumeServes(cfg, pod, pv)
    ensures VolumeServes(cfg, pod, pv) ==>
              BuildMountPlan(request.(containerName := status.name), pod, pv, status.containerID) ==
              Ok(WantedPlan(request, pod, pv, status))
  {
    AnnotationMeans(pv, "kary.dev/allow-namespace", pod.metadata.namespace);
    AnnotationMeans(pv, "kary.dev/allow-serviceaccount", pod.spec.serviceAccountName);
    if pv.csi.Some? {
      var attrs := pv.csi.value.volumeAttributes;
      NfsPaths.NormalizeMeans(FirstNonEmpty(Attribute(attrs, "subDir"), Attribute(attrs, "subdir")));
      EitherMeans(attrs, "subDir", "subdir");
      EitherMeans(attrs, "server", "mountOptions.server");
      EitherMeans(attrs, "share", "mountOptions.share");
    }
  }

  /** When there is a plan for the container a request means, and what it is, from the pod's and the PV's fields. */
  lemma PlanExact(cfg: Config, request: MountRequest, pod: Pod, pv: PersistentVolume, i: nat)
    requires Meant(pod, request.containerName, i)
    ensures var status := pod.status.containerStatuses[i];
            MountPlanForPod(cfg, request, pod, pv) ==
            if VolumeServes(cfg, pod, pv) && status.containerID != ""
            then Ok(Planned(request.(containerName := status.name), WantedPlan(request, pod, pv, status)))
            else Err
  {
    SelectionMeans(pod, request.containerName);
    VolumeMeans(cfg, request, pod, pv, pod.status.containerStatuses[i]);
  }

  lemma NoPlan(cfg: Config, request: MountRequest, pod: Pod, pv: PersistentVolume)
    requires forall i :: !Meant(pod, request.containerName, i)
    ensures MountPlanForPod(cfg, request, pod, pv) == Err
  {
    SelectionMeans(pod, request.containerName);
  }

  // ----- calls -----

  lemma RequestMeans(cfg: Config, raw: MountRequest)
    ensures NormalizeMountRequest(cfg, raw, true) ==
            if RequestFits(cfg, raw) && SourceSubPaths.Accepted(raw.sourceSubPath)
            then Ok(Cleaned(raw, raw.containerName)) else Err
    ensures NormalizeMountRequest(cfg, raw, false) ==
            if RequestFits(cfg, raw) then Ok(Cleaned(raw, raw.containerName).(sourceSubPath := "")) else Err
  {
    TargetPaths.VerdictIsLexical(raw.targetPath);
    SourceSubPaths.ParsersAgree(raw.sourceSubPath);
  }

  lemma PodMeans(cfg: Config, request: MountRequest, raw: MountRequest, pod: Pod)
    requires request.namespace == raw.namespace && request.podName == raw.podName && request.podUID == raw.podUID
    ensures PodIdentity(pod, request) && PodOnNode(pod, cfg.nodeName) <==> PodServes(cfg, raw, pod)
  {
  }

  lemma RootMeans(raw: MountRequest, pod: Pod, pv: PersistentVolume, status: ContainerStatus)
    requires pv.csi.Some? && SourceSubPaths.Accepted(raw.sourceSubPath)
    ensures NfsPaths.IsNFSExportRoot(WantedPlan(Cleaned(raw, status.name), pod, pv, status)) <==> SelectsRoot(raw, pv)
  {
    Lexical.JoinEmpty(Lexical.Segments(SubDir(pv)));
    Lexical.JoinEmpty(Lexical.Segments(raw.sourceSubPath));
  }

  /** The key a call shows is the one configured, if its plan needs one. */
  ghost predicate KeyServes(cfg: Config, raw: MountRequest, pv: PersistentVolume, providedKey: string)
    requires pv.csi.Some?
  {
    SelectsRoot(raw, pv) && cfg.rootKey.Some? ==> cfg.hash(WhiteSpace.TrimSpace(providedKey)) == cfg.rootKey.value
  }

  /**
    Exactly when a mount call is accepted, and exactly what it carries into its
    section: the request with its paths cleaned and its container named, the
    plan, and the key's fingerprint if the plan selects the root and there is one.
  */
  lemma MountCallExact(cfg: Config, raw: MountRequest, providedKey: string, pod: Pod, pv: PersistentVolume, i: nat)
    requires Meant(pod, raw.containerName, i)
    ensures var status := pod.status.containerStatuses[i];
            PrepareMount(cfg, raw, providedKey, pod, pv) ==
            if && RequestFits(cfg, raw) && SourceSubPaths.Accepted(raw.sourceSubPath) && PodServes(cfg, raw, pod)
               && VolumeServes(cfg, pod, pv) && status.containerID != "" && KeyServes(cfg, raw, pv, providedKey)
            then Ok(MountCall(Cleaned(raw, status.name),
                              WantedPlan(Cleaned(raw, status.name), pod, pv, status),
                              if SelectsRoot(raw, pv) && cfg.rootKey.Some? then cfg.rootKey.value else ""))
            else Err
  {
    var status := pod.status.containerStatuses[i];
    var request := Cleaned(raw, raw.containerName);
    RequestMeans(cfg, raw);
    PodMeans(cfg, request, raw, pod);
    PlanExact(cfg, request, pod, pv, i);
    if pv.csi.Some? && SourceSubPaths.Accepted(raw.sourceSubPath) { RootMeans(raw, pod, pv, status); }
  }

  /** A call that means no container is refused. */
  lemma MountNeedsContainer(cfg: Config, raw: MountRequest, providedKey: string, pod: Pod, pv: PersistentVolume)
    requires forall i :: !Meant(pod, raw.containerName, i)
    ensures PrepareMount(cfg, raw, providedKey, pod, pv) == Err
  {
    RequestMeans(cfg, raw);
    NoPlan(cfg, Cleaned(raw, raw.containerName), pod, pv);
  }

  /** Exactly when an unmount call is accepted, and which key, volume and container it is then about. */
  lemma UnmountCallExact(cfg: Config, raw: MountRequest, pod: Pod, i: nat)
    requires Meant(pod, raw.containerName, i)
    ensures var status := pod.status.containerStatuses[i];
            PrepareUnmount(cfg, raw, pod) ==
            if RequestFits(cfg, raw) && PodServes(cfg, raw, pod) && status.containerID != ""
            then Ok(UnmountCall(
                      Key(raw.podUID, status.name, "/" + Lexical.Join(Lexical.Stack(raw.targetPath))),
                      raw.pvName,
                      status.containerID))
            else Err
  {
    RequestMeans(cfg, raw);
    PodMeans(cfg, Cleaned(raw, raw.containerName).(sourceSubPath := ""), raw, pod);
    SelectionMeans(pod, raw.containerName);
  }

  lemma UnmountNeedsContainer(cfg: Config, raw: MountRequest, pod: Pod)
    requires forall i :: !Meant(pod, raw.containerName, i)
    ensures PrepareUnmount(cfg, raw, pod) == Err
  {
    RequestMeans(cfg, raw);
    SelectionMeans(pod, raw.containerName);
  }

  /** An accepted call means a container. */
  lemma MeantBy(cfg: Config, raw: MountRequest, providedKey: string, pod: Pod, pv: PersistentVolume) returns (i: nat)
    requires PrepareMount(cfg, raw, providedKey, pod, pv).Ok?
    ensures Meant(pod, raw.containerName, i)
  {
    if forall i :: !Meant(pod, raw.containerName, i) {
      MountNeedsContainer(cfg, raw, providedKey, pod, pv);
    }
    i :| Meant(pod, raw.containerName, i);
  }

  /**
    What an accepted call mounts: the segments of the PV's share attribute,
    followed by those of its subDir and of the request's sub-path as they were
    given, and never climbing with "..". Its key matters exactly when those add
    nothing: then a call with another key is accepted if and only if that key is
    the configured one or none is configured, and otherwise every key is.
  */
  lemma RootCallsExact(cfg: Config, raw: MountRequest, providedKey: string, pod: Pod, pv: PersistentVolume)
    requires PrepareMount(cfg, raw, providedKey, pod, pv).Ok?
    ensures pv.csi.Some?
    ensures var plan := PrepareMount(cfg, raw, providedKey, pod, pv).value.plan;
            var added := Lexical.Segments(SubDir(pv)) + Lexical.Segments(raw.sourceSubPath);
            && NfsPaths.EffectiveSegments(plan) ==
               Lexical.Segments(Either(pv.csi.value.volumeAttributes, "share", "mountOptions.share")) + added
            && ".." !in added
            && (NfsPaths.IsNFSExportRoot(plan) <==> added == [])
    ensures forall other :: PrepareMount(cfg, raw, other, pod, pv).Ok? <==>
                            (SelectsRoot(raw, pv) && cfg.rootKey.Some? ==>
                               cfg.hash(WhiteSpace.TrimSpace(other)) == cfg.rootKey.value)
  {
    var i := MeantBy(cfg, raw, providedKey, pod, pv);
    MountCallExact(cfg, raw, providedKey, pod, pv, i);
    MountedSegments(raw, pod, pv, pod.status.containerStatuses[i]);
    forall other
      ensures PrepareMount(cfg, raw, other, pod, pv).Ok? <==> KeyServes(cfg, raw, pv, other)
    {
      MountCallExact(cfg, raw, other, pod, pv, i);
    }
  }

  lemma MountedSegments(raw: MountRequest, pod: Pod, pv: PersistentVolume, status: ContainerStatus)
    requires pv.csi.Some? && SourceSubPaths.Accepted(raw.sourceSubPath)
    requires Lexical.NulFree(SubDir(pv)) && ".." !in Lexical.Split(SubDir(pv))
    ensures var plan := WantedPlan(Cleaned(raw, status.name), pod, pv, status);
            var added := Lexical.Segments(SubDir(pv)) + Lexical.Segments(raw.sourceSubPath);
            && NfsPaths.EffectiveSegments(plan) ==
               Lexical.Segments(Either(pv.csi.value.volumeAttributes, "share", "mountOptions.share")) + added
            && ".." !in added
            && (NfsPaths.IsNFSExportRoot(plan) <==> added == [])
  {
    var rawDir := Either(pv.csi.value.volumeAttributes, "subDir", "subdir");
    NfsPaths.NormalizeMeans(rawDir);
    SourceSubPaths.ParsersAgree(raw.sourceSubPath);
    NfsPaths.RootClassificationExact(WantedPlan(Cleaned(raw, status.name), pod, pv, status), rawDir, raw.sourceSubPath);
  }
}
