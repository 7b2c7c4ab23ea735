/** The parts of the Kubernetes API objects that the wrapper reads (internal/kube/types.go). */
module Kube {
  import opened Results

  datatype OwnerReference = OwnerReference(apiVersion: string, kind: string, name: string, uid: string)

  datatype ObjectMeta = ObjectMeta(
    name: string,
    namespace: string,
    uid: string,
    labels: map<string, string>,
    annotations: map<string, string>,
    ownerReferences: seq<OwnerReference>)

  datatype EnvVar = EnvVar(name: string, value: string)

  datatype Container = Container(name: string, env: seq<EnvVar>)

  datatype Volume = Volume(name: string, claimName: Option<string>, readOnly: bool)

  datatype PodSpec = PodSpec(
    serviceAccountName: string,
    nodeName: string,
    volumes: seq<Volume>,
    containers: seq<Container>)

  datatype ContainerStatus = ContainerStatus(name: string, containerID: string, ready: bool)

  datatype PodStatus = PodStatus(phase: string, containerStatuses: seq<ContainerStatus>)

  datatype Pod = Pod(metadata: ObjectMeta, spec: PodSpec, status: PodStatus)

  datatype CSISource = CSISource(driver: string, volumeHandle: string, volumeAttributes: map<string, string>)

  datatype PersistentVolume = PersistentVolume(
    name: string,
    annotations: map<string, string>,
    csi: Option<CSISource>,
    mountOptions: seq<string>)

  /** Kubernetes gives every container a name. */
  predicate ContainersNamed(pod: Pod) {
    forall i :: 0 <= i < |pod.status.containerStatuses| ==> pod.status.containerStatuses[i].name != ""
  }
}
