/** Raw Kubernetes objects as the federated backend hands them over, restricted to the
    paths that the resource view reads. A path that the formatters read without a fallback
    (and that would fault in the original when absent) is a required field here; a path
    read through a fallback is an `Option`. */
module KubeObjects {
  import opened Wrappers

  /** The five resource kinds the resource view knows how to normalise. */
  datatype Kind = Namespaces | Nodes | Pods | PersistentVolumes | PersistentVolumeClaims

  datatype OwnerReference = OwnerReference(kind: string, name: string, uid: string)

  /** The identifying metadata block; the formatters copy it through untouched. */
  datatype Metadata = Metadata(
    name: string,
    namespace: Option<string>,
    labels: map<string, string>,
    ownerReferences: Option<seq<OwnerReference>>)

  // ---- pods ----

  datatype Container = Container(name: string, image: string)

  datatype PodSpec = PodSpec(containers: seq<Container>)

  datatype PodStatus = PodStatus(
    hostIP: Option<string>,
    podIP: Option<string>,
    startTime: Option<string>,
    phase: Option<string>)

  datatype Pod = Pod(metadata: Metadata, spec: PodSpec, status: PodStatus)

  // ---- persistent volumes and their claims ----

  /** `{ storage }`: the `capacity` of a volume and the `requests` of a claim. */
  datatype StorageAmount = StorageAmount(storage: Option<string>)

  /** `{ path }`: both the `local` and the `hostPath` volume sources. */
  datatype VolumeSource = VolumeSource(path: Option<string>)

  datatype ClaimReference = ClaimReference(name: Option<string>, namespace: Option<string>)

  datatype PersistentVolumeSpec = PersistentVolumeSpec(
    accessModes: Option<seq<string>>,
    capacity: Option<StorageAmount>,
    local: Option<VolumeSource>,
    hostPath: Option<VolumeSource>,
    claimRef: Option<ClaimReference>,
    persistentVolumeReclaimPolicy: Option<string>)

  datatype PhaseStatus = PhaseStatus(phase: Option<string>)

  /** `spec` is required: the original reads `spec.local` without a fallback. */
  datatype PersistentVolume = PersistentVolume(
    metadata: Metadata,
    spec: PersistentVolumeSpec,
    status: Option<PhaseStatus>)

  datatype ResourceRequirements = ResourceRequirements(requests: Option<StorageAmount>)

  datatype PersistentVolumeClaimSpec = PersistentVolumeClaimSpec(
    accessModes: Option<seq<string>>,
    volumeName: Option<string>,
    resources: Option<ResourceRequirements>)

  datatype PersistentVolumeClaim = PersistentVolumeClaim(
    metadata: Metadata,
    spec: Option<PersistentVolumeClaimSpec>,
    status: Option<PhaseStatus>)

  // ---- nodes ----

  /** One entry of `status.images`: every alias under which the image is known. */
  datatype ContainerImage = ContainerImage(names: seq<string>)

  datatype NodeSystemInfo = NodeSystemInfo(
    architecture: Option<string>,
    operatingSystem: Option<string>,
    osImage: Option<string>)

  datatype NodeStatus = NodeStatus(
    allocatable: Option<map<string, string>>,
    capacity: Option<map<string, string>>,
    nodeInfo: NodeSystemInfo,
    images: seq<ContainerImage>,
    startTime: Option<string>,
    phase: Option<string>)

  datatype Node = Node(metadata: Metadata, status: NodeStatus)

  // ---- namespaces ----

  datatype Namespace = Namespace(metadata: Metadata, status: PhaseStatus)

  /** One element of a cluster's `items` list. */
  datatype RawItem =
    | NamespaceItem(ns: Namespace)
    | NodeItem(node: Node)
    | PodItem(pod: Pod)
    | PersistentVolumeItem(volume: PersistentVolume)
    | PersistentVolumeClaimItem(claim: PersistentVolumeClaim)
  {
    function KindOf(): Kind {
      match this
      case NamespaceItem(_) => Namespaces
      case NodeItem(_) => Nodes
      case PodItem(_) => Pods
      case PersistentVolumeItem(_) => PersistentVolumes
      case PersistentVolumeClaimItem(_) => PersistentVolumeClaims
    }

    function Meta(): Metadata {
      match this
      case NamespaceItem(n) => n.metadata
      case NodeItem(n) => n.metadata
      case PodItem(p) => p.metadata
      case PersistentVolumeItem(v) => v.metadata
      case PersistentVolumeClaimItem(c) => c.metadata
    }
  }
}
