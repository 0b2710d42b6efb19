/** The five per-kind transforms of the resource view: each projects a raw Kubernetes
    object and the name of the cluster it came from into a flat record. */
module Formatters {
  import opened Wrappers
  import opened KubeObjects

  /** The fallback for an absent string path, and for each element of an absent list. */
  const Dash := "-"
  const LocalVolume := "LocalVolume"
  const Hostpath := "Hostpath"

  datatype PodView = PodView(
    cluster: string,
    containers: seq<Container>,
    hostIP: Option<string>,
    metadata: Metadata,
    owners: Option<seq<OwnerReference>>,
    podIP: Option<string>,
    startedAt: Option<string>,
    status: Option<string>)

  /** `None` stands for the `null` the original writes when a claim reference is absent. */
  datatype ClaimRefView = ClaimRefView(name: Option<string>, namespace: Option<string>)

  /** `volumeType` is the field the original calls `type`. */
  datatype PersistentVolumeView = PersistentVolumeView(
    accessModes: seq<string>,
    capacity: string,
    claim: string,
    claimRef: ClaimRefView,
    cluster: string,
    metadata: Metadata,
    reclaimPolicy: string,
    status: string,
    volumeType: string)

  datatype PersistentVolumeClaimView = PersistentVolumeClaimView(
    accessModes: seq<string>,
    cluster: string,
    metadata: Metadata,
    persistentVolume: string,
    requests: string,
    status: string)

  datatype NodeView = NodeView(
    allocatable: Option<map<string, string>>,
    architecture: Option<string>,
    capacity: Option<map<string, string>>,
    cluster: string,
    metadata: Metadata,
    images: seq<string>,
    operatingSystem: Option<string>,
    osImage: Option<string>,
    startedAt: Option<string>,
    status: Option<string>)

  datatype NamespaceView = NamespaceView(cluster: string, metadata: Metadata, status: Option<string>)

  /** A resource descriptor: the normalised record of one resource of any kind. */
  datatype Descriptor =
    | NamespaceDescriptor(namespaceView: NamespaceView)
    | NodeDescriptor(nodeView: NodeView)
    | PodDescriptor(podView: PodView)
    | PersistentVolumeDescriptor(volumeView: PersistentVolumeView)
    | PersistentVolumeClaimDescriptor(claimView: PersistentVolumeClaimView)
  {
    function Cluster(): string {
      match this
      case NamespaceDescriptor(v) => v.cluster
      case NodeDescriptor(v) => v.cluster
      case PodDescriptor(v) => v.cluster
      case PersistentVolumeDescriptor(v) => v.cluster
      case PersistentVolumeClaimDescriptor(v) => v.cluster
    }

    function Meta(): Metadata {
      match this
      case NamespaceDescriptor(v) => v.metadata
      case NodeDescriptor(v) => v.metadata
      case PodDescriptor(v) => v.metadata
      case PersistentVolumeDescriptor(v) => v.metadata
      case PersistentVolumeClaimDescriptor(v) => v.metadata
    }

    function KindOf(): Kind {
      match this
      case NamespaceDescriptor(_) => Namespaces
      case NodeDescriptor(_) => Nodes
      case PodDescriptor(_) => Pods
      case PersistentVolumeDescriptor(_) => PersistentVolumes
      case PersistentVolumeClaimDescriptor(_) => PersistentVolumeClaims
    }
  }

  function FormatPod(clusterName: string, pod: Pod): (r: PodView)
    ensures r.cluster == clusterName && r.metadata == pod.metadata
    ensures r.owners == pod.metadata.ownerReferences
  {
    PodView(
      clusterName,
      pod.spec.containers,
      pod.status.hostIP,
      pod.metadata,
      pod.metadata.ownerReferences,
      pod.status.podIP,
      pod.status.startTime,
      pod.status.phase)
  }

  /** The path of the volume source the volume's type designates. */
  function ClaimPath(spec: PersistentVolumeSpec): string {
    if spec.local.Some? then spec.local.value.path.GetOr(Dash)
    else if spec.hostPath.Some? then spec.hostPath.value.path.GetOr(Dash)
    else Dash
  }

  function FormatPVs(clusterName: string, pvs: PersistentVolume): (r: PersistentVolumeView)
    ensures r.cluster == clusterName && r.metadata == pvs.metadata
    ensures r.volumeType == LocalVolume || r.volumeType == Hostpath
    ensures r.volumeType == LocalVolume <==> pvs.spec.local.Some?
    // one test decides both the type and the source of the claim path
    ensures r.volumeType == LocalVolume ==> r.claim == pvs.spec.local.value.path.GetOr(Dash)
    ensures r.volumeType == Hostpath && pvs.spec.hostPath.Some? ==>
              r.claim == pvs.spec.hostPath.value.path.GetOr(Dash)
    ensures pvs.spec.local.None? && pvs.spec.hostPath.None? ==> r.claim == Dash
  {
    var spec := pvs.spec;
    PersistentVolumeView(
      spec.accessModes.GetOr([Dash]),
      if spec.capacity.Some? then spec.capacity.value.storage.GetOr(Dash) else Dash,
      ClaimPath(spec),
      ClaimRefView(
        if spec.claimRef.Some? then spec.claimRef.value.name else None,
        if spec.claimRef.Some? then spec.claimRef.value.namespace else None),
      clusterName,
      pvs.metadata,
      spec.persistentVolumeReclaimPolicy.GetOr(Dash),
      if pvs.status.Some? then pvs.status.value.phase.GetOr(Dash) else Dash,
      if spec.local.Some? then LocalVolume else Hostpath)
  }

  function FormatPVsClaims(clusterName: string, claim: PersistentVolumeClaim): (r: PersistentVolumeClaimView)
    ensures r.cluster == clusterName && r.metadata == claim.metadata
    ensures claim.spec.None? ==> r.accessModes == [Dash] && r.persistentVolume == Dash && r.requests == Dash
    ensures claim.status.None? ==> r.status == Dash
  {
    var spec := claim.spec;
    PersistentVolumeClaimView(
      if spec.Some? then spec.value.accessModes.GetOr([Dash]) else [Dash],
      clusterName,
      claim.metadata,
      if spec.Some? then spec.value.volumeName.GetOr(Dash) else Dash,
      if spec.Some? && spec.value.resources.Some? && spec.value.resources.value.requests.Some?
      then spec.value.resources.value.requests.value.storage.GetOr(Dash)
      else Dash,
      if claim.status.Some? then claim.status.value.phase.GetOr(Dash) else Dash)
  }

  /** Every alias of every image, image by image, each image's aliases in their own order. */
  function Flattened(images: seq<ContainerImage>): seq<string> {
    if images == [] then [] else images[0].names + Flattened(images[1..])
  }

  /** The number of aliases over all image entries. */
  function NameCount(images: seq<ContainerImage>): nat {
    if images == [] then 0 else |images[0].names| + NameCount(images[1..])
  }

  lemma {:induction false} FlattenedAppend(a: seq<ContainerImage>, b: seq<ContainerImage>)
    ensures Flattened(a + b) == Flattened(a) + Flattened(b)
  {
    if a == [] {
      assert a + b == b;
    } else {
      assert (a + b)[1..] == a[1..] + b;
      FlattenedAppend(a[1..], b);
    }
  }

  lemma {:induction false} FlattenedLength(images: seq<ContainerImage>)
    ensures |Flattened(images)| == NameCount(images)
  {
    if images != [] {
      FlattenedLength(images[1..]);
    }
  }

  lemma {:induction false} FlattenedMembers(images: seq<ContainerImage>, x: string)
    ensures x in Flattened(images) <==> exists i :: 0 <= i < |images| && x in images[i].names
  {
    if images != [] {
      FlattenedMembers(images[1..], x);
      if x in Flattened(images[1..]) {
        var i :| 0 <= i < |images[1..]| && x in images[1..][i].names;
        assert x in images[i + 1].names;
      }
      if exists i :: 0 <= i < |images| && x in images[i].names {
        var i :| 0 <= i < |images| && x in images[i].names;
        if i > 0 {
          assert x in images[1..][i - 1].names;
        }
      }
    }
  }

  /** The accumulating loop that gathers a node's image aliases. */
  method CollectImageNames(images: seq<ContainerImage>) returns (imageNames: seq<string>)
    ensures imageNames == Flattened(images)
  {
    imageNames := [];
    var i := 0;
    while i < |images|
      invariant 0 <= i <= |images|
      invariant imageNames == Flattened(images[..i])
    {
      assert images[..i + 1] == images[..i] + [images[i]];
      FlattenedAppend(images[..i], [images[i]]);
      assert Flattened([images[i]]) == images[i].names + Flattened([]);
      imageNames := imageNames + images[i].names;
      i := i + 1;
    }
    assert images[..i] == images;
  }

  function FormatNode(clusterName: string, node: Node): (r: NodeView)
    ensures r.cluster == clusterName && r.metadata == node.metadata
    ensures |r.images| == NameCount(node.status.images)
  {
    FlattenedLength(node.status.images);
    NodeView(
      node.status.allocatable,
      node.status.nodeInfo.architecture,
      node.status.capacity,
      clusterName,
      node.metadata,
      Flattened(node.status.images),
      node.status.nodeInfo.operatingSystem,
      node.status.nodeInfo.osImage,
      node.status.startTime,
      node.status.phase)
  }

  /** A node's `images` holds exactly the aliases of its image entries. */
  lemma NodeImages(clusterName: string, node: Node, x: string)
    ensures x in FormatNode(clusterName, node).images <==>
              exists i :: 0 <= i < |node.status.images| && x in node.status.images[i].names
  {
    FlattenedMembers(node.status.images, x);
  }

  function FormatNamespace(clusterName: string, namespace: Namespace): (r: NamespaceView)
    ensures r.cluster == clusterName && r.metadata == namespace.metadata
    ensures r.status == namespace.status.phase
  {
    NamespaceView(clusterName, namespace.metadata, namespace.status.phase)
  }

  /** The transform registered for kind `k`, applied to an item of that kind. */
  function Transform(k: Kind, clusterName: string, item: RawItem): (r: Descriptor)
    requires item.KindOf() == k
    ensures r.Cluster() == clusterName
    ensures r.Meta() == item.Meta()
    ensures r.KindOf() == k
  {
    match k
    case Namespaces => NamespaceDescriptor(FormatNamespace(clusterName, item.ns))
    case Nodes => NodeDescriptor(FormatNode(clusterName, item.node))
    case Pods => PodDescriptor(FormatPod(clusterName, item.pod))
    case PersistentVolumes => PersistentVolumeDescriptor(FormatPVs(clusterName, item.volume))
    case PersistentVolumeClaims => PersistentVolumeClaimDescriptor(FormatPVsClaims(clusterName, item.claim))
  }

  /** A volume whose optional paths are all absent normalises to the documented defaults. */
  lemma BareVolumeDefaults(clusterName: string, pvs: PersistentVolume)
    requires pvs.spec.accessModes.None? && pvs.spec.capacity.None?
    requires pvs.spec.local.None? && pvs.spec.hostPath.None? && pvs.spec.claimRef.None?
    requires pvs.spec.persistentVolumeReclaimPolicy.None? && pvs.status.None?
    ensures FormatPVs(clusterName, pvs) ==
      PersistentVolumeView([Dash], Dash, Dash, ClaimRefView(None, None), clusterName,
                           pvs.metadata, Dash, Dash, Hostpath)
  {
  }

  /** Two image entries `a, b` and `c` give the alias list `a, b, c`. */
  lemma TwoImageEntries()
    ensures Flattened([ContainerImage(["a", "b"]), ContainerImage(["c"])]) == ["a", "b", "c"]
  {
  }
}
