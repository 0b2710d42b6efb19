# Resource view normalisation, modelled in Dafny

This project models the resource-view layer of the console API
(`src/v2/models/resourceview.js`). Given a resource kind (`namespaces`, `nodes`, `pods`,
`persistentvolumes` or `persistentvolumeclaims`), the layer asks a federated backend for
that kind across all registered clusters. The backend answers with an envelope whose
`status.results` maps each cluster name to `{ items }`. The layer then flattens the answer
into one sequence of records. Each record is tagged with its cluster and shaped by a
per-kind transform that puts fixed fallbacks in place of absent paths.

Modules:

- `Wrappers` (`wrappers.dfy`): `Option`, the present/absent value of a path.
- `KubeObjects` (`kube_objects.dfy`): the raw Kubernetes objects, reduced to the paths the
  transforms read. A path that the original dereferences further is a required field, and
  so are the blocks copied whole (`metadata`, a pod's `spec.containers`). A path read
  through a `_.get` fallback, or copied when it may be absent, is an `Option`. `RawItem` is
  one element of an `items` list, and `Kind` lists the five kinds.
- `Formatters` (`formatters.dfy`): the five transforms `formatPod`, `formatPVs`,
  `formatPVsClaims`, `formatNode` and `formatNamespace`, and `Transform`, which
  dispatches on the kind. It also holds the loop that gathers a node's image aliases
  (`CollectImageNames`) and the function that specifies that loop (`Flattened`).
- `ResourceViewModel` (`resource_view.dfy`): `selectNamespace`, the `transforms` table, the
  envelope, and the class `ResourceView`. `TransformOf` turns a table entry into the function
  value the original looks up. The specification `Collect` concatenates the per-cluster
  mapped lists for any such function. The method `Accumulate` is the loop of the original
  and is proved equal to `Collect`. The constructor selects the namespace, and
  `FetchResources` queries, looks the transform up and runs `Accumulate`.
- `LodashGet` (`lodash_get.dfy`): an independent reference for the fallbacks. The raw
  volume and claim objects are encoded as JSON trees, and `_.get(object, path, fallback)`
  is defined over those trees. Each defaulted field of the volume and claim transforms is
  proved equal to the `_.get` the original writes for it.

The backend call becomes a parameter. `FetchResources` takes the query as a total function
of the kind and the namespace, applies it to `(kind, resourceViewNamespace)`, and works on
the response.

An unregistered kind is not rejected up front. The code queries first and looks the
transform up afterwards. For a name that is not a key of the transforms table, the
transform is `undefined`, and calling it on an item faults. `FetchResources` accepts such
a name exactly when the envelope holds no items, and then returns the empty sequence.
Names inherited from `Object.prototype` behave differently in the original; see
"## Left out".

## Model

| member | source | states |
|---|---|---|
| `ResourceViewModel.FirstIndexOf` | src/v2/models/resourceview.js:15 | the search finds an index exactly when the target occurs; the index holds the target and no earlier position does |
| `ResourceViewModel.SelectNamespace` | src/v2/models/resourceview.js:14-16 | `"default"` whenever it occurs in the list, otherwise the first element; none exactly when the list is empty; the result is always one of the offered namespaces |
| `ResourceViewModel.TransformsTable` | src/v2/models/resourceview.js:82-88 | the table and `KindName` are inverse: each of the five kinds is registered under exactly one identifier, and each identifier names one kind |
| `ResourceViewModel.Results` | src/v2/models/resourceview.js:93 | `status.results` when present; no clusters when `status` or `status.results` is absent |
| `ResourceViewModel.TransformOfApplies` | src/v2/models/resourceview.js:95 | the registry's transform for a kind is defined on every item of an envelope whose items are all of that kind |
| `ResourceViewModel.FormatAll` | src/v2/models/resourceview.js:97-98 | a cluster's list maps to as many descriptors as it has items, and position `t` is the transform applied to the cluster's name and item `t` |
| `ResourceViewModel.Collect` | src/v2/models/resourceview.js:96-101 | the flattened output has exactly as many descriptors as there are items over all clusters |
| `ResourceViewModel.TotalItemsAppend` | src/v2/models/resourceview.js:96-101 | the item count of two envelopes laid end to end is the sum of their counts |
| `ResourceViewModel.CollectAppend` | src/v2/models/resourceview.js:96-101 | flattening distributes over concatenation of envelopes: the output is cluster-major, a concatenation of the per-cluster lists |
| `ResourceViewModel.CollectAt` | src/v2/models/resourceview.js:96-101 | item `t` of cluster `j` appears at position (items of clusters before `j`) + `t`, as the transform of cluster `j`'s name and that item: cluster-major, then item order |
| `ResourceViewModel.CollectTagsClusters` | src/v2/models/resourceview.js:96-101 | with a registered transform, every descriptor carries the key of a cluster of the envelope, and its metadata is that of an item of that same cluster |
| `ResourceViewModel.NoItemsAnywhere` | src/v2/models/resourceview.js:95-98 | a zero item count means every cluster's list is empty, so an unregistered kind never reaches a transform call |
| `ResourceViewModel.Accumulate` | src/v2/models/resourceview.js:96-101 | the nested loop over clusters and items yields exactly `Collect` of the envelope for a present transform, and the empty sequence for an absent one on an item-free envelope |
| `ResourceViewModel.ResourceView.constructor` | src/v2/models/resourceview.js:78-89 | the stored namespace is the selected one; the transform table is the fixed five-entry table |
| `ResourceViewModel.ResourceView.FetchResources` | src/v2/models/resourceview.js:91-102 | queries with the kind and the selected namespace; for a registered kind the output equals `Collect` of the response's envelope under that kind's transform; for an unregistered kind with an item-free envelope it is empty; its length is the total item count |
| `Formatters.FormatPod` | src/v2/models/resourceview.js:18-27 | the cluster is the given name; metadata is copied through; `owners` is the metadata's owner references |
| `Formatters.FormatPVs` | src/v2/models/resourceview.js:29-44 | the cluster is the given name and metadata is copied through; the type is `LocalVolume` exactly when `spec.local` is present, else `Hostpath`; the same test picks the local or the host path for `claim`; with neither present, `claim` is `-` |
| `Formatters.BareVolumeDefaults` | src/v2/models/resourceview.js:29-44 | a volume whose optional paths are all absent normalises to `['-']`, `-`, `-`, a null claim reference, `-`, `-`, `Hostpath` |
| `Formatters.FormatPVsClaims` | src/v2/models/resourceview.js:46-53 | the cluster is the given name and metadata is copied through; with no spec the access modes are `['-']` and the volume name and request are `-`; with no status the status is `-` |
| `Formatters.FlattenedAppend` | src/v2/models/resourceview.js:61-64 | flattening image entries distributes over concatenation of the entry lists |
| `Formatters.FlattenedLength` | src/v2/models/resourceview.js:61-64 | the flattened alias list is as long as the sum of the entries' alias counts |
| `Formatters.FlattenedMembers` | src/v2/models/resourceview.js:61-64 | an alias is in the flattened list exactly when it is in some entry's `names` |
| `Formatters.TwoImageEntries` | src/v2/models/resourceview.js:61-64 | entries `['a','b']` and `['c']` flatten to `['a','b','c']` |
| `Formatters.CollectImageNames` | src/v2/models/resourceview.js:61-64 | the accumulating loop yields every entry's `names`, concatenated in order |
| `Formatters.FormatNode` | src/v2/models/resourceview.js:55-69 | the cluster is the given name and metadata is copied through; `images` is as long as the entries' alias counts add up to |
| `Formatters.NodeImages` | src/v2/models/resourceview.js:61-64 | an alias is in a node's `images` exactly when some image entry lists it |
| `Formatters.FormatNamespace` | src/v2/models/resourceview.js:71-75 | the cluster is the given name, metadata is copied through, and the status is the phase |
| `Formatters.Transform` | src/v2/models/resourceview.js:82-88 | the transform registered for a kind tags the descriptor with the given cluster, copies the item's metadata and yields a descriptor of that kind |
| `LodashGet.GetConcat` | src/v2/models/resourceview.js:30-31 | resolving a path in two parts resolves the second part from where the first ended, which is how the dotted paths of `_.get` are walked |
| `LodashGet.VolumeAccessModesAgree` | src/v2/models/resourceview.js:30 | a volume's access modes are `_.get(pvs, 'spec.accessModes', ['-'])` |
| `LodashGet.VolumeCapacityAgrees` | src/v2/models/resourceview.js:31 | a volume's capacity is `_.get(pvs, 'spec.capacity.storage', '-')` |
| `LodashGet.VolumeTypeAgreesWithLodash` | src/v2/models/resourceview.js:32-34 | the type is `LocalVolume` exactly when `spec.local` is truthy, and the claim is `spec.local.path` in that case and `spec.hostPath.path` otherwise, each with fallback `-` |
| `LodashGet.VolumeClaimRefNameAgrees` | src/v2/models/resourceview.js:36 | the claim reference's name is `_.get(pvs, 'spec.claimRef.name', null)` |
| `LodashGet.VolumeClaimRefNamespaceAgrees` | src/v2/models/resourceview.js:37 | the claim reference's namespace is `_.get(pvs, 'spec.claimRef.namespace', null)` |
| `LodashGet.VolumePolicyAndStatusAgree` | src/v2/models/resourceview.js:41-42 | reclaim policy and status are `_.get` of `spec.persistentVolumeReclaimPolicy` and `status.phase` with fallback `-` |
| `LodashGet.ClaimAccessModesAgree` | src/v2/models/resourceview.js:47 | a claim's access modes are `_.get(claim, 'spec.accessModes', ['-'])` |
| `LodashGet.ClaimVolumeNameAgrees` | src/v2/models/resourceview.js:50 | a claim's bound volume is `_.get(claim, 'spec.volumeName', '-')` |
| `LodashGet.ClaimRequestsAgree` | src/v2/models/resourceview.js:51 | a claim's request is `_.get(claim, 'spec.resources.requests.storage', '-')` |
| `LodashGet.ClaimStatusAgrees` | src/v2/models/resourceview.js:52 | a claim's status is `_.get(claim, 'status.phase', '-')` |

## Left out

- The backend query `kubeConnector.resourceViewQuery` (src/v2/models/resourceview.js:92) is asynchronous network I/O. It becomes the `query` parameter. Its failures, which the original propagates unchanged, are not modelled.
- The `KubeModel` superclass and `isRequired` (src/v2/models/resourceview.js:11-12, 79, 91) are not part of this model. The namespace list is passed to the constructor directly. A missing `type` cannot occur, because `kindName` is a required parameter.
- Faults of the original are excluded by preconditions and by typing. The paths the original dereferences further are required fields: `pod.metadata`, `pod.spec`, `pod.status`, `node.status`, `node.status.nodeInfo`, `node.status.images` and each image entry's `names`, `pvs.spec`, `namespace.status`. The members of `nodeInfo` stay optional.
- Copied blocks that may be absent in the original pass through there as `undefined`. The model makes them required instead: the `metadata` of volumes, claims, nodes and namespaces, and a pod's `spec.containers`.
- `Dispatchable` admits only items of the requested kind, and an unregistered kind only with an item-free envelope. Some mismatches do not fault in the original: `formatNamespace` applied to a pod item yields its cluster, metadata and `status.phase`. Such mixed envelopes are not modelled.
- Kind names inherited from `Object.prototype` are treated as unregistered. In the original, `this.transforms[type]` (src/v2/models/resourceview.js:95) looks the name up on a plain object, so such names resolve to inherited functions. `"toString"` yields `"[object Undefined]"` for each item, `"constructor"` yields `Object(clusterName)`, and `"isPrototypeOf"` yields `false`. So a non-empty envelope gives a non-empty list of such values, with no fault. The model excludes these calls by precondition unless the envelope is item-free, and then returns `[]` as the original does.
- JavaScript `null` versus `undefined`: each path is present or absent. The one `null` the original writes (the claim reference fallback) is the `None` of `ClaimRefView`. An explicit `null` stored in a raw object is not modelled.
- Truthiness of `spec.local`: in the typed model a present `local` is an object, hence truthy. A falsy non-object value at that path is not modelled.
- `Object.keys` order: the envelope is a sequence of `(cluster name, items)` pairs, and its order is taken as the key order. JavaScript lists integer-like keys first, in numeric order, and that reordering is not modelled. Keys of a JavaScript object are distinct. The sequence does not enforce this, and the loop walks the pairs rather than looking each key up again.
- `_.get` paths are given as sequences of keys, not as dotted strings split at run time.
- Formatters.FormatPod: its contract states only the cluster tag, the copied metadata and the owners. The remaining fields are passed through unchanged and are not restated.
- src/v2/schema/helmrels.test.js and src/v2/schema/pod.test.js are snapshot tests of the query endpoint and hold no logic of this layer.
