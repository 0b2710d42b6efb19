/** The resource view: picks the namespace it queries, dispatches on the requested kind,
    and flattens the backend's cluster-keyed result envelope into one sequence of
    descriptors tagged with their cluster. */
module ResourceViewModel {
  import opened Wrappers
  import opened KubeObjects
  import opened Formatters

  const DefaultNamespace := "default"

  /** The position of the first occurrence of `target` (the search behind `Array.find`). */
  function FirstIndexOf(namespaces: seq<string>, target: string): (r: Option<nat>)
    ensures r.Some? <==> target in namespaces
    ensures r.Some? ==> r.value < |namespaces| && namespaces[r.value] == target
    ensures r.Some? ==> target !in namespaces[..r.value]
  {
    if namespaces == [] then None
    else if namespaces[0] == target then Some(0)
    else match FirstIndexOf(namespaces[1..], target)
      case Some(i) => (assert namespaces[..i + 1] == [namespaces[0]] + namespaces[1..][..i]; Some(i + 1))
      case None => None
  }

  /** `"default"` when it is offered, otherwise the first namespace; none for an empty list. */
  function SelectNamespace(namespaces: seq<string>): (r: Option<string>)
    ensures DefaultNamespace in namespaces ==> r == Some(DefaultNamespace)
    ensures DefaultNamespace !in namespaces && namespaces != [] ==> r == Some(namespaces[0])
    ensures namespaces == [] <==> r.None?
    ensures r.Some? ==> r.value in namespaces
  {
    match FirstIndexOf(namespaces, DefaultNamespace)
    case Some(i) => Some(namespaces[i])
    case None => if namespaces == [] then None else Some(namespaces[0])
  }

  /** The registry from the kind identifier a caller passes to the transform for that kind. */
  const Transforms: map<string, Kind> := map[
    "namespaces" := Namespaces,
    "nodes" := Nodes,
    "pods" := Pods,
    "persistentvolumes" := PersistentVolumes,
    "persistentvolumeclaims" := PersistentVolumeClaims]

  /** The identifier under which a kind is registered. */
  function KindName(k: Kind): string {
    match k
    case Namespaces => "namespaces"
    case Nodes => "nodes"
    case Pods => "pods"
    case PersistentVolumes => "persistentvolumes"
    case PersistentVolumeClaims => "persistentvolumeclaims"
  }

  /** Every kind is registered under exactly one identifier, and every identifier of the
      registry names one kind: the registry and `KindName` are inverse to each other. */
  lemma TransformsTable()
    ensures forall k: Kind :: KindName(k) in Transforms && Transforms[KindName(k)] == k
    ensures forall name :: name in Transforms ==> KindName(Transforms[name]) == name
    ensures forall a, b :: a in Transforms && b in Transforms && Transforms[a] == Transforms[b] ==> a == b
  {
    forall name | name in Transforms ensures KindName(Transforms[name]) == name {
      assert name in {"namespaces", "nodes", "pods", "persistentvolumes", "persistentvolumeclaims"};
    }
  }

  // ---- the transform as the function value the registry hands out ----

  /** A transform: defined on the cluster name and the items it knows how to format. */
  type Transformer = (string, RawItem) --> Descriptor

  /** The entry of the registry for kind `k`, applicable to items of that kind. */
  function TransformOf(k: Kind): Transformer {
    (clusterName: string, item: RawItem) requires item.KindOf() == k => Transform(k, clusterName, item)
  }

  // ---- the result envelope ----

  /** One key of `status.results` with its `items` list. */
  datatype ClusterResult = ClusterResult(clusterName: string, items: seq<RawItem>)

  datatype QueryStatus = QueryStatus(results: Option<seq<ClusterResult>>)

  /** The backend's response; the sequence order of `results` is the order of its keys. */
  datatype Response = Response(status: Option<QueryStatus>)

  /** `status.results`, or no clusters at all when that path is absent. */
  function Results(response: Response): (r: seq<ClusterResult>)
    ensures response.status.None? ==> r == []
    ensures response.status.Some? && response.status.value.results.None? ==> r == []
    ensures response.status.Some? && response.status.value.results.Some? ==>
              r == response.status.value.results.value
  {
    match response.status
    case None => []
    case Some(s) => s.results.GetOr([])
  }

  /** The number of items over all clusters. */
  function TotalItems(results: seq<ClusterResult>): nat {
    if results == [] then 0 else |results[0].items| + TotalItems(results[1..])
  }

  ghost predicate AllOfKind(k: Kind, results: seq<ClusterResult>) {
    forall j, t :: 0 <= j < |results| && 0 <= t < |results[j].items| ==> results[j].items[t].KindOf() == k
  }

  /** What a call needs in order not to fault: a registered kind whose items are all of that
      kind, or an unregistered kind with nothing to transform. */
  ghost predicate Dispatchable(table: map<string, Kind>, kindName: string, results: seq<ClusterResult>) {
    if kindName in table then AllOfKind(table[kindName], results)
    else TotalItems(results) == 0
  }

  /** `transform` can be applied to every item of one cluster. */
  ghost predicate Applicable(transform: Transformer, clusterName: string, items: seq<RawItem>) {
    forall t :: 0 <= t < |items| ==> transform.requires(clusterName, items[t])
  }

  /** `transform` can be applied to every item of every cluster. */
  ghost predicate ApplicableAll(transform: Transformer, results: seq<ClusterResult>) {
    forall j :: 0 <= j < |results| ==> Applicable(transform, results[j].clusterName, results[j].items)
  }

  /** One cluster's items, each transformed together with the cluster's name. */
  function FormatAll(transform: Transformer, clusterName: string, items: seq<RawItem>): (r: seq<Descriptor>)
    requires Applicable(transform, clusterName, items)
    ensures |r| == |items|
    ensures forall t :: 0 <= t < |items| ==> r[t] == transform(clusterName, items[t])
  {
    if items == [] then [] else [transform(clusterName, items[0])] + FormatAll(transform, clusterName, items[1..])
  }

  /** The per-cluster lists, cluster by cluster, concatenated. */
  function Collect(transform: Transformer, results: seq<ClusterResult>): (r: seq<Descriptor>)
    requires ApplicableAll(transform, results)
    ensures |r| == TotalItems(results)
  {
    if results == [] then []
    else FormatAll(transform, results[0].clusterName, results[0].items) + Collect(transform, results[1..])
  }

  /** The registry's transform for `k` applies to an envelope whose items are all of kind `k`. */
  lemma TransformOfApplies(k: Kind, results: seq<ClusterResult>)
    requires AllOfKind(k, results)
    ensures ApplicableAll(TransformOf(k), results)
  {
  }

  lemma {:induction false} TotalItemsAppend(a: seq<ClusterResult>, b: seq<ClusterResult>)
    ensures TotalItems(a + b) == TotalItems(a) + TotalItems(b)
  {
    if a == [] {
      assert a + b == b;
    } else {
      assert (a + b)[1..] == a[1..] + b;
      TotalItemsAppend(a[1..], b);
    }
  }

  lemma ApplicableAppend(transform: Transformer, a: seq<ClusterResult>, b: seq<ClusterResult>)
    requires ApplicableAll(transform, a) && ApplicableAll(transform, b)
    ensures ApplicableAll(transform, a + b)
  {
    forall j | 0 <= j < |a + b| ensures Applicable(transform, (a + b)[j].clusterName, (a + b)[j].items) {
      if j >= |a| {
        assert (a + b)[j] == b[j - |a|];
      }
    }
  }

  lemma {:induction false} CollectAppend(transform: Transformer, a: seq<ClusterResult>, b: seq<ClusterResult>)
    requires ApplicableAll(transform, a) && ApplicableAll(transform, b)
    ensures ApplicableAll(transform, a + b)
    ensures Collect(transform, a + b) == Collect(transform, a) + Collect(transform, b)
  {
    ApplicableAppend(transform, a, b);
    if a == [] {
      assert a + b == b;
    } else {
      var head := FormatAll(transform, a[0].clusterName, a[0].items);
      assert (a + b)[0] == a[0];
      assert (a + b)[1..] == a[1..] + b;
      CollectAppend(transform, a[1..], b);
      calc {
        Collect(transform, a + b);
        head + Collect(transform, a[1..] + b);
        head + (Collect(transform, a[1..]) + Collect(transform, b));
        (head + Collect(transform, a[1..])) + Collect(transform, b);
      }
    }
  }

  /** Item `t` of cluster `j` lands right after the items of clusters `0 .. j-1`. */
  lemma {:induction false} CollectAt(transform: Transformer, results: seq<ClusterResult>, j: nat, t: nat)
    requires ApplicableAll(transform, results)
    requires j < |results| && t < |results[j].items|
    ensures TotalItems(results[..j]) + t < |Collect(transform, results)|
    ensures transform.requires(results[j].clusterName, results[j].items[t])
    ensures Collect(transform, results)[TotalItems(results[..j]) + t] ==
            transform(results[j].clusterName, results[j].items[t])
  {
    var pre, post := results[..j], results[j..];
    assert results == pre + post;
    CollectAppend(transform, pre, post);
    var head := FormatAll(transform, results[j].clusterName, results[j].items);
    assert post[0] == results[j];
    assert Collect(transform, post) == head + Collect(transform, post[1..]);
    assert Collect(transform, results) == Collect(transform, pre) + (head + Collect(transform, post[1..]));
  }

  /** Every descriptor of the registry's transform carries the name of a cluster of the
      envelope, and its metadata is that of an item of that very cluster. */
  lemma {:induction false} CollectTagsClusters(k: Kind, results: seq<ClusterResult>, i: nat)
    requires AllOfKind(k, results)
    requires i < TotalItems(results)
    ensures ApplicableAll(TransformOf(k), results)
    ensures exists j, t :: 0 <= j < |results| && 0 <= t < |results[j].items|
              && Collect(TransformOf(k), results)[i].Cluster() == results[j].clusterName
              && Collect(TransformOf(k), results)[i].Meta() == results[j].items[t].Meta()
  {
    var transform := TransformOf(k);
    TransformOfApplies(k, results);
    var head := FormatAll(transform, results[0].clusterName, results[0].items);
    if i < |head| {
      assert Collect(transform, results)[i] == head[i] == Transform(k, results[0].clusterName, results[0].items[i]);
      assert 0 <= 0 < |results| && 0 <= i < |results[0].items|;
    } else {
      CollectTagsClusters(k, results[1..], i - |head|);
      var j, t :| 0 <= j < |results[1..]| && 0 <= t < |results[1..][j].items|
              && Collect(transform, results[1..])[i - |head|].Cluster() == results[1..][j].clusterName
              && Collect(transform, results[1..])[i - |head|].Meta() == results[1..][j].items[t].Meta();
      assert results[1..][j] == results[j + 1];
    }
  }

  /** Transforming one more item of a cluster appends one descriptor. */
  lemma FormatAllSnoc(transform: Transformer, clusterName: string, items: seq<RawItem>, t: nat)
    requires Applicable(transform, clusterName, items) && t < |items|
    ensures Applicable(transform, clusterName, items[..t]) && Applicable(transform, clusterName, items[..t + 1])
    ensures FormatAll(transform, clusterName, items[..t + 1])
         == FormatAll(transform, clusterName, items[..t]) + [transform(clusterName, items[t])]
  {
    var longer := FormatAll(transform, clusterName, items[..t + 1]);
    var shorter := FormatAll(transform, clusterName, items[..t]) + [transform(clusterName, items[t])];
    forall u | 0 <= u < |longer| ensures longer[u] == shorter[u] {
      if u < t {
        assert items[..t + 1][u] == items[..t][u];
      }
    }
  }

  /** Taking in one more cluster appends that cluster's mapped list. */
  lemma CollectSnoc(transform: Transformer, results: seq<ClusterResult>, i: nat)
    requires ApplicableAll(transform, results) && i < |results|
    ensures ApplicableAll(transform, results[..i]) && ApplicableAll(transform, results[..i + 1])
    ensures Collect(transform, results[..i + 1])
         == Collect(transform, results[..i]) + FormatAll(transform, results[i].clusterName, results[i].items)
  {
    var one := [results[i]];
    assert Collect(transform, one)
        == FormatAll(transform, results[i].clusterName, results[i].items) + Collect(transform, []);
    assert results[..i + 1] == results[..i] + one;
    CollectAppend(transform, results[..i], one);
  }

  /** A zero item count means that every cluster's list is empty. */
  lemma {:induction false} NoItemsAnywhere(results: seq<ClusterResult>)
    requires TotalItems(results) == 0
    ensures forall j :: 0 <= j < |results| ==> results[j].items == []
  {
    if results != [] {
      NoItemsAnywhere(results[1..]);
      forall j | 0 < j < |results| ensures results[j].items == [] {
        assert results[j] == results[1..][j - 1];
      }
    }
  }

  /** The accumulation over clusters and their items: every item, transformed together with
      its cluster's name, is appended in cluster-then-item order. An absent transform is
      never applied, because there is then nothing to apply it to. */
  method Accumulate(transform: Option<Transformer>, results: seq<ClusterResult>) returns (accum: seq<Descriptor>)
    requires transform.Some? ==> ApplicableAll(transform.value, results)
    requires transform.None? ==> TotalItems(results) == 0
    ensures transform.Some? ==> accum == Collect(transform.value, results)
    ensures transform.None? ==> accum == []
  {
    if transform.None? {
      NoItemsAnywhere(results);
    }
    accum := [];
    var i := 0;
    while i < |results|
      invariant 0 <= i <= |results|
      invariant transform.Some? ==> ApplicableAll(transform.value, results[..i])
      invariant transform.Some? ==> accum == Collect(transform.value, results[..i])
      invariant transform.None? ==> accum == []
    {
      var clusterName := results[i].clusterName;
      var resourceList := results[i].items;
      var t := 0;
      while t < |resourceList|
        invariant 0 <= t <= |resourceList|
        invariant transform.Some? ==> Applicable(transform.value, clusterName, resourceList[..t])
        invariant transform.Some? ==>
                    accum == Collect(transform.value, results[..i]) + FormatAll(transform.value, clusterName, resourceList[..t])
        invariant transform.None? ==> accum == []
      {
        var apply := transform.value;
        FormatAllSnoc(apply, clusterName, resourceList, t);
        accum := accum + [apply(clusterName, resourceList[t])];
        t := t + 1;
      }
      if transform.Some? {
        CollectSnoc(transform.value, results, i);
        assert resourceList[..t] == resourceList;
      }
      i := i + 1;
    }
    assert results[..i] == results;
  }

  class ResourceView {
    const resourceViewNamespace: Option<string>
    const transforms: map<string, Kind> := Transforms

    constructor (namespaces: seq<string>)
      ensures resourceViewNamespace == SelectNamespace(namespaces)
    {
      resourceViewNamespace := SelectNamespace(namespaces);
    }

    /** Queries the backend once with the kind and the selected namespace, looks the kind's
        transform up, and accumulates the transformed items of every cluster. */
    method FetchResources(kindName: string, query: (string, Option<string>) -> Response)
      returns (accum: seq<Descriptor>)
      requires Dispatchable(transforms, kindName, Results(query(kindName, resourceViewNamespace)))
      ensures |accum| == TotalItems(Results(query(kindName, resourceViewNamespace)))
      ensures kindName in transforms ==>
                ApplicableAll(TransformOf(transforms[kindName]), Results(query(kindName, resourceViewNamespace))) &&
                accum == Collect(TransformOf(transforms[kindName]), Results(query(kindName, resourceViewNamespace)))
      ensures kindName !in transforms ==> accum == []
    {
      var response := query(kindName, resourceViewNamespace);
      var results := Results(response);
      var transform: Option<Transformer> :=
        if kindName in transforms then Some(TransformOf(transforms[kindName])) else None;
      if transform.Some? {
        TransformOfApplies(transforms[kindName], results);
      }
      accum := Accumulate(transform, results);
    }
  }
}
