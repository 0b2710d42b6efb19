/** An independent reference for the defaulting of the volume and claim transforms: raw
    objects as JSON trees, and lodash's `_.get(object, path, fallback)` over them, which
    yields the fallback exactly when the path does not resolve. */
module LodashGet {
  import opened Wrappers
  import opened KubeObjects
  import opened Formatters

  datatype Json = Null | Str(s: string) | Arr(elems: seq<Json>) | Obj(fields: map<string, Json>)

  /** The value at `path`, or `None` (undefined) when some step of it is missing. */
  function Get(j: Json, path: seq<string>): Option<Json>
    decreases |path|
  {
    if path == [] then Some(j)
    else match j
      case Obj(fields) => if path[0] in fields then Get(fields[path[0]], path[1..]) else None
      case _ => None
  }

  /** `_.get(j, path, fallback)`. */
  function GetOr(j: Json, path: seq<string>, fallback: Json): Json {
    Get(j, path).GetOr(fallback)
  }

  /** JavaScript truthiness of a possibly undefined value (no booleans or numbers occur here). */
  predicate Truthy(v: Option<Json>) {
    match v
    case None => false
    case Some(Null) => false
    case Some(Str(s)) => s != ""
    case Some(_) => true
  }

  /** Resolving a path in two parts resolves the second part from where the first ended. */
  lemma {:induction false} GetConcat(j: Json, p: seq<string>, q: seq<string>)
    ensures Get(j, p + q) == match Get(j, p) case Some(v) => Get(v, q) case None => None
    decreases |p|
  {
    if p == [] {
      assert p + q == q;
    } else {
      assert (p + q)[0] == p[0] && (p + q)[1..] == p[1..] + q;
      if j.Obj? && p[0] in j.fields {
        GetConcat(j.fields[p[0]], p[1..], q);
      }
    }
  }

  // ---- encodings of the raw objects ----

  function Strings(ss: seq<string>): (r: Json)
    ensures r.Arr? && |r.elems| == |ss| && forall i :: 0 <= i < |ss| ==> r.elems[i] == Str(ss[i])
  {
    Arr(seq(|ss|, i requires 0 <= i < |ss| => Str(ss[i])))
  }

  /** A string that may be absent, with `None` written as `null` (the claim reference view). */
  function NullableString(o: Option<string>): Json {
    match o
    case Some(s) => Str(s)
    case None => Null
  }

  /** `fields` with `key` added when the value is present; an absent value is no key at all. */
  function With(fields: map<string, Json>, key: string, value: Option<Json>): map<string, Json> {
    match value
    case Some(v) => fields[key := v]
    case None => fields
  }

  function StringField(o: Option<string>): Option<Json> {
    match o
    case Some(s) => Some(Str(s))
    case None => None
  }

  function OwnerReferenceJson(o: OwnerReference): Json {
    Obj(map["kind" := Str(o.kind), "name" := Str(o.name), "uid" := Str(o.uid)])
  }

  function MetadataJson(m: Metadata): Json {
    var labels := Obj(map key | key in m.labels :: Str(m.labels[key]));
    var owners := match m.ownerReferences
      case Some(os) => Some(Arr(seq(|os|, i requires 0 <= i < |os| => OwnerReferenceJson(os[i]))))
      case None => None;
    Obj(With(With(map["name" := Str(m.name), "labels" := labels], "namespace", StringField(m.namespace)),
             "ownerReferences", owners))
  }

  function StorageJson(o: Option<StorageAmount>): Option<Json> {
    match o
    case Some(a) => Some(Obj(With(map[], "storage", StringField(a.storage))))
    case None => None
  }

  function VolumeSourceJson(o: Option<VolumeSource>): Option<Json> {
    match o
    case Some(v) => Some(Obj(With(map[], "path", StringField(v.path))))
    case None => None
  }

  function PhaseJson(o: Option<PhaseStatus>): Option<Json> {
    match o
    case Some(p) => Some(Obj(With(map[], "phase", StringField(p.phase))))
    case None => None
  }

  function ClaimReferenceJson(o: Option<ClaimReference>): Option<Json> {
    match o
    case Some(c) => Some(Obj(With(With(map[], "name", StringField(c.name)), "namespace", StringField(c.namespace))))
    case None => None
  }

  function AccessModesJson(o: Option<seq<string>>): Option<Json> {
    match o
    case Some(modes) => Some(Strings(modes))
    case None => None
  }

  function VolumeSpecJson(spec: PersistentVolumeSpec): Json {
    var f0: map<string, Json> := map[];
    var f1 := With(f0, "accessModes", AccessModesJson(spec.accessModes));
    var f2 := With(f1, "capacity", StorageJson(spec.capacity));
    var f3 := With(f2, "local", VolumeSourceJson(spec.local));
    var f4 := With(f3, "hostPath", VolumeSourceJson(spec.hostPath));
    var f5 := With(f4, "claimRef", ClaimReferenceJson(spec.claimRef));
    Obj(With(f5, "persistentVolumeReclaimPolicy", StringField(spec.persistentVolumeReclaimPolicy)))
  }

  function VolumeJson(pvs: PersistentVolume): Json {
    Obj(With(map["metadata" := MetadataJson(pvs.metadata), "spec" := VolumeSpecJson(pvs.spec)],
             "status", PhaseJson(pvs.status)))
  }

  function ClaimSpecJson(o: Option<PersistentVolumeClaimSpec>): Option<Json> {
    match o
    case Some(spec) =>
      var resources := match spec.resources
        case Some(r) => Some(Obj(With(map[], "requests", StorageJson(r.requests))))
        case None => None;
      var f1 := With(map[], "accessModes", AccessModesJson(spec.accessModes));
      var f2 := With(f1, "volumeName", StringField(spec.volumeName));
      Some(Obj(With(f2, "resources", resources)))
    case None => None
  }

  function ClaimJson(claim: PersistentVolumeClaim): Json {
    Obj(With(With(map["metadata" := MetadataJson(claim.metadata)], "spec", ClaimSpecJson(claim.spec)),
             "status", PhaseJson(claim.status)))
  }

  // ---- resolving fixed paths one key at a time ----

  /** One step of a path: the member `key` of an object. */
  function Member(v: Option<Json>, key: string): Option<Json> {
    match v
    case Some(Obj(fields)) => if key in fields then Some(fields[key]) else None
    case _ => None
  }

  lemma GetOne(j: Json, a: string)
    ensures Get(j, [a]) == Member(Some(j), a)
  {
    assert [a][1..] == [];
  }

  lemma GetTwo(j: Json, a: string, b: string)
    ensures Get(j, [a, b]) == Member(Member(Some(j), a), b)
  {
    assert [a, b] == [a] + [b];
    GetConcat(j, [a], [b]);
    GetOne(j, a);
    if Get(j, [a]).Some? { GetOne(Get(j, [a]).value, b); }
  }

  lemma GetThree(j: Json, a: string, b: string, c: string)
    ensures Get(j, [a, b, c]) == Member(Member(Member(Some(j), a), b), c)
  {
    assert [a, b, c] == [a, b] + [c];
    GetConcat(j, [a, b], [c]);
    GetTwo(j, a, b);
    if Get(j, [a, b]).Some? { GetOne(Get(j, [a, b]).value, c); }
  }

  lemma GetFour(j: Json, a: string, b: string, c: string, d: string)
    ensures Get(j, [a, b, c, d]) == Member(Member(Member(Member(Some(j), a), b), c), d)
  {
    assert [a, b, c, d] == [a, b, c] + [d];
    GetConcat(j, [a, b, c], [d]);
    GetThree(j, a, b, c);
    if Get(j, [a, b, c]).Some? { GetOne(Get(j, [a, b, c]).value, d); }
  }

  /** Adding a key leaves every other key as it was. */
  lemma WithOther(fields: map<string, Json>, key: string, value: Option<Json>, other: string)
    requires other != key
    ensures Member(Some(Obj(With(fields, key, value))), other) == Member(Some(Obj(fields)), other)
  {
  }

  /** The added key holds the added value; an absent value adds no key. */
  lemma WithSame(fields: map<string, Json>, key: string, value: Option<Json>)
    requires key !in fields
    ensures Member(Some(Obj(With(fields, key, value))), key) == value
  {
  }

  lemma VolumeMembers(pvs: PersistentVolume)
    ensures Member(Some(VolumeJson(pvs)), "spec") == Some(VolumeSpecJson(pvs.spec))
    ensures Member(Some(VolumeJson(pvs)), "status") == PhaseJson(pvs.status)
  {
  }

  lemma VolumeSpecMembers(spec: PersistentVolumeSpec)
    ensures var j := Some(VolumeSpecJson(spec));
      && Member(j, "accessModes") == AccessModesJson(spec.accessModes)
      && Member(j, "capacity") == StorageJson(spec.capacity)
      && Member(j, "local") == VolumeSourceJson(spec.local)
      && Member(j, "hostPath") == VolumeSourceJson(spec.hostPath)
      && Member(j, "claimRef") == ClaimReferenceJson(spec.claimRef)
      && Member(j, "persistentVolumeReclaimPolicy") == StringField(spec.persistentVolumeReclaimPolicy)
  {
    var f0: map<string, Json> := map[];
    var f1 := With(f0, "accessModes", AccessModesJson(spec.accessModes));
    var f2 := With(f1, "capacity", StorageJson(spec.capacity));
    var f3 := With(f2, "local", VolumeSourceJson(spec.local));
    var f4 := With(f3, "hostPath", VolumeSourceJson(spec.hostPath));
    var f5 := With(f4, "claimRef", ClaimReferenceJson(spec.claimRef));
    var f6 := With(f5, "persistentVolumeReclaimPolicy", StringField(spec.persistentVolumeReclaimPolicy));
    assert VolumeSpecJson(spec) == Obj(f6);
    WithOther(f5, "persistentVolumeReclaimPolicy", StringField(spec.persistentVolumeReclaimPolicy), "claimRef");
    WithOther(f5, "persistentVolumeReclaimPolicy", StringField(spec.persistentVolumeReclaimPolicy), "hostPath");
    WithOther(f4, "claimRef", ClaimReferenceJson(spec.claimRef), "hostPath");
    WithOther(f5, "persistentVolumeReclaimPolicy", StringField(spec.persistentVolumeReclaimPolicy), "local");
    WithOther(f4, "claimRef", ClaimReferenceJson(spec.claimRef), "local");
    WithOther(f3, "hostPath", VolumeSourceJson(spec.hostPath), "local");
    WithOther(f5, "persistentVolumeReclaimPolicy", StringField(spec.persistentVolumeReclaimPolicy), "capacity");
    WithOther(f4, "claimRef", ClaimReferenceJson(spec.claimRef), "capacity");
    WithOther(f3, "hostPath", VolumeSourceJson(spec.hostPath), "capacity");
    WithOther(f2, "local", VolumeSourceJson(spec.local), "capacity");
    WithOther(f5, "persistentVolumeReclaimPolicy", StringField(spec.persistentVolumeReclaimPolicy), "accessModes");
    WithOther(f4, "claimRef", ClaimReferenceJson(spec.claimRef), "accessModes");
    WithOther(f3, "hostPath", VolumeSourceJson(spec.hostPath), "accessModes");
    WithOther(f2, "local", VolumeSourceJson(spec.local), "accessModes");
    WithOther(f1, "capacity", StorageJson(spec.capacity), "accessModes");
    WithSame(f0, "accessModes", AccessModesJson(spec.accessModes));
    WithSame(f1, "capacity", StorageJson(spec.capacity));
    WithSame(f2, "local", VolumeSourceJson(spec.local));
    WithSame(f3, "hostPath", VolumeSourceJson(spec.hostPath));
    WithSame(f4, "claimRef", ClaimReferenceJson(spec.claimRef));
    WithSame(f5, "persistentVolumeReclaimPolicy", StringField(spec.persistentVolumeReclaimPolicy));
  }

  lemma ClaimMembers(claim: PersistentVolumeClaim)
    ensures Member(Some(ClaimJson(claim)), "spec") == ClaimSpecJson(claim.spec)
    ensures Member(Some(ClaimJson(claim)), "status") == PhaseJson(claim.status)
  {
  }

  lemma ClaimSpecMembers(o: Option<PersistentVolumeClaimSpec>)
    requires o.Some?
    ensures var j := ClaimSpecJson(o); var spec := o.value;
      && Member(j, "accessModes") == AccessModesJson(spec.accessModes)
      && Member(j, "volumeName") == StringField(spec.volumeName)
      && Member(j, "resources") ==
           (match spec.resources
            case Some(r) => Some(Obj(With(map[], "requests", StorageJson(r.requests))))
            case None => None)
  {
  }

  // ---- the typed transforms agree with `_.get` on the encoded objects ----

  lemma VolumeAccessModesAgree(clusterName: string, pvs: PersistentVolume)
    ensures Strings(FormatPVs(clusterName, pvs).accessModes)
         == GetOr(VolumeJson(pvs), ["spec", "accessModes"], Strings([Dash]))
  {
    VolumeMembers(pvs);
    VolumeSpecMembers(pvs.spec);
    GetTwo(VolumeJson(pvs), "spec", "accessModes");
  }

  lemma VolumeCapacityAgrees(clusterName: string, pvs: PersistentVolume)
    ensures Str(FormatPVs(clusterName, pvs).capacity)
         == GetOr(VolumeJson(pvs), ["spec", "capacity", "storage"], Str(Dash))
  {
    VolumeMembers(pvs);
    VolumeSpecMembers(pvs.spec);
    GetThree(VolumeJson(pvs), "spec", "capacity", "storage");
  }

  lemma VolumeClaimRefNameAgrees(clusterName: string, pvs: PersistentVolume)
    ensures NullableString(FormatPVs(clusterName, pvs).claimRef.name)
         == GetOr(VolumeJson(pvs), ["spec", "claimRef", "name"], Null)
  {
    VolumeMembers(pvs);
    VolumeSpecMembers(pvs.spec);
    GetThree(VolumeJson(pvs), "spec", "claimRef", "name");
  }

  lemma VolumeClaimRefNamespaceAgrees(clusterName: string, pvs: PersistentVolume)
    ensures NullableString(FormatPVs(clusterName, pvs).claimRef.namespace)
         == GetOr(VolumeJson(pvs), ["spec", "claimRef", "namespace"], Null)
  {
    VolumeMembers(pvs);
    VolumeSpecMembers(pvs.spec);
    GetThree(VolumeJson(pvs), "spec", "claimRef", "namespace");
  }

  lemma VolumePolicyAndStatusAgree(clusterName: string, pvs: PersistentVolume)
    ensures Str(FormatPVs(clusterName, pvs).reclaimPolicy)
         == GetOr(VolumeJson(pvs), ["spec", "persistentVolumeReclaimPolicy"], Str(Dash))
    ensures Str(FormatPVs(clusterName, pvs).status)
         == GetOr(VolumeJson(pvs), ["status", "phase"], Str(Dash))
  {
    VolumeMembers(pvs);
    VolumeSpecMembers(pvs.spec);
    GetTwo(VolumeJson(pvs), "spec", "persistentVolumeReclaimPolicy");
    GetTwo(VolumeJson(pvs), "status", "phase");
  }

  lemma VolumeTypeAgreesWithLodash(clusterName: string, pvs: PersistentVolume)
    ensures var r := FormatPVs(clusterName, pvs); var j := VolumeJson(pvs);
      && (r.volumeType == LocalVolume <==> Truthy(Get(j, ["spec", "local"])))
      && Str(r.claim) == (if Truthy(Get(j, ["spec", "local"]))
                          then GetOr(j, ["spec", "local", "path"], Str(Dash))
                          else GetOr(j, ["spec", "hostPath", "path"], Str(Dash)))
  {
    var j := VolumeJson(pvs);
    VolumeMembers(pvs);
    VolumeSpecMembers(pvs.spec);
    GetTwo(j, "spec", "local");
    GetThree(j, "spec", "local", "path");
    GetThree(j, "spec", "hostPath", "path");
  }

  lemma ClaimAccessModesAgree(clusterName: string, claim: PersistentVolumeClaim)
    ensures Strings(FormatPVsClaims(clusterName, claim).accessModes)
         == GetOr(ClaimJson(claim), ["spec", "accessModes"], Strings([Dash]))
  {
    ClaimMembers(claim);
    if claim.spec.Some? { ClaimSpecMembers(claim.spec); }
    GetTwo(ClaimJson(claim), "spec", "accessModes");
  }

  lemma ClaimVolumeNameAgrees(clusterName: string, claim: PersistentVolumeClaim)
    ensures Str(FormatPVsClaims(clusterName, claim).persistentVolume)
         == GetOr(ClaimJson(claim), ["spec", "volumeName"], Str(Dash))
  {
    ClaimMembers(claim);
    if claim.spec.Some? { ClaimSpecMembers(claim.spec); }
    GetTwo(ClaimJson(claim), "spec", "volumeName");
  }

  lemma ClaimRequestsAgree(clusterName: string, claim: PersistentVolumeClaim)
    ensures Str(FormatPVsClaims(clusterName, claim).requests)
         == GetOr(ClaimJson(claim), ["spec", "resources", "requests", "storage"], Str(Dash))
  {
    var j := ClaimJson(claim);
    ClaimMembers(claim);
    GetFour(j, "spec", "resources", "requests", "storage");
    var spec := Member(Some(j), "spec");
    if claim.spec.Some? {
      ClaimSpecMembers(claim.spec);
      var resources := Member(spec, "resources");
      if claim.spec.value.resources.Some? {
        var requests := claim.spec.value.resources.value.requests;
        assert Member(resources, "requests") == StorageJson(requests);
        if requests.Some? {
          assert Member(StorageJson(requests), "storage") == StringField(requests.value.storage);
        }
      }
    }
  }

  lemma ClaimStatusAgrees(clusterName: string, claim: PersistentVolumeClaim)
    ensures Str(FormatPVsClaims(clusterName, claim).status)
         == GetOr(ClaimJson(claim), ["status", "phase"], Str(Dash))
  {
    ClaimMembers(claim);
    GetTwo(ClaimJson(claim), "status", "phase");
  }
}
