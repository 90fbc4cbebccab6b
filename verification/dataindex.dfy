/** The index of declared data resources. */
module DataResources {
  import opened GoStrings
  import opened Types

  datatype DataRef = DataRef(kind: string, namespace: string, name: string)

  datatype DataResourcesSpec = DataResourcesSpec(
    databases: seq<DataRef>,
    persistentStorage: seq<DataRef>,
    objectStorage: seq<string>)

  /** A Go map[string]bool that only ever holds `true` is the set of its keys. */
  datatype DataIndex = DataIndex(
    namespacesWithData: set<string>,
    dataResourceKeys: set<string>,
    objectStorageNames: set<string>)
  {
    predicate HasDataInNamespace(namespace: string) { namespace in namespacesWithData }

    predicate IsDataResource(kind: string, namespace: string, name: string) {
      JoinKey(kind, namespace, name) in dataResourceKeys
    }
  }

  function JoinKey(kind: string, namespace: string, name: string): string {
    kind + "/" + namespace + "/" + name
  }

  ghost predicate Declares(dr: Option<DataResourcesSpec>, r: DataRef) {
    dr.Some? && (r in dr.value.databases || r in dr.value.persistentStorage)
  }

  /** `idx` holds exactly what `dr` declares. */
  ghost predicate IndexOf(idx: DataIndex, dr: Option<DataResourcesSpec>) {
    && (forall n :: n in idx.namespacesWithData <==> exists r :: Declares(dr, r) && r.namespace == n)
    && (forall k :: k in idx.dataResourceKeys <==>
          exists r :: Declares(dr, r) && JoinKey(r.kind, r.namespace, r.name) == k)
    && (forall b :: b in idx.objectStorageNames <==> dr.Some? && b in dr.value.objectStorage)
  }

  method BuildDataIndex(dr: Option<DataResourcesSpec>) returns (idx: DataIndex)
    ensures IndexOf(idx, dr)
  {
    if dr == None {
      return DataIndex({}, {}, {});
    }
    var namespaces, keys := AddRefs({}, {}, dr.value.databases);
    namespaces, keys := AddRefs(namespaces, keys, dr.value.persistentStorage);
    var buckets := {};
    for i := 0 to |dr.value.objectStorage|
      invariant forall b :: b in buckets <==> b in dr.value.objectStorage[..i]
    {
      buckets := buckets + {dr.value.objectStorage[i]};
    }
    idx := DataIndex(namespaces, keys, buckets);
    assert forall r :: Declares(dr, r) <==> r in dr.value.databases || r in dr.value.persistentStorage;
  }

  method AddRefs(namespaces: set<string>, keys: set<string>, refs: seq<DataRef>)
    returns (namespaces': set<string>, keys': set<string>)
    ensures forall n :: n in namespaces' <==> n in namespaces || exists r :: r in refs && r.namespace == n
    ensures forall k :: k in keys' <==>
              k in keys || exists r :: r in refs && JoinKey(r.kind, r.namespace, r.name) == k
  {
    namespaces', keys' := namespaces, keys;
    for i := 0 to |refs|
      invariant forall n :: n in namespaces' <==>
                  n in namespaces || exists r :: r in refs[..i] && r.namespace == n
      invariant forall k :: k in keys' <==>
                  k in keys || exists r :: r in refs[..i] && JoinKey(r.kind, r.namespace, r.name) == k
    {
      assert refs[..i + 1] == refs[..i] + [refs[i]];
      namespaces' := namespaces' + {refs[i].namespace};
      keys' := keys' + {JoinKey(refs[i].kind, refs[i].namespace, refs[i].name)};
    }
    assert refs[..|refs|] == refs;
  }

  /** The joined key determines its parts when the last two hold no slash; the kind may hold some. */
  lemma JoinKeyInjective(a: DataRef, b: DataRef)
    requires '/' !in a.namespace && '/' !in a.name && '/' !in b.namespace && '/' !in b.name
    requires JoinKey(a.kind, a.namespace, a.name) == JoinKey(b.kind, b.namespace, b.name)
    ensures a == b
  {
    LastSlash(a.kind + "/" + a.namespace, a.name);
    LastSlash(b.kind + "/" + b.namespace, b.name);
    LastSlash(a.kind, a.namespace);
    LastSlash(b.kind, b.namespace);
  }

  lemma LastSlash(head: string, tail: string)
    requires '/' !in tail
    ensures LastIndexRune(head + "/" + tail, '/') == |head|
    ensures (head + "/" + tail)[..|head|] == head
    ensures (head + "/" + tail)[|head| + 1..] == tail
  {
    var s := head + "/" + tail;
    assert s[|head| + 1..] == tail;
    LastIndexRuneIs(s, '/', |head|);
  }

  /** Without that condition two different resources share a key. */
  lemma JoinKeyCollides()
    ensures JoinKey("Cluster", "a/b", "c") == JoinKey("Cluster/a", "b", "c")
  {
    assert JoinKey("Cluster", "a/b", "c") == "Cluster/a/b/c";
    assert JoinKey("Cluster/a", "b", "c") == "Cluster/a/b/c";
  }

  ghost predicate SlashFree(dr: Option<DataResourcesSpec>) {
    forall r :: Declares(dr, r) ==> '/' !in r.namespace && '/' !in r.name
  }

  /** The constant-time lookups answer what a scan of the declared resources would. */
  lemma LookupIsScan(idx: DataIndex, dr: Option<DataResourcesSpec>, kind: string, namespace: string, name: string)
    requires IndexOf(idx, dr) && SlashFree(dr)
    requires '/' !in namespace && '/' !in name
    ensures idx.IsDataResource(kind, namespace, name) <==> Declares(dr, DataRef(kind, namespace, name))
    ensures idx.HasDataInNamespace(namespace) <==> exists r :: Declares(dr, r) && r.namespace == namespace
  {
    var wanted := DataRef(kind, namespace, name);
    if idx.IsDataResource(kind, namespace, name) {
      var r :| Declares(dr, r) && JoinKey(r.kind, r.namespace, r.name) == JoinKey(kind, namespace, name);
      JoinKeyInjective(r, wanted);
    }
    if Declares(dr, wanted) {
      assert JoinKey(wanted.kind, wanted.namespace, wanted.name) in idx.dataResourceKeys;
    }
  }
}
