/** Names, labels and the predicates on them (package `key`). */
module Keys {
  import opened Objects

  const PROJECT := "cluster-apps-operator"

  /** A cluster as the app resource tells clusters apart. */
  datatype Ref = Ref(namespace: string, id: string)

  /** The Giant Swarm label; when it is absent or empty, the upstream one. */
  function ClusterID(labels: Labels): (id: string) {
    var own := if Cluster in labels then labels[Cluster] else "";
    if own != "" then own
    else if CapiCluster in labels then labels[CapiCluster]
    else ""
  }

  function AppOperatorAppName(id: string): string { id + "-app-operator" }

  function ChartOperatorAppName(id: string): string { id + "-chart-operator" }

  function AppOperatorValuesName(id: string): string { id + "-app-operator-values" }

  function ClusterValuesName(id: string): string { id + "-cluster-values" }

  function SystemdProxyName(id: string): string { id + "-systemd-proxy" }

  function KubeConfigSecretName(id: string): string { id + "-kubeconfig" }

  function AppOperatorKey(c: Ref): Key { Key(c.namespace, AppOperatorAppName(c.id)) }

  function ChartOperatorKey(c: Ref): Key { Key(c.namespace, ChartOperatorAppName(c.id)) }

  predicate OperatorKey(c: Ref, k: Key) {
    k == ChartOperatorKey(c) || k == AppOperatorKey(c)
  }

  predicate HasSuffix(s: string, suffix: string) {
    |suffix| <= |s| && s[|s| - |suffix|..] == suffix
  }

  predicate IsBundle(appName: string) {
    HasSuffix(appName, "-bundle")
  }

  /** What makes an App a bundle. */
  lemma BundleMeaning(appName: string)
    ensures IsBundle(appName) <==> exists prefix :: appName == prefix + "-bundle"
  {
    if IsBundle(appName) {
      var prefix := appName[..|appName| - 7];
      assert appName == prefix + "-bundle";
    }
  }

  predicate IsManagedByFlux(app: App) {
    FluxName in app.labels && FluxNamespace in app.labels
  }

  lemma SuffixCancels(a: string, b: string, suffix: string)
    requires a + suffix == b + suffix
    ensures a == b
  {
    assert a == (a + suffix)[..|a|];
    assert b == (b + suffix)[..|b|];
  }

  /** Two App names collide only when they are the same operator of the same cluster. */
  lemma OperatorNamesInjective(a: string, b: string)
    ensures AppOperatorAppName(a) == AppOperatorAppName(b) ==> a == b
    ensures ChartOperatorAppName(a) == ChartOperatorAppName(b) ==> a == b
    ensures AppOperatorAppName(a) != ChartOperatorAppName(b)
  {
    var x, y := AppOperatorAppName(a), ChartOperatorAppName(b);
    assert x[|x| - 10] == 'p';
    assert y[|y| - 10] == 't';
    if AppOperatorAppName(a) == AppOperatorAppName(b) {
      SuffixCancels(a, b, "-app-operator");
    }
    if ChartOperatorAppName(a) == ChartOperatorAppName(b) {
      SuffixCancels(a, b, "-chart-operator");
    }
  }

  /** The operator Apps of different clusters never share a key. */
  lemma OperatorKeysDisjoint(a: Ref, b: Ref, k: Key)
    requires OperatorKey(a, k) && OperatorKey(b, k)
    ensures a == b
  {
    OperatorNamesInjective(a.id, b.id);
    OperatorNamesInjective(b.id, a.id);
  }

  predicate CarriesManagedBy(labels: Labels) {
    ManagedBy in labels && labels[ManagedBy] == PROJECT
  }

  /** Selects the Apps of a cluster that the operator itself manages. */
  function OperatorSelector(id: string): Selector {
    [Equal(Cluster, id), Equal(ManagedBy, PROJECT)]
  }

  /** Selects all its other Apps, those without a managed-by label included. */
  function ClusterAppSelector(id: string): Selector {
    [Equal(Cluster, id), NotEqual(ManagedBy, PROJECT)]
  }

  /** `k` is one of the Apps whose removal the teardown waits for. */
  predicate ClusterApp(c: Ref, s: Store, k: Key) {
    Selected(s, c.namespace, ClusterAppSelector(c.id), k)
  }

  predicate ManagedApp(c: Ref, s: Store, k: Key) {
    Selected(s, c.namespace, OperatorSelector(c.id), k)
  }

  predicate BelongsTo(c: Ref, s: Store, k: Key) {
    k in s && k.namespace == c.namespace && Cluster in s[k].labels && s[k].labels[Cluster] == c.id
  }

  lemma SelectorMeaning(id: string, labels: Labels)
    ensures Matches(OperatorSelector(id), labels) <==>
              && Cluster in labels && labels[Cluster] == id
              && ManagedBy in labels && labels[ManagedBy] == PROJECT
    ensures Matches(ClusterAppSelector(id), labels) <==>
              && Cluster in labels && labels[Cluster] == id
              && !(ManagedBy in labels && labels[ManagedBy] == PROJECT)
  {
    var sel, other := OperatorSelector(id), ClusterAppSelector(id);
    assert Matches(sel, labels) <==> Satisfies(labels, sel[0]) && Satisfies(labels, sel[1]);
    assert Matches(other, labels) <==> Satisfies(labels, other[0]) && Satisfies(labels, other[1]);
  }

  /** The two selectors split the Apps that carry the cluster label, in every store. */
  lemma SelectorPartition(c: Ref, s: Store)
    ensures var managed := SelectedKeys(s, c.namespace, OperatorSelector(c.id));
            var others := SelectedKeys(s, c.namespace, ClusterAppSelector(c.id));
            && managed !! others
            && managed + others == set k | k in s && BelongsTo(c, s, k)
  {
    forall k | k in s
      ensures BelongsTo(c, s, k) <==> ManagedApp(c, s, k) || ClusterApp(c, s, k)
      ensures !(ManagedApp(c, s, k) && ClusterApp(c, s, k))
    {
      SelectorMeaning(c.id, s[k].labels);
    }
  }
}
