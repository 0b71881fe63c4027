/** The gauge of Apps that hold up the deletion of a cluster (`collector/cluster.go`). */
module Collector {
  import opened Objects
  import opened Api
  import opened ApiServers
  import opened Keys
  import opened Clusters
  import opened Protocol
  import opened Wrappers

  datatype Metric = Metric(clusterID: string, danglingApps: nat)

  predicate HasFinalizer(finalizers: seq<Finalizer>) {
    OperatorFinalizer in finalizers
  }

  /** The gauge asks for the Apps of the cluster's name, not of its cluster ID. */
  function Gauge(cl: Cluster, s: Store): nat {
    |SelectedKeys(s, cl.namespace, ClusterAppSelector(cl.name))|
  }

  function TeardownCount(cl: Cluster, s: Store): nat {
    |SelectedKeys(s, RefOf(cl).namespace, ClusterAppSelector(RefOf(cl).id))|
  }

  /** The listing on which the gauge of a cluster is based. */
  ghost predicate Asked(cl: Cluster, call: Event) {
    && Serves(call)
    && call.request == List(cl.namespace, [Equal(Label.Cluster, cl.name), NotEqual(ManagedBy, "cluster-apps-operator")])
  }

  /** The Apps that the gauge of a cluster counts. */
  function Dangling(cl: Cluster, s: Store): set<Key> {
    set k | k in s && k.namespace == cl.namespace
      && Label.Cluster in s[k].labels && s[k].labels[Label.Cluster] == cl.name
      && !(ManagedBy in s[k].labels && s[k].labels[ManagedBy] == "cluster-apps-operator")
  }

  ghost predicate Counted(cl: Cluster, call: Event, metric: Metric) {
    Asked(cl, call) && !call.answer.Failed? && metric == Metric(cl.name, |Dangling(cl, call.pre)|)
  }

  lemma GaugeCountsDangling(cl: Cluster, s: Store)
    ensures Gauge(cl, s) == |Dangling(cl, s)|
  {
    var keys := SelectedKeys(s, cl.namespace, ClusterAppSelector(cl.name));
    forall k | k in s ensures k in keys <==> k in Dangling(cl, s) {
      SelectorMeaning(cl.name, s[k].labels);
    }
    assert keys == Dangling(cl, s);
  }

  /** `at` are the positions, in order, of the clusters among the first `n` that are being deleted and have
      the finalizer of the operator. */
  ghost predicate Positions(clusters: seq<Cluster>, n: nat, at: seq<nat>)
    requires n <= |clusters|
  {
    && (forall i, j :: 0 <= i < j < |at| ==> at[i] < at[j])
    && (forall j :: 0 <= j < |at| ==>
          at[j] < n && clusters[at[j]].deleted && OperatorFinalizer in clusters[at[j]].finalizers)
    && (forall i :: 0 <= i < n && clusters[i].deleted && OperatorFinalizer in clusters[i].finalizers ==> i in at)
  }

  /** One listing and one metric for each cluster in `at`, in order, each metric the number of Apps that
      were there to list. */
  ghost predicate Measured(clusters: seq<Cluster>, at: seq<nat>, calls: seq<Event>, metrics: seq<Metric>) {
    && |metrics| == |at| && |metrics| <= |calls|
    && (forall j :: 0 <= j < |at| ==> at[j] < |clusters|)
    && (forall j {:trigger metrics[j]} :: 0 <= j < |metrics| ==> Counted(clusters[at[j]], calls[j], metrics[j]))
  }

  /** There is a position for each of them. */
  lemma PositionsCount(clusters: seq<Cluster>, n: nat, at: seq<nat>)
    requires n <= |clusters| && Positions(clusters, n, at)
    ensures |at| == |set i | 0 <= i < n && clusters[i].deleted && OperatorFinalizer in clusters[i].finalizers|
  {
    var them := set i | 0 <= i < n && clusters[i].deleted && OperatorFinalizer in clusters[i].finalizers;
    assert them == Elements(at);
    DistinctCount(at);
  }

  function Elements<T>(s: seq<T>): set<T> {
    set x | x in s
  }

  lemma {:induction false} DistinctCount<T>(s: seq<T>)
    requires forall i, j :: 0 <= i < j < |s| ==> s[i] != s[j]
    ensures |Elements(s)| == |s|
  {
    if s != [] {
      var front, last := s[..|s| - 1], s[|s| - 1];
      DistinctCount(front);
      assert s == front + [last];
      assert Elements(s) == Elements(front) + {last};
    }
  }

  method GetNumberOfApps(api: ApiServer, name: string, namespace: string, ghost cl: Cluster)
    returns (r: Result<nat, ()>, ghost call: Event)
    requires cl.name == name && cl.namespace == namespace
    modifies api
    ensures api.log == old(api.log) + [call] && Asked(cl, call)
    ensures r.Ok? ==> r.value == |Dangling(cl, call.pre)|
    ensures r.Err? <==> call.answer.Failed?
  {
    var answer := api.ListApps(namespace, ClusterAppSelector(name));
    call := Last(api.log);
    if answer.Failed? {
      return Err(()), call;
    }
    ListingSize(call.pre, namespace, ClusterAppSelector(name), answer.items);
    GaugeCountsDangling(cl, call.pre);
    return Ok(|answer.items|), call;
  }

  /** A run that does not fail measures every cluster that is being deleted and has the finalizer; one that
      fails does so up to the cluster whose listing, the last call, failed. */
  method Collect(api: ApiServer, clusters: Result<seq<Cluster>, ()>)
    returns (failed: bool, metrics: seq<Metric>, ghost calls: seq<Event>, ghost at: seq<nat>, ghost seen: nat)
    modifies api
    ensures api.log == old(api.log) + calls
    ensures clusters.Err? ==> failed && metrics == [] && calls == []
    ensures clusters.Ok? ==>
              && seen <= |clusters.value| && Positions(clusters.value, seen, at)
              && Measured(clusters.value, at, calls, metrics)
    ensures !failed ==> clusters.Ok? && seen == |clusters.value| && |calls| == |metrics|
    ensures failed && clusters.Ok? ==>
              && seen < |clusters.value| && |calls| == |metrics| + 1
              && clusters.value[seen].deleted && OperatorFinalizer in clusters.value[seen].finalizers
              && Asked(clusters.value[seen], Last(calls)) && Last(calls).answer.Failed?
  {
    metrics, calls, at, seen := [], [], [], 0;
    if clusters.Err? {
      return true, [], [], [], 0;
    }
    for i := 0 to |clusters.value|
      invariant api.log == old(api.log) + calls
      invariant Positions(clusters.value, i, at) && |calls| == |at|
      invariant Measured(clusters.value, at, calls, metrics)
    {
      seen := i;
      var cl := clusters.value[i];
      if !cl.deleted || !HasFinalizer(cl.finalizers) {
        continue;
      }
      var dangling;
      ghost var call;
      dangling, call := GetNumberOfApps(api, cl.name, cl.namespace, cl);
      calls := calls + [call];
      if dangling.Err? {
        return true, metrics, calls, at, seen;
      }
      metrics := metrics + [Metric(cl.name, dangling.value)];
      at := at + [i];
    }
    return false, metrics, calls, at, |clusters.value|;
  }

  /** The gauge counts what the teardown waits for, in every store, exactly when the cluster's ID is its
      name. */
  lemma GaugeAgreesIff(cl: Cluster)
    ensures (forall s: Store :: Gauge(cl, s) == TeardownCount(cl, s)) <==> ClusterID(cl.labels) == cl.name
  {
    if ClusterID(cl.labels) != cl.name {
      var k := Key(cl.namespace, "");
      var app := App(map[Objects.Cluster := cl.name], map[], map[], {}, false, "");
      var s: Store := map[k := app];
      SelectorMeaning(cl.name, app.labels);
      SelectorMeaning(ClusterID(cl.labels), app.labels);
      assert SelectedKeys(s, cl.namespace, ClusterAppSelector(cl.name)) == {k};
      assert SelectedKeys(s, cl.namespace, ClusterAppSelector(ClusterID(cl.labels))) == {};
      assert Gauge(cl, s) != TeardownCount(cl, s);
    }
  }

  /** For such a cluster the gauge of a store is zero exactly when a second listing of that store lets the
      teardown go on to chart-operator. */
  lemma ZeroGaugeLetsTeardownGo(cl: Cluster, job: Job, e: Event)
    requires ClusterID(cl.labels) == cl.name && job.cluster == RefOf(cl)
    requires Serves(e) && e.request == RequestAt(job, List2) && !e.answer.Failed?
    ensures Dangling(cl, e.pre) == {} <==> Advance(job, List2, e.answer) == DelChart
  {
    ListingSize(e.pre, cl.namespace, ClusterAppSelector(cl.name), e.answer.items);
    GaugeCountsDangling(cl, e.pre);
  }
}
