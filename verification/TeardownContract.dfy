/**
 What a whole teardown pass asks and how it ends, for a namespace and a cluster ID, in terms of the labels
 and names themselves.
 */
module TeardownContract {
  import opened Objects
  import opened Api
  import opened Keys
  import opened Protocol
  import opened TeardownTrace
  import opened TeardownSafety

  function Listing(namespace: string, id: string): Request {
    List(namespace, [Equal(Cluster, id), NotEqual(ManagedBy, "cluster-apps-operator")])
  }

  function ChartOperator(namespace: string, id: string): Key {
    Key(namespace, id + "-chart-operator")
  }

  function AppOperator(namespace: string, id: string): Key {
    Key(namespace, id + "-app-operator")
  }

  predicate FoundNone(namespace: string, id: string, calls: seq<Event>, i: nat) {
    0 < i < |calls| && calls[i].request == Listing(namespace, id) && calls[i].answer == Items([])
  }

  predicate FoundGone(k: Key, calls: seq<Event>, i: nat) {
    i < |calls| && (calls[i].request == Delete(k) || calls[i].request == Get(k)) && calls[i].answer.NotFound?
  }

  ghost predicate NoneBefore(namespace: string, id: string, calls: seq<Event>, n: nat) {
    exists i :: 0 < i < n && FoundNone(namespace, id, calls, i)
  }

  ghost predicate ChartGoneBefore(namespace: string, id: string, calls: seq<Event>, n: nat) {
    exists i, j :: 0 < i < j < n
      && FoundNone(namespace, id, calls, i) && FoundGone(ChartOperator(namespace, id), calls, j)
  }

  ghost predicate SawAllGone(namespace: string, id: string, calls: seq<Event>) {
    exists i, j, l :: 0 < i < j < l < |calls|
      && FoundNone(namespace, id, calls, i) && FoundGone(ChartOperator(namespace, id), calls, j)
      && FoundGone(AppOperator(namespace, id), calls, l)
  }

  /** A call lists the Apps of the cluster, or deletes one that the first listing put up for deletion, or
      deletes or probes an operator: chart-operator after an empty second listing, app-operator when
      chart-operator was also seen gone. */
  ghost predicate InPlace(namespace: string, id: string, calls: seq<Event>, n: nat)
    requires n < |calls|
  {
    var r := calls[n].request;
    || r == Listing(namespace, id)
    || (r.Delete? && ListedForSweep(calls[0], r.key))
    || ((r == Delete(ChartOperator(namespace, id)) || r == Get(ChartOperator(namespace, id)))
        && NoneBefore(namespace, id, calls, n))
    || ((r == Delete(AppOperator(namespace, id)) || r == Get(AppOperator(namespace, id)))
        && ChartGoneBefore(namespace, id, calls, n))
  }

  ghost predicate ListFailed(calls: seq<Event>) {
    exists i :: 0 <= i < |calls| && calls[i].request.List? && calls[i].answer.Failed?
  }

  /** Every App of the namespace with the cluster label carries the managed-by label, and none is one of the
      two operators. */
  ghost predicate NoneLeft(namespace: string, id: string, s: Store) {
    forall k :: k in s && k.namespace == namespace ==>
      && (Cluster in s[k].labels && s[k].labels[Cluster] == id ==>
            ManagedBy in s[k].labels && s[k].labels[ManagedBy] == "cluster-apps-operator")
      && k != ChartOperator(namespace, id) && k != AppOperator(namespace, id)
  }

  ghost predicate TeardownOf(namespace: string, id: string, calls: seq<Event>, outcome: Outcome) {
    && calls != [] && calls[0].request == Listing(namespace, id)
    && (forall n {:trigger InPlace(namespace, id, calls, n)} :: 0 <= n < |calls| ==> InPlace(namespace, id, calls, n))
    && (outcome == Error <==> ListFailed(calls))
    && (outcome == Released <==> SawAllGone(namespace, id, calls))
    && (outcome == Kept <==> !ListFailed(calls) && !SawAllGone(namespace, id, calls))
    && (forall i {:trigger FoundNone(namespace, id, calls, i)} ::
          outcome == Released && FoundNone(namespace, id, calls, i) && TameSince(Ref(namespace, id), calls, i) ==>
            NoneLeft(namespace, id, Last(calls).post))
  }

  /** Only a failed listing makes a pass end with an error. */
  lemma ErrorIffListFailed(job: Job, pcs: seq<Pc>, log: seq<Event>)
    requires Pass(job, pcs, log) && Last(pcs).Halted?
    ensures Last(pcs) == Halted(Error) <==> ListFailed(log)
  {
    if Last(pcs) == Halted(Error) {
      PassEvidence(job, pcs, log, |log| - 1);
      assert StepAt(job, pcs, log, |log| - 1);
    }
    if ListFailed(log) {
      var i :| 0 <= i < |log| && log[i].request.List? && log[i].answer.Failed?;
      PassEvidence(job, pcs, log, i);
      assert StepAt(job, pcs, log, i);
      if i + 1 < |log| {
        RunsOn(job, pcs, log, i + 1);
      }
    }
  }

  lemma SameSightings(c: Ref, calls: seq<Event>)
    ensures Listing(c.namespace, c.id) == List(c.namespace, ClusterAppSelector(c.id))
    ensures ChartOperator(c.namespace, c.id) == ChartOperatorKey(c)
    ensures AppOperator(c.namespace, c.id) == AppOperatorKey(c)
    ensures forall i: nat :: FoundNone(c.namespace, c.id, calls, i) <==> SawNoApps(c, calls, i)
    ensures forall k, i: nat :: FoundGone(k, calls, i) <==> SawGone(k, calls, i)
  {
  }

  lemma CallInPlace(job: Job, pcs: seq<Pc>, log: seq<Event>, n: nat)
    requires Pass(job, pcs, log) && n < |log|
    ensures InPlace(job.cluster.namespace, job.cluster.id, log, n)
  {
    var c := job.cluster;
    PassEvidence(job, pcs, log, n);
    assert StepAt(job, pcs, log, n);
    SameSightings(c, log);
    match pcs[n]
    case Sweep(item, _) => assert FromFirstList(log, item);
    case DelChart => SeenNone(c, log, n);
    case ProbeChart(_) => SeenNone(c, log, n);
    case DelAppOp => SeenGone(c, log, n);
    case ProbeAppOp(_) => SeenGone(c, log, n);
    case _ =>
  }

  lemma SeenNone(c: Ref, log: seq<Event>, n: nat)
    requires n < |log| && ClusterAppsGone(c, log, n)
    ensures NoneBefore(c.namespace, c.id, log, n)
  {
    SameSightings(c, log);
    var i :| 0 < i < n && SawNoApps(c, log, i);
    assert FoundNone(c.namespace, c.id, log, i);
  }

  lemma SeenGone(c: Ref, log: seq<Event>, n: nat)
    requires n < |log| && ChartOperatorGone(c, log, n)
    ensures ChartGoneBefore(c.namespace, c.id, log, n)
  {
    SameSightings(c, log);
    var i, j :| 0 < i < j < n && SawNoApps(c, log, i) && SawGone(ChartOperatorKey(c), log, j);
    assert FoundNone(c.namespace, c.id, log, i) && FoundGone(ChartOperator(c.namespace, c.id), log, j);
  }

  lemma AllGoneIsSawAllGone(c: Ref, log: seq<Event>)
    ensures AllGone(c, log, |log|) <==> SawAllGone(c.namespace, c.id, log)
  {
    var chart, appOp := ChartOperatorKey(c), AppOperatorKey(c);
    SameSightings(c, log);
    if AllGone(c, log, |log|) {
      var i, j, l :| 0 < i < j < l < |log| && SawNoApps(c, log, i) && SawGone(chart, log, j) && SawGone(appOp, log, l);
      assert FoundNone(c.namespace, c.id, log, i) && FoundGone(chart, log, j) && FoundGone(appOp, log, l);
    }
    if SawAllGone(c.namespace, c.id, log) {
      var i, j, l :| 0 < i < j < l < |log|
        && FoundNone(c.namespace, c.id, log, i) && FoundGone(chart, log, j) && FoundGone(appOp, log, l);
      assert SawNoApps(c, log, i) && SawGone(chart, log, j) && SawGone(appOp, log, l);
    }
  }

  lemma ReleaseLeavesNone(job: Job, pcs: seq<Pc>, log: seq<Event>, i: nat)
    requires Pass(job, pcs, log) && Last(pcs) == Halted(Released)
    requires SawNoApps(job.cluster, log, i) && TameSince(job.cluster, log, i)
    ensures NoneLeft(job.cluster.namespace, job.cluster.id, Last(log).post)
  {
    var c, s := job.cluster, Last(log).post;
    ReleaseSafety(job, pcs, log, i, s);
    forall k | k in s && k.namespace == c.namespace
      ensures Cluster in s[k].labels && s[k].labels[Cluster] == c.id ==> CarriesManagedBy(s[k].labels)
      ensures !OperatorKey(c, k)
    {
      SelectorMeaning(c.id, s[k].labels);
      assert !ClusterApp(c, s, k);
    }
  }

  /** A pass of the machine is a teardown of its cluster in this sense. */
  lemma PassIsTeardown(job: Job, log: seq<Event>, outcome: Outcome)
    requires Reached(job, log, List1, Halted(outcome))
    ensures TeardownOf(job.cluster.namespace, job.cluster.id, log, outcome)
  {
    var c := job.cluster;
    var pcs :| Run(job, pcs, log) && pcs[0] == List1 && Last(pcs) == Halted(outcome);
    FirstCallLists(job, pcs, log);
    forall n | 0 <= n < |log| ensures InPlace(c.namespace, c.id, log, n) {
      CallInPlace(job, pcs, log, n);
    }
    ErrorIffListFailed(job, pcs, log);
    ReleasedIffAllGone(job, pcs, log);
    AllGoneIsSawAllGone(c, log);
    PassEvidence(job, pcs, log, |log|);
    forall i | outcome == Released && FoundNone(c.namespace, c.id, log, i) && TameSince(c, log, i)
      ensures NoneLeft(c.namespace, c.id, Last(log).post)
    {
      SameSightings(c, log);
      ReleaseLeavesNone(job, pcs, log, i);
    }
  }

  lemma FirstCallLists(job: Job, pcs: seq<Pc>, log: seq<Event>)
    requires Pass(job, pcs, log) && Last(pcs).Halted?
    ensures log != [] && log[0].request == Listing(job.cluster.namespace, job.cluster.id)
  {
    assert log != [];
    assert StepAt(job, pcs, log, 0);
    SameSightings(job.cluster, log);
  }
}
