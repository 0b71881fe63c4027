/**
 What a teardown pass proves about the answers it got, whatever the other actors do meanwhile. All
 statements are about the calls of one pass: a run of the machine that starts in `List1`.
 */
module TeardownTrace {
  import opened Objects
  import opened Api
  import opened Keys
  import opened Protocol

  ghost predicate Pass(job: Job, pcs: seq<Pc>, log: seq<Event>) {
    Run(job, pcs, log) && pcs[0] == List1
  }

  /** Call `i` is a second listing, and it found nothing. */
  predicate SawNoApps(c: Ref, log: seq<Event>, i: nat) {
    0 < i < |log| && log[i].request == List(c.namespace, ClusterAppSelector(c.id)) && log[i].answer == Items([])
  }

  /** Call `i` asked about `k` and was told that there is no such App. */
  predicate SawGone(k: Key, log: seq<Event>, i: nat) {
    i < |log| && (log[i].request == Delete(k) || log[i].request == Get(k)) && log[i].answer.NotFound?
  }

  ghost predicate ClusterAppsGone(c: Ref, log: seq<Event>, n: nat) {
    exists i :: 0 < i < n && SawNoApps(c, log, i)
  }

  ghost predicate ChartOperatorGone(c: Ref, log: seq<Event>, n: nat) {
    exists i, j :: 0 < i < j < n && SawNoApps(c, log, i) && SawGone(ChartOperatorKey(c), log, j)
  }

  ghost predicate AllGone(c: Ref, log: seq<Event>, n: nat) {
    exists i, j, k :: 0 < i < j < k < n
      && SawNoApps(c, log, i) && SawGone(ChartOperatorKey(c), log, j) && SawGone(AppOperatorKey(c), log, k)
  }

  predicate FromFirstList(log: seq<Event>, item: Item) {
    0 < |log| && log[0].answer.Items? && item in log[0].answer.items && Eligible(item)
  }

  /** What being in state `pc` after `n` calls tells about those calls. */
  ghost predicate Evidence(c: Ref, log: seq<Event>, n: nat, pc: Pc) {
    match pc
    case List1 => n == 0
    case Sweep(item, rest) => n > 0 && FromFirstList(log, item) && forall x <- rest :: FromFirstList(log, x)
    case List2 => n > 0
    case DelChart => ClusterAppsGone(c, log, n)
    case ProbeChart(_) => ClusterAppsGone(c, log, n)
    case DelAppOp => ChartOperatorGone(c, log, n)
    case ProbeAppOp(_) => ChartOperatorGone(c, log, n)
    case Halted(outcome) => n > 0 && !outcome.Converged? && (outcome.Released? ==> AllGone(c, log, n))
    case _ => false
  }

  lemma {:induction false} PassEvidence(job: Job, pcs: seq<Pc>, log: seq<Event>, n: nat)
    requires Pass(job, pcs, log) && n <= |log|
    ensures Evidence(job.cluster, log, n, pcs[n])
  {
    if n > 0 {
      PassEvidence(job, pcs, log, n - 1);
      assert StepAt(job, pcs, log, n - 1);
      EvidenceStep(job, pcs[n - 1], log, n - 1);
    }
  }

  lemma EvidenceStep(job: Job, pc: Pc, log: seq<Event>, n: nat)
    requires n < |log| && Evidence(job.cluster, log, n, pc)
    requires !pc.Halted? && log[n].request == RequestAt(job, pc)
    ensures Evidence(job.cluster, log, n + 1, Advance(job, pc, log[n].answer))
  {
    var c, a := job.cluster, log[n].answer;
    match pc
    case List1 =>
      if a.Items? {
        forall x | x in EligibleItems(a.items) ensures FromFirstList(log, x) {
          EligibleMembers(a.items, x);
        }
      }
    case List2 =>
      if a == Items([]) {
        assert SawNoApps(c, log, n);
      }
    case DelChart => ChartStep(c, log, n);
    case ProbeChart(_) => ChartStep(c, log, n);
    case DelAppOp => AppOperatorStep(c, log, n);
    case ProbeAppOp(_) => AppOperatorStep(c, log, n);
    case _ =>
  }

  lemma ChartStep(c: Ref, log: seq<Event>, n: nat)
    requires n < |log| && ClusterAppsGone(c, log, n)
    ensures ClusterAppsGone(c, log, n + 1)
    ensures SawGone(ChartOperatorKey(c), log, n) ==> ChartOperatorGone(c, log, n + 1)
  {
    var i :| 0 < i < n && SawNoApps(c, log, i);
  }

  lemma AppOperatorStep(c: Ref, log: seq<Event>, n: nat)
    requires n < |log| && ChartOperatorGone(c, log, n)
    ensures ChartOperatorGone(c, log, n + 1)
    ensures SawGone(AppOperatorKey(c), log, n) ==> AllGone(c, log, n + 1)
  {
    var i, j :| 0 < i < j < n && SawNoApps(c, log, i) && SawGone(ChartOperatorKey(c), log, j);
  }

  /** The operator Apps of `c`, as far as they exist in `s`, carry the managed-by label. */
  ghost predicate OperatorsLabelled(c: Ref, s: Store) {
    forall k {:trigger OperatorKey(c, k)} :: k in s && OperatorKey(c, k) ==> CarriesManagedBy(s[k].labels)
  }

  /** A first listing of `s` puts `k` up for deletion. */
  predicate Sweepable(c: Ref, s: Store, k: Key) {
    ClusterApp(c, s, k) && Eligible(Item(k, s[k]))
  }

  ghost predicate OperatorsSpared(c: Ref, s: Store) {
    !Sweepable(c, s, ChartOperatorKey(c)) && !Sweepable(c, s, AppOperatorKey(c))
  }

  lemma LabelledOperatorsSpared(c: Ref, s: Store)
    requires OperatorsLabelled(c, s)
    ensures OperatorsSpared(c, s)
  {
    forall k | k in s && OperatorKey(c, k) ensures !Sweepable(c, s, k) {
      SelectorMeaning(c.id, s[k].labels);
    }
  }

  lemma SweptIsSweepable(job: Job, pcs: seq<Pc>, log: seq<Event>, n: nat)
    requires Pass(job, pcs, log) && n < |log| && pcs[n].Sweep?
    ensures Sweepable(job.cluster, log[0].pre, pcs[n].item.key)
  {
    PassEvidence(job, pcs, log, n);
    assert StepAt(job, pcs, log, 0);
    var i :| 0 <= i < |log[0].answer.items| && log[0].answer.items[i] == pcs[n].item;
  }

  /** Chart-operator is only asked to go after a second listing that was empty, and app-operator only
      after chart-operator was also reported gone. */
  ghost predicate InOrder(c: Ref, log: seq<Event>, n: nat)
    requires n < |log|
  {
    && (log[n].request == Delete(ChartOperatorKey(c)) ==> ClusterAppsGone(c, log, n))
    && (log[n].request == Delete(AppOperatorKey(c)) ==> ChartOperatorGone(c, log, n))
  }

  /** Teardown order under an arbitrary environment. */
  lemma TeardownOrder(job: Job, pcs: seq<Pc>, log: seq<Event>, n: nat)
    requires Pass(job, pcs, log) && n < |log|
    requires OperatorsSpared(job.cluster, log[0].pre)
    ensures InOrder(job.cluster, log, n)
  {
    PassEvidence(job, pcs, log, n);
    assert StepAt(job, pcs, log, n);
    OperatorNamesInjective(job.cluster.id, job.cluster.id);
    if pcs[n].Sweep? {
      SweptIsSweepable(job, pcs, log, n);
    }
  }

  ghost predicate AlwaysInOrder(job: Job, s: Store) {
    forall pcs, log: seq<Event>, n ::
      Pass(job, pcs, log) && 0 <= n < |log| && log[0].pre == s ==> InOrder(job.cluster, log, n)
  }

  /** The order holds in every pass that starts from `s` if and only if the first listing of `s` does not
      put an operator up for deletion: if one of them lost its managed-by label, some pass sweeps it
      away before anything else. */
  lemma OrderIffOperatorsSpared(job: Job, s: Store)
    ensures AlwaysInOrder(job, s) <==> OperatorsSpared(job.cluster, s)
  {
    if OperatorsSpared(job.cluster, s) {
      forall pcs, log: seq<Event>, n | Pass(job, pcs, log) && 0 <= n < |log| && log[0].pre == s
        ensures InOrder(job.cluster, log, n)
      {
        TeardownOrder(job, pcs, log, n);
      }
    } else {
      var k := if Sweepable(job.cluster, s, ChartOperatorKey(job.cluster)) then ChartOperatorKey(job.cluster)
               else AppOperatorKey(job.cluster);
      var pcs, log := SweptFirst(job, s, k);
      assert !InOrder(job.cluster, log, 1);
    }
  }

  lemma SweptFirst(job: Job, s: Store, k: Key) returns (pcs: seq<Pc>, log: seq<Event>)
    requires Sweepable(job.cluster, s, k)
    ensures Pass(job, pcs, log) && |log| == 2 && log[0].pre == s && log[1].request == Delete(k)
  {
    var c := job.cluster;
    var items := ListingStartingWith(s, c.namespace, ClusterAppSelector(c.id), k);
    var list := Event(s, RequestAt(job, List1), Items(items), s);
    var delete := Event(s, Delete(k), Done, Deleted(s, k));
    var sweep := SweepFrom(EligibleItems(items));
    assert EligibleItems(items)[0] == items[0];
    log := [list, delete];
    pcs := [List1, sweep, Advance(job, sweep, Done)];
    assert StepAt(job, pcs, log, 0);
    assert StepAt(job, pcs, log, 1);
  }

  /** One of the first `n` calls asked for the deletion of `k`. */
  predicate AskedFor(log: seq<Event>, n: nat, k: Key)
    requires n <= |log|
  {
    exists i :: 0 <= i < n && log[i].request == Delete(k)
  }

  /** The footprint of a pass: whatever the others do in the meantime, no call touches an App that was
      neither an operator App of the cluster nor up for deletion in the store that was listed first. Apps of
      Flux and of other clusters are among these. */
  lemma PassFootprint(job: Job, pcs: seq<Pc>, log: seq<Event>, n: nat, k: Key)
    requires Pass(job, pcs, log) && n < |log|
    requires !OperatorKey(job.cluster, k) && !Sweepable(job.cluster, log[0].pre, k)
    ensures SameApp(log[n].pre, log[n].post, k)
  {
    PassEvidence(job, pcs, log, n);
    assert StepAt(job, pcs, log, n);
    if pcs[n].Sweep? {
      SweptIsSweepable(job, pcs, log, n);
    }
    ServesOnlyItsKey(log[n], k);
  }

  /** Once the second listing was empty the pass only deals with the operators. */
  predicate PastListings(pc: Pc) {
    pc.DelChart? || pc.ProbeChart? || pc.DelAppOp? || pc.ProbeAppOp? || pc == Halted(Released) || pc == Halted(Kept)
  }

  predicate PastChart(pc: Pc) {
    pc.DelAppOp? || pc.ProbeAppOp? || pc == Halted(Released) || pc == Halted(Kept)
  }

  lemma {:induction false} StaysPast(job: Job, pcs: seq<Pc>, log: seq<Event>, m: nat, n: nat)
    requires Run(job, pcs, log) && m <= n <= |log|
    ensures PastListings(pcs[m]) ==> PastListings(pcs[n])
    ensures PastChart(pcs[m]) ==> PastChart(pcs[n])
  {
    if m < n {
      StaysPast(job, pcs, log, m, n - 1);
      assert StepAt(job, pcs, log, n - 1);
    }
  }

  lemma EmptyListMovesOn(job: Job, pcs: seq<Pc>, log: seq<Event>, i: nat)
    requires Pass(job, pcs, log) && SawNoApps(job.cluster, log, i)
    ensures pcs[i + 1] == DelChart
  {
    PassEvidence(job, pcs, log, i);
    assert StepAt(job, pcs, log, i);
  }

  lemma GoneChartMovesOn(job: Job, pcs: seq<Pc>, log: seq<Event>, i: nat, j: nat)
    requires Pass(job, pcs, log) && i < j
    requires SawNoApps(job.cluster, log, i) && SawGone(ChartOperatorKey(job.cluster), log, j)
    ensures PastChart(pcs[j + 1])
  {
    OperatorNamesInjective(job.cluster.id, job.cluster.id);
    EmptyListMovesOn(job, pcs, log, i);
    StaysPast(job, pcs, log, i + 1, j);
    assert StepAt(job, pcs, log, j);
  }

  lemma GoneAppOperatorReleases(job: Job, pcs: seq<Pc>, log: seq<Event>, j: nat, k: nat)
    requires Pass(job, pcs, log) && j < k < |log|
    requires PastChart(pcs[j + 1]) && SawGone(AppOperatorKey(job.cluster), log, k)
    ensures Last(pcs) == Halted(Released)
  {
    StaysPast(job, pcs, log, j + 1, k);
    assert StepAt(job, pcs, log, k);
    assert pcs[k + 1] == Halted(Released);
    if k + 1 < |log| {
      RunsOn(job, pcs, log, k + 1);
    }
  }

  /** The finalizers are let go exactly when the pass saw, in this order, an empty second listing, no
      chart-operator and no app-operator. */
  lemma ReleasedIffAllGone(job: Job, pcs: seq<Pc>, log: seq<Event>)
    requires Pass(job, pcs, log)
    ensures Last(pcs) == Halted(Released) <==> AllGone(job.cluster, log, |log|)
  {
    var c := job.cluster;
    PassEvidence(job, pcs, log, |log|);
    if AllGone(c, log, |log|) {
      var i, j, k :| 0 < i < j < k < |log|
        && SawNoApps(c, log, i) && SawGone(ChartOperatorKey(c), log, j) && SawGone(AppOperatorKey(c), log, k);
      GoneChartMovesOn(job, pcs, log, i, j);
      GoneAppOperatorReleases(job, pcs, log, j, k);
    }
  }

  ghost predicate OrderKept(c: Ref, log: seq<Event>) {
    forall n {:trigger InOrder(c, log, n)} :: 0 <= n < |log| ==> InOrder(c, log, n)
  }

  /** The order and the release condition, for the calls of a whole pass. */
  lemma PassGuarantees(job: Job, log: seq<Event>, outcome: Outcome)
    requires Reached(job, log, List1, Halted(outcome))
    ensures log != []
    ensures outcome == Released <==> AllGone(job.cluster, log, |log|)
    ensures OperatorsSpared(job.cluster, log[0].pre) ==> OrderKept(job.cluster, log)
  {
    var pcs :| Run(job, pcs, log) && pcs[0] == List1 && Last(pcs) == Halted(outcome);
    ReleasedIffAllGone(job, pcs, log);
    forall n | 0 <= n < |log| && OperatorsSpared(job.cluster, log[0].pre) ensures InOrder(job.cluster, log, n) {
      TeardownOrder(job, pcs, log, n);
    }
  }

  /** The listing has an App under that key that lacks one of the two Flux labels and has no deletion
      timestamp. */
  predicate ListedForSweep(list: Event, k: Key) {
    && list.answer.Items?
    && exists item <- list.answer.items ::
         && item.key == k && !item.app.terminating
         && !(FluxName in item.app.labels && FluxNamespace in item.app.labels)
  }

  predicate AsksForListed(log: seq<Event>, n: nat)
    requires 0 < |log| && n < |log|
  {
    log[n].request.Delete? && ListedForSweep(log[0], log[n].request.key)
  }

  /** Before its second listing a pass deletes nothing but Apps of its first listing that are neither
      managed by Flux nor already being deleted. */
  lemma SweepDeletesOnlyEligible(job: Job, pcs: seq<Pc>, log: seq<Event>, n: nat)
    requires Pass(job, pcs, log) && 0 < n < |log|
    requires forall i :: 0 < i <= n ==> !log[i].request.List?
    ensures AsksForListed(log, n)
  {
    StillSweeping(job, pcs, log, n);
    PassEvidence(job, pcs, log, n);
    assert StepAt(job, pcs, log, n);
    assert FromFirstList(log, pcs[n].item);
  }

  lemma {:induction false} StillSweeping(job: Job, pcs: seq<Pc>, log: seq<Event>, n: nat)
    requires Pass(job, pcs, log) && 0 < n < |log|
    requires forall i :: 0 < i <= n ==> !log[i].request.List?
    ensures pcs[n].Sweep?
  {
    assert StepAt(job, pcs, log, n - 1);
    assert StepAt(job, pcs, log, n);
    if n > 1 {
      StillSweeping(job, pcs, log, n - 1);
    }
  }

  /** A pass whose second listing still finds an App, for instance one that Flux manages, ends there:
      finalizers kept, no operator asked to go. */
  lemma RemainingAppsKeepFinalizers(job: Job, pcs: seq<Pc>, log: seq<Event>, i: nat)
    requires Pass(job, pcs, log) && 0 < i < |log| && log[i].request.List?
    requires log[i].answer.Items? && log[i].answer.items != []
    ensures i == |log| - 1 && Last(pcs) == Halted(Kept)
    ensures forall n :: 0 < n < i ==> AsksForListed(log, n)
  {
    PassEvidence(job, pcs, log, i);
    assert StepAt(job, pcs, log, i);
    if i + 1 < |log| {
      RunsOn(job, pcs, log, i + 1);
    }
    forall n | 0 < n < i ensures AsksForListed(log, n) {
      BeforeSecondList(job, pcs, log, n, i);
      PassEvidence(job, pcs, log, n);
      assert StepAt(job, pcs, log, n);
      assert FromFirstList(log, pcs[n].item);
    }
  }

  lemma {:induction false} BeforeSecondList(job: Job, pcs: seq<Pc>, log: seq<Event>, n: nat, i: nat)
    requires Pass(job, pcs, log) && 0 < n < i < |log| && pcs[i] == List2
    ensures pcs[n].Sweep?
    decreases i - n
  {
    PassEvidence(job, pcs, log, n);
    assert StepAt(job, pcs, log, n);
    if n + 1 < i {
      BeforeSecondList(job, pcs, log, n + 1, i);
    }
  }

  /** A hard error while sweeping ends the pass at that call, with the finalizers kept. */
  lemma SweepErrorKeepsFinalizers(job: Job, pcs: seq<Pc>, log: seq<Event>, n: nat)
    requires Pass(job, pcs, log) && n < |log| && pcs[n].Sweep? && log[n].answer.Failed?
    ensures n == |log| - 1 && Last(pcs) == Halted(Kept)
  {
    assert StepAt(job, pcs, log, n);
    if n + 1 < |log| {
      RunsOn(job, pcs, log, n + 1);
    }
  }
}
