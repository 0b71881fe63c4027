/**
 Teardown progress: without Flux apps, the fourth pass that meets no hard error, and after which the other
 actors finish the requested deletions, releases the finalizers at the latest, however many Apps the
 cluster has and however many other passes fail.
 */
module TeardownProgress {
  import opened Objects
  import opened Api
  import opened Keys
  import opened Protocol
  import opened TeardownTrace
  import opened TeardownSafety
  import opened Wrappers

  ghost predicate NoFlux(c: Ref, s: Store) {
    forall k {:trigger ClusterApp(c, s, k)} :: 
      ClusterApp(c, s, k) ==> !(FluxName in s[k].labels && FluxNamespace in s[k].labels)
  }

  /** All deletions that were requested are finished. */
  ghost predicate NothingTerminating(c: Ref, s: Store) {
    forall k {:trigger Relevant(c, s, k)} :: Relevant(c, s, k) ==> !s[k].terminating
  }

  /** One pass from `s` that ends with `outcome`, and what the others make of it before the next one. */
  ghost predicate Round(c: Ref, s: Store, outcome: Outcome, s': Store) {
    exists job: Job, pcs: seq<Pc>, log: seq<Event> ::
      && job.cluster == c
      && Pass(job, pcs, log) && Last(pcs) == Halted(outcome)
      && NoFailures(log)
      && TameRun(c, s, log) && Tame(c, StoreAfter(s, log, |log|), s')
      && NothingTerminating(c, s')
  }

  ghost predicate NoApps(c: Ref, s: Store) {
    forall k {:trigger ClusterApp(c, s, k)} :: !ClusterApp(c, s, k)
  }

  ghost predicate AppsTerminating(c: Ref, s: Store) {
    forall k {:trigger ClusterApp(c, s, k)} :: ClusterApp(c, s, k) ==> s[k].terminating
  }

  predicate GoneOrTerminating(s: Store, k: Key) {
    k in s ==> s[k].terminating
  }

  ghost predicate AppsPending(c: Ref, s: Store, pending: seq<Item>) {
    forall k {:trigger ClusterApp(c, s, k)} :: ClusterApp(c, s, k) ==> s[k].terminating || Lists(pending, k)
  }

  /** How far a cluster is from being gone. */
  ghost function Stage(c: Ref, s: Store): nat {
    if !NoApps(c, s) then 3
    else if ChartOperatorKey(c) in s then 2
    else if AppOperatorKey(c) in s then 1
    else 0
  }

  /** Of what stood between `s0` and its release, the first kind is now gone or about to go. */
  ghost predicate StageSettled(c: Ref, s0: Store, s: Store) {
    || (Stage(c, s0) == 3 && AppsTerminating(c, s))
    || (Stage(c, s0) >= 2 && NoApps(c, s) && GoneOrTerminating(s, ChartOperatorKey(c)))
    || (Stage(c, s0) >= 1 && NoApps(c, s) && ChartOperatorKey(c) !in s && GoneOrTerminating(s, AppOperatorKey(c)))
  }

  /** What a pass that began at `s0` has achieved when it is in state `pc`. */
  ghost predicate Achieved(c: Ref, s0: Store, s: Store, pc: Pc) {
    && Tame(c, s0, s)
    && match pc
       case List1 => true
       case Sweep(item, rest) => AppsPending(c, s, [item] + rest)
       case List2 => AppsTerminating(c, s)
       case DelChart => NoApps(c, s)
       case ProbeChart(_) => NoApps(c, s) && GoneOrTerminating(s, ChartOperatorKey(c))
       case DelAppOp => NoApps(c, s) && ChartOperatorKey(c) !in s
       case ProbeAppOp(_) =>
         NoApps(c, s) && ChartOperatorKey(c) !in s && GoneOrTerminating(s, AppOperatorKey(c))
       case Halted(outcome) => outcome.Released? || (outcome.Kept? && StageSettled(c, s0, s))
       case _ => false
  }

  lemma TameTransitive(c: Ref, a: Store, b: Store, d: Store)
    requires Tame(c, a, b) && Tame(c, b, d)
    ensures Tame(c, a, d)
  {
    forall k | Relevant(c, d, k)
      ensures k in a && d[k].labels == a[k].labels && (a[k].terminating ==> d[k].terminating)
    {
      assert Relevant(c, b, k);
    }
  }

  lemma TameShrinks(c: Ref, s: Store, s': Store)
    requires Tame(c, s, s')
    ensures forall k {:trigger ClusterApp(c, s', k)} :: ClusterApp(c, s', k) ==>
              ClusterApp(c, s, k) && s'[k].labels == s[k].labels && (s[k].terminating ==> s'[k].terminating)
    ensures forall k {:trigger OperatorKey(c, k)} :: OperatorKey(c, k) && k in s' ==>
              k in s && (s[k].terminating ==> s'[k].terminating)
  {
    forall k | ClusterApp(c, s', k)
      ensures ClusterApp(c, s, k) && s'[k].labels == s[k].labels && (s[k].terminating ==> s'[k].terminating)
    {
      assert Relevant(c, s', k);
    }
    forall k | OperatorKey(c, k) && k in s' ensures k in s && (s[k].terminating ==> s'[k].terminating) {
      assert Relevant(c, s', k);
    }
  }

  lemma TameKeepsAchieved(c: Ref, s0: Store, s: Store, s': Store, pc: Pc)
    requires Achieved(c, s0, s, pc) && Tame(c, s, s')
    ensures Achieved(c, s0, s', pc)
  {
    TameTransitive(c, s0, s, s');
    TameShrinks(c, s, s');
    assert OperatorKey(c, ChartOperatorKey(c)) && OperatorKey(c, AppOperatorKey(c));
  }

  /** The first listing finds every cluster App; those the sweep leaves out are already on their way. */
  lemma ListingCovers(c: Ref, e: Event)
    requires Serves(e) && e.request == List(c.namespace, ClusterAppSelector(c.id)) && e.answer.Items?
    requires NoFlux(c, e.pre)
    ensures AppsPending(c, e.post, EligibleItems(e.answer.items))
  {
    var items := e.answer.items;
    forall k | ClusterApp(c, e.post, k) ensures e.post[k].terminating || Lists(EligibleItems(items), k) {
      assert Lists(items, k);
      var i :| 0 <= i < |items| && items[i].key == k;
      EligibleMembers(items, items[i]);
    }
  }

  lemma PendingIsSweep(c: Ref, s: Store, pending: seq<Item>)
    requires AppsPending(c, s, pending)
    ensures pending == [] ==> AppsTerminating(c, s)
    ensures pending != [] ==> AppsPending(c, s, [pending[0]] + pending[1..])
  {
    assert pending != [] ==> pending == [pending[0]] + pending[1..];
    assert forall k :: Lists(pending, k) ==> pending != [];
  }

  lemma SweepAchieves(c: Ref, e: Event, item: Item, rest: seq<Item>)
    requires Serves(e) && !e.answer.Failed? && e.request == Delete(item.key)
    requires AppsPending(c, e.pre, [item] + rest)
    ensures AppsPending(c, e.post, rest)
  {
    TameShrinks(c, e.pre, e.post) by {
      CallIsTame(c, e);
    }
    forall k | ClusterApp(c, e.post, k) ensures e.post[k].terminating || Lists(rest, k) {
      var all := [item] + rest;
      if Lists(all, k) && k != item.key {
        var i :| 0 <= i < |all| && all[i].key == k;
        assert rest[i - 1].key == k;
      }
    }
  }

  lemma SecondListingAchieves(c: Ref, s0: Store, e: Event)
    requires Serves(e) && e.request == List(c.namespace, ClusterAppSelector(c.id)) && e.answer.Items?
    requires Tame(c, s0, e.pre) && AppsTerminating(c, e.pre)
    ensures e.answer.items == [] ==> NoApps(c, e.post)
    ensures e.answer.items != [] ==> StageSettled(c, s0, e.post)
  {
    TameShrinks(c, s0, e.pre);
    if e.answer.items == [] {
      EmptyListing(c, e);
    } else {
      assert ClusterApp(c, e.pre, e.answer.items[0].key);
    }
  }

  lemma CallAchieves(job: Job, s0: Store, e: Event, pc: Pc, pc': Pc)
    requires NoFlux(job.cluster, s0) && Achieved(job.cluster, s0, e.pre, pc)
    requires Step(job, pc, e, pc') && !e.answer.Failed?
    ensures Achieved(job.cluster, s0, e.post, pc')
  {
    var c := job.cluster;
    CallIsTame(c, e);
    TameTransitive(c, s0, e.pre, e.post);
    TameShrinks(c, s0, e.pre);
    TameShrinks(c, e.pre, e.post);
    assert OperatorKey(c, ChartOperatorKey(c)) && OperatorKey(c, AppOperatorKey(c));
    match pc
    case List1 =>
      ListingCovers(c, e);
      PendingIsSweep(c, e.post, EligibleItems(e.answer.items));
    case Sweep(item, rest) =>
      SweepAchieves(c, e, item, rest);
      PendingIsSweep(c, e.post, rest);
    case List2 => SecondListingAchieves(c, s0, e);
    case _ =>
  }

  lemma {:induction false} PassAchieves(job: Job, s0: Store, pcs: seq<Pc>, log: seq<Event>, n: nat)
    requires Pass(job, pcs, log) && NoFailures(log) && n <= |log|
    requires NoFlux(job.cluster, s0) && TameRun(job.cluster, s0, log)
    ensures Achieved(job.cluster, s0, StoreAfter(s0, log, n), pcs[n])
  {
    if n > 0 {
      PassAchieves(job, s0, pcs, log, n - 1);
      var e := log[n - 1];
      assert TameBefore(job.cluster, s0, log, n - 1);
      TameKeepsAchieved(job.cluster, s0, StoreAfter(s0, log, n - 1), e.pre, pcs[n - 1]);
      assert StepAt(job, pcs, log, n - 1);
      CallAchieves(job, s0, e, pcs[n - 1], pcs[n]);
    }
  }

  function RelevantKeys(c: Ref, s: Store): set<Key> {
    set k | k in s && Relevant(c, s, k)
  }

  function UndeletedKeys(c: Ref, s: Store): set<Key> {
    set k | k in s && Relevant(c, s, k) && !s[k].terminating
  }

  /** Two for every App of the cluster, one once its deletion was requested. */
  function Weight(c: Ref, s: Store): nat {
    |RelevantKeys(c, s)| + |UndeletedKeys(c, s)|
  }

  /** A round without a release takes the cluster at least one stage further and makes it lighter, and
      it never ends with an error. */
  lemma RoundProgress(c: Ref, s: Store, outcome: Outcome, s': Store)
    requires Round(c, s, outcome, s') && NoFlux(c, s)
    ensures NoFlux(c, s')
    ensures outcome == Released || outcome == Kept
    ensures outcome == Kept ==> Stage(c, s') < Stage(c, s) && Weight(c, s') < Weight(c, s)
  {
    var job: Job, pcs: seq<Pc>, log: seq<Event> :|
      && job.cluster == c
      && Pass(job, pcs, log) && Last(pcs) == Halted(outcome)
      && NoFailures(log)
      && TameRun(c, s, log) && Tame(c, StoreAfter(s, log, |log|), s')
      && NothingTerminating(c, s');
    PassAchieves(job, s, pcs, log, |log|);
    TameKeepsAchieved(c, s, StoreAfter(s, log, |log|), s', Last(pcs));
    TameShrinks(c, s, s');
    if outcome == Kept {
      SettledFalls(c, s, s');
    }
  }

  lemma SettledFalls(c: Ref, s: Store, s': Store)
    requires StageSettled(c, s, s') && Tame(c, s, s') && NothingTerminating(c, s')
    ensures Stage(c, s') < Stage(c, s) && Weight(c, s') < Weight(c, s)
  {
    TameShrinks(c, s, s');
    var chart, appOp := ChartOperatorKey(c), AppOperatorKey(c);
    assert OperatorKey(c, chart) && OperatorKey(c, appOp);
    forall k | k in s' && (ClusterApp(c, s', k) || OperatorKey(c, k)) ensures !s'[k].terminating {
      assert Relevant(c, s', k);
    }
    assert NoApps(c, s');
    if !NoApps(c, s) {
      var gone :| ClusterApp(c, s, gone);
      StaysClusterApp(c, s, s', gone);
      LighterWithout(c, s, s', gone);
    } else {
      LighterWithout(c, s, s', if chart in s then chart else appOp);
    }
  }

  lemma StaysClusterApp(c: Ref, s: Store, s': Store, k: Key)
    requires Tame(c, s, s') && ClusterApp(c, s, k)
    ensures Relevant(c, s', k) ==> ClusterApp(c, s', k)
  {
    if Relevant(c, s', k) {
      assert s'[k].labels == s[k].labels;
    }
  }

  lemma LighterWithout(c: Ref, s: Store, s': Store, gone: Key)
    requires Tame(c, s, s')
    requires Relevant(c, s, gone) && !Relevant(c, s', gone)
    ensures Weight(c, s') < Weight(c, s)
  {
    forall k | Relevant(c, s', k) ensures Relevant(c, s, k) && (!s'[k].terminating ==> !s[k].terminating) {
    }
    Smaller(RelevantKeys(c, s'), RelevantKeys(c, s), gone);
    NotLarger(UndeletedKeys(c, s'), UndeletedKeys(c, s));
  }

  lemma Smaller<T>(a: set<T>, b: set<T>, x: T)
    requires a <= b && x in b && x !in a
    ensures |a| < |b|
  {
    NotLarger(a, b - {x});
  }

  lemma {:induction false} NotLarger<T>(a: set<T>, b: set<T>)
    requires a <= b
    ensures |a| <= |b|
  {
    if a != {} {
      var x :| x in a;
      NotLarger(a - {x}, b - {x});
    }
  }

  /** Any pass from `s`, whatever fails in it and wherever it breaks off, and what the others make of it. */
  ghost predicate AnyPass(c: Ref, s: Store, s': Store) {
    exists job: Job, pcs: seq<Pc>, log: seq<Event> ::
      && job.cluster == c && Pass(job, pcs, log)
      && TameRun(c, s, log) && Tame(c, StoreAfter(s, log, |log|), s')
  }

  /** A teardown pass only lists, gets and deletes. */
  lemma {:induction false} PassIsTame(job: Job, s: Store, pcs: seq<Pc>, log: seq<Event>, n: nat)
    requires Pass(job, pcs, log) && TameRun(job.cluster, s, log) && n <= |log|
    ensures Tame(job.cluster, s, StoreAfter(s, log, n))
  {
    if n > 0 {
      var c, e := job.cluster, log[n - 1];
      PassIsTame(job, s, pcs, log, n - 1);
      PassEvidence(job, pcs, log, n - 1);
      assert StepAt(job, pcs, log, n - 1) && TameBefore(c, s, log, n - 1);
      CallIsTame(c, e);
      TameTransitive(c, s, StoreAfter(s, log, n - 1), e.pre);
      TameTransitive(c, s, e.pre, e.post);
    }
  }

  /** What no pass undoes, even one that fails: the measure never rises. */
  lemma AnyPassNeverRises(c: Ref, s: Store, s': Store)
    requires AnyPass(c, s, s')
    ensures Stage(c, s') <= Stage(c, s) && Weight(c, s') <= Weight(c, s)
    ensures NoFlux(c, s) ==> NoFlux(c, s')
  {
    var job: Job, pcs: seq<Pc>, log: seq<Event> :|
      && job.cluster == c && Pass(job, pcs, log)
      && TameRun(c, s, log) && Tame(c, StoreAfter(s, log, |log|), s');
    PassIsTame(job, s, pcs, log, |log|);
    TameTransitive(c, s, StoreAfter(s, log, |log|), s');
    TameNeverRises(c, s, s');
  }

  lemma TameNeverRises(c: Ref, s: Store, s': Store)
    requires Tame(c, s, s')
    ensures Stage(c, s') <= Stage(c, s) && Weight(c, s') <= Weight(c, s)
    ensures NoFlux(c, s) ==> NoFlux(c, s')
  {
    TameShrinks(c, s, s');
    assert OperatorKey(c, ChartOperatorKey(c)) && OperatorKey(c, AppOperatorKey(c));
    forall k | Relevant(c, s', k) ensures Relevant(c, s, k) && (!s'[k].terminating ==> !s[k].terminating) {
    }
    NotLarger(RelevantKeys(c, s'), RelevantKeys(c, s));
    NotLarger(UndeletedKeys(c, s'), UndeletedKeys(c, s));
  }

  /** `Some(outcome)` stands for a round in the sense above, `None` for any other pass. */
  type Passes = seq<Option<Outcome>>

  ghost predicate PassAt(c: Ref, stores: seq<Store>, passes: Passes, i: nat)
    requires i < |passes| && |stores| == |passes| + 1
  {
    match passes[i]
    case Some(outcome) => Round(c, stores[i], outcome, stores[i + 1])
    case None => AnyPass(c, stores[i], stores[i + 1])
  }

  ghost predicate PassesOf(c: Ref, stores: seq<Store>, passes: Passes) {
    && |stores| == |passes| + 1
    && forall i {:trigger PassAt(c, stores, passes, i)} :: 0 <= i < |passes| ==> PassAt(c, stores, passes, i)
  }

  /** How many of the first `n` passes are rounds. */
  function RoundsAmong(passes: Passes, n: nat): nat
    requires n <= |passes|
  {
    if n == 0 then 0 else RoundsAmong(passes, n - 1) + if passes[n - 1].Some? then 1 else 0
  }

  lemma {:induction false} PassesProgress(c: Ref, stores: seq<Store>, passes: Passes, n: nat)
    requires PassesOf(c, stores, passes) && NoFlux(c, stores[0]) && n <= |passes|
    requires forall i :: 0 <= i < n ==> passes[i] != Some(Released)
    ensures NoFlux(c, stores[n]) && Stage(c, stores[n]) + RoundsAmong(passes, n) <= Stage(c, stores[0])
    ensures Weight(c, stores[n]) + RoundsAmong(passes, n) <= Weight(c, stores[0])
  {
    if n > 0 {
      PassesProgress(c, stores, passes, n - 1);
      assert PassAt(c, stores, passes, n - 1) && passes[n - 1] != Some(Released);
      if passes[n - 1].Some? {
        RoundProgress(c, stores[n - 1], passes[n - 1].value, stores[n]);
      } else {
        AnyPassNeverRises(c, stores[n - 1], stores[n]);
      }
    }
  }

  /** Of any passes among which at least four are rounds, one of the rounds releases the finalizers, however
      many others fail or break off before, between or after them. */
  lemma FourPassesRelease(c: Ref, stores: seq<Store>, passes: Passes)
    requires PassesOf(c, stores, passes) && NoFlux(c, stores[0]) && RoundsAmong(passes, |passes|) >= 4
    ensures exists i :: 0 <= i < |passes| && passes[i] == Some(Released)
  {
    if forall i :: 0 <= i < |passes| ==> passes[i] != Some(Released) {
      PassesProgress(c, stores, passes, |passes|);
    }
  }

  // What blocks the release.

  ghost predicate StillThere(c: Ref, k: Key, log: seq<Event>, i: nat)
    requires i < |log|
  {
    ClusterApp(c, log[i].pre, k)
  }

  /** At each of the first `n` calls the App is still a cluster App. */
  ghost predicate Remains(c: Ref, k: Key, log: seq<Event>, n: nat)
    requires n <= |log|
  {
    forall i {:trigger StillThere(c, k, log, i)} :: 0 <= i < n ==> StillThere(c, k, log, i)
  }

  lemma RemainingIsSeen(job: Job, pcs: seq<Pc>, log: seq<Event>, k: Key, n: nat)
    requires Pass(job, pcs, log) && n <= |log| && Remains(job.cluster, k, log, n)
    ensures !ClusterAppsGone(job.cluster, log, n)
  {
    var c := job.cluster;
    forall i | 0 < i < n ensures !SawNoApps(c, log, i) {
      assert StepAt(job, pcs, log, i) && StillThere(c, k, log, i);
      if SawNoApps(c, log, i) {
        EmptyListing(c, log[i]);
      }
    }
  }

  /** A pass during which some cluster App never goes away does not release. */
  lemma RemainingAppBlocks(job: Job, pcs: seq<Pc>, log: seq<Event>, k: Key)
    requires Pass(job, pcs, log) && Remains(job.cluster, k, log, |log|)
    ensures Last(pcs) != Halted(Released)
  {
    ReleasedIffAllGone(job, pcs, log);
    RemainingIsSeen(job, pcs, log, k, |log|);
    assert forall i :: 0 < i < |log| ==> !SawNoApps(job.cluster, log, i);
  }

  /** Before call `i` the others left the App as the previous call had left it. */
  ghost predicate LeftAlone(k: Key, log: seq<Event>, i: nat)
    requires 0 < i < |log|
  {
    SameApp(log[i - 1].post, log[i].pre, k)
  }

  /** A cluster App that was not up for deletion is safe as long as it is there, an operator App included. */
  lemma RemainingIsSpared(job: Job, pcs: seq<Pc>, log: seq<Event>, k: Key, n: nat)
    requires Pass(job, pcs, log) && n < |log| && Remains(job.cluster, k, log, n)
    requires !Sweepable(job.cluster, log[0].pre, k)
    ensures SameApp(log[n].pre, log[n].post, k)
  {
    PassEvidence(job, pcs, log, n);
    RemainingIsSeen(job, pcs, log, k, n);
    assert StepAt(job, pcs, log, n);
    if pcs[n].Sweep? {
      SweptIsSweepable(job, pcs, log, n);
    }
    ServesOnlyItsKey(log[n], k);
  }

  lemma {:induction false} UnsweepableStays(job: Job, pcs: seq<Pc>, log: seq<Event>, k: Key, n: nat)
    requires Pass(job, pcs, log) && n < |log|
    requires ClusterApp(job.cluster, log[0].pre, k) && !Sweepable(job.cluster, log[0].pre, k)
    requires forall i {:trigger LeftAlone(k, log, i)} :: 0 < i < |log| ==> LeftAlone(k, log, i)
    ensures Remains(job.cluster, k, log, n + 1) && SameApp(log[0].pre, log[n].post, k)
  {
    if n > 0 {
      UnsweepableStays(job, pcs, log, k, n - 1);
      assert LeftAlone(k, log, n);
    }
    assert StillThere(job.cluster, k, log, n);
    RemainingIsSpared(job, pcs, log, k, n);
  }

  /** Why progress needs the absence of Flux apps: an App of the cluster that Flux manages, and that nobody
      else takes away, is never taken away by the operator either, and no pass releases. */
  lemma FluxAppBlocks(job: Job, pcs: seq<Pc>, log: seq<Event>, k: Key)
    requires Pass(job, pcs, log) && log != []
    requires ClusterApp(job.cluster, log[0].pre, k)
    requires FluxName in log[0].pre[k].labels && FluxNamespace in log[0].pre[k].labels
    requires forall i {:trigger LeftAlone(k, log, i)} :: 0 < i < |log| ==> LeftAlone(k, log, i)
    ensures Last(pcs) != Halted(Released)
    ensures SameApp(log[0].pre, Last(log).post, k)
  {
    UnsweepableStays(job, pcs, log, k, |log| - 1);
    RemainingAppBlocks(job, pcs, log, k);
  }
}
