/** `EnsureDeleted` and the functions it calls, proved to follow the machine of module Protocol. */
module Teardown {
  import opened Objects
  import opened Api
  import opened ApiServers
  import opened Keys
  import opened OperatorApps
  import opened Clusters
  import opened Protocol
  import opened TeardownTrace
  import opened NonInterference
  import opened TeardownContract
  import opened Wrappers

  datatype OpError = NotDeleted | Hard

  /** The calls of one `deleteClusterApps`: the eligible Apps in order, each requested once, up to and
      including the first hard error. NotFound stops nothing. */
  ghost predicate SweepTrace(apps: seq<Item>, calls: seq<Event>, failed: bool) {
    SweepCalls(EligibleItems(apps), calls, failed)
  }

  ghost predicate SweepCalls(e: seq<Item>, calls: seq<Event>, failed: bool) {
    && |calls| <= |e|
    && (forall i {:trigger SweepCall(e, calls, i)} :: 0 <= i < |calls| ==> SweepCall(e, calls, i))
    && (failed <==> |calls| > 0 && Last(calls).answer.Failed?)
    && (!failed ==> |calls| == |e|)
  }

  ghost predicate SweepCall(e: seq<Item>, calls: seq<Event>, i: nat)
    requires i < |calls| <= |e|
  {
    && Serves(calls[i])
    && calls[i].request == Delete(e[i].key)
    && (i < |calls| - 1 ==> !calls[i].answer.Failed?)
  }

  /** The calls of one `waitForAppDeletion`: one Delete, then Gets until NotFound or until the time is
      up. It ends well exactly when some answer was NotFound. */
  ghost predicate WaitTrace(k: Key, retries: nat, calls: seq<Event>, gone: bool) {
    && 0 < |calls| <= retries + 2
    && (!gone ==> |calls| == retries + 2)
    && (forall i {:trigger WaitCall(k, calls, i)} :: 0 <= i < |calls| ==> WaitCall(k, calls, i))
    && (gone <==> Last(calls).answer.NotFound?)
  }

  ghost predicate WaitCall(k: Key, calls: seq<Event>, i: nat)
    requires i < |calls|
  {
    && Serves(calls[i])
    && calls[i].request == (if i == 0 then Delete(k) else Get(k))
    && (i < |calls| - 1 ==> !calls[i].answer.NotFound?)
  }

  lemma {:induction false} EligibleConcat(a: seq<Item>, b: seq<Item>)
    ensures EligibleItems(a + b) == EligibleItems(a) + EligibleItems(b)
  {
    if a == [] {
      assert a + b == b;
    } else {
      assert (a + b)[1..] == a[1..] + b;
      EligibleConcat(a[1..], b);
    }
  }

  lemma EligibleStep(apps: seq<Item>, i: nat)
    requires i < |apps|
    ensures EligibleItems(apps[..i + 1])
         == EligibleItems(apps[..i]) + if Eligible(apps[i]) then [apps[i]] else []
  {
    var one := [apps[i]];
    assert apps[..i + 1] == apps[..i] + one;
    EligibleConcat(apps[..i], one);
    assert one[1..] == [];
    assert EligibleItems(one) == if Eligible(apps[i]) then [apps[i]] else [];
  }

  lemma SweepSkips(apps: seq<Item>, i: nat, calls: seq<Event>)
    requires i < |apps| && !Eligible(apps[i]) && SweepTrace(apps[..i], calls, false)
    ensures SweepTrace(apps[..i + 1], calls, false)
  {
    EligibleStep(apps, i);
    assert EligibleItems(apps[..i + 1]) == EligibleItems(apps[..i]);
  }

  lemma SweepAsks(apps: seq<Item>, i: nat, calls: seq<Event>, call: Event)
    requires i < |apps| && Eligible(apps[i]) && SweepTrace(apps[..i], calls, false)
    requires Serves(call) && call.request == Delete(apps[i].key)
    ensures SweepTrace(apps[..i + 1], calls + [call], call.answer.Failed?)
  {
    EligibleStep(apps, i);
    var e, longer, all := EligibleItems(apps[..i]), EligibleItems(apps[..i + 1]), calls + [call];
    forall j | 0 <= j < |all| ensures SweepCall(longer, all, j) {
      if j < |calls| {
        assert SweepCall(e, calls, j);
      }
    }
  }

  lemma SweepStops(apps: seq<Item>, i: nat, calls: seq<Event>)
    requires i <= |apps| && SweepTrace(apps[..i], calls, true)
    ensures SweepTrace(apps, calls, true)
  {
    EligibleConcat(apps[..i], apps[i..]);
    assert apps[..i] + apps[i..] == apps;
    forall j | 0 <= j < |calls| ensures SweepCall(EligibleItems(apps), calls, j) {
      assert SweepCall(EligibleItems(apps[..i]), calls, j);
    }
  }

  /** Calls of a wait that has not seen NotFound yet. */
  ghost predicate Waiting(k: Key, calls: seq<Event>) {
    && 0 < |calls|
    && !Last(calls).answer.NotFound?
    && (forall i {:trigger WaitCall(k, calls, i)} :: 0 <= i < |calls| ==> WaitCall(k, calls, i))
  }

  lemma WaitAsks(k: Key, calls: seq<Event>, call: Event)
    requires Waiting(k, calls) && Serves(call) && call.request == Get(k)
    ensures call.answer.NotFound? ==>
              forall retries | |calls| < retries + 2 :: WaitTrace(k, retries, calls + [call], true)
    ensures !call.answer.NotFound? ==> Waiting(k, calls + [call])
  {
    var all := calls + [call];
    forall i | 0 <= i < |all| ensures WaitCall(k, all, i) {
      if i < |calls| {
        assert WaitCall(k, calls, i);
      }
    }
  }

  method GetClusterApps(api: ApiServer, c: Ref) returns (r: Result<seq<Item>, OpError>)
    modifies api
    ensures var a := if r.Ok? then Items(r.value) else Failed;
            api.Answered(List(c.namespace, ClusterAppSelector(c.id)), a)
  {
    var answer := api.ListApps(c.namespace, ClusterAppSelector(c.id));
    if answer.Failed? {
      return Err(Hard);
    }
    var apps := [];
    for i := 0 to |answer.items|
      invariant apps == answer.items[..i]
    {
      apps := apps + [answer.items[i]];
    }
    return Ok(apps);
  }

  method DeleteClusterApps(api: ApiServer, apps: seq<Item>) returns (err: Option<OpError>, ghost calls: seq<Event>)
    modifies api
    ensures api.log == old(api.log) + calls
    ensures SweepTrace(apps, calls, err.Some?)
    ensures SweptByLabels(apps, calls, err.Some?)
  {
    calls := [];
    for i := 0 to |apps|
      invariant api.log == old(api.log) + calls
      invariant SweepTrace(apps[..i], calls, false)
    {
      var app := apps[i];
      if IsManagedByFlux(app.app) {
        SweepSkips(apps, i, calls);
        continue;
      }
      if app.app.terminating {
        SweepSkips(apps, i, calls);
        continue;
      }
      var answer := api.DeleteApp(app.key);
      SweepAsks(apps, i, calls, Last(api.log));
      calls := calls + [Last(api.log)];
      if answer.NotFound? {
        continue;
      } else if answer.Failed? {
        SweepStops(apps, i + 1, calls);
        SweepByLabels(apps, calls, true);
        return Some(Hard), calls;
      }
    }
    assert apps[..|apps|] == apps;
    SweepByLabels(apps, calls, false);
    return None, calls;
  }

  /** The only error is `NotDeleted`: hard errors of the Delete and of the probes end up there too. */
  method WaitForAppDeletion(api: ApiServer, c: Ref, appName: string, desiredApps: seq<Item>, retries: nat)
    returns (err: Option<OpError>, ghost calls: seq<Event>)
    requires FindAppByName(desiredApps, appName, c.namespace).Some?
    modifies api
    ensures err == None || err == Some(NotDeleted)
    ensures api.log == old(api.log) + calls
    ensures WaitTrace(Key(c.namespace, appName), retries, calls, err.None?)
  {
    var app := FindAppByName(desiredApps, appName, c.namespace).value;
    var answer := api.DeleteApp(app.key);
    calls := [Last(api.log)];
    assert WaitCall(app.key, calls, 0);
    if answer.NotFound? {
      return None, calls;
    }
    var left: nat := retries;
    while true
      invariant api.log == old(api.log) + calls
      invariant left <= retries && |calls| == retries - left + 1
      invariant Waiting(app.key, calls) && app.key == Key(c.namespace, appName)
      decreases left
    {
      answer := api.GetApp(Key(c.namespace, appName));
      WaitAsks(app.key, calls, Last(api.log));
      calls := calls + [Last(api.log)];
      if answer.NotFound? {
        return None, calls;
      }
      if answer.Found? {
        app := Item(app.key, answer.app);
      }
      if left == 0 {
        return Some(NotDeleted), calls;
      }
      left := left - 1;
    }
  }

  method Cancel(ctx: Context)
    modifies ctx
    ensures ctx.finalizersKept
  {
    ctx.SetKept();
  }

  /** How the caller of `EnsureDeleted` sees the end of the pass. */
  predicate Reports(outcome: Outcome, err: Option<OpError>, keptBefore: bool, keptAfter: bool) {
    match outcome
    case Released => err.None? && keptAfter == keptBefore
    case Kept => err.None? && keptAfter
    case Error => err.Some? && keptAfter == keptBefore
    case Converged => false
  }

  /** The part of `EnsureDeleted` before the two operators: `clear` says that the pass may go on. */
  method RemoveClusterApps(api: ApiServer, c: Ref, ghost job: Job)
    returns (err: Option<OpError>, clear: bool, ghost calls: seq<Event>)
    requires job.cluster == c
    modifies api
    ensures api.log == old(api.log) + calls
    ensures err.Some? ==> Reached(job, calls, List1, Halted(Error))
    ensures err.None? ==> Reached(job, calls, List1, if clear then DelChart else Halted(Kept))
  {
    ghost var base := api.log;
    var found := GetClusterApps(api, c);
    ghost var first := [Last(api.log)];
    if found.Err? {
      ReachedByOne(job, List1, Last(api.log));
      return Some(found.error), false, first;
    }

    ghost var sweep;
    err, sweep := DeleteClusterApps(api, found.value);
    calls := first + sweep;
    ConcatAssociative(base, first, sweep);
    ListAndSweepFollow(job, first[0], found.value, sweep, err.Some?);
    if err.Some? {
      return None, false, calls;
    }

    found := GetClusterApps(api, c);
    ghost var second := [Last(api.log)];
    ConcatAssociative(base, calls, second);
    ReachedByOne(job, List2, Last(api.log));
    ReachedConcat(job, calls, second, List1, List2, Advance(job, List2, Last(api.log).answer));
    calls := calls + second;
    if found.Err? {
      return Some(found.error), false, calls;
    }
    return None, |found.value| == 0, calls;
  }

  /** The rest of `EnsureDeleted`: chart-operator, then app-operator. */
  method RemoveOperators(r: Config, api: ApiServer, c: Ref, chartRetries: nat, appOpRetries: nat, ghost job: Job)
    returns (err: Option<OpError>, ghost calls: seq<Event>)
    requires job.cluster == c && job.chartRetries == chartRetries && job.appOpRetries == appOpRetries
    modifies api
    ensures api.log == old(api.log) + calls
    ensures err == None || err == Some(NotDeleted)
    ensures Reached(job, calls, DelChart, Halted(if err.None? then Released else Kept))
  {
    ghost var base := api.log;
    var desiredApps := BuildDesiredApps(r, c);
    LookupDesired(desiredApps, c);

    err, calls := WaitForAppDeletion(api, c, ChartOperatorAppName(c.id), desiredApps, chartRetries);
    WaitFollows(job, false, calls, err.None?);
    if err == Some(NotDeleted) {
      return;
    } else if err.Some? {
      assert false;
    }

    ghost var more;
    err, more := WaitForAppDeletion(api, c, c.id + "-app-operator", desiredApps, appOpRetries);
    ConcatAssociative(base, calls, more);
    WaitFollows(job, true, more, err.None?);
    ReachedConcat(job, calls, more, DelChart, DelAppOp, WaitEnd(true, err.None?));
    calls := calls + more;
  }

  /** The whole teardown pass: what it asked and what it was told is a run of the machine from `List1`
      to a halt, and the way it halted is what the caller sees. The pass returns nil without keeping the
      finalizers exactly when it saw everything gone, and it asks in the right order unless its first
      listing puts an operator up for deletion. No call touches the operator Apps of other clusters. */
  method EnsureDeleted(r: Config, api: ApiServer, ctx: Context, cr: Cluster, chartRetries: nat, appOpRetries: nat)
    returns (err: Option<OpError>, ghost calls: seq<Event>, ghost outcome: Outcome)
    modifies api, ctx
    ensures api.log == old(api.log) + calls && calls != []
    ensures Reached(TeardownJob(RefOf(cr), chartRetries, appOpRetries), calls, List1, Halted(outcome))
    ensures Reports(outcome, err, old(ctx.finalizersKept), ctx.finalizersKept)
    ensures outcome == Released <==> AllGone(RefOf(cr), calls, |calls|)
    ensures OperatorsSpared(RefOf(cr), calls[0].pre) ==> OrderKept(RefOf(cr), calls)
    ensures SparesOthers(RefOf(cr), calls)
    ensures Label.Cluster in cr.labels && cr.labels[Label.Cluster] != "" ==>
              TeardownOf(cr.namespace, cr.labels[Label.Cluster], calls, outcome)
    ensures (Label.Cluster in cr.labels ==> cr.labels[Label.Cluster] == "") && CapiCluster in cr.labels ==>
              TeardownOf(cr.namespace, cr.labels[CapiCluster], calls, outcome)
    ensures (Label.Cluster in cr.labels ==> cr.labels[Label.Cluster] == "") && CapiCluster !in cr.labels ==>
              TeardownOf(cr.namespace, "", calls, outcome)
  {
    var c := RefOf(cr);
    ghost var base, job := api.log, TeardownJob(c, chartRetries, appOpRetries);

    var clear;
    err, clear, calls := RemoveClusterApps(api, c, job);
    if err.Some? {
      outcome := Error;
      Guarantees(job, calls, outcome);
      return;
    } else if !clear {
      Cancel(ctx);
      outcome := Kept;
      Guarantees(job, calls, outcome);
      return;
    }

    ghost var more;
    err, more := RemoveOperators(r, api, c, chartRetries, appOpRetries, job);
    ConcatAssociative(base, calls, more);
    outcome := if err.None? then Released else Kept;
    ReachedConcat(job, calls, more, List1, DelChart, Halted(outcome));
    calls := calls + more;
    Guarantees(job, calls, outcome);
    if err == Some(NotDeleted) {
      ctx.SetKept();
      err := None;
    } else if err.Some? {
      assert false;
    }
  }

  lemma Guarantees(job: Job, calls: seq<Event>, outcome: Outcome)
    requires Reached(job, calls, List1, Halted(outcome))
    ensures calls != []
    ensures outcome == Released <==> AllGone(job.cluster, calls, |calls|)
    ensures OperatorsSpared(job.cluster, calls[0].pre) ==> OrderKept(job.cluster, calls)
    ensures SparesOthers(job.cluster, calls)
    ensures TeardownOf(job.cluster.namespace, job.cluster.id, calls, outcome)
  {
    PassIsTeardown(job, calls, outcome);
    PassGuarantees(job, calls, outcome);
    WholePassSparesOthers(job, calls, List1, Halted(outcome));
  }

  lemma {:induction false} EligibleDistinct(items: seq<Item>)
    requires forall i, j :: 0 <= i < j < |items| ==> items[i].key != items[j].key
    ensures var e := EligibleItems(items); forall i, j :: 0 <= i < j < |e| ==> e[i].key != e[j].key
  {
    if items != [] {
      var rest := EligibleItems(items[1..]);
      EligibleDistinct(items[1..]);
      forall i | 0 <= i < |rest| ensures rest[i].key != items[0].key {
        EligibleMembers(items[1..], rest[i]);
      }
    }
  }

  lemma SweepRequests(e: seq<Item>, calls: seq<Event>, failed: bool)
    requires SweepCalls(e, calls, failed)
    ensures forall i :: 0 <= i < |calls| ==> calls[i].request == Delete(e[i].key)
    ensures forall i :: 0 <= i < |calls| - 1 ==> !calls[i].answer.Failed?
  {
    forall i | 0 <= i < |calls|
      ensures calls[i].request == Delete(e[i].key) && (i < |calls| - 1 ==> !calls[i].answer.Failed?)
    {
      assert SweepCall(e, calls, i);
    }
  }

  /** The list has an App under that key that lacks one of the two Flux labels and has no deletion
      timestamp. */
  predicate Sweeps(apps: seq<Item>, k: Key) {
    exists item <- apps ::
      && item.key == k && !item.app.terminating
      && !(FluxName in item.app.labels && FluxNamespace in item.app.labels)
  }

  /** Only such Apps were asked to go, and without a hard error all of them. */
  ghost predicate SweptByLabels(apps: seq<Item>, calls: seq<Event>, failed: bool) {
    && (forall i {:trigger Sweeps(apps, calls[i].request.key)} :: 0 <= i < |calls| ==>
          calls[i].request.Delete? && Sweeps(apps, calls[i].request.key))
    && (!failed ==> forall k {:trigger Sweeps(apps, k)} :: Sweeps(apps, k) ==> AskedFor(calls, |calls|, k))
  }

  /** What a sweep asks for, by labels. */
  lemma SweepByLabels(apps: seq<Item>, calls: seq<Event>, failed: bool)
    requires SweepTrace(apps, calls, failed)
    ensures SweptByLabels(apps, calls, failed)
  {
    var e := EligibleItems(apps);
    SweepRequests(e, calls, failed);
    forall i | 0 <= i < |calls| ensures calls[i].request.Delete? && Sweeps(apps, calls[i].request.key) {
      EligibleMembers(apps, e[i]);
    }
    if !failed {
      forall k | Sweeps(apps, k) ensures AskedFor(calls, |calls|, k) {
        var item :| item in apps && item.key == k && !item.app.terminating
          && !(FluxName in item.app.labels && FluxNamespace in item.app.labels);
        EligibleMembers(apps, item);
        var j :| 0 <= j < |e| && e[j] == item;
        assert calls[j].request == Delete(k);
      }
    }
  }

  /** A sweep of a listing that met no hard error asked for exactly the listed Apps that are neither
      managed by Flux nor stamped, and for each of them once. */
  lemma SweepOfListing(s: Store, namespace: string, selector: Selector, items: seq<Item>, calls: seq<Event>, k: Key)
    requires IsListing(s, namespace, selector, items) && SweepTrace(items, calls, false)
    ensures AskedFor(calls, |calls|, k) <==>
              && Selected(s, namespace, selector, k) && !s[k].terminating
              && !(FluxName in s[k].labels && FluxNamespace in s[k].labels)
    ensures forall i, j :: 0 <= i < j < |calls| ==> calls[i].request != calls[j].request
  {
    var e := EligibleItems(items);
    EligibleDistinct(items);
    SweepRequests(e, calls, false);
    if AskedFor(calls, |calls|, k) {
      var i :| 0 <= i < |calls| && calls[i].request == Delete(k);
      EligibleMembers(items, e[i]);
    }
    if Selected(s, namespace, selector, k) && Eligible(Item(k, s[k])) {
      assert Lists(items, k);
      var i :| 0 <= i < |items| && items[i].key == k;
      EligibleMembers(items, items[i]);
      var j :| 0 <= j < |e| && e[j] == items[i];
      assert calls[j].request == Delete(k);
    }
  }

  lemma {:induction false} EligiblePrefix(items: seq<Item>, n: nat) returns (m: nat)
    requires 0 < n <= |EligibleItems(items)|
    ensures 0 < m <= |items| && Eligible(items[m - 1])
    ensures EligibleItems(items[..m]) == EligibleItems(items)[..n] && EligibleItems(items)[n - 1] == items[m - 1]
  {
    m := |items|;
    var front := items[..m - 1];
    EligibleStep(items, m - 1);
    assert items[..m] == items;
    if n <= |EligibleItems(front)| {
      m := EligiblePrefix(front, n);
      assert items[..m] == front[..m];
    }
  }

  /** A sweep that met a hard error asked for exactly the eligible ones of a prefix of the list, which
      ends with the App whose deletion failed. */
  lemma SweepUpToError(items: seq<Item>, calls: seq<Event>) returns (m: nat)
    requires SweepTrace(items, calls, true)
    ensures 0 < m <= |items| && Last(calls).request == Delete(items[m - 1].key)
    ensures |EligibleItems(items[..m])| == |calls|
    ensures forall i :: 0 <= i < |calls| ==> calls[i].request == Delete(EligibleItems(items[..m])[i].key)
    ensures forall i :: 0 <= i < |calls| - 1 ==> !calls[i].answer.Failed?
  {
    m := EligiblePrefix(items, |calls|);
    SweepRequests(EligibleItems(items), calls, true);
  }

  function SweepEnd(failed: bool): Pc {
    if failed then Halted(Kept) else List2
  }

  lemma SweepFollows(job: Job, apps: seq<Item>, calls: seq<Event>, failed: bool)
    requires SweepTrace(apps, calls, failed)
    ensures Reached(job, calls, SweepFrom(EligibleItems(apps)), SweepEnd(failed))
  {
    var pcs := SweepRun(job, EligibleItems(apps), calls, failed);
    ReachedBy(job, calls, pcs);
  }

  lemma ListAndSweepFollow(job: Job, list: Event, apps: seq<Item>, sweep: seq<Event>, failed: bool)
    requires Serves(list) && list.request == RequestAt(job, List1) && list.answer == Items(apps)
    requires SweepTrace(apps, sweep, failed)
    ensures Reached(job, [list] + sweep, List1, SweepEnd(failed))
  {
    ReachedByOne(job, List1, list);
    SweepFollows(job, apps, sweep, failed);
    ReachedConcat(job, [list], sweep, List1, SweepFrom(EligibleItems(apps)), SweepEnd(failed));
  }

  lemma SweepRun(job: Job, e: seq<Item>, calls: seq<Event>, failed: bool) returns (pcs: seq<Pc>)
    requires SweepCalls(e, calls, failed)
    ensures Run(job, pcs, calls) && pcs[0] == SweepFrom(e) && Last(pcs) == SweepEnd(failed)
  {
    var n := |calls|;
    pcs := seq(n + 1, i requires 0 <= i <= n => SweepAt(e, i, failed && i == n));
    forall i | 0 <= i < n ensures StepAt(job, pcs, calls, i) {
      assert SweepCall(e, calls, i);
      SweepStep(job, e, i, calls[i], failed && i + 1 == n);
    }
    assert SweepAt(e, 0, false) == SweepFrom(e) by {
      assert e[0..] == e;
    }
    assert pcs[0] == SweepAt(e, 0, failed && 0 == n);
    assert pcs[n] == SweepAt(e, n, failed && n == n);
  }

  function SweepAt(e: seq<Item>, i: nat, stopped: bool): Pc
    requires i <= |e|
  {
    if stopped then Halted(Kept) else SweepFrom(e[i..])
  }

  lemma SweepStep(job: Job, e: seq<Item>, i: nat, call: Event, stops: bool)
    requires i < |e| && Serves(call) && call.request == Delete(e[i].key) && (stops <==> call.answer.Failed?)
    ensures Step(job, SweepAt(e, i, false), call, SweepAt(e, i + 1, stops))
  {
    assert e[i..][1..] == e[i + 1..];
  }

  function WaitKey(c: Ref, second: bool): Key {
    if second then AppOperatorKey(c) else ChartOperatorKey(c)
  }

  function WaitStart(second: bool): Pc {
    if second then DelAppOp else DelChart
  }

  function WaitProbe(second: bool, left: nat): Pc {
    if second then ProbeAppOp(left) else ProbeChart(left)
  }

  function WaitEnd(second: bool, gone: bool): Pc {
    if !gone then Halted(Kept) else if second then Halted(Released) else DelAppOp
  }

  function WaitRetries(job: Job, second: bool): nat {
    if second then job.appOpRetries else job.chartRetries
  }

  lemma WaitFollows(job: Job, second: bool, calls: seq<Event>, gone: bool)
    requires WaitTrace(WaitKey(job.cluster, second), WaitRetries(job, second), calls, gone)
    ensures Reached(job, calls, WaitStart(second), WaitEnd(second, gone))
  {
    var n, retries := |calls|, WaitRetries(job, second);
    var pcs := seq(n + 1, i requires 0 <= i <= n =>
      if i == n then WaitEnd(second, gone) else WaitAt(second, retries, i));
    forall i | 0 <= i < n ensures StepAt(job, pcs, calls, i) {
      assert WaitCall(WaitKey(job.cluster, second), calls, i);
      WaitStep(job, second, i, calls[i], i + 1 == n);
    }
    ReachedBy(job, calls, pcs);
  }

  function WaitAt(second: bool, retries: nat, i: nat): Pc
    requires i <= retries + 1
  {
    if i == 0 then WaitStart(second) else WaitProbe(second, retries + 1 - i)
  }

  lemma WaitStep(job: Job, second: bool, i: nat, call: Event, last: bool)
    requires i <= WaitRetries(job, second) + 1
    requires Serves(call)
    requires call.request == if i == 0 then Delete(WaitKey(job.cluster, second)) else Get(WaitKey(job.cluster, second))
    requires call.answer.NotFound? ==> last
    requires last ==> call.answer.NotFound? || i == WaitRetries(job, second) + 1
    requires !last ==> i <= WaitRetries(job, second)
    ensures var retries := WaitRetries(job, second);
            Step(job, WaitAt(second, retries, i), call,
                 if last then WaitEnd(second, call.answer.NotFound?) else WaitAt(second, retries, i + 1))
  {
  }
}
