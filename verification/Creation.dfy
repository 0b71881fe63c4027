/** `EnsureCreated` and the function it calls, proved to follow the machine of module Protocol. */
module Creation {
  import opened Objects
  import opened MergePatch
  import opened Api
  import opened ApiServers
  import opened Keys
  import opened OperatorApps
  import opened Clusters
  import opened Protocol
  import opened Convergence
  import opened NonInterference
  import opened CreationContract
  import opened Wrappers

  datatype OpError = Hard

  method CurrentApps(api: ApiServer, c: Ref) returns (r: Result<seq<Item>, OpError>)
    modifies api
    ensures var a := if r.Ok? then Items(r.value) else Failed;
            api.Answered(List(c.namespace, OperatorSelector(c.id)), a)
  {
    var answer := api.ListApps(c.namespace, OperatorSelector(c.id));
    if answer.Failed? {
      return Err(Hard);
    }
    var apps := [];
    for i := 0 to |answer.items|
      invariant apps == answer.items[..i]
    {
      apps := apps + [answer.items[i]];
    }
    return Ok(apps);
  }

  function CreationJob(r: Config, c: Ref): Job {
    Job(c, DesiredApps(r, c), 0, 0)
  }

  function Ended(err: Option<OpError>): Pc {
    Halted(if err.None? then Converged else Error)
  }

  /** The branch of `EnsureCreated` for an App that has changed. */
  method UpdateApp(api: ApiServer, app: Item, ghost current: seq<Item>, ghost job: Job, ghost rest: seq<Item>)
    returns (err: Option<OpError>, ghost calls: seq<Event>)
    modifies api
    ensures api.log == old(api.log) + calls
    ensures Reached(job, calls, FetchApp(app, rest, current), if err.None? then NextApp(rest, current) else Ended(err))
  {
    ghost var base := api.log;
    // Get the App again: the listing may be stale by now.
    var answer := api.GetApp(app.key);
    ghost var get := Last(api.log);
    calls := [get];
    if !answer.Found? {
      ReachedByOne(job, FetchApp(app, rest, current), get);
      return Some(Hard), calls;
    }

    var currentApp := answer.app;
    var modifiedApp := currentApp;
    modifiedApp := modifiedApp.(annotations := app.app.annotations);
    modifiedApp := modifiedApp.(labels := app.app.labels);
    modifiedApp := modifiedApp.(spec := app.app.spec);
    answer := api.PatchApp(app.key, DiffApp(currentApp, modifiedApp));
    ghost var patch := Last(api.log);
    ConcatAssociative(base, calls, [patch]);
    calls := calls + [patch];
    GetAndPatchFollow(job, app, rest, current, get, patch);
    if !answer.Done? {
      return Some(Hard), calls;
    }
    return None, calls;
  }

  lemma GetAndPatchFollow(job: Job, app: Item, rest: seq<Item>, current: seq<Item>, get: Event, patch: Event)
    requires Serves(get) && get.request == Get(app.key) && get.answer.Found?
    requires Serves(patch)
    requires patch.request == Patch(app.key, DiffApp(get.answer.app, Modified(get.answer.app, app.app)))
    ensures Reached(job, [get] + [patch], FetchApp(app, rest, current),
                    if patch.answer.Done? then NextApp(rest, current) else Halted(Error))
  {
    var from, via := FetchApp(app, rest, current), PatchApp(app, rest, current, get.answer.app);
    ReachedByOne(job, from, get);
    ReachedByOne(job, via, patch);
    ReachedConcat(job, [get], [patch], from, via, Advance(job, via, patch.answer));
  }

  /** The body of the loop of `EnsureCreated`, for one desired App. */
  method EnsureApp(api: ApiServer, app: Item, current: seq<Item>, ghost job: Job, ghost rest: seq<Item>)
    returns (err: Option<OpError>, ghost calls: seq<Event>)
    modifies api
    ensures api.log == old(api.log) + calls
    ensures Reached(job, calls, NextApp([app] + rest, current),
                    if err.None? then NextApp(rest, current) else Ended(err))
  {
    assert ([app] + rest)[1..] == rest;
    var found := FindAppByName(current, app.key.name, app.key.namespace);
    if found.None? {
      var answer := api.CreateApp(app);
      calls := [Last(api.log)];
      ReachedByOne(job, CreateApp(app, rest, current), Last(api.log));
      if answer.AlreadyExists? {
        return None, calls;
      } else if answer.Failed? {
        return Some(Hard), calls;
      }
    } else if HasAppChanged(found.value.app, app.app) {
      err, calls := UpdateApp(api, app, current, job, rest);
      return;
    } else {
      calls := [];
      ReachedBy(job, calls, [NextApp(rest, current)]);
    }
    return None, calls;
  }

  /** The whole creation pass is a run of the machine from `ListCurrent` to a halt. Undisturbed, it
      settles the store, or reports a hard error. No call touches the operator Apps of other clusters. */
  method EnsureCreated(r: Config, api: ApiServer, cr: Cluster)
    returns (err: Option<OpError>, ghost calls: seq<Event>)
    modifies api
    ensures api.log == old(api.log) + calls && calls != []
    ensures Reached(CreationJob(r, RefOf(cr)), calls, ListCurrent, Ended(err))
    ensures Quiet(calls[0].pre, calls) && err.None? ==>
              Last(calls).post == Settle(RefOf(cr), calls[0].pre, DesiredApps(r, RefOf(cr)))
    ensures Quiet(calls[0].pre, calls) && NoFailures(calls) ==> err.None?
    ensures SparesOthers(RefOf(cr), calls)
    ensures Label.Cluster in cr.labels && cr.labels[Label.Cluster] != "" ==>
              CreationOf(r, cr.namespace, cr.labels[Label.Cluster], calls, err.Some?)
    ensures (Label.Cluster in cr.labels ==> cr.labels[Label.Cluster] == "") && CapiCluster in cr.labels ==>
              CreationOf(r, cr.namespace, cr.labels[CapiCluster], calls, err.Some?)
    ensures (Label.Cluster in cr.labels ==> cr.labels[Label.Cluster] == "") && CapiCluster !in cr.labels ==>
              CreationOf(r, cr.namespace, "", calls, err.Some?)
  {
    var c := RefOf(cr);
    var desired := BuildDesiredApps(r, c);
    ghost var job := CreationJob(r, c);
    err, calls := EnsureApps(api, c, desired, job);
    DesiredAppsAreDesired(r, c);
    QuietReached(job, calls, Ended(err).outcome);
    WholePassSparesOthers(job, calls, ListCurrent, Ended(err));
    PassIsCreation(r, job, calls, Ended(err).outcome);
  }

  method EnsureApps(api: ApiServer, c: Ref, desired: seq<Item>, ghost job: Job)
    returns (err: Option<OpError>, ghost calls: seq<Event>)
    requires job.cluster == c && job.desired == desired
    modifies api
    ensures api.log == old(api.log) + calls
    ensures Reached(job, calls, ListCurrent, Ended(err))
  {
    ghost var base := api.log;
    var current := CurrentApps(api, c);
    calls := [Last(api.log)];
    ReachedByOne(job, ListCurrent, Last(api.log));
    if current.Err? {
      return Some(current.error), calls;
    }
    for i := 0 to |desired|
      invariant api.log == base + calls
      invariant Reached(job, calls, ListCurrent, NextApp(desired[i..], current.value))
    {
      ghost var more;
      assert desired[i..] == [desired[i]] + desired[i + 1..];
      err, more := EnsureApp(api, desired[i], current.value, job, desired[i + 1..]);
      ConcatAssociative(base, calls, more);
      ReachedConcat(job, calls, more, ListCurrent, NextApp(desired[i..], current.value),
                    if err.None? then NextApp(desired[i + 1..], current.value) else Ended(err));
      calls := calls + more;
      if err.Some? {
        return err, calls;
      }
    }
    return None, calls;
  }
}
