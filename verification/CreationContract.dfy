/**
 What a whole creation pass asks and how it ends, for a namespace and a cluster ID, in terms of the labels
 and names themselves.
 */
module CreationContract {
  import opened Objects
  import opened MergePatch
  import opened Api
  import opened Keys
  import opened OperatorApps
  import opened Protocol
  import opened Convergence

  /** One of the two desired Apps, under its name. */
  predicate Wanted(r: Config, namespace: string, id: string, d: Item) {
    || (d.key == Key(namespace, id + "-app-operator") && InstallsAppOperator(r, namespace, id, d.app))
    || (d.key == Key(namespace, id + "-chart-operator") && InstallsChartOperator(r, namespace, id, d.app))
  }

  /** A patch sets annotations, labels and spec, and nothing else, on what the call before it fetched. */
  predicate PatchesFetched(calls: seq<Event>, n: nat, d: Item)
    requires n < |calls|
  {
    && n > 0 && calls[n - 1].request == Get(d.key) && calls[n - 1].answer.Found?
    && var fetched := calls[n - 1].answer.app;
    && calls[n].request == Patch(d.key, AppPatch(
         Diff(fetched.labels, d.app.labels),
         Diff(fetched.annotations, d.app.annotations),
         Diff(fetched.spec, d.app.spec)))
  }

  /** A call after the listing creates, fetches or patches one of the two desired Apps. */
  ghost predicate WritesWanted(r: Config, namespace: string, id: string, calls: seq<Event>, n: nat)
    requires n < |calls|
  {
    exists d :: Wanted(r, namespace, id, d) && Writes(calls, n, d)
  }

  /** A call got what it asked for; that an App to be created already exists counts as that. */
  predicate Satisfied(e: Event) {
    match e.request
    case List(_, _) => e.answer.Items?
    case Get(_) => e.answer.Found?
    case Create(_, _) => e.answer.Done? || e.answer.AlreadyExists?
    case Patch(_, _) => e.answer.Done?
    case Delete(_) => false
  }

  ghost predicate CreationOf(r: Config, namespace: string, id: string, calls: seq<Event>, failed: bool) {
    && calls != []
    && calls[0].request == List(namespace, [Equal(Cluster, id), Equal(ManagedBy, "cluster-apps-operator")])
    && (forall n {:trigger WritesWanted(r, namespace, id, calls, n)} :: 0 < n < |calls| ==>
          WritesWanted(r, namespace, id, calls, n))
    && (failed <==> exists n {:trigger calls[n]} :: 0 <= n < |calls| && !Satisfied(calls[n]))
    && (Quiet(calls[0].pre, calls) && !failed ==>
          Last(calls).post == Settle(Ref(namespace, id), calls[0].pre, DesiredApps(r, Ref(namespace, id))))
  }

  /** Only what the machine has just fetched is patched. */
  lemma FetchedBefore(job: Job, pcs: seq<Pc>, log: seq<Event>, n: nat)
    requires CreationPass(job, pcs, log) && n < |log| && pcs[n].PatchApp?
    ensures n > 0 && log[n - 1].request == Get(pcs[n].item.key) && log[n - 1].answer == Found(pcs[n].fetched)
  {
    PassWorksOnDesired(job, pcs, log, n - 1);
    assert StepAt(job, pcs, log, n - 1);
    StepToPatch(job, pcs[n - 1], log[n - 1], pcs[n]);
  }

  lemma StepToPatch(job: Job, pc: Pc, e: Event, pc': Pc)
    requires WorksOnDesired(job, pc) && Step(job, pc, e, pc') && pc'.PatchApp?
    ensures e.request == Get(pc'.item.key) && e.answer == Found(pc'.fetched)
  {
    NextNeverPatches(job.desired, if e.answer.Items? then e.answer.items else []);
    if pc.CreateApp? || pc.PatchApp? {
      NextNeverPatches(pc.rest, pc.current);
    }
  }

  lemma {:induction false} NextNeverPatches(todo: seq<Item>, current: seq<Item>)
    ensures !NextApp(todo, current).PatchApp? && NextApp(todo, current) != Halted(Error)
  {
    if todo != [] {
      NextNeverPatches(todo[1..], current);
    }
  }

  lemma DesiredIsWanted(r: Config, c: Ref, i: nat)
    requires i < |DesiredApps(r, c)|
    ensures Wanted(r, c.namespace, c.id, DesiredApps(r, c)[i])
  {
    DesiredAppsAreDesired(r, c);
    if i == 0 {
      AppOperatorContents(r, c);
    } else {
      ChartOperatorContents(r, c);
    }
  }

  predicate Writes(calls: seq<Event>, n: nat, d: Item)
    requires n < |calls|
  {
    calls[n].request == Create(d.key, d.app) || calls[n].request == Get(d.key) || PatchesFetched(calls, n, d)
  }

  lemma CallWrites(job: Job, pcs: seq<Pc>, log: seq<Event>, n: nat) returns (d: Item)
    requires CreationPass(job, pcs, log) && 0 < n < |log|
    ensures d in job.desired && Writes(log, n, d)
  {
    PassWorksOnDesired(job, pcs, log, n);
    PastTheListing(job, pcs, log, n);
    assert StepAt(job, pcs, log, n);
    StepWorksOnDesired(job, pcs[n], log[n], pcs[n + 1]);
    d := pcs[n].item;
    if pcs[n].PatchApp? {
      FetchedBefore(job, pcs, log, n);
    }
  }

  lemma CallWritesWanted(r: Config, job: Job, pcs: seq<Pc>, log: seq<Event>, n: nat)
    requires CreationPass(job, pcs, log) && job.desired == DesiredApps(r, job.cluster) && 0 < n < |log|
    ensures WritesWanted(r, job.cluster.namespace, job.cluster.id, log, n)
  {
    var d := CallWrites(job, pcs, log, n);
    var i :| 0 <= i < |job.desired| && job.desired[i] == d;
    DesiredIsWanted(r, job.cluster, i);
  }

  lemma PastTheListing(job: Job, pcs: seq<Pc>, log: seq<Event>, n: nat)
    requires CreationPass(job, pcs, log) && 0 < n < |log|
    ensures pcs[n].CreateApp? || pcs[n].FetchApp? || pcs[n].PatchApp?
  {
    PassWorksOnDesired(job, pcs, log, n);
    PassWorksOnDesired(job, pcs, log, n - 1);
    assert StepAt(job, pcs, log, n - 1);
    RunsOn(job, pcs, log, n);
    NeverBack(job, pcs[n - 1], log[n - 1], pcs[n]);
  }

  lemma NeverBack(job: Job, pc: Pc, e: Event, pc': Pc)
    requires WorksOnDesired(job, pc) && Step(job, pc, e, pc')
    ensures !pc'.ListCurrent?
  {
    NeverListsAgain(job.desired, if e.answer.Items? then e.answer.items else []);
    if pc.CreateApp? || pc.PatchApp? {
      NeverListsAgain(pc.rest, pc.current);
    }
  }

  lemma {:induction false} NeverListsAgain(todo: seq<Item>, current: seq<Item>)
    ensures !NextApp(todo, current).ListCurrent?
  {
    if todo != [] {
      NeverListsAgain(todo[1..], current);
    }
  }

  /** An unsatisfied call, and nothing else, ends the pass with an error. */
  lemma StepFails(job: Job, pc: Pc, e: Event, pc': Pc)
    requires WorksOnDesired(job, pc) && Step(job, pc, e, pc')
    ensures pc' == Halted(Error) <==> !Satisfied(e)
  {
    NextNeverPatches(job.desired, if e.answer.Items? then e.answer.items else []);
    if pc.CreateApp? || pc.PatchApp? {
      NextNeverPatches(pc.rest, pc.current);
    }
  }

  lemma ErrorIffUnsatisfied(job: Job, pcs: seq<Pc>, log: seq<Event>)
    requires CreationPass(job, pcs, log) && Last(pcs).Halted?
    ensures Last(pcs) == Halted(Error) <==> exists n {:trigger log[n]} :: 0 <= n < |log| && !Satisfied(log[n])
  {
    forall n | 0 <= n < |log| ensures !Satisfied(log[n]) <==> pcs[n + 1] == Halted(Error) {
      PassWorksOnDesired(job, pcs, log, n);
      assert StepAt(job, pcs, log, n);
      StepFails(job, pcs[n], log[n], pcs[n + 1]);
      if pcs[n + 1] == Halted(Error) && n + 1 < |log| {
        RunsOn(job, pcs, log, n + 1);
      }
    }
    if Last(pcs) == Halted(Error) {
      assert !Satisfied(log[|log| - 1]);
    } else {
      forall n | 0 <= n < |log| ensures Satisfied(log[n]) {
        if n + 1 < |log| {
          RunsOn(job, pcs, log, n + 1);
        }
      }
    }
  }

  /** A pass of the machine is a creation for its cluster in this sense. */
  lemma PassIsCreation(r: Config, job: Job, log: seq<Event>, outcome: Outcome)
    requires job.desired == DesiredApps(r, job.cluster)
    requires Reached(job, log, ListCurrent, Halted(outcome)) && (outcome == Converged || outcome == Error)
    ensures CreationOf(r, job.cluster.namespace, job.cluster.id, log, outcome == Error)
  {
    var c := job.cluster;
    DesiredAppsAreDesired(r, c);
    var pcs :| Run(job, pcs, log) && pcs[0] == ListCurrent && Last(pcs) == Halted(outcome);
    assert log != [];
    assert StepAt(job, pcs, log, 0);
    forall n | 0 < n < |log| ensures WritesWanted(r, c.namespace, c.id, log, n) {
      CallWritesWanted(r, job, pcs, log, n);
    }
    ErrorIffUnsatisfied(job, pcs, log);
    QuietReached(job, log, outcome);
  }
}
