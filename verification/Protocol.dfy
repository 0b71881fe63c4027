/**
 The reconciliation of one cluster as a machine that alternates requests and answers.

 A machine state says which request comes next; the answer alone determines the state after it. Both
 `EnsureDeleted` and `EnsureCreated` are runs of this machine.
 */
module Protocol {
  import opened Objects
  import opened MergePatch
  import opened Api
  import opened Keys
  import opened OperatorApps

  datatype Outcome =
    | Released   // EnsureDeleted returned nil and let the finalizers go
    | Kept       // EnsureDeleted returned nil after SetKept
    | Converged  // EnsureCreated returned nil
    | Error      // either returned an error

  datatype Pc =
    // EnsureDeleted
    | List1
    | Sweep(item: Item, rest: seq<Item>)
    | List2
    | DelChart
    | ProbeChart(left: nat)
    | DelAppOp
    | ProbeAppOp(left: nat)
    // EnsureCreated
    | ListCurrent
    | CreateApp(item: Item, rest: seq<Item>, current: seq<Item>)
    | FetchApp(item: Item, rest: seq<Item>, current: seq<Item>)
    | PatchApp(item: Item, rest: seq<Item>, current: seq<Item>, fetched: App)
    | Halted(outcome: Outcome)

  /** What is fixed during a pass: the cluster, its desired Apps, and how many times the clock lets
      each wait probe again after its first probe. */
  datatype Job = Job(cluster: Ref, desired: seq<Item>, chartRetries: nat, appOpRetries: nat)

  /** A teardown never looks at the desired Apps. */
  function TeardownJob(c: Ref, chartRetries: nat, appOpRetries: nat): Job {
    Job(c, [], chartRetries, appOpRetries)
  }

  /** The first sweep asks for the deletion of these, in this order. */
  predicate Eligible(item: Item) {
    !IsManagedByFlux(item.app) && !item.app.terminating
  }

  function EligibleItems(items: seq<Item>): seq<Item> {
    if items == [] then []
    else (if Eligible(items[0]) then [items[0]] else []) + EligibleItems(items[1..])
  }

  lemma {:induction false} EligibleMembers(items: seq<Item>, item: Item)
    ensures item in EligibleItems(items) <==> item in items && Eligible(item)
  {
    if items != [] {
      EligibleMembers(items[1..], item);
      assert items == [items[0]] + items[1..];
    }
  }

  function SweepFrom(rest: seq<Item>): Pc {
    if rest == [] then List2 else Sweep(rest[0], rest[1..])
  }

  function Modified(fetched: App, desired: App): App {
    fetched.(annotations := desired.annotations, labels := desired.labels, spec := desired.spec)
  }

  /** The first App of `todo` that `EnsureCreated` has to create or update. */
  function NextApp(todo: seq<Item>, current: seq<Item>): Pc {
    if todo == [] then Halted(Converged)
    else
      match FindAppByName(current, todo[0].key.name, todo[0].key.namespace)
      case None => CreateApp(todo[0], todo[1..], current)
      case Some(found) =>
        if HasAppChanged(found.app, todo[0].app) then FetchApp(todo[0], todo[1..], current)
        else NextApp(todo[1..], current)
  }

  function RequestAt(job: Job, pc: Pc): Request
    requires !pc.Halted?
  {
    var c := job.cluster;
    match pc
    case List1 => List(c.namespace, ClusterAppSelector(c.id))
    case Sweep(item, _) => Delete(item.key)
    case List2 => List(c.namespace, ClusterAppSelector(c.id))
    case DelChart => Delete(ChartOperatorKey(c))
    case ProbeChart(_) => Get(ChartOperatorKey(c))
    case DelAppOp => Delete(AppOperatorKey(c))
    case ProbeAppOp(_) => Get(AppOperatorKey(c))
    case ListCurrent => List(c.namespace, OperatorSelector(c.id))
    case CreateApp(item, _, _) => Create(item.key, item.app)
    case FetchApp(item, _, _) => Get(item.key)
    case PatchApp(item, _, _, fetched) => Patch(item.key, DiffApp(fetched, Modified(fetched, item.app)))
  }

  function Advance(job: Job, pc: Pc, a: Answer): Pc {
    match pc
    case List1 => if a.Items? then SweepFrom(EligibleItems(a.items)) else Halted(Error)
    case Sweep(_, rest) => if a.Failed? then Halted(Kept) else SweepFrom(rest)
    case List2 => if !a.Items? then Halted(Error) else if a.items == [] then DelChart else Halted(Kept)
    case DelChart => if a.NotFound? then DelAppOp else ProbeChart(job.chartRetries)
    case ProbeChart(left) =>
      if a.NotFound? then DelAppOp else if left > 0 then ProbeChart(left - 1) else Halted(Kept)
    case DelAppOp => if a.NotFound? then Halted(Released) else ProbeAppOp(job.appOpRetries)
    case ProbeAppOp(left) =>
      if a.NotFound? then Halted(Released) else if left > 0 then ProbeAppOp(left - 1) else Halted(Kept)
    case ListCurrent => if a.Items? then NextApp(job.desired, a.items) else Halted(Error)
    case CreateApp(_, rest, current) =>
      if a.Done? || a.AlreadyExists? then NextApp(rest, current) else Halted(Error)
    case FetchApp(item, rest, current) =>
      if a.Found? then PatchApp(item, rest, current, a.app) else Halted(Error)
    case PatchApp(_, rest, current, _) => if a.Done? then NextApp(rest, current) else Halted(Error)
    case Halted(_) => pc
  }

  /** One correctly served call of the machine. */
  ghost predicate Step(job: Job, pc: Pc, e: Event, pc': Pc) {
    !pc.Halted? && e.request == RequestAt(job, pc) && Serves(e) && pc' == Advance(job, pc, e.answer)
  }

  ghost predicate StepAt(job: Job, pcs: seq<Pc>, log: seq<Event>, i: nat)
    requires i < |log| && |pcs| == |log| + 1
  {
    Step(job, pcs[i], log[i], pcs[i + 1])
  }

  /** The calls of `log` take the machine through the states `pcs`. */
  ghost predicate Run(job: Job, pcs: seq<Pc>, log: seq<Event>) {
    |pcs| == |log| + 1 && forall i {:trigger StepAt(job, pcs, log, i)} :: 0 <= i < |log| ==> StepAt(job, pcs, log, i)
  }

  function Last<T>(s: seq<T>): T
    requires s != []
  {
    s[|s| - 1]
  }

  /** The store right after the first `n` calls. */
  function StoreAfter(s: Store, log: seq<Event>, n: nat): Store
    requires n <= |log|
  {
    if n == 0 then s else log[n - 1].post
  }

  ghost predicate NoFailures(log: seq<Event>) {
    forall i {:trigger log[i]} :: 0 <= i < |log| ==> !log[i].answer.Failed?
  }

  lemma RunsOn(job: Job, pcs: seq<Pc>, log: seq<Event>, n: nat)
    requires Run(job, pcs, log) && n < |log|
    ensures !pcs[n].Halted?
  {
    assert StepAt(job, pcs, log, n);
  }

  /** The calls of `log` take the machine from `from` to `to`. */
  ghost predicate Reached(job: Job, log: seq<Event>, from: Pc, to: Pc) {
    exists pcs: seq<Pc> :: Run(job, pcs, log) && pcs[0] == from && Last(pcs) == to
  }

  lemma ReachedBy(job: Job, log: seq<Event>, pcs: seq<Pc>)
    requires Run(job, pcs, log)
    ensures Reached(job, log, pcs[0], Last(pcs))
  {
  }

  lemma ReachedByOne(job: Job, from: Pc, e: Event)
    requires !from.Halted? && e.request == RequestAt(job, from) && Serves(e)
    ensures Reached(job, [e], from, Advance(job, from, e.answer))
  {
    var pcs := [from, Advance(job, from, e.answer)];
    assert StepAt(job, pcs, [e], 0);
    ReachedBy(job, [e], pcs);
  }

  lemma ReachedConcat(job: Job, a: seq<Event>, b: seq<Event>, from: Pc, via: Pc, to: Pc)
    requires Reached(job, a, from, via) && Reached(job, b, via, to)
    ensures Reached(job, a + b, from, to)
  {
    var p :| Run(job, p, a) && p[0] == from && Last(p) == via;
    var q :| Run(job, q, b) && q[0] == via && Last(q) == to;
    RunConcat(job, p, a, q, b);
    assert Last(p + q[1..]) == to;
  }

  lemma ConcatAssociative<T>(a: seq<T>, b: seq<T>, c: seq<T>)
    ensures (a + b) + c == a + (b + c)
  {
  }

  lemma RunConcat(job: Job, p: seq<Pc>, a: seq<Event>, q: seq<Pc>, b: seq<Event>)
    requires Run(job, p, a) && Run(job, q, b) && Last(p) == q[0]
    ensures Run(job, p + q[1..], a + b)
  {
    var pcs, log := p + q[1..], a + b;
    forall i | 0 <= i < |log| ensures StepAt(job, pcs, log, i) {
      if i < |a| {
        assert StepAt(job, p, a, i);
      } else {
        assert StepAt(job, q, b, i - |a|);
      }
    }
  }
}
