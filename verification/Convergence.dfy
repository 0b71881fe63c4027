/**
 What a creation pass achieves: exactly when it brings an App into its desired state, that a second
 pass changes nothing, and that no pass, however it fails, spoils what was right.
 */
module Convergence {
  import opened Objects
  import opened MergePatch
  import opened Api
  import opened Keys
  import opened OperatorApps
  import opened Protocol
  import opened Wrappers

  ghost predicate ValidJob(job: Job) {
    IsDesired(job.desired, job.cluster)
  }

  ghost predicate CreationPass(job: Job, pcs: seq<Pc>, log: seq<Event>) {
    ValidJob(job) && Run(job, pcs, log) && pcs[0] == ListCurrent
  }

  /** Nobody else acts from `s` until the last call of `log`. */
  ghost predicate Quiet(s: Store, log: seq<Event>) {
    forall i {:trigger QuietBefore(s, log, i)} :: 0 <= i < |log| ==> QuietBefore(s, log, i)
  }

  predicate QuietBefore(s: Store, log: seq<Event>, i: nat)
    requires i < |log|
  {
    log[i].pre == StoreAfter(s, log, i)
  }

  /** The store that a quiet pass is meant to leave: an absent App is created, one that the operator's
      selector finds gets the desired labels, annotations and spec, any other is left alone. */
  function SettleOne(c: Ref, s: Store, d: Item): Store {
    if d.key !in s then s[d.key := d.app]
    else if ManagedApp(c, s, d.key) then s[d.key := Modified(s[d.key], d.app)]
    else s
  }

  function Settle(c: Ref, s: Store, todo: seq<Item>): Store
    decreases |todo|
  {
    if todo == [] then s else Settle(c, SettleOne(c, s, todo[0]), todo[1..])
  }

  ghost predicate Distinct(items: seq<Item>) {
    forall i, j :: 0 <= i < j < |items| ==> items[i].key != items[j].key
  }

  function Found(c: Ref, s: Store, k: Key): Option<Item> {
    if ManagedApp(c, s, k) then Some(Item(k, s[k])) else None
  }

  /** The listing is still right about the Apps that are yet to be looked at. */
  ghost predicate Fresh(c: Ref, s: Store, todo: seq<Item>, current: seq<Item>) {
    forall i {:trigger todo[i]} :: 0 <= i < |todo| ==>
      FindAppByName(current, todo[i].key.name, todo[i].key.namespace) == Found(c, s, todo[i].key)
  }

  function Todo(pc: Pc): seq<Item> {
    match pc
    case CreateApp(item, rest, _) => [item] + rest
    case FetchApp(item, rest, _) => [item] + rest
    case PatchApp(item, rest, _, _) => [item] + rest
    case _ => []
  }

  function Current(pc: Pc): seq<Item> {
    match pc
    case CreateApp(_, _, current) => current
    case FetchApp(_, _, current) => current
    case PatchApp(_, _, current, _) => current
    case _ => []
  }

  ghost predicate OnCourse(c: Ref, target: Store, s: Store, pc: Pc) {
    && (pc.CreateApp? || pc.FetchApp? || pc.PatchApp? || pc == Halted(Converged))
    && Settle(c, s, Todo(pc)) == target
    && Distinct(Todo(pc))
    && Fresh(c, s, Todo(pc), Current(pc))
    && (pc.CreateApp? ==> !ManagedApp(c, s, pc.item.key))
    && (pc.FetchApp? || pc.PatchApp? ==> ManagedApp(c, s, pc.item.key))
    && (pc.PatchApp? ==> pc.fetched == s[pc.item.key])
  }

  ghost predicate OnCourseAfter(job: Job, target: Store, e: Event, pc: Pc) {
    OnCourse(job.cluster, target, e.post, pc) || (e.answer.Failed? && pc == Halted(Error))
  }

  lemma FindInListing(c: Ref, s: Store, items: seq<Item>, k: Key)
    requires IsListing(s, c.namespace, OperatorSelector(c.id), items)
    ensures FindAppByName(items, k.name, k.namespace) == Found(c, s, k)
  {
    var found := FindAppByName(items, k.name, k.namespace);
    assert Lists(items, k) <==> found.Some?;
    assert ManagedApp(c, s, k) <==> Lists(items, k);
    assert Key(k.namespace, k.name) == k;
  }

  /** Skipping the Apps that have not changed skips nothing that `Settle` would do. */
  lemma {:induction false} NextOnCourse(c: Ref, s: Store, todo: seq<Item>, current: seq<Item>)
    requires Distinct(todo) && Fresh(c, s, todo, current)
    ensures OnCourse(c, Settle(c, s, todo), s, NextApp(todo, current))
  {
    if todo != [] {
      var d, rest := todo[0], todo[1..];
      assert todo == [d] + rest;
      var found := FindAppByName(current, d.key.name, d.key.namespace);
      assert found == Found(c, s, d.key);
      if found.Some? && !HasAppChanged(found.value.app, d.app) {
        assert SettleOne(c, s, d) == s;
        NextOnCourse(c, s, rest, current);
      }
    }
  }

  lemma PatchModifies(s: Store, k: Key, fetched: App, desired: App)
    requires k in s && s[k] == fetched
    ensures Patched(s, k, DiffApp(fetched, Modified(fetched, desired))) == s[k := Modified(s[k], desired)]
  {
    MergeYieldsWanted(fetched.labels, desired.labels, fetched.labels);
    MergeYieldsWanted(fetched.annotations, desired.annotations, fetched.annotations);
    MergeYieldsWanted(fetched.spec, desired.spec, fetched.spec);
  }

  /** Dealing with one App leaves the listing right about the others. */
  lemma OneDone(c: Ref, s: Store, item: Item, rest: seq<Item>, current: seq<Item>)
    requires Distinct([item] + rest) && Fresh(c, s, [item] + rest, current)
    ensures var s' := SettleOne(c, s, item);
            OnCourse(c, Settle(c, s, [item] + rest), s', NextApp(rest, current))
  {
    var todo, s' := [item] + rest, SettleOne(c, s, item);
    assert todo[1..] == rest;
    forall i | 0 <= i < |rest|
      ensures FindAppByName(current, rest[i].key.name, rest[i].key.namespace) == Found(c, s', rest[i].key)
    {
      assert todo[0] == item && todo[i + 1] == rest[i];
      assert Found(c, s, rest[i].key) == Found(c, s', rest[i].key);
    }
    assert forall i, j :: 0 <= i < j < |rest| ==> rest[i] == todo[i + 1] && rest[j] == todo[j + 1];
    NextOnCourse(c, s', rest, current);
  }

  /** One quiet call keeps the pass on course, unless it failed. */
  lemma CallOnCourse(job: Job, target: Store, e: Event, pc: Pc, pc': Pc)
    requires OnCourse(job.cluster, target, e.pre, pc) && Step(job, pc, e, pc')
    ensures OnCourseAfter(job, target, e, pc')
  {
    var c := job.cluster;
    if !e.answer.Failed? {
      match pc
      case CreateApp(item, rest, current) =>
        OneDone(c, e.pre, item, rest, current);
      case FetchApp(item, rest, current) =>
      case PatchApp(item, rest, current, fetched) =>
        PatchModifies(e.pre, item.key, fetched, item.app);
        OneDone(c, e.pre, item, rest, current);
    }
  }

  lemma ListingOnCourse(job: Job, e: Event, pc': Pc)
    requires ValidJob(job) && Step(job, ListCurrent, e, pc')
    ensures OnCourseAfter(job, Settle(job.cluster, e.pre, job.desired), e, pc')
  {
    if !e.answer.Failed? {
      ListingIsFresh(job, e);
      LookupDesired(job.desired, job.cluster);
      NextOnCourse(job.cluster, e.pre, job.desired, e.answer.items);
    }
  }

  lemma ListingIsFresh(job: Job, e: Event)
    requires Serves(e) && e.request == RequestAt(job, ListCurrent) && !e.answer.Failed?
    ensures Fresh(job.cluster, e.pre, job.desired, e.answer.items)
  {
    var c, items := job.cluster, e.answer.items;
    forall i | 0 <= i < |job.desired|
      ensures FindAppByName(items, job.desired[i].key.name, job.desired[i].key.namespace)
           == Found(c, e.pre, job.desired[i].key)
    {
      FindInListing(c, e.pre, items, job.desired[i].key);
    }
  }

  /** Call by call: the second of two quiet calls keeps the pass on course. */
  lemma NextCallOnCourse(job: Job, target: Store, d: Event, e: Event, pc: Pc, pc': Pc)
    requires OnCourseAfter(job, target, d, pc) && e.pre == d.post && Step(job, pc, e, pc')
    ensures OnCourseAfter(job, target, e, pc')
  {
    CallOnCourse(job, target, e, pc, pc');
  }

  lemma {:induction false} QuietPassOnCourse(job: Job, s: Store, target: Store, pcs: seq<Pc>, log: seq<Event>, n: nat)
    requires CreationPass(job, pcs, log) && Quiet(s, log) && 0 < n <= |log|
    requires target == Settle(job.cluster, s, job.desired)
    ensures OnCourseAfter(job, target, log[n - 1], pcs[n])
  {
    assert StepAt(job, pcs, log, n - 1) && QuietBefore(s, log, n - 1);
    if n == 1 {
      ListingOnCourse(job, log[0], pcs[1]);
    } else {
      QuietPassOnCourse(job, s, target, pcs, log, n - 1);
      NextCallOnCourse(job, target, log[n - 2], log[n - 1], pcs[n - 1], pcs[n]);
    }
  }

  /** An undisturbed pass that returns nil leaves exactly the settled store; one without hard errors
      does return nil. */
  lemma QuietPassSettles(job: Job, s: Store, pcs: seq<Pc>, log: seq<Event>)
    requires CreationPass(job, pcs, log) && Quiet(s, log) && Last(pcs).Halted?
    ensures Last(pcs) == Halted(Converged) ==> StoreAfter(s, log, |log|) == Settle(job.cluster, s, job.desired)
    ensures NoFailures(log) ==> Last(pcs) == Halted(Converged)
  {
    QuietPassOnCourse(job, s, Settle(job.cluster, s, job.desired), pcs, log, |log|);
  }

  /** The same for the calls of a whole pass. */
  lemma QuietReached(job: Job, log: seq<Event>, outcome: Outcome)
    requires ValidJob(job) && Reached(job, log, ListCurrent, Halted(outcome))
    ensures log != []
    ensures Quiet(log[0].pre, log) && outcome == Converged ==>
              Last(log).post == Settle(job.cluster, log[0].pre, job.desired)
    ensures Quiet(log[0].pre, log) && NoFailures(log) ==> outcome == Converged
  {
    var pcs :| Run(job, pcs, log) && pcs[0] == ListCurrent && Last(pcs) == Halted(outcome);
    if Quiet(log[0].pre, log) {
      QuietPassSettles(job, log[0].pre, pcs, log);
    }
  }

  /** What `Settle` means for every single App of the store. */
  lemma SettleMeaning(job: Job, s: Store)
    requires ValidJob(job)
    ensures var c, s' := job.cluster, Settle(job.cluster, s, job.desired);
            && (forall d <- job.desired ::
                  && d.key in s'
                  && (d.key !in s ==> s'[d.key] == d.app)
                  && (ManagedApp(c, s, d.key) ==> s'[d.key] == Modified(s[d.key], d.app))
                  && (d.key in s && !ManagedApp(c, s, d.key) ==> s'[d.key] == s[d.key]))
            && (forall k :: !OperatorKey(c, k) ==> (k in s' <==> k in s) && (k in s ==> s'[k] == s[k]))
  {
    var c, d := job.cluster, job.desired;
    LookupDesired(d, c);
    var s1 := SettleOne(c, s, d[0]);
    SettleBoth(c, s, d);
    assert ManagedApp(c, s1, d[1].key) <==> ManagedApp(c, s, d[1].key);
    assert d == [d[0], d[1]];
  }

  lemma SettleBoth(c: Ref, s: Store, d: seq<Item>)
    requires |d| == 2
    ensures Settle(c, s, d) == SettleOne(c, SettleOne(c, s, d[0]), d[1])
  {
    var s1 := SettleOne(c, s, d[0]);
    assert d[1..] == [d[1]] && d[1..][1..] == [];
    assert Settle(c, s, d) == Settle(c, s1, d[1..]) == SettleOne(c, s1, d[1]);
  }

  /** A quiet pass brings an operator App into its desired state if and only if the App did not exist or
      carried the operator's labels. An App of the right name without them is never repaired. */
  lemma DesiredIffAbsentOrManaged(job: Job, s: Store, d: Item)
    requires ValidJob(job) && d in job.desired
    ensures d.key in Settle(job.cluster, s, job.desired)
    ensures SameDesired(Settle(job.cluster, s, job.desired)[d.key], d.app)
       <==> d.key !in s || ManagedApp(job.cluster, s, d.key)
  {
    SettleMeaning(job, s);
    LookupDesired(job.desired, job.cluster);
  }

  /** A settled store stays as it is. */
  lemma SettleIdempotent(job: Job, s: Store)
    requires ValidJob(job)
    ensures var s' := Settle(job.cluster, s, job.desired); Settle(job.cluster, s', job.desired) == s'
  {
    var c := job.cluster;
    var s' := Settle(c, s, job.desired);
    var s'' := Settle(c, s', job.desired);
    SettleMeaning(job, s);
    SettleMeaning(job, s');
    LookupDesired(job.desired, c);
    forall k ensures (k in s'' <==> k in s') && (k in s' ==> s''[k] == s'[k]) {
      if OperatorKey(c, k) {
        var d := if k == job.desired[0].key then job.desired[0] else job.desired[1];
        assert d in job.desired && d.key == k;
      }
    }
  }

  ghost predicate Settled(job: Job, s: Store) {
    forall i :: 0 <= i < |job.desired| ==>
      ManagedApp(job.cluster, s, job.desired[i].key) && SameDesired(s[job.desired[i].key], job.desired[i].app)
  }

  /** After a quiet pass both Apps are listed and right, so that there is nothing left to do, exactly when
      each of them was absent or carried the operator's labels before. */
  lemma SettledIff(job: Job, s: Store)
    requires ValidJob(job)
    ensures Settled(job, Settle(job.cluster, s, job.desired))
       <==> forall d <- job.desired :: d.key !in s || ManagedApp(job.cluster, s, d.key)
  {
    var s' := Settle(job.cluster, s, job.desired);
    SettleMeaning(job, s);
    LookupDesired(job.desired, job.cluster);
    forall i | 0 <= i < |job.desired|
      ensures ManagedApp(job.cluster, s', job.desired[i].key) && SameDesired(s'[job.desired[i].key], job.desired[i].app)
         <==> job.desired[i].key !in s || ManagedApp(job.cluster, s, job.desired[i].key)
    {
      DesiredIffAbsentOrManaged(job, s, job.desired[i]);
    }
  }

  lemma {:induction false} NothingToDo(c: Ref, s: Store, todo: seq<Item>, current: seq<Item>)
    requires Fresh(c, s, todo, current)
    requires forall i :: 0 <= i < |todo| ==> ManagedApp(c, s, todo[i].key) && SameDesired(s[todo[i].key], todo[i].app)
    ensures NextApp(todo, current) == Halted(Converged)
  {
    if todo != [] {
      NothingToDo(c, s, todo[1..], current);
    }
  }

  /** Where both Apps are listed and right, a pass is a single List: no write is sent, and whatever other
      actors do afterwards it returns nil. */
  lemma SettledPassOnlyLists(job: Job, pcs: seq<Pc>, log: seq<Event>)
    requires CreationPass(job, pcs, log) && log != [] && !log[0].answer.Failed?
    requires Settled(job, log[0].pre)
    ensures |log| == 1 && log[0].request.List? && Last(pcs) == Halted(Converged)
  {
    var c, s := job.cluster, log[0].pre;
    assert StepAt(job, pcs, log, 0);
    ListingIsFresh(job, log[0]);
    NothingToDo(c, s, job.desired, log[0].answer.items);
    if |log| > 1 {
      RunsOn(job, pcs, log, 1);
    }
  }

  /** Two undisturbed passes in a row: the second leaves the store as the first left it, and where each App
      was absent or carried the operator's labels before, the second is a single List. */
  lemma SecondPassChangesNothing(
    job: Job, s: Store, pcs: seq<Pc>, log: seq<Event>, pcs': seq<Pc>, log': seq<Event>)
    requires CreationPass(job, pcs, log) && Quiet(s, log) && Last(pcs) == Halted(Converged)
    requires CreationPass(job, pcs', log') && Quiet(StoreAfter(s, log, |log|), log') && Last(pcs') == Halted(Converged)
    ensures StoreAfter(s, log, |log|) == Settle(job.cluster, s, job.desired)
    ensures StoreAfter(StoreAfter(s, log, |log|), log', |log'|) == StoreAfter(s, log, |log|)
    ensures (forall d <- job.desired :: d.key !in s || ManagedApp(job.cluster, s, d.key)) ==>
              |log'| == 1 && log'[0].request.List?
  {
    var t := StoreAfter(s, log, |log|);
    QuietPassSettles(job, s, pcs, log);
    QuietPassSettles(job, t, pcs', log');
    SettleIdempotent(job, s);
    if forall d <- job.desired :: d.key !in s || ManagedApp(job.cluster, s, d.key) {
      SettledIff(job, s);
      SecondOnlyLists(job, t, pcs', log');
    }
  }

  lemma SecondOnlyLists(job: Job, t: Store, pcs: seq<Pc>, log: seq<Event>)
    requires CreationPass(job, pcs, log) && Quiet(t, log) && Last(pcs) == Halted(Converged) && Settled(job, t)
    ensures |log| == 1 && log[0].request.List?
  {
    assert log != [];
    assert QuietBefore(t, log, 0) && StepAt(job, pcs, log, 0);
    if log[0].answer.Failed? {
      assert pcs[1] == Halted(Error);
      if |log| > 1 {
        RunsOn(job, pcs, log, 1);
      }
    } else {
      SettledPassOnlyLists(job, pcs, log);
    }
  }

  /** All that a creation pass ever writes about are Apps of the desired list. */
  ghost predicate WorksOnDesired(job: Job, pc: Pc) {
    && (pc.ListCurrent? || pc.CreateApp? || pc.FetchApp? || pc.PatchApp? || pc.Halted?)
    && forall i {:trigger Todo(pc)[i]} :: 0 <= i < |Todo(pc)| ==> Todo(pc)[i] in job.desired
  }

  lemma {:induction false} NextWorksOnDesired(job: Job, todo: seq<Item>, current: seq<Item>)
    requires forall i :: 0 <= i < |todo| ==> todo[i] in job.desired
    ensures WorksOnDesired(job, NextApp(todo, current))
  {
    if todo != [] {
      NextWorksOnDesired(job, todo[1..], current);
      assert [todo[0]] + todo[1..] == todo;
    }
  }

  lemma StepWorksOnDesired(job: Job, pc: Pc, e: Event, pc': Pc)
    requires WorksOnDesired(job, pc) && Step(job, pc, e, pc')
    ensures WorksOnDesired(job, pc')
    ensures pc.CreateApp? || pc.FetchApp? || pc.PatchApp? ==> pc.item in job.desired
  {
    match pc
    case ListCurrent =>
      if e.answer.Items? {
        NextWorksOnDesired(job, job.desired, e.answer.items);
      }
    case CreateApp(item, rest, current) => RestInDesired(job, pc, item, rest, current);
    case FetchApp(item, rest, current) => RestInDesired(job, pc, item, rest, current);
    case PatchApp(item, rest, current, _) => RestInDesired(job, pc, item, rest, current);
  }

  lemma RestInDesired(job: Job, pc: Pc, item: Item, rest: seq<Item>, current: seq<Item>)
    requires WorksOnDesired(job, pc) && Todo(pc) == [item] + rest
    ensures item in job.desired && WorksOnDesired(job, NextApp(rest, current))
  {
    assert Todo(pc)[0] == item;
    assert forall i :: 0 <= i < |rest| ==> rest[i] == Todo(pc)[i + 1];
    NextWorksOnDesired(job, rest, current);
  }

  lemma {:induction false} PassWorksOnDesired(job: Job, pcs: seq<Pc>, log: seq<Event>, n: nat)
    requires CreationPass(job, pcs, log) && n <= |log|
    ensures WorksOnDesired(job, pcs[n])
  {
    if n > 0 {
      PassWorksOnDesired(job, pcs, log, n - 1);
      assert StepAt(job, pcs, log, n - 1);
      StepWorksOnDesired(job, pcs[n - 1], log[n - 1], pcs[n]);
    }
  }

  /** No call of any pass, whatever the others do and however it fails, changes an App that is in its
      desired state or one that is not an operator App of the cluster. */
  lemma NeverDamages(job: Job, pcs: seq<Pc>, log: seq<Event>, n: nat, k: Key)
    requires CreationPass(job, pcs, log) && n < |log| && k in log[n].pre
    requires !OperatorKey(job.cluster, k)
          || exists d <- job.desired :: d.key == k && SameDesired(log[n].pre[k], d.app)
    ensures k in log[n].post && log[n].post[k] == log[n].pre[k]
  {
    var pc := pcs[n];
    PassWorksOnDesired(job, pcs, log, n);
    assert StepAt(job, pcs, log, n);
    if pc.CreateApp? || pc.FetchApp? || pc.PatchApp? {
      StepWorksOnDesired(job, pc, log[n], pcs[n + 1]);
      DesiredByKey(job, pc.item, k, log[n].pre[k]);
      WriteKeepsDesired(job, pc, log[n], pcs[n + 1], k);
    }
  }

  lemma DesiredByKey(job: Job, item: Item, k: Key, app: App)
    requires ValidJob(job) && item in job.desired
    requires !OperatorKey(job.cluster, k) || exists d <- job.desired :: d.key == k && SameDesired(app, d.app)
    ensures item.key == k ==> SameDesired(app, item.app)
  {
  }

  lemma WriteKeepsDesired(job: Job, pc: Pc, e: Event, pc': Pc, k: Key)
    requires Step(job, pc, e, pc') && (pc.CreateApp? || pc.FetchApp? || pc.PatchApp?) && k in e.pre
    requires pc.item.key == k ==> SameDesired(e.pre[k], pc.item.app)
    ensures k in e.post && e.post[k] == e.pre[k]
  {
    if pc.item.key != k {
      ServesOnlyItsKey(e, k);
    } else if pc.PatchApp? {
      PatchKeepsDesired(e.pre, k, pc.fetched, pc.item.app);
      assert e.post == e.pre || e.post == Effect(e.pre, e.request);
    } else {
      assert e.post == e.pre;
    }
  }

  lemma PatchKeepsDesired(s: Store, k: Key, fetched: App, desired: App)
    requires k in s && SameDesired(s[k], desired)
    ensures Patched(s, k, DiffApp(fetched, Modified(fetched, desired))) == s
  {
    MergeYieldsWanted(fetched.labels, desired.labels, s[k].labels);
    MergeYieldsWanted(fetched.annotations, desired.annotations, s[k].annotations);
    MergeYieldsWanted(fetched.spec, desired.spec, s[k].spec);
  }
}
