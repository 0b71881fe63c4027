/**
 Several clusters at once: creation and teardown passes of any number of clusters, interleaved call by
 call with each other and with the other actors. The subject is one App `k` with the managed-by label, for
 instance an operator App of a cluster `b`.
 */
module NonInterference {
  import opened Objects
  import opened MergePatch
  import opened Api
  import opened Keys
  import opened Protocol
  import opened Convergence
  import opened ConcurrentEdits
  import opened Wrappers

  /** The reconciliation of one cluster: its current, or last, pass. */
  datatype Worker = Worker(job: Job, pc: Pc)

  datatype World = World(store: Store, workers: map<Ref, Worker>)

  /** If the App exists it carries the managed-by label of the operator; all other labels are free. */
  predicate Labelled(k: Key, s: Store) {
    k in s ==> CarriesManagedBy(s[k].labels)
  }

  ghost predicate Init(w: World, k: Key) {
    w.workers == map[] && Labelled(k, w.store)
  }

  /** The others do what they like, except to take that label of the App away. */
  ghost predicate OthersAct(w: World, w': World, k: Key) {
    w' == w.(store := w'.store) && Labelled(k, w'.store)
  }

  /** A teardown pass, which never looks at the desired Apps, or a creation pass. */
  ghost predicate Starting(job: Job, pc: Pc) {
    pc == List1 || (pc == ListCurrent && ValidJob(job))
  }

  ghost predicate PassStarts(w: World, a: Ref, worker: Worker, w': World) {
    && (a in w.workers ==> w.workers[a].pc.Halted?)
    && worker.job.cluster == a && Starting(worker.job, worker.pc)
    && w' == w.(workers := w.workers[a := worker])
  }

  ghost predicate Calls(w: World, a: Ref, e: Event, w': World) {
    && a in w.workers && a in w'.workers
    && e.pre == w.store
    && Step(w.workers[a].job, w.workers[a].pc, e, w'.workers[a].pc)
    && w' == World(e.post, w.workers[a := Worker(w.workers[a].job, w'.workers[a].pc)])
  }

  ghost predicate Next(w: World, w': World, k: Key) {
    || OthersAct(w, w', k)
    || (exists a, worker :: PassStarts(w, a, worker, w'))
    || (exists a, e :: Calls(w, a, e, w'))
  }

  ghost predicate NextAt(h: seq<World>, k: Key, i: nat)
    requires i < |h| - 1
  {
    Next(h[i], h[i + 1], k)
  }

  ghost predicate History(h: seq<World>, k: Key) {
    && h != [] && Init(h[0], k)
    && forall i {:trigger NextAt(h, k, i)} :: 0 <= i < |h| - 1 ==> NextAt(h, k, i)
  }

  predicate Creating(pc: Pc) {
    pc.ListCurrent? || pc.CreateApp? || pc.FetchApp? || pc.PatchApp?
  }

  /** No sweep plans to delete the App, and a creation pass writes about its own desired Apps only. */
  ghost predicate Harmless(k: Key, worker: Worker) {
    var job, pc := worker.job, worker.pc;
    && (Creating(pc) ==> ValidJob(job))
    && (pc.Sweep? ==> pc.item.key != k && forall x <- pc.rest :: x.key != k)
    && forall i {:trigger Todo(pc)[i]} :: 0 <= i < |Todo(pc)| ==> Todo(pc)[i] in job.desired
  }

  ghost predicate AllHarmless(k: Key, w: World) {
    && Labelled(k, w.store)
    && forall a {:trigger w.workers[a]} :: a in w.workers ==>
         w.workers[a].job.cluster == a && Harmless(k, w.workers[a])
  }

  /** An App with the managed-by label is in no cluster's sweep. */
  lemma LabelledIsNotListed(k: Key, job: Job, e: Event, item: Item)
    requires Labelled(k, e.pre)
    requires Serves(e) && e.request == RequestAt(job, List1) && e.answer.Items?
    requires item in EligibleItems(e.answer.items)
    ensures item.key != k
  {
    EligibleMembers(e.answer.items, item);
    var i :| 0 <= i < |e.answer.items| && e.answer.items[i] == item;
    SelectorMeaning(job.cluster.id, e.pre[item.key].labels);
  }

  lemma StaysHarmless(k: Key, worker: Worker, e: Event, pc': Pc)
    requires Harmless(k, worker) && Labelled(k, e.pre) && Step(worker.job, worker.pc, e, pc')
    ensures Harmless(k, worker.(pc := pc'))
  {
    var job := worker.job;
    if worker.pc.List1? && e.answer.Items? {
      forall x | x in EligibleItems(e.answer.items) ensures x.key != k {
        LabelledIsNotListed(k, job, e, x);
      }
    } else if Creating(worker.pc) {
      StepWorksOnDesired(job, worker.pc, e, pc');
    }
  }

  /** A call touches the App only if it is an operator App of the call's cluster, and never in a sweep. */
  lemma ForeignCall(k: Key, worker: Worker, e: Event, pc': Pc)
    requires Harmless(k, worker) && Step(worker.job, worker.pc, e, pc')
    requires !OperatorKey(worker.job.cluster, k) || worker.pc.Sweep?
    ensures SameApp(e.pre, e.post, k)
  {
    var pc := worker.pc;
    if pc.CreateApp? || pc.FetchApp? || pc.PatchApp? {
      assert Todo(pc)[0] == pc.item;
    }
    ServesOnlyItsKey(e, k);
  }

  /** A patch keeps every label that is as desired, whatever was fetched. */
  lemma PatchKeepsLabels(fetched: App, desired: App, current: App, l: Label)
    requires Field(current.labels, l) == Field(desired.labels, l)
    ensures Field(Merge(current.labels, Diff(fetched.labels, desired.labels)), l) == Field(desired.labels, l)
  {
    LabelAfterEdit(fetched.labels, desired.labels, current.labels, l);
  }

  /** Whatever a call does to the App, the label stays: all that the operator writes carries it. */
  lemma CallKeepsLabel(k: Key, worker: Worker, e: Event, pc': Pc)
    requires Harmless(k, worker) && Step(worker.job, worker.pc, e, pc') && Labelled(k, e.pre)
    ensures Labelled(k, e.post)
  {
    var pc := worker.pc;
    if pc.CreateApp? || pc.PatchApp? {
      DesiredIsLabelled(k, worker);
      if pc.PatchApp? && pc.item.key == k && k in e.pre {
        PatchKeepsLabels(pc.fetched, Modified(pc.fetched, pc.item.app), e.pre[k], ManagedBy);
      }
    }
  }

  lemma DesiredIsLabelled(k: Key, worker: Worker)
    requires Harmless(k, worker) && (worker.pc.CreateApp? || worker.pc.PatchApp?)
    ensures CarriesManagedBy(worker.pc.item.app.labels)
  {
    assert Todo(worker.pc)[0] == worker.pc.item;
    SelectorMeaning(worker.job.cluster.id, worker.pc.item.app.labels);
  }

  lemma CallKeepsHarmless(k: Key, w: World, a: Ref, e: Event, w': World)
    requires AllHarmless(k, w) && Calls(w, a, e, w')
    ensures AllHarmless(k, w')
  {
    StaysHarmless(k, w.workers[a], e, w'.workers[a].pc);
    CallKeepsLabel(k, w.workers[a], e, w'.workers[a].pc);
  }

  lemma StartKeepsHarmless(k: Key, w: World, a: Ref, worker: Worker, w': World)
    requires AllHarmless(k, w) && PassStarts(w, a, worker, w')
    ensures AllHarmless(k, w')
  {
  }

  lemma NextKeepsHarmless(k: Key, w: World, w': World)
    requires AllHarmless(k, w) && Next(w, w', k)
    ensures AllHarmless(k, w')
  {
    if exists a, e :: Calls(w, a, e, w') {
      var a, e :| Calls(w, a, e, w');
      CallKeepsHarmless(k, w, a, e, w');
    } else if exists a, worker :: PassStarts(w, a, worker, w') {
      var a, worker :| PassStarts(w, a, worker, w');
      StartKeepsHarmless(k, w, a, worker, w');
    }
  }

  lemma {:induction false} HistoryHarmless(h: seq<World>, k: Key, i: nat)
    requires History(h, k) && i < |h|
    ensures AllHarmless(k, h[i])
  {
    if i > 0 {
      HistoryHarmless(h, k, i - 1);
      assert NextAt(h, k, i - 1);
      NextKeepsHarmless(k, h[i - 1], h[i]);
    }
  }

  /** In any interleaving, as long as the others leave the managed-by label of an App alone, that label
      stays, no sweep touches the App, and no call touches it but those for a cluster whose operator App
      it is. */
  lemma LabelledAppsAreSafe(h: seq<World>, k: Key, i: nat, a: Ref, e: Event)
    requires History(h, k) && i < |h| - 1 && Calls(h[i], a, e, h[i + 1])
    ensures Labelled(k, h[i].store) && Labelled(k, h[i + 1].store)
    ensures !OperatorKey(a, k) || h[i].workers[a].pc.Sweep? ==> SameApp(h[i].store, h[i + 1].store, k)
  {
    HistoryHarmless(h, k, i);
    HistoryHarmless(h, k, i + 1);
    if !OperatorKey(a, k) || h[i].workers[a].pc.Sweep? {
      ForeignCall(k, h[i].workers[a], e, h[i + 1].workers[a].pc);
    }
  }

  /** So no call made for another cluster creates, changes or deletes an operator App of `b`. */
  lemma ClustersDoNotInterfere(h: seq<World>, b: Ref, k: Key, i: nat, a: Ref, e: Event)
    requires OperatorKey(b, k) && History(h, k)
    requires i < |h| - 1 && Calls(h[i], a, e, h[i + 1])
    ensures Labelled(k, h[i].store)
    ensures a != b || h[i].workers[a].pc.Sweep? ==> SameApp(h[i].store, h[i + 1].store, k)
  {
    LabelledAppsAreSafe(h, k, i, a, e);
    if OperatorKey(a, k) {
      OperatorKeysDisjoint(a, b, k);
    }
  }

  // The passes of the operator are histories of this system.

  ghost predicate LabelledAt(k: Key, log: seq<Event>, i: nat)
    requires i < |log|
  {
    Labelled(k, log[i].pre)
  }

  /** Before none of the calls had anybody taken the label of the App away. */
  ghost predicate LabelledThroughout(k: Key, log: seq<Event>) {
    forall i {:trigger LabelledAt(k, log, i)} :: 0 <= i < |log| ==> LabelledAt(k, log, i)
  }

  lemma HistoryGrows(h: seq<World>, k: Key, w: World)
    requires History(h, k) && Next(Last(h), w, k)
    ensures History(h + [w], k)
  {
    var longer := h + [w];
    forall i | 0 <= i < |longer| - 1 ensures NextAt(longer, k, i) {
      if i < |h| - 1 {
        assert NextAt(h, k, i);
      }
    }
  }

  /** A pass of either kind extends any history in which the pass has just started: its calls are steps
      for its cluster, and what happens between two calls is a step of the others. */
  lemma {:induction false} PassIsHistory(
    h: seq<World>, k: Key, a: Ref, pcs: seq<Pc>, log: seq<Event>, n: nat) returns (h': seq<World>)
    requires History(h, k) && a in Last(h).workers
    requires Run(Last(h).workers[a].job, pcs, log) && pcs[0] == Last(h).workers[a].pc && n <= |log|
    requires LabelledThroughout(k, log)
    ensures History(h', k) && h <= h'
    ensures Last(h').workers == Last(h).workers[a := Worker(Last(h).workers[a].job, pcs[n])]
    ensures Last(h').store == StoreAfter(Last(h).store, log, n)
  {
    if n == 0 {
      h' := h;
    } else {
      var before := PassIsHistory(h, k, a, pcs, log, n - 1);
      h' := CallIsHistory(before, k, a, Last(h).workers[a].job, pcs, log, n - 1);
    }
  }

  lemma CallIsHistory(h: seq<World>, k: Key, a: Ref, job: Job, pcs: seq<Pc>, log: seq<Event>, n: nat)
    returns (h': seq<World>)
    requires History(h, k) && Run(job, pcs, log) && n < |log| && LabelledThroughout(k, log)
    requires a in Last(h).workers && Last(h).workers[a] == Worker(job, pcs[n])
    ensures History(h', k) && h <= h' && |h'| > 1
    ensures Last(h').store == log[n].post && Last(h').workers == Last(h).workers[a := Worker(job, pcs[n + 1])]
    ensures Calls(h'[|h'| - 2], a, log[n], Last(h'))
  {
    var e, pc' := log[n], pcs[n + 1];
    assert StepAt(job, pcs, log, n) && LabelledAt(k, log, n);
    var waiting := Last(h).(store := e.pre);
    var called := World(e.post, waiting.workers[a := Worker(job, pc')]);
    assert OthersAct(Last(h), waiting, k);
    HistoryGrows(h, k, waiting);
    assert Calls(waiting, a, e, called);
    HistoryGrows(h + [waiting], k, called);
    h' := h + [waiting] + [called];
  }

  /** What this means for the calls of one `EnsureCreated` or `EnsureDeleted`: none of them touches an App
      that keeps the managed-by label and is not an operator App of the same cluster. */
  lemma PassSparesOthers(job: Job, log: seq<Event>, from: Pc, to: Pc, k: Key, i: nat)
    requires Reached(job, log, from, to) && Starting(job, from)
    requires !OperatorKey(job.cluster, k) && LabelledThroughout(k, log)
    requires i < |log|
    ensures SameApp(log[i].pre, log[i].post, k)
  {
    var pcs :| Run(job, pcs, log) && pcs[0] == from && Last(pcs) == to;
    assert LabelledAt(k, log, 0);
    var nobody := World(log[0].pre, map[]);
    var started := World(log[0].pre, map[job.cluster := Worker(job, from)]);
    assert PassStarts(nobody, job.cluster, Worker(job, from), started);
    HistoryGrows([nobody], k, started);
    var h := PassIsHistory([nobody] + [started], k, job.cluster, pcs, log, i);
    h := CallIsHistory(h, k, job.cluster, job, pcs, log, i);
    LabelledAppsAreSafe(h, k, |h| - 2, job.cluster, log[i]);
  }

  ghost predicate Untouched(k: Key, log: seq<Event>) {
    forall i {:trigger log[i]} :: 0 <= i < |log| ==> SameApp(log[i].pre, log[i].post, k)
  }

  /** No call touches an App that keeps the managed-by label, except operator Apps of `c`. */
  ghost predicate SparesOthers(c: Ref, log: seq<Event>) {
    forall k {:trigger LabelledThroughout(k, log)} ::
      !OperatorKey(c, k) && LabelledThroughout(k, log) ==> Untouched(k, log)
  }

  lemma WholePassSparesOthers(job: Job, log: seq<Event>, from: Pc, to: Pc)
    requires Reached(job, log, from, to) && Starting(job, from)
    ensures SparesOthers(job.cluster, log)
    ensures forall b, k {:trigger OperatorKey(b, k), LabelledThroughout(k, log)} ::
              b != job.cluster && OperatorKey(b, k) && LabelledThroughout(k, log) ==> Untouched(k, log)
  {
    forall k | !OperatorKey(job.cluster, k) && LabelledThroughout(k, log) ensures Untouched(k, log) {
      forall i | 0 <= i < |log| ensures SameApp(log[i].pre, log[i].post, k) {
        PassSparesOthers(job, log, from, to, k, i);
      }
    }
    forall b, k | b != job.cluster && OperatorKey(b, k) ensures !OperatorKey(job.cluster, k) {
      if OperatorKey(job.cluster, k) {
        OperatorKeysDisjoint(job.cluster, b, k);
      }
    }
  }
}
