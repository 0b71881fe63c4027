/**
 Teardown order as an invariant of the store, over any number of passes interleaved with the other
 actors, when those actors neither create nor relabel the Apps of the cluster being deleted.

 Controller assumption: a pass is only ever started after the previous one halted, and once the
 cluster is being deleted all passes are teardown passes.
 */
module TeardownSafety {
  import opened Objects
  import opened Api
  import opened Keys
  import opened Protocol
  import opened TeardownTrace

  /** The Apps that the teardown of `c` is about. */
  predicate Relevant(c: Ref, s: Store, k: Key) {
    k in s && (ClusterApp(c, s, k) || OperatorKey(c, k))
  }

  /** What the other actors may do to the relevant Apps: finish deletions, and change anything but the
      labels; a deletion that was requested stays requested. All other Apps are at their mercy. */
  ghost predicate Tame(c: Ref, s: Store, s': Store) {
    forall k {:trigger Relevant(c, s', k)} :: Relevant(c, s', k) ==>
      k in s && s'[k].labels == s[k].labels && (s[k].terminating ==> s'[k].terminating)
  }

  ghost predicate NoClusterApps(c: Ref, s: Store) {
    forall k {:trigger Relevant(c, s, k)} :: Relevant(c, s, k) ==> OperatorKey(c, k) && !ClusterApp(c, s, k)
  }

  /** `askedChart` and `askedAppOp` remember that the deletion of the operator was ever requested,
      `released` that a pass ever let the finalizers go. */
  datatype State = State(store: Store, pc: Pc, job: Job, askedChart: bool, askedAppOp: bool, released: bool)

  predicate Init(s: State) {
    s.pc == List1 && !s.askedChart && !s.askedAppOp && !s.released
  }

  ghost predicate OthersAct(s: State, s': State) {
    s' == s.(store := s'.store) && Tame(s.job.cluster, s.store, s'.store)
  }

  ghost predicate OperatorCalls(s: State, e: Event, s': State) {
    && e.pre == s.store
    && Step(s.job, s.pc, e, s'.pc)
    && s' == State(
      e.post, s'.pc, s.job,
      s.askedChart || e.request == Delete(ChartOperatorKey(s.job.cluster)),
      s.askedAppOp || e.request == Delete(AppOperatorKey(s.job.cluster)),
      s.released || s'.pc == Halted(Released))
  }

  /** A new pass for the same cluster; the clock may be kinder or harsher this time. */
  ghost predicate PassStarts(s: State, s': State) {
    s.pc.Halted? && s' == s.(pc := List1, job := s'.job) && s'.job.cluster == s.job.cluster
  }

  ghost predicate Next(s: State, s': State) {
    OthersAct(s, s') || PassStarts(s, s') || exists e :: OperatorCalls(s, e, s')
  }

  ghost predicate History(h: seq<State>) {
    h != [] && Init(h[0]) && forall i {:trigger NextAt(h, i)} :: 0 <= i < |h| - 1 ==> NextAt(h, i)
  }

  ghost predicate NextAt(h: seq<State>, i: nat)
    requires i < |h| - 1
  {
    Next(h[i], h[i + 1])
  }

  /** The inductive invariant: what each state of the machine knows about the store. */
  ghost predicate Safe(s: State) {
    var c := s.job.cluster;
    && OperatorsSpared(c, s.store)
    && (PastListings(s.pc) && s.pc != Halted(Kept) ==> NoClusterApps(c, s.store))
    && (PastChart(s.pc) && s.pc != Halted(Kept) ==> ChartOperatorKey(c) !in s.store)
    && (s.pc.Sweep? ==> !OperatorKey(c, s.pc.item.key) && forall x <- s.pc.rest :: !OperatorKey(c, x.key))
    && (s.askedChart || s.askedAppOp ==> NoClusterApps(c, s.store))
    && (s.askedAppOp ==> ChartOperatorKey(c) !in s.store)
    && (s.released || s.pc == Halted(Released) ==> NothingLeft(c, s.store))
    && TeardownPc(s.pc)
  }

  predicate TeardownPc(pc: Pc) {
    !pc.ListCurrent? && !pc.CreateApp? && !pc.FetchApp? && !pc.PatchApp? && pc != Halted(Converged)
  }

  ghost predicate NothingLeft(c: Ref, s: Store) {
    forall k {:trigger Relevant(c, s, k)} :: !Relevant(c, s, k)
  }

  /** Everything `Safe` says about the store survives what the other actors may do. */
  lemma TameKeeps(c: Ref, s: Store, s': Store)
    requires Tame(c, s, s')
    ensures OperatorsSpared(c, s) ==> OperatorsSpared(c, s')
    ensures NoClusterApps(c, s) ==> NoClusterApps(c, s')
    ensures NothingLeft(c, s) ==> NothingLeft(c, s')
    ensures forall k {:trigger OperatorKey(c, k)} :: OperatorKey(c, k) && k !in s ==> k !in s'
  {
    forall k | Sweepable(c, s', k) ensures Sweepable(c, s, k) {
      assert Relevant(c, s', k);
    }
    forall k | Relevant(c, s', k) ensures Relevant(c, s, k) && (ClusterApp(c, s, k) <==> ClusterApp(c, s', k)) {
    }
    forall k | OperatorKey(c, k) && k !in s ensures k !in s' {
      assert Relevant(c, s', k) <==> k in s';
    }
  }

  /** A correctly served List, Get or Delete is itself tame. */
  lemma CallIsTame(c: Ref, e: Event)
    requires Serves(e) && (e.request.List? || e.request.Get? || e.request.Delete?)
    ensures Tame(c, e.pre, e.post)
  {
  }

  lemma EmptyListing(c: Ref, e: Event)
    requires Serves(e) && e.request == List(c.namespace, ClusterAppSelector(c.id)) && e.answer == Items([])
    ensures forall k :: !ClusterApp(c, e.pre, k)
  {
    forall k ensures !ClusterApp(c, e.pre, k) {
      assert !Lists(e.answer.items, k);
    }
  }

  lemma SweepStartsSafely(c: Ref, e: Event, item: Item)
    requires Serves(e) && e.request == List(c.namespace, ClusterAppSelector(c.id)) && e.answer.Items?
    requires OperatorsSpared(c, e.pre) && item in EligibleItems(e.answer.items)
    ensures !OperatorKey(c, item.key)
  {
    EligibleMembers(e.answer.items, item);
    var i :| 0 <= i < |e.answer.items| && e.answer.items[i] == item;
    assert Relevant(c, e.pre, item.key);
  }

  lemma CallSafe(s: State, e: Event, s': State)
    requires Safe(s) && OperatorCalls(s, e, s')
    ensures Safe(s')
  {
    var c := s.job.cluster;
    OperatorNamesInjective(c.id, c.id);
    CallIsTame(c, e);
    TameKeeps(c, e.pre, e.post);
    match s.pc
    case List1 =>
      if e.answer.Items? {
        forall x | x in EligibleItems(e.answer.items) ensures !OperatorKey(c, x.key) {
          SweepStartsSafely(c, e, x);
        }
      }
    case List2 =>
      if e.answer == Items([]) {
        EmptyListing(c, e);
      }
    case _ =>
  }

  lemma NextSafe(s: State, s': State)
    requires Safe(s) && Next(s, s')
    ensures Safe(s')
  {
    if OthersAct(s, s') {
      TameKeeps(s.job.cluster, s.store, s'.store);
      assert OperatorKey(s.job.cluster, ChartOperatorKey(s.job.cluster));
    } else if !PassStarts(s, s') {
      var e :| OperatorCalls(s, e, s');
      CallSafe(s, e, s');
    }
  }

  lemma {:induction false} HistorySafe(h: seq<State>, i: nat)
    requires History(h) && OperatorsSpared(h[0].job.cluster, h[0].store) && i < |h|
    ensures Safe(h[i])
  {
    if i > 0 {
      HistorySafe(h, i - 1);
      assert NextAt(h, i - 1);
      NextSafe(h[i - 1], h[i]);
    }
  }

  /** If the deletion of chart-operator was ever requested, no cluster App is left; if that of app-operator
      was, chart-operator is gone too; and once a pass released the finalizers there is no App of the
      cluster at all. */
  ghost predicate InOrderSoFar(s: State) {
    var c := s.job.cluster;
    && (s.askedChart || s.askedAppOp ==> forall k :: !ClusterApp(c, s.store, k))
    && (s.askedAppOp ==> ChartOperatorKey(c) !in s.store)
    && (s.released ==> forall k :: !ClusterApp(c, s.store, k) && (OperatorKey(c, k) ==> k !in s.store))
  }

  /** Teardown order in every reachable state, if the first listing does not put an operator up for
      deletion. */
  lemma TeardownInvariant(h: seq<State>, i: nat)
    requires History(h) && OperatorsSpared(h[0].job.cluster, h[0].store) && i < |h|
    ensures InOrderSoFar(h[i])
  {
    HistorySafe(h, i);
    var c, s := h[i].job.cluster, h[i].store;
    forall k ensures Relevant(c, s, k) <==> k in s && (ClusterApp(c, s, k) || OperatorKey(c, k)) {
    }
  }

  ghost predicate HistoryFrom(h: seq<State>, c: Ref, s: Store) {
    History(h) && h[0].job.cluster == c && h[0].store == s
  }

  ghost predicate AlwaysInOrderFrom(c: Ref, s: Store) {
    forall h: seq<State>, i :: HistoryFrom(h, c, s) && 0 <= i < |h| ==> InOrderSoFar(h[i])
  }

  /** The order holds in every state of every history from `s` if and only if a first listing of `s` does not
      put an operator up for deletion. */
  lemma InvariantIffOperatorsSpared(c: Ref, s: Store)
    ensures AlwaysInOrderFrom(c, s) <==> OperatorsSpared(c, s)
  {
    if OperatorsSpared(c, s) {
      forall h: seq<State>, i | HistoryFrom(h, c, s) && 0 <= i < |h| ensures InOrderSoFar(h[i]) {
        TeardownInvariant(h, i);
      }
    } else {
      var k := if Sweepable(c, s, ChartOperatorKey(c)) then ChartOperatorKey(c) else AppOperatorKey(c);
      var h := SweptHistory(c, s, k);
      assert HistoryFrom(h, c, s) && !InOrderSoFar(h[2]);
    }
  }

  /** A first listing that starts with an operator, and a Delete of it that fails without effect. */
  lemma SweptHistory(c: Ref, s: Store, k: Key) returns (h: seq<State>)
    requires Sweepable(c, s, k) && OperatorKey(c, k)
    ensures HistoryFrom(h, c, s) && |h| == 3 && h[2].store == s && h[2].job.cluster == c
    ensures h[2].askedChart || h[2].askedAppOp
  {
    var job := TeardownJob(c, 0, 0);
    var items := ListingStartingWith(s, c.namespace, ClusterAppSelector(c.id), k);
    var sweep := SweepFrom(EligibleItems(items));
    assert EligibleItems(items)[0] == items[0];
    var start := State(s, List1, job, false, false, false);
    var listed := start.(pc := sweep);
    var asked := State(s, Halted(Kept), job, k == ChartOperatorKey(c), k == AppOperatorKey(c), false);
    assert OperatorCalls(start, Event(s, RequestAt(job, List1), Items(items), s), listed);
    HistoryGrows([start], listed);
    SweepFails(listed, k, asked);
    HistoryGrows([start] + [listed], asked);
    h := [start] + [listed] + [asked];
  }

  lemma SweepFails(s: State, k: Key, s': State)
    requires s.pc.Sweep? && s.pc.item.key == k && !s.askedChart && !s.askedAppOp && !s.released
    requires s' == s.(pc := Halted(Kept), askedChart := k == ChartOperatorKey(s.job.cluster),
                      askedAppOp := k == AppOperatorKey(s.job.cluster))
    ensures Next(s, s')
  {
    assert OperatorCalls(s, Event(s.store, Delete(k), Failed, s.store), s');
  }

  /** Between the calls of `log`, which starts out from `s`, the other actors behave. */
  ghost predicate TameRun(c: Ref, s: Store, log: seq<Event>) {
    forall i {:trigger TameBefore(c, s, log, i)} :: 0 <= i < |log| ==> TameBefore(c, s, log, i)
  }

  ghost predicate TameBefore(c: Ref, s: Store, log: seq<Event>, i: nat)
    requires i < |log|
  {
    Tame(c, StoreAfter(s, log, i), log[i].pre)
  }

  /** A pass of the real operator is a stretch of history: every call is a step of the system, and what
      happens between two calls is a step of the others. */
  lemma {:induction false} PassIsHistory(h: seq<State>, pcs: seq<Pc>, log: seq<Event>, n: nat) returns (h': seq<State>)
    requires History(h) && Last(h).pc == List1
    requires Pass(Last(h).job, pcs, log) && n <= |log|
    requires TameRun(Last(h).job.cluster, Last(h).store, log)
    ensures History(h') && h <= h'
    ensures Last(h').job == Last(h).job && Last(h').pc == pcs[n]
    ensures Last(h').store == StoreAfter(Last(h).store, log, n)
    ensures AskedFor(log, n, ChartOperatorKey(Last(h).job.cluster)) ==> Last(h').askedChart
    ensures AskedFor(log, n, AppOperatorKey(Last(h).job.cluster)) ==> Last(h').askedAppOp
    ensures n > 0 && pcs[n] == Halted(Released) ==> Last(h').released
  {
    if n == 0 {
      h' := h;
    } else {
      var before := PassIsHistory(h, pcs, log, n - 1);
      var s, e, c := Last(before), log[n - 1], Last(h).job.cluster;
      assert TameBefore(c, Last(h).store, log, n - 1);
      assert StepAt(s.job, pcs, log, n - 1);
      var waiting := s.(store := e.pre);
      var called := State(
        e.post, pcs[n], s.job,
        s.askedChart || e.request == Delete(ChartOperatorKey(c)),
        s.askedAppOp || e.request == Delete(AppOperatorKey(c)),
        s.released || pcs[n] == Halted(Released));
      assert OthersAct(s, waiting);
      assert OperatorCalls(waiting, e, called);
      HistoryGrows(before, waiting);
      HistoryGrows(before + [waiting], called);
      h' := before + [waiting] + [called];
    }
  }

  lemma HistoryGrows(h: seq<State>, s: State)
    requires History(h) && Next(Last(h), s)
    ensures History(h + [s])
  {
    var longer := h + [s];
    forall i | 0 <= i < |longer| - 1 ensures NextAt(longer, i) {
      if i < |h| - 1 {
        assert NextAt(h, i);
      }
    }
  }

  /** One pass over a store with operators that no sweep takes: no cluster App is left when chart-operator is asked
      to go, chart-operator is gone when app-operator is, and nothing is left when the pass releases. */
  lemma PassInOrder(job: Job, s: Store, pcs: seq<Pc>, log: seq<Event>, n: nat)
    requires Pass(job, pcs, log) && 0 < n <= |log|
    requires OperatorsSpared(job.cluster, s) && TameRun(job.cluster, s, log)
    ensures var c, after := job.cluster, log[n - 1].post;
            && (AskedFor(log, n, ChartOperatorKey(c)) ==> forall k :: !ClusterApp(c, after, k))
            && (AskedFor(log, n, AppOperatorKey(c)) ==> ChartOperatorKey(c) !in after)
            && (pcs[n] == Halted(Released) ==>
                  forall k :: !ClusterApp(c, after, k) && (OperatorKey(c, k) ==> k !in after))
  {
    var start := [State(s, List1, job, false, false, false)];
    var h := PassIsHistory(start, pcs, log, n);
    TeardownInvariant(h, |h| - 1);
  }

  /** From call `from` on, the others are tame; before it they did what they liked. */
  ghost predicate TameSince(c: Ref, log: seq<Event>, from: nat) {
    forall i {:trigger TameBefore(c, map[], log, i)} :: from < i < |log| ==> TameBefore(c, map[], log, i)
  }

  /** Release safety needs no assumption about what happened before the empty listing, not even labels:
      if nobody created or relabelled Apps of the cluster after it, then at the release, and in every
      later store that tame others leave, there is no App of the cluster and neither operator. */
  lemma ReleaseSafety(job: Job, pcs: seq<Pc>, log: seq<Event>, i: nat, later: Store)
    requires Pass(job, pcs, log) && Last(pcs) == Halted(Released)
    requires SawNoApps(job.cluster, log, i) && TameSince(job.cluster, log, i)
    requires Tame(job.cluster, Last(log).post, later)
    ensures forall k :: !ClusterApp(job.cluster, later, k) && (OperatorKey(job.cluster, k) ==> k !in later)
  {
    var s := SafeSince(job, pcs, log, i, |log|);
    TameKeeps(job.cluster, Last(log).post, later);
    NothingLeftMeans(job.cluster, later);
  }

  lemma NothingLeftMeans(c: Ref, s: Store)
    requires NothingLeft(c, s)
    ensures forall k :: !ClusterApp(c, s, k) && (OperatorKey(c, k) ==> k !in s)
  {
    forall k ensures !ClusterApp(c, s, k) && (OperatorKey(c, k) ==> k !in s) {
      assert !Relevant(c, s, k);
    }
  }

  lemma {:induction false} SafeSince(job: Job, pcs: seq<Pc>, log: seq<Event>, i: nat, n: nat) returns (s: State)
    requires Pass(job, pcs, log) && i < n <= |log|
    requires SawNoApps(job.cluster, log, i) && TameSince(job.cluster, log, i)
    ensures Safe(s) && s.store == log[n - 1].post && s.pc == pcs[n] && s.job == job
  {
    assert StepAt(job, pcs, log, n - 1);
    if n == i + 1 {
      EmptyListMovesOn(job, pcs, log, i);
      s := State(log[i].post, DelChart, job, false, false, false);
      SafeAfterEmptyListing(s, log[i]);
    } else {
      var before := SafeSince(job, pcs, log, i, n - 1);
      assert TameBefore(job.cluster, map[], log, n - 1);
      s := SafeStep(before, log[n - 1], pcs[n]);
    }
  }

  lemma SafeAfterEmptyListing(s: State, e: Event)
    requires Serves(e) && e.request == RequestAt(s.job, List2) && e.answer == Items([])
    requires s == State(e.post, DelChart, s.job, false, false, false)
    ensures Safe(s)
  {
    EmptyListing(s.job.cluster, e);
  }

  lemma SafeStep(s: State, e: Event, pc': Pc) returns (s': State)
    requires Safe(s) && Tame(s.job.cluster, s.store, e.pre) && Step(s.job, s.pc, e, pc')
    ensures Safe(s') && s'.store == e.post && s'.pc == pc' && s'.job == s.job
  {
    var c, waiting := s.job.cluster, s.(store := e.pre);
    assert OthersAct(s, waiting);
    NextSafe(s, waiting);
    s' := State(e.post, pc', s.job,
      s.askedChart || e.request == Delete(ChartOperatorKey(c)),
      s.askedAppOp || e.request == Delete(AppOperatorKey(c)),
      s.released || pc' == Halted(Released));
    assert OperatorCalls(waiting, e, s');
    CallSafe(waiting, e, s');
  }
}
