/**
 What becomes of an App that another actor edits between the Get and the Patch of an update, and when one
 further undisturbed pass brings it into its desired state after all.
 */
module ConcurrentEdits {
  import opened Objects
  import opened MergePatch
  import opened Api
  import opened Keys
  import opened OperatorApps
  import opened Protocol
  import opened Convergence
  import opened Wrappers

  /** The outcome of an update when the App was edited between the Get and the Patch: the desired value
      wherever the fetched one was not it, the edited one everywhere else; and nothing but labels,
      annotations and spec is touched. */
  lemma UpdateUnderEdits(job: Job, pcs: seq<Pc>, log: seq<Event>, n: nat)
    requires CreationPass(job, pcs, log) && n < |log| && pcs[n].PatchApp? && log[n].answer.Done?
    ensures var k, fetched, wanted := pcs[n].item.key, pcs[n].fetched, pcs[n].item.app;
            && k in log[n].pre && k in log[n].post
            && var before, after := log[n].pre[k], log[n].post[k];
            && (forall l :: Field(after.labels, l) == Merged(fetched.labels, wanted.labels, before.labels, l))
            && (forall a :: Field(after.annotations, a)
                         == Merged(fetched.annotations, wanted.annotations, before.annotations, a))
            && (forall f :: Field(after.spec, f) == Merged(fetched.spec, wanted.spec, before.spec, f))
            && after.finalizers == before.finalizers
            && after.terminating == before.terminating && after.status == before.status
  {
    assert StepAt(job, pcs, log, n);
    var k, fetched, wanted := pcs[n].item.key, pcs[n].fetched, pcs[n].item.app;
    var before, after := log[n].pre[k], log[n].post[k];
    forall l ensures Field(after.labels, l) == Merged(fetched.labels, wanted.labels, before.labels, l) {
      MergeKeepsConcurrentEdits(fetched.labels, wanted.labels, before.labels, l);
    }
    forall a
      ensures Field(after.annotations, a) == Merged(fetched.annotations, wanted.annotations, before.annotations, a)
    {
      MergeKeepsConcurrentEdits(fetched.annotations, wanted.annotations, before.annotations, a);
    }
    forall f ensures Field(after.spec, f) == Merged(fetched.spec, wanted.spec, before.spec, f) {
      MergeKeepsConcurrentEdits(fetched.spec, wanted.spec, before.spec, f);
    }
  }

  /** A patch leaves label `l` as wanted: either it sets the label, because the fetched App did not have it
      as wanted, or the label still is as wanted when the patch arrives. */
  predicate LabelSurvives(fetched: Labels, wanted: Labels, current: Labels, l: Label) {
    Field(fetched, l) != Field(wanted, l) || Field(current, l) == Field(wanted, l)
  }

  predicate SelectorSurvives(fetched: Labels, wanted: Labels, current: Labels) {
    LabelSurvives(fetched, wanted, current, Cluster) && LabelSurvives(fetched, wanted, current, ManagedBy)
  }

  lemma LabelAfterEdit(fetched: Labels, wanted: Labels, current: Labels, l: Label)
    ensures Field(Merge(current, Diff(fetched, wanted)), l) == Field(wanted, l)
       <==> LabelSurvives(fetched, wanted, current, l)
  {
    MergeKeepsConcurrentEdits(fetched, wanted, current, l);
  }

  /** When a patched App is still listed. */
  lemma LabelsAfterEdit(id: string, fetched: Labels, wanted: Labels, current: Labels)
    requires Matches(OperatorSelector(id), wanted)
    ensures Matches(OperatorSelector(id), Merge(current, Diff(fetched, wanted)))
       <==> SelectorSurvives(fetched, wanted, current)
  {
    var merged := Merge(current, Diff(fetched, wanted));
    SelectorMeaning(id, wanted);
    SelectorMeaning(id, merged);
    LabelAfterEdit(fetched, wanted, current, Cluster);
    LabelAfterEdit(fetched, wanted, current, ManagedBy);
  }

  /** The pass has nothing left to do about `k`. */
  ghost predicate Past(pc: Pc, k: Key) {
    && (pc.CreateApp? || pc.FetchApp? || pc.PatchApp? || pc.Halted?)
    && forall i {:trigger Todo(pc)[i]} :: 0 <= i < |Todo(pc)| ==> Todo(pc)[i].key != k
  }

  /** Nobody else acts after call `n`. */
  ghost predicate QuietSince(log: seq<Event>, n: nat) {
    forall i {:trigger QuietBefore(map[], log, i)} :: n < i < |log| ==> QuietBefore(map[], log, i)
  }

  lemma {:induction false} NextInLine(todo: seq<Item>, current: seq<Item>)
    requires Distinct(todo)
    ensures Distinct(Todo(NextApp(todo, current)))
  {
    if todo != [] {
      NextInLine(todo[1..], current);
      assert [todo[0]] + todo[1..] == todo;
    }
  }

  lemma {:induction false} NextIsPast(todo: seq<Item>, current: seq<Item>, k: Key)
    requires forall i :: 0 <= i < |todo| ==> todo[i].key != k
    ensures Past(NextApp(todo, current), k)
  {
    if todo != [] {
      NextIsPast(todo[1..], current, k);
      assert [todo[0]] + todo[1..] == todo;
    }
  }

  /** A pass deals with each App once. */
  lemma {:induction false} PassInLine(job: Job, pcs: seq<Pc>, log: seq<Event>, n: nat)
    requires CreationPass(job, pcs, log) && n <= |log|
    ensures WorksOnDesired(job, pcs[n]) && Distinct(Todo(pcs[n]))
  {
    PassWorksOnDesired(job, pcs, log, n);
    if n > 0 {
      PassInLine(job, pcs, log, n - 1);
      assert StepAt(job, pcs, log, n - 1);
      StepInLine(job, pcs[n - 1], log[n - 1], pcs[n]);
    }
  }

  lemma StepInLine(job: Job, pc: Pc, e: Event, pc': Pc)
    requires ValidJob(job) && WorksOnDesired(job, pc) && Distinct(Todo(pc)) && Step(job, pc, e, pc')
    ensures Distinct(Todo(pc'))
  {
    match pc
    case ListCurrent =>
      LookupDesired(job.desired, job.cluster);
      if e.answer.Items? {
        NextInLine(job.desired, e.answer.items);
      }
    case CreateApp(item, rest, current) => RestInLine(item, rest, current);
    case FetchApp(item, rest, current) =>
    case PatchApp(item, rest, current, _) => RestInLine(item, rest, current);
  }

  lemma RestInLine(item: Item, rest: seq<Item>, current: seq<Item>)
    requires Distinct([item] + rest)
    ensures Distinct(Todo(NextApp(rest, current))) && Past(NextApp(rest, current), item.key)
  {
    var all := [item] + rest;
    forall i | 0 <= i < |rest| ensures rest[i] == all[i + 1] && rest[i].key != item.key {
      assert all[0].key != all[i + 1].key;
    }
    NextInLine(rest, current);
    NextIsPast(rest, current, item.key);
  }

  lemma StepStaysPast(job: Job, pc: Pc, e: Event, pc': Pc, k: Key)
    requires Past(pc, k) && Step(job, pc, e, pc')
    ensures Past(pc', k) && SameApp(e.pre, e.post, k)
  {
    var todo := Todo(pc);
    assert todo[0] == pc.item;
    forall i | 0 <= i < |pc.rest| ensures pc.rest[i].key != k {
      assert todo[i + 1] == pc.rest[i];
    }
    NextIsPast(pc.rest, pc.current, k);
    ServesOnlyItsKey(e, k);
  }

  lemma {:induction false} UntouchedAfter(job: Job, pcs: seq<Pc>, log: seq<Event>, n: nat, m: nat, k: Key)
    requires Run(job, pcs, log) && n < m <= |log|
    requires Past(pcs[n + 1], k) && QuietSince(log, n)
    ensures Past(pcs[m], k) && SameApp(log[n].post, log[m - 1].post, k)
  {
    if n + 1 < m {
      UntouchedAfter(job, pcs, log, n, m - 1, k);
      assert StepAt(job, pcs, log, m - 1) && QuietBefore(map[], log, m - 1);
      StepStaysPast(job, pcs[m - 1], log[m - 1], pcs[m], k);
    }
  }

  /** If nobody acts after the patch, the rest of the pass leaves the App as the patch did. */
  lemma PatchedUntilEnd(job: Job, pcs: seq<Pc>, log: seq<Event>, n: nat)
    requires CreationPass(job, pcs, log) && n < |log| && pcs[n].PatchApp? && log[n].answer.Done?
    requires QuietSince(log, n)
    ensures SameApp(log[n].post, Last(log).post, pcs[n].item.key)
  {
    PassInLine(job, pcs, log, n);
    assert StepAt(job, pcs, log, n);
    RestInLine(pcs[n].item, pcs[n].rest, pcs[n].current);
    UntouchedAfter(job, pcs, log, n, |log|, pcs[n].item.key);
  }

  /** When the App is still listed after such an update. */
  lemma ListedIffSelectorSurvives(job: Job, pcs: seq<Pc>, log: seq<Event>, n: nat)
    requires CreationPass(job, pcs, log) && n < |log| && pcs[n].PatchApp? && log[n].answer.Done?
    requires QuietSince(log, n)
    ensures var k, s := pcs[n].item.key, Last(log).post;
            && pcs[n].item in job.desired && k in log[n].pre && k in log[n].post && k in s
            && s[k] == log[n].post[k]
            && (ManagedApp(job.cluster, s, k) <==>
                  SelectorSurvives(pcs[n].fetched.labels, pcs[n].item.app.labels, log[n].pre[k].labels))
  {
    var d := pcs[n].item;
    PassInLine(job, pcs, log, n);
    assert StepAt(job, pcs, log, n) && Todo(pcs[n])[0] == d;
    PatchedUntilEnd(job, pcs, log, n);
    LabelsAfterEdit(job.cluster.id, pcs[n].fetched.labels, d.app.labels, log[n].pre[d.key].labels);
  }

  /** After an update that was disturbed between its Get and its Patch in any way, one further undisturbed
      pass brings the App into its desired state if and only if the edit spared both selector labels or the
      patch sets them anyway. Otherwise that pass leaves the App as the patch did. */
  lemma FurtherPassConvergesIff(
    job: Job, pcs: seq<Pc>, log: seq<Event>, n: nat, pcs': seq<Pc>, log': seq<Event>)
    requires CreationPass(job, pcs, log) && n < |log| && pcs[n].PatchApp? && log[n].answer.Done?
    requires QuietSince(log, n)
    requires CreationPass(job, pcs', log') && Quiet(Last(log).post, log') && Last(pcs') == Halted(Converged)
    ensures var k, wanted := pcs[n].item.key, pcs[n].item.app;
            && k in log[n].pre && k in log[n].post && log' != [] && k in Last(log').post
            && var survives := SelectorSurvives(pcs[n].fetched.labels, wanted.labels, log[n].pre[k].labels);
            && (SameDesired(Last(log').post[k], wanted) <==> survives)
            && (!survives ==> Last(log').post[k] == log[n].post[k])
  {
    var s := Last(log).post;
    ListedIffSelectorSurvives(job, pcs, log, n);
    QuietPassSettles(job, s, pcs', log');
    SettledApp(job, s, pcs[n].item);
  }

  lemma SettledApp(job: Job, s: Store, d: Item)
    requires ValidJob(job) && d in job.desired && d.key in s
    ensures var s' := Settle(job.cluster, s, job.desired);
            && d.key in s'
            && (SameDesired(s'[d.key], d.app) <==> ManagedApp(job.cluster, s, d.key))
            && (!ManagedApp(job.cluster, s, d.key) ==> s'[d.key] == s[d.key])
  {
    DesiredIffAbsentOrManaged(job, s, d);
    SettleMeaning(job, s);
  }

  // How a run goes on by one call.

  lemma RunGrows(job: Job, pcs: seq<Pc>, log: seq<Event>, e: Event, pc': Pc)
    requires Run(job, pcs, log) && Step(job, Last(pcs), e, pc')
    ensures Run(job, pcs + [pc'], log + [e])
  {
    var longer, all := pcs + [pc'], log + [e];
    forall i | 0 <= i < |all| ensures StepAt(job, longer, all, i) {
      if i < |log| {
        assert StepAt(job, pcs, log, i);
      }
    }
  }

  lemma GetAnswered(job: Job, pcs: seq<Pc>, log: seq<Event>, s: Store)
    requires Run(job, pcs, log) && Last(pcs).FetchApp? && Last(pcs).item.key in s
    ensures var pc, k := Last(pcs), Last(pcs).item.key;
            Run(job, pcs + [PatchApp(pc.item, pc.rest, pc.current, s[k])], log + [Event(s, Get(k), Found(s[k]), s)])
  {
    var pc, k := Last(pcs), Last(pcs).item.key;
    RunGrows(job, pcs, log, Event(s, Get(k), Found(s[k]), s), PatchApp(pc.item, pc.rest, pc.current, s[k]));
  }

  lemma PatchDone(job: Job, pcs: seq<Pc>, log: seq<Event>, s: Store)
    requires Run(job, pcs, log) && Last(pcs).PatchApp? && Last(pcs).item.key in s
    ensures Run(job, pcs + [NextApp(Last(pcs).rest, Last(pcs).current)], log + [PatchEvent(Last(pcs), s)])
  {
    RunGrows(job, pcs, log, PatchEvent(Last(pcs), s), NextApp(Last(pcs).rest, Last(pcs).current));
  }

  function PatchEvent(pc: Pc, s: Store): Event
    requires pc.PatchApp?
  {
    var p := DiffApp(pc.fetched, Modified(pc.fetched, pc.item.app));
    Event(s, Patch(pc.item.key, p), Done, Patched(s, pc.item.key, p))
  }

  lemma CreateDone(job: Job, pcs: seq<Pc>, log: seq<Event>, s: Store)
    requires Run(job, pcs, log) && Last(pcs).CreateApp? && Last(pcs).item.key !in s
    ensures Run(job, pcs + [NextApp(Last(pcs).rest, Last(pcs).current)], log + [CreateEvent(Last(pcs), s)])
  {
    RunGrows(job, pcs, log, CreateEvent(Last(pcs), s), NextApp(Last(pcs).rest, Last(pcs).current));
  }

  function CreateEvent(pc: Pc, s: Store): Event
    requires pc.CreateApp?
  {
    Event(s, Create(pc.item.key, pc.item.app), Done, Created(s, pc.item.key, pc.item.app))
  }

  function Stripped(app: App): App {
    app.(labels := app.labels - {ManagedBy})
  }

  /** The pass up to its Get. */
  lemma TrapUntilGet(job: Job, outdated: App) returns (pcs: seq<Pc>, log: seq<Event>)
    requires IsOutdated(job, outdated)
    ensures CreationPass(job, pcs, log) && |log| == 2 && NoFailures(log)
    ensures pcs[2] == PatchApp(job.desired[0], [job.desired[1]], [Item(job.desired[0].key, outdated)], outdated)
  {
    var k := job.desired[0].key;
    pcs, log := FirstIsOutdated(job, outdated);
    GetAnswered(job, pcs, log, map[k := outdated]);
    pcs := pcs + [PatchApp(job.desired[0], [job.desired[1]], [Item(k, outdated)], outdated)];
    log := log + [Event(map[k := outdated], Get(k), Found(outdated), map[k := outdated])];
  }

  /** The pass up to its Patch, which comes after the label is gone. */
  lemma TrapUntilPatch(job: Job, outdated: App) returns (pcs: seq<Pc>, log: seq<Event>)
    requires IsOutdated(job, outdated)
    ensures CreationPass(job, pcs, log) && |log| == 3 && NoFailures(log)
    ensures pcs[2] == PatchApp(job.desired[0], [job.desired[1]], [Item(job.desired[0].key, outdated)], outdated)
    ensures pcs[3] == CreateApp(job.desired[1], [], [Item(job.desired[0].key, outdated)])
    ensures log[2] == PatchEvent(pcs[2], map[job.desired[0].key := Stripped(outdated)])
  {
    var start, first := TrapUntilGet(job, outdated);
    var t := map[job.desired[0].key := Stripped(outdated)];
    PatchDone(job, start, first, t);
    SecondIsMissing(job, outdated);
    pcs := start + [CreateApp(job.desired[1], [], [Item(job.desired[0].key, outdated)])];
    log := first + [PatchEvent(start[2], t)];
    assert forall i :: 0 <= i < 2 ==> log[i] == first[i];
  }

  lemma NextOfNothing(current: seq<Item>)
    ensures NextApp([], current) == Halted(Converged)
  {
  }

  /** An update that the others turn into a trap: the Get sees the managed-by label, the others remove it,
      the patch leaves it out because what was fetched had it, and the pass returns nil. */
  lemma LabelStrippedDuringUpdate(job: Job) returns (pcs: seq<Pc>, log: seq<Event>)
    requires ValidJob(job)
    ensures CreationPass(job, pcs, log) && |log| == 4 && Last(pcs) == Halted(Converged) && NoFailures(log)
    ensures pcs[2].PatchApp? && log[2].answer.Done? && QuietSince(log, 2)
    ensures var k, fetched := pcs[2].item.key, pcs[2].fetched;
            && k in log[2].pre && log[2].pre[k] == Stripped(fetched)
            && !SelectorSurvives(fetched.labels, pcs[2].item.app.labels, log[2].pre[k].labels)
  {
    var outdated := Outdated(job.desired[0].app);
    SelectorMeaning(job.cluster.id, outdated.labels);
    var start, first := TrapUntilPatch(job, outdated);
    LookupDesired(job.desired, job.cluster);
    CreateDone(job, start, first, first[2].post);
    NextOfNothing(start[3].current);
    pcs := start + [Halted(Converged)];
    log := first + [CreateEvent(start[3], first[2].post)];
    assert forall i :: 0 <= i < 3 ==> log[i] == first[i];
  }

  /** The desired App with another value for some annotation. */
  lemma Outdated(desired: App) returns (outdated: App)
    ensures outdated.labels == desired.labels && !SameDesired(outdated, desired)
  {
    var mark := OtherAnnotation("");
    var value := if Field(desired.annotations, mark) == Some("") then "x" else "";
    outdated := desired.(annotations := desired.annotations[mark := value]);
    assert Field(outdated.annotations, mark) != Field(desired.annotations, mark);
  }

  ghost predicate IsOutdated(job: Job, outdated: App) {
    && ValidJob(job)
    && outdated.labels == job.desired[0].app.labels && !SameDesired(outdated, job.desired[0].app)
  }

  /** A first listing that finds an outdated first App and no second one. */
  lemma FirstIsOutdated(job: Job, outdated: App) returns (pcs: seq<Pc>, log: seq<Event>)
    requires IsOutdated(job, outdated)
    ensures CreationPass(job, pcs, log) && |log| == 1
    ensures pcs[1] == FetchApp(job.desired[0], [job.desired[1]], [Item(job.desired[0].key, outdated)])
    ensures log[0].answer.Items?
  {
    var d0, d1 := job.desired[0], job.desired[1];
    var s, items, rest := map[d0.key := outdated], [Item(d0.key, outdated)], job.desired[1..];
    assert job.desired == [d0] + rest && rest == [d1];
    assert items[0].key == d0.key && Lists(items, d0.key);
    assert IsListing(s, job.cluster.namespace, OperatorSelector(job.cluster.id), items);
    log := [Event(s, RequestAt(job, ListCurrent), Items(items), s)];
    pcs := [ListCurrent, FetchApp(d0, [d1], items)];
    assert StepAt(job, pcs, log, 0);
  }

  lemma SecondIsMissing(job: Job, outdated: App)
    requires ValidJob(job)
    ensures var d1, items := job.desired[1], [Item(job.desired[0].key, outdated)];
            NextApp([d1], items) == CreateApp(d1, [], items)
  {
    LookupDesired(job.desired, job.cluster);
    assert [job.desired[1]][1..] == [];
  }
}
