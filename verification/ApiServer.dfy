/** The Kubernetes API server as the operator meets it, and the reconciliation context. */
module ApiServers {
  import opened Objects
  import opened MergePatch
  import opened Api

  /**
   Between any two calls the other actors may leave any store at all, and any call may fail.
   `log` records every call with the store before and after it; what happened between two calls is
   the difference between one call's `post` and the next call's `pre`.
   */
  class ApiServer {
    var store: Store
    ghost var log: seq<Event>

    constructor (s: Store)
      ensures store == s && log == []
    {
      store := s;
      log := [];
    }

    /** Exactly one call was made since the old state, and it was served correctly. */
    twostate predicate Answered(r: Request, a: Answer)
      reads this
    {
      && |log| == |old(log)| + 1
      && old(log) <= log
      && var e := log[|old(log)|];
      && e.request == r && e.answer == a && e.post == store && Serves(e)
    }

    method Call(r: Request, right: Answer, ghost pre: Store) returns (a: Answer)
      requires pre == store && RightAnswer(store, r, right)
      modifies this
      ensures Answered(r, a) && (a == right || a == Failed)
    {
      var fails: bool, lost: bool := *, *;
      if fails {
        a := Failed;
        if !lost {
          store := Effect(store, r);
        }
      } else {
        a := right;
        store := Effect(store, r);
      }
      log := log + [Event(pre, r, a, store)];
    }

    method OtherActors()
      modifies this`store
    {
      store := *;
    }

    method ListApps(namespace: string, selector: Selector) returns (a: Answer)
      modifies this
      ensures Answered(List(namespace, selector), a) && (a.Items? || a.Failed?)
    {
      OtherActors();
      var items: seq<Item> := [];
      var todo := SelectedKeys(store, namespace, selector);
      while todo != {}
        invariant todo <= SelectedKeys(store, namespace, selector)
        invariant forall i :: 0 <= i < |items| ==>
          && items[i].key !in todo
          && Selected(store, namespace, selector, items[i].key) && items[i].app == store[items[i].key]
        invariant forall k {:trigger Lists(items, k)} :: Selected(store, namespace, selector, k) ==>
          k in todo || Lists(items, k)
        invariant forall i, j :: 0 <= i < j < |items| ==> items[i].key != items[j].key
        decreases |todo|
      {
        var k :| k in todo;
        ghost var before := items;
        items := items + [Item(k, store[k])];
        todo := todo - {k};
        assert items[|before|].key == k;
        assert forall i :: 0 <= i < |before| ==> items[i] == before[i];
        assert forall k' :: Lists(before, k') ==> Lists(items, k');
      }
      a := Call(List(namespace, selector), Items(items), store);
    }

    method GetApp(k: Key) returns (a: Answer)
      modifies this
      ensures Answered(Get(k), a) && (a.Found? || a.NotFound? || a.Failed?)
    {
      OtherActors();
      a := Call(Get(k), if k in store then Found(store[k]) else NotFound, store);
    }

    method CreateApp(item: Item) returns (a: Answer)
      modifies this
      ensures Answered(Create(item.key, item.app), a) && (a.Done? || a.AlreadyExists? || a.Failed?)
    {
      OtherActors();
      a := Call(Create(item.key, item.app), if item.key in store then AlreadyExists else Done, store);
    }

    method DeleteApp(k: Key) returns (a: Answer)
      modifies this
      ensures Answered(Delete(k), a) && (a.Done? || a.NotFound? || a.Failed?)
    {
      OtherActors();
      a := Call(Delete(k), if k in store then Done else NotFound, store);
    }

    method PatchApp(k: Key, p: AppPatch) returns (a: Answer)
      modifies this
      ensures Answered(Patch(k, p), a) && (a.Done? || a.NotFound? || a.Failed?)
    {
      OtherActors();
      a := Call(Patch(k, p), if k in store then Done else NotFound, store);
    }
  }

  /** The part of the reconciliation context that the app resource writes. */
  class Context {
    var finalizersKept: bool

    constructor ()
      ensures !finalizersKept
    {
      finalizersKept := false;
    }

    method SetKept()
      modifies this
      ensures finalizersKept
    {
      finalizersKept := true;
    }
  }
}
