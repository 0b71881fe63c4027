/**
 What a client of the API server can ask, what it can be told, and which answers and effects are
 correct for the store at that moment.
 */
module Api {
  import opened Objects
  import opened MergePatch

  datatype Request =
    | List(namespace: string, selector: Selector)
    | Get(key: Key)
    | Create(key: Key, app: App)
    | Delete(key: Key)
    | Patch(key: Key, patch: AppPatch)

  datatype Answer =
    | Done
    | Items(items: seq<Item>)
    | Found(app: App)
    | NotFound
    | AlreadyExists
    | Failed  // any other error, a lost connection included

  /** One call: the store the server saw, and the store it left. */
  datatype Event = Event(pre: Store, request: Request, answer: Answer, post: Store)

  /** An App without finalizers is removed at once; any other only gets its deletion timestamp. */
  function Deleted(s: Store, k: Key): Store {
    if k !in s then s
    else if s[k].finalizers == {} then s - {k}
    else s[k := s[k].(terminating := true)]
  }

  function Created(s: Store, k: Key, app: App): Store {
    if k in s then s else s[k := app]
  }

  function Patched(s: Store, k: Key, p: AppPatch): Store {
    if k in s then s[k := MergeApp(s[k], p)] else s
  }

  function Effect(s: Store, r: Request): Store {
    match r
    case List(_, _) => s
    case Get(_) => s
    case Create(k, app) => Created(s, k, app)
    case Delete(k) => Deleted(s, k)
    case Patch(k, p) => Patched(s, k, p)
  }

  /** The answer when nothing goes wrong. A listing may come in any order. */
  ghost predicate RightAnswer(s: Store, r: Request, a: Answer) {
    match r
    case List(ns, selector) => a.Items? && IsListing(s, ns, selector, a.items)
    case Get(k) => a == if k in s then Found(s[k]) else NotFound
    case Create(k, _) => a == if k in s then AlreadyExists else Done
    case Delete(k) => a == if k in s then Done else NotFound
    case Patch(k, _) => a == if k in s then Done else NotFound
  }

  /** After a hard error the client cannot tell whether the request took effect. */
  ghost predicate Serves(e: Event) {
    || (RightAnswer(e.pre, e.request, e.answer) && e.post == Effect(e.pre, e.request))
    || (e.answer.Failed? && (e.post == e.pre || e.post == Effect(e.pre, e.request)))
  }

  /** What a Delete does that met no hard error. */
  lemma DeleteTakesEffect(e: Event, k: Key)
    requires Serves(e) && e.request == Delete(k) && !e.answer.Failed?
    ensures e.answer.NotFound? <==> k !in e.pre
    ensures k in e.pre && e.pre[k].finalizers == {} ==> k !in e.post
    ensures k in e.pre && e.pre[k].finalizers != {} ==>
              k in e.post && e.post[k] == e.pre[k].(terminating := true)
  {
  }

  /** No call touches any App but the one it names. */
  lemma ServesOnlyItsKey(e: Event, k: Key)
    requires Serves(e)
    requires e.request.List? || e.request.Get? || e.request.key != k
    ensures SameApp(e.pre, e.post, k)
  {
  }
}
