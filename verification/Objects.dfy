/**
 App custom resources, the set of them an API server holds, and label selectors.

 The label, annotation and spec keys that the operator knows are constructors; `Other` is any other
 key. A spec is a map from field paths to values; a path that is absent is a field that is not set.
 */
module Objects {
  datatype Label =
    | Cluster             // giantswarm.io/cluster
    | ManagedBy           // giantswarm.io/managed-by
    | AppName             // app.kubernetes.io/name
    | AppOperatorVersion  // app-operator.giantswarm.io/version
    | CapiCluster         // cluster.x-k8s.io/cluster-name
    | FluxName            // kustomize.toolkit.fluxcd.io/name
    | FluxNamespace       // kustomize.toolkit.fluxcd.io/namespace
    | OtherLabel(key: string)

  datatype Annotation =
    | ForceHelmUpgrade    // chart-operator.giantswarm.io/force-helm-upgrade
    | OtherAnnotation(key: string)

  datatype SpecField =
    | Catalog
    | ConfigMapName
    | ConfigMapNamespace
    | SecretName
    | SecretNamespace
    | InCluster
    | KubeContextName
    | KubeSecretName
    | KubeSecretNamespace
    | ChartName
    | TargetNamespace
    | Version
    | OtherField(key: string)

  type Labels = map<Label, string>

  type Annotations = map<Annotation, string>

  type Spec = map<SpecField, string>

  datatype Key = Key(namespace: string, name: string)

  /** `terminating` says that the deletion timestamp is set; `status` stands for everything that
      neither the operator nor a label selector looks at. */
  datatype App = App(
    labels: Labels,
    annotations: Annotations,
    spec: Spec,
    finalizers: set<string>,
    terminating: bool,
    status: string)

  /** An App as a client holds it: together with its namespace and name. */
  datatype Item = Item(key: Key, app: App)

  type Store = map<Key, App>

  datatype Requirement = Equal(key: Label, value: string) | NotEqual(key: Label, value: string)

  type Selector = seq<Requirement>

  /** `k!=v` is also met by an object that has no label `k`. */
  predicate Satisfies(labels: Labels, r: Requirement) {
    match r
    case Equal(k, v) => k in labels && labels[k] == v
    case NotEqual(k, v) => !(k in labels && labels[k] == v)
  }

  predicate Matches(selector: Selector, labels: Labels) {
    forall i :: 0 <= i < |selector| ==> Satisfies(labels, selector[i])
  }

  predicate Selected(s: Store, namespace: string, selector: Selector, k: Key) {
    k in s && k.namespace == namespace && Matches(selector, s[k].labels)
  }

  function SelectedKeys(s: Store, namespace: string, selector: Selector): set<Key> {
    set k | k in s && Selected(s, namespace, selector, k)
  }

  /** Both stores agree on `k`. */
  ghost predicate SameApp(s: Store, s': Store, k: Key) {
    (k in s <==> k in s') && (k in s ==> s'[k] == s[k])
  }

  predicate Lists(items: seq<Item>, k: Key) {
    exists i :: 0 <= i < |items| && items[i].key == k
  }

  /** The items are the selected Apps of `s`, each once, in any order. */
  ghost predicate IsListing(s: Store, namespace: string, selector: Selector, items: seq<Item>) {
    && (forall i :: 0 <= i < |items| ==>
          Selected(s, namespace, selector, items[i].key) && items[i].app == s[items[i].key])
    && (forall k {:trigger Lists(items, k)} :: Selected(s, namespace, selector, k) ==> Lists(items, k))
    && (forall i, j :: 0 <= i < j < |items| ==> items[i].key != items[j].key)
  }

  lemma ListingSize(s: Store, namespace: string, selector: Selector, items: seq<Item>)
    requires IsListing(s, namespace, selector, items)
    ensures |items| == |SelectedKeys(s, namespace, selector)|
  {
    DistinctKeys(items);
    var keys := set i | 0 <= i < |items| :: items[i].key;
    forall k ensures k in keys <==> k in SelectedKeys(s, namespace, selector) {
      assert Lists(items, k) <==> k in keys;
    }
    assert keys == SelectedKeys(s, namespace, selector);
  }

  lemma {:induction false} DistinctKeys(items: seq<Item>)
    requires forall i, j :: 0 <= i < j < |items| ==> items[i].key != items[j].key
    ensures |set i | 0 <= i < |items| :: items[i].key| == |items|
  {
    if items != [] {
      var n := |items| - 1;
      DistinctKeys(items[..n]);
      assert (set i | 0 <= i < |items| :: items[i].key)
          == (set i | 0 <= i < n :: items[..n][i].key) + {items[n].key};
    }
  }

  /** A server may list a selected App first. */
  lemma ListingStartingWith(s: Store, namespace: string, selector: Selector, first: Key) returns (items: seq<Item>)
    requires Selected(s, namespace, selector, first)
    ensures IsListing(s, namespace, selector, items) && items != [] && items[0] == Item(first, s[first])
  {
    var keys := SelectedKeys(s, namespace, selector);
    var rest := InSomeOrder(keys - {first});
    var order := [first] + rest;
    forall i | 0 <= i < |order| ensures order[i] in keys {
      assert i > 0 ==> order[i] == rest[i - 1] && rest[i - 1] in rest;
    }
    items := seq(|order|, i requires 0 <= i < |order| => Item(order[i], s[order[i]]));
    forall k | Selected(s, namespace, selector, k) ensures Lists(items, k) {
      if k == first {
        assert items[0].key == k;
      } else {
        assert k in keys - {first};
        var i :| 0 <= i < |rest| && rest[i] == k;
        assert items[i + 1].key == k;
      }
    }
  }

  lemma InSomeOrder<T>(all: set<T>) returns (order: seq<T>)
    ensures forall x :: x in order <==> x in all
    ensures forall i, j :: 0 <= i < j < |order| ==> order[i] != order[j]
  {
    order := [];
    if all != {} {
      var x :| x in all;
      var rest := InSomeOrder(all - {x});
      order := [x] + rest;
    }
  }
}
