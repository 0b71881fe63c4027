/** The no-proxy list of the cluster secret (`noProxy`), and what splitting it again gives. */
module NoProxy {
  import opened Clusters
  import opened Wrappers

  /** `strings.Join` with a comma. */
  function Join(parts: seq<string>): string {
    if parts == [] then ""
    else if |parts| == 1 then parts[0]
    else parts[0] + "," + Join(parts[1..])
  }

  /** `strings.Split` at commas: at least one entry, and one more than there are commas. */
  function Split(s: string): (entries: seq<string>)
    ensures entries != []
  {
    if s == "" then [""]
    else if s[0] == ',' then [""] + Split(s[1..])
    else
      var rest := Split(s[1..]);
      [[s[0]] + rest[0]] + rest[1..]
  }

  /** The entries of each part, in order. */
  function SplitAll(parts: seq<string>): seq<string> {
    if parts == [] then [] else Split(parts[0]) + SplitAll(parts[1..])
  }

  predicate CommaFree(s: string) {
    ',' !in s
  }

  function Presence(s: string): seq<string> {
    if s == "" then [] else [s]
  }

  function Blocks(ranges: Option<Option<seq<string>>>): seq<string> {
    if ranges.None? || ranges.value.None? then [] else [Join(ranges.value.value)]
  }

  function NetworkParts(n: Network): seq<string> {
    Presence(n.serviceDomain) + Blocks(n.services) + Blocks(n.pods)
  }

  /** Everything that precedes the fixed entries. */
  function Parts(cr: Cluster, globalNoProxy: string): seq<string> {
    (if cr.network.None? then [] else NetworkParts(cr.network.value))
    + Presence(cr.controlPlaneHost)
    + Presence(globalNoProxy)
  }

  function NoProxyValue(cr: Cluster, globalNoProxy: string): string {
    Join([Join(Parts(cr, globalNoProxy)), "svc", "127.0.0.1", "localhost"])
  }

  method NoProxy(cr: Cluster, globalNoProxy: string) returns (noProxy: string)
    ensures noProxy == NoProxyValue(cr, globalNoProxy)
  {
    var appendString: seq<string> := [];
    if cr.network.Some? {
      var network := cr.network.value;
      if network.serviceDomain != "" {
        appendString := appendString + [network.serviceDomain];
      }
      assert appendString == Presence(network.serviceDomain);
      if network.services.Some? && network.services.value.Some? {
        appendString := appendString + [Join(network.services.value.value)];
      }
      assert appendString == Presence(network.serviceDomain) + Blocks(network.services);
      if network.pods.Some? && network.pods.value.Some? {
        appendString := appendString + [Join(network.pods.value.value)];
      }
      assert appendString == NetworkParts(network);
    }
    if cr.controlPlaneHost != "" {
      appendString := appendString + [cr.controlPlaneHost];
    }
    if |globalNoProxy| > 0 {
      appendString := appendString + [globalNoProxy];
    }
    assert appendString == Parts(cr, globalNoProxy);
    noProxy := Join([Join(appendString), "svc", "127.0.0.1", "localhost"]);
  }

  lemma {:induction false} SplitConcat(a: string, b: string)
    ensures Split(a + "," + b) == Split(a) + Split(b)
  {
    if a == "" {
      assert "" + "," + b == [','] + b;
      SplitCons(',', b);
    } else {
      var rest := a[1..] + "," + b;
      assert a + "," + b == [a[0]] + rest && a == [a[0]] + a[1..];
      SplitCons(a[0], rest);
      SplitCons(a[0], a[1..]);
      SplitConcat(a[1..], b);
    }
  }

  lemma SplitCons(ch: char, s: string)
    ensures Split([ch] + s) == if ch == ',' then [""] + Split(s) else [[ch] + Split(s)[0]] + Split(s)[1..]
  {
    assert ([ch] + s)[1..] == s;
  }

  /** Splitting undoes joining, whatever the parts contain: it gives the entries of each part. */
  lemma {:induction false} SplitJoin(parts: seq<string>)
    ensures Split(Join(parts)) == if parts == [] then [""] else SplitAll(parts)
  {
    if |parts| == 1 {
      assert parts[1..] == [];
    } else if |parts| > 1 {
      SplitJoin(parts[1..]);
      SplitConcat(parts[0], Join(parts[1..]));
    }
  }

  lemma {:induction false} SplitCommaFree(s: string)
    requires CommaFree(s)
    ensures Split(s) == [s]
  {
    if s != "" {
      SplitCommaFree(s[1..]);
      assert [s[0]] + s[1..] == s;
    }
  }

  lemma {:induction false} SplitAllCommaFree(parts: seq<string>)
    requires forall i :: 0 <= i < |parts| ==> CommaFree(parts[i])
    ensures SplitAll(parts) == parts
  {
    if parts != [] {
      SplitCommaFree(parts[0]);
      SplitAllCommaFree(parts[1..]);
    }
  }

  lemma {:induction false} SplitAllConcat(a: seq<string>, b: seq<string>)
    ensures SplitAll(a + b) == SplitAll(a) + SplitAll(b)
  {
    if a == [] {
      assert a + b == b;
    } else {
      assert (a + b)[1..] == a[1..] + b;
      SplitAllConcat(a[1..], b);
    }
  }

  predicate CommaFreeBlocks(ranges: Option<Option<seq<string>>>) {
    ranges.Some? && ranges.value.Some? ==>
      forall i :: 0 <= i < |ranges.value.value| ==> CommaFree(ranges.value.value[i])
  }

  /** One entry per block; a list that is present but empty leaves one empty entry. */
  function BlockEntries(ranges: Option<Option<seq<string>>>): seq<string> {
    if ranges.None? || ranges.value.None? then []
    else if ranges.value.value == [] then [""]
    else ranges.value.value
  }

  /** The entries that come from the cluster and the global setting. */
  function Entries(cr: Cluster, globalNoProxy: string): seq<string> {
    (if cr.network.None? then []
     else Presence(cr.network.value.serviceDomain)
          + BlockEntries(cr.network.value.services) + BlockEntries(cr.network.value.pods))
    + Presence(cr.controlPlaneHost)
    + (if globalNoProxy == "" then [] else Split(globalNoProxy))
  }

  lemma BlocksSplit(ranges: Option<Option<seq<string>>>)
    requires CommaFreeBlocks(ranges)
    ensures SplitAll(Blocks(ranges)) == BlockEntries(ranges)
  {
    if ranges.Some? && ranges.value.Some? {
      var blocks := ranges.value.value;
      SplitJoin(blocks);
      SplitAllCommaFree(blocks);
      OnePart(Join(blocks));
    }
  }

  lemma OnePart(s: string)
    ensures SplitAll([s]) == Split(s)
  {
  }

  lemma PresenceSplit(s: string)
    requires CommaFree(s)
    ensures SplitAll(Presence(s)) == Presence(s)
  {
    SplitAllCommaFree(Presence(s));
  }

  lemma PartsSplit(cr: Cluster, globalNoProxy: string)
    requires CommaFree(cr.controlPlaneHost)
    requires cr.network.Some? ==>
               && CommaFree(cr.network.value.serviceDomain)
               && CommaFreeBlocks(cr.network.value.services) && CommaFreeBlocks(cr.network.value.pods)
    ensures SplitAll(Parts(cr, globalNoProxy)) == Entries(cr, globalNoProxy)
  {
    var ofNetwork: seq<string> := [];
    if cr.network.Some? {
      var n := cr.network.value;
      PresenceSplit(n.serviceDomain);
      BlocksSplit(n.services);
      BlocksSplit(n.pods);
      ofNetwork := NetworkParts(n);
      SplitAllConcat(Presence(n.serviceDomain), Blocks(n.services));
      SplitAllConcat(Presence(n.serviceDomain) + Blocks(n.services), Blocks(n.pods));
    }
    PresenceSplit(cr.controlPlaneHost);
    OnePart(globalNoProxy);
    SplitAllConcat(ofNetwork, Presence(cr.controlPlaneHost));
    SplitAllConcat(ofNetwork + Presence(cr.controlPlaneHost), Presence(globalNoProxy));
  }

  /** Splitting the value gives, in order, the service domain, every service block, every pod block, the
      control-plane host, every entry of the global list and the three fixed entries; one leading empty
      entry when nothing but the fixed ones contributes. */
  lemma NoProxyEntries(cr: Cluster, globalNoProxy: string)
    requires CommaFree(cr.controlPlaneHost)
    requires cr.network.Some? ==>
               && CommaFree(cr.network.value.serviceDomain)
               && CommaFreeBlocks(cr.network.value.services) && CommaFreeBlocks(cr.network.value.pods)
    ensures Split(NoProxyValue(cr, globalNoProxy))
         == (if Parts(cr, globalNoProxy) == [] then [""] else Entries(cr, globalNoProxy))
            + ["svc", "127.0.0.1", "localhost"]
  {
    ValueSplit(cr, globalNoProxy);
    SplitJoin(Parts(cr, globalNoProxy));
    PartsSplit(cr, globalNoProxy);
  }

  lemma FixedSplit()
    ensures SplitAll(["svc", "127.0.0.1", "localhost"]) == ["svc", "127.0.0.1", "localhost"]
  {
    var svc, local, host := "svc", "127.0.0.1", "localhost";
    assert CommaFree(svc) && CommaFree(local) && CommaFree(host);
    SplitAllCommaFree([svc, local, host]);
  }

  /** The value contains the global list: its entries, in order, stand right before the fixed ones, whatever
      the components look like. */
  lemma GlobalEntries(cr: Cluster, globalNoProxy: string) returns (own: seq<string>)
    ensures Split(NoProxyValue(cr, globalNoProxy))
         == own + (if globalNoProxy == "" then [] else Split(globalNoProxy)) + ["svc", "127.0.0.1", "localhost"]
  {
    var parts := Parts(cr, globalNoProxy);
    ValueSplit(cr, globalNoProxy);
    SplitJoin(parts);
    if globalNoProxy == "" {
      own := Split(Join(parts));
    } else {
      var front := parts[..|parts| - 1];
      assert parts == front + [globalNoProxy];
      SplitAllConcat(front, [globalNoProxy]);
      OnePart(globalNoProxy);
      own := SplitAll(front);
    }
  }

  /** It is never the global list itself. */
  lemma ValueIsLonger(cr: Cluster, globalNoProxy: string)
    ensures NoProxyValue(cr, globalNoProxy) != globalNoProxy
  {
    var own := GlobalEntries(cr, globalNoProxy);
    assert Split("") == [""];
  }

  lemma ValueSplit(cr: Cluster, globalNoProxy: string)
    ensures Split(NoProxyValue(cr, globalNoProxy))
         == Split(Join(Parts(cr, globalNoProxy))) + ["svc", "127.0.0.1", "localhost"]
  {
    var list, fixed := Join(Parts(cr, globalNoProxy)), ["svc", "127.0.0.1", "localhost"];
    assert [list] + fixed == [list, "svc", "127.0.0.1", "localhost"];
    SplitJoin([list] + fixed);
    SplitAllConcat([list], fixed);
    OnePart(list);
    FixedSplit();
  }
}
