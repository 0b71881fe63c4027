/**
 In what the secrets and the config maps of a cluster, which two resources compute independently, agree
 with each other and with the Apps that refer to them, and in what they do not.
 */
module Agreement {
  import opened Objects
  import opened Keys
  import opened OperatorApps
  import opened Clusters
  import opened DnsIp
  import opened NoProxy
  import opened ClusterResources
  import opened Wrappers

  /** Everything that both resources read. */
  datatype Case = Case(cr: Cluster, settings: Settings, proxy: Proxy, parse: string -> Parsed, infra: Infra)

  function SecretsOf(w: Case): Result<seq<Secret>, Error> {
    DesiredSecrets(w.cr, w.proxy, w.infra)
  }

  function ConfigMapsOf(w: Case): Result<seq<ConfigMap>, Error> {
    DesiredConfigMaps(w.cr, w.settings, w.proxy, w.parse, w.infra)
  }

  /** The cluster is not being deleted, and neither resource ends in an error. */
  predicate Succeeds(w: Case) {
    !w.cr.deleted && SecretsOf(w).Ok? && ConfigMapsOf(w).Ok?
  }

  function Secrets(w: Case): seq<Secret>
    requires Succeeds(w)
  {
    SecretsOf(w).value
  }

  function ConfigMaps(w: Case): seq<ConfigMap>
    requires Succeeds(w)
  {
    ConfigMapsOf(w).value
  }

  lemma Shapes(w: Case)
    requires Succeeds(w)
    ensures var c, maps := RefOf(w.cr), ConfigMaps(w);
            && |maps| == 2 && maps[1].data.ClusterValues?
            && maps[0].key == Key(c.namespace, AppOperatorValuesName(c.id))
            && maps[1].key == Key(c.namespace, ClusterValuesName(c.id))
    ensures var c, secrets := RefOf(w.cr), Secrets(w);
            && |secrets| > 0 && secrets[0].data.MainSecret?
            && secrets[0].key == Key(c.namespace, ClusterValuesName(c.id))
            && (ProxyInSecret(w.cr, w.proxy, w.infra).value ==>
                  |secrets| == 2 && secrets[1].key == Key(c.namespace, SystemdProxyName(c.id)))
            && (!ProxyInSecret(w.cr, w.proxy, w.infra).value ==> |secrets| == 1)
  {
  }

  // Proxy and private

  predicate Proxied(w: Case)
    requires Succeeds(w)
  {
    exists i :: 0 <= i < |Secrets(w)| && Secrets(w)[i].data.MainSecret? && "http_proxy" in Secrets(w)[i].data.values
  }

  predicate Private(w: Case)
    requires Succeeds(w)
  {
    exists i :: 0 <= i < |ConfigMaps(w)| && ConfigMaps(w)[i].data.ClusterValues? && ConfigMaps(w)[i].data.private
  }

  /** The secrets carry the proxy exactly when the config map says private, a proxy is configured, and the
      cluster is neither a Proxmox one nor a vSphere one whose own configuration leaves the proxy off. The
      config map blanks the external DNS IP exactly when it says private. */
  lemma ProxyAgreement(w: Case)
    requires Succeeds(w)
    ensures Proxied(w) <==>
              && Private(w)
              && w.proxy != Proxy("", "", "")
              && w.cr.infrastructureKind != Some(ProxmoxCluster)
              && (w.cr.infrastructureKind == Some(VSphereCluster) ==> w.infra.vsphereProxyEnabled == Ok(true))
    ensures |ConfigMaps(w)| == 2 && ConfigMaps(w)[1].data.ClusterValues?
    ensures ConfigMaps(w)[1].data.externalDNSIP == if Private(w) then Some("") else None
  {
    Shapes(w);
    SecretsProxied(w);
    assert Private(w) <==> ConfigMaps(w)[1].data.private;
  }

  lemma SecretsProxied(w: Case)
    requires Succeeds(w)
    ensures Proxied(w) <==> ProxyInSecret(w.cr, w.proxy, w.infra).value
  {
    var secrets := Secrets(w);
    assert "http_proxy" in ProxyValues(NoProxyValue(w.cr, w.proxy.noProxy), w.proxy);
    assert "global"[0] == 'g' && "http_proxy"[0] == 'h';
    assert "http_proxy" in secrets[0].data.values <==> ProxyInSecret(w.cr, w.proxy, w.infra).value;
  }

  /** When a cluster is private and its secrets do not carry the proxy all the same. */
  lemma PrivateUnproxiedIff(w: Case)
    requires Succeeds(w)
    ensures Private(w) && !Proxied(w) <==>
              match w.cr.infrastructureKind
              case Some(ProxmoxCluster) => w.proxy != Proxy("", "", "")
              case Some(VSphereCluster) => w.proxy == Proxy("", "", "") || w.infra.vsphereProxyEnabled == Ok(false)
              case Some(AzureCluster) => w.proxy == Proxy("", "", "") && w.infra.apiServerLBType == Ok(Some("Internal"))
              case Some(AzureManagedCluster) =>
                w.proxy == Proxy("", "", "") && w.infra.apiServerLBType == Ok(Some("Internal"))
              case Some(AWSCluster) => w.proxy == Proxy("", "", "") && w.infra.vpcMode == Ok(Some("private"))
              case Some(AWSManagedCluster) => w.proxy == Proxy("", "", "") && w.infra.vpcMode == Ok(Some("private"))
              case _ => false
  {
    Shapes(w);
    SecretsProxied(w);
    assert Private(w) <==> ConfigMaps(w)[1].data.private;
  }

  /** One such cluster. */
  lemma ProxmoxIsUnproxied() returns (w: Case)
    ensures Succeeds(w) && w.cr.infrastructureKind == Some(ProxmoxCluster) && w.proxy.http != ""
    ensures Private(w) && !Proxied(w)
  {
    var labels := map[Label.Cluster := "wc"];
    var cr := Clusters.Cluster.Cluster("org", "wc", labels, [], false, None, "", Some(ProxmoxCluster));
    var settings := Settings("", Address(10, 0, 0, 10), "", "", "");
    var no := Ok(None);
    w := Case(cr, settings, Proxy("", "p", ""), text => Malformed,
              Infra(no, no, no, no, Ok(Dict(map[])), Ok(false), Ok("")));
    assert IsPrivateCluster(cr.infrastructureKind, w.infra) == Ok(false);
    assert ClusterDnsIP(cr, settings, w.parse) == Ok(settings.dnsIP);
    assert |"p"| == 1;
    PrivateUnproxiedIff(w);
  }

  function Lookup(values: Values, name: string): Option<Value> {
    if name in values then Some(values[name]) else None
  }

  function NestedLookup(value: Option<Value>, name: string): Option<Value> {
    if value.Some? && value.value.Dict? then Lookup(value.value.fields, name) else None
  }

  predicate SetsEnv(values: Values, name: string, value: string) {
    && Lookup(values, "env").Some? && values["env"].Sequence?
    && exists e <- values["env"].entries ::
         && NestedLookup(Some(e), "name") == Some(Text(name))
         && NestedLookup(Some(e), "value") == Some(Text(value))
  }

  /** The proxy settings under the three names by which charts look for them. */
  predicate CarriesProxy(values: Values, flat: string, nested: string, env: string, value: string) {
    && Lookup(values, flat) == Some(Text(value))
    && NestedLookup(NestedLookup(Lookup(values, "cluster"), "proxy"), nested) == Some(Text(value))
    && SetsEnv(values, env, value)
  }

  /** The global list is one of the lists that `noProxy` was made from, but never all of it. */
  predicate Extends(noProxy: string, globalNoProxy: string) {
    && noProxy != globalNoProxy
    && (globalNoProxy != "" ==> forall e <- Split(globalNoProxy) :: e in Split(noProxy))
  }

  /** A chart that looks for the proxy in any of the three places of the main secret finds the same settings.
      The containerd secret has the same HTTP and HTTPS proxy, but always another no-proxy list: the one of
      the installation, whose entries the main secret's list contains beside those of the cluster. */
  lemma ProxyViews(w: Case)
    requires Succeeds(w) && Proxied(w)
    ensures var secrets := Secrets(w);
            && |secrets| == 2 && secrets[0].data.MainSecret? && secrets[1].data.ContainerdProxy?
            && var values, containerd := secrets[0].data.values, secrets[1].data.proxy;
            && CarriesProxy(values, "http_proxy", "http", "HTTP_PROXY", containerd.http)
            && CarriesProxy(values, "https_proxy", "https", "HTTPS_PROXY", containerd.https)
            && containerd == w.proxy
            && var noProxy := NoProxyValue(w.cr, w.proxy.noProxy);
            && CarriesProxy(values, "no_proxy", "noProxy", "NO_PROXY", noProxy)
            && Extends(noProxy, containerd.noProxy)
  {
    SecretsProxied(w);
    ProxyValuesCarry(GlobalValues(w.cr, w.infra), NoProxyValue(w.cr, w.proxy.noProxy), w.proxy);
    ValueExtendsGlobal(w.cr, w.proxy.noProxy);
  }

  lemma ValueExtendsGlobal(cr: Cluster, globalNoProxy: string)
    ensures Extends(NoProxyValue(cr, globalNoProxy), globalNoProxy)
  {
    ValueIsLonger(cr, globalNoProxy);
    var own := GlobalEntries(cr, globalNoProxy);
  }

  lemma ProxyValuesCarry(values: Values, noProxy: string, proxy: Proxy)
    ensures var all := values + ProxyValues(noProxy, proxy);
            && CarriesProxy(all, "no_proxy", "noProxy", "NO_PROXY", noProxy)
            && CarriesProxy(all, "http_proxy", "http", "HTTP_PROXY", proxy.http)
            && CarriesProxy(all, "https_proxy", "https", "HTTPS_PROXY", proxy.https)
  {
    var all := values + ProxyValues(noProxy, proxy);
    var no, http := ProxyEnv("NO_PROXY", noProxy), ProxyEnv("HTTP_PROXY", proxy.http);
    var https := ProxyEnv("HTTPS_PROXY", proxy.https);
    var env := [no, http, https];
    assert all["env"] == Sequence(env);
    assert env[0] == no && env[1] == http && env[2] == https;
    EnvReads("NO_PROXY", noProxy);
    EnvReads("HTTP_PROXY", proxy.http);
    EnvReads("HTTPS_PROXY", proxy.https);
  }

  lemma EnvReads(name: string, value: string)
    ensures NestedLookup(Some(ProxyEnv(name, value)), "name") == Some(Text(name))
    ensures NestedLookup(Some(ProxyEnv(name, value)), "value") == Some(Text(value))
  {
  }

  // The service range

  /** The DNS IP written for a cluster with its own service range lies in that range exactly for prefixes
      up to 28. */
  lemma ConfiguredDnsInServiceRange(w: Case)
    requires Succeeds(w) && ServiceCIDR(w.cr) != ""
    ensures var range, maps := w.parse(ServiceCIDR(w.cr)), ConfigMaps(w);
            && range.V4? && |maps| == 2 && maps[1].data.ClusterValues?
            && (InRange(maps[1].data.clusterDNSIP, range.address, range.prefix) <==> range.prefix <= 28)
  {
    DnsInRangeIff(w.parse(ServiceCIDR(w.cr)));
  }

  predicate CommaFreeNetwork(cr: Cluster) {
    && CommaFree(cr.controlPlaneHost)
    && (cr.network.Some? ==>
          && CommaFree(cr.network.value.serviceDomain)
          && CommaFreeBlocks(cr.network.value.services) && CommaFreeBlocks(cr.network.value.pods))
  }

  /** The secret and the config map of a proxied cluster mean the same service range: the entry of the
      no-proxy list after the service domain is the range from which the DNS IP was computed. */
  lemma SameServiceRange(w: Case)
    requires Succeeds(w) && Proxied(w) && ServiceCIDR(w.cr) != "" && CommaFreeNetwork(w.cr)
    ensures var secrets, maps := Secrets(w), ConfigMaps(w);
            && |secrets| == 2 && secrets[0].data.MainSecret? && |maps| == 2 && maps[1].data.ClusterValues?
            && var noProxy := Lookup(secrets[0].data.values, "no_proxy");
            && noProxy.Some? && noProxy.value.Text?
            && var entries, at := Split(noProxy.value.text), if w.cr.network.value.serviceDomain == "" then 0 else 1;
            && at < |entries|
            && entries[at] == ServiceCIDR(w.cr)
            && w.parse(entries[at]).V4?
            && maps[1].data.clusterDNSIP == DnsAddress(w.parse(entries[at]).address)
  {
    Shapes(w);
    ProxyViews(w);
    NoProxyEntries(w.cr, w.proxy.noProxy);
  }

  /** How the operator is configured, or it does not start. */
  predicate Configured(settings: Settings, parse: string -> Parsed) {
    && Accepted(parse(settings.clusterIPRange))
    && settings.dnsIP == DnsAddress(parse(settings.clusterIPRange).address)
  }

  /** The config map writes the DNS IP of the cluster's own service range beside the range of the
      installation. The IP lies in the range beside it exactly when that has a prefix of at most 28 and,
      if the cluster has a range of its own, contains that one's address. */
  lemma DnsInRangeBesideItIff(w: Case)
    requires Succeeds(w) && Configured(w.settings, w.parse)
    ensures var maps, own := ConfigMaps(w), ServiceCIDR(w.cr);
            && |maps| == 2 && maps[1].data.ClusterValues?
            && var beside := w.parse(maps[1].data.clusterIPRange);
            && beside.V4? && (own != "" ==> w.parse(own).V4?)
            && (InRange(maps[1].data.clusterDNSIP, beside.address, beside.prefix) <==>
                  && beside.prefix <= 28
                  && (own != "" ==> InRange(w.parse(own).address, beside.address, beside.prefix)))
  {
    Shapes(w);
    var own, beside := ServiceCIDR(w.cr), w.parse(w.settings.clusterIPRange);
    DnsInRangeIff(beside);
    if own != "" {
      DnsInOtherRangeIff(w.parse(own), beside);
    }
  }

  // What the Apps refer to

  datatype ObjectRef = ConfigMapRef(key: Key) | SecretRef(key: Key)

  function FieldOf(spec: Spec, f: SpecField): string {
    if f in spec then spec[f] else ""
  }

  /** The object that two fields of a spec refer to, if they refer to any. */
  function Reference(spec: Spec, namespace: SpecField, name: SpecField): Option<Key> {
    if FieldOf(spec, name) == "" then None else Some(Key(FieldOf(spec, namespace), FieldOf(spec, name)))
  }

  /** All objects that a spec refers to: its config map, its secret, and the kubeconfig. */
  function References(spec: Spec): set<ObjectRef> {
    var values := Reference(spec, ConfigMapNamespace, ConfigMapName);
    var secret := Reference(spec, SecretNamespace, SecretName);
    var kubeConfig := Reference(spec, KubeSecretNamespace, KubeSecretName);
    (if values.Some? then {ConfigMapRef(values.value)} else {})
    + (if secret.Some? then {SecretRef(secret.value)} else {})
    + (if kubeConfig.Some? then {SecretRef(kubeConfig.value)} else {})
  }

  function DesiredReferences(r: Config, c: Ref): set<ObjectRef> {
    var apps := DesiredApps(r, c);
    References(apps[0].app.spec) + References(apps[1].app.spec)
  }

  function Produced(w: Case): set<ObjectRef>
    requires Succeeds(w)
  {
    (set m | m in ConfigMaps(w) :: ConfigMapRef(m.key)) + (set s | s in Secrets(w) :: SecretRef(s.key))
  }

  lemma NewAppReferences(c: Ref, spec: AppSpec)
    ensures Reference(NewApp(c, spec).app.spec, ConfigMapNamespace, ConfigMapName)
         == if spec.configMapName == "" then None else Some(Key(spec.configMapNamespace, spec.configMapName))
    ensures Reference(NewApp(c, spec).app.spec, SecretNamespace, SecretName)
         == if spec.secretName == "" then None else Some(Key(spec.secretNamespace, spec.secretName))
  {
  }

  lemma KubeConfigReference(c: Ref, spec: AppSpec)
    ensures Reference(NewApp(c, spec).app.spec, KubeSecretNamespace, KubeSecretName)
         == if spec.inCluster || IsBundle(spec.app) then None else Some(Key(c.namespace, KubeConfigSecretName(c.id)))
  {
  }

  lemma AppOperatorReferences(r: Config, c: Ref)
    ensures References(NewApp(c, AppOperatorSpec(r, c)).app.spec)
         == {ConfigMapRef(Key(c.namespace, AppOperatorValuesName(c.id)))}
  {
    NewAppReferences(c, AppOperatorSpec(r, c));
    KubeConfigReference(c, AppOperatorSpec(r, c));
    assert AppOperatorValuesName(c.id) != "";
  }

  lemma ChartOperatorReferences(r: Config, c: Ref)
    ensures References(NewApp(c, ChartOperatorSpec(r, c)).app.spec) == {
              ConfigMapRef(Key(c.namespace, ClusterValuesName(c.id))),
              SecretRef(Key(c.namespace, ClusterValuesName(c.id))),
              SecretRef(Key(c.namespace, KubeConfigSecretName(c.id)))}
  {
    NotBundles();
    NewAppReferences(c, ChartOperatorSpec(r, c));
    KubeConfigReference(c, ChartOperatorSpec(r, c));
    assert ClusterValuesName(c.id) != "" && KubeConfigSecretName(c.id) != "";
  }

  lemma KubeConfigIsNoneOfOurs(id: string)
    ensures KubeConfigSecretName(id) != ClusterValuesName(id) && KubeConfigSecretName(id) != SystemdProxyName(id)
  {
    var k, v, p := KubeConfigSecretName(id), ClusterValuesName(id), SystemdProxyName(id);
    assert k[|k| - 1] == 'g' && v[|v| - 1] == 's' && p[|p| - 1] == 'y';
  }

  lemma ProducedObjects(w: Case)
    requires Succeeds(w)
    ensures var c, produced := RefOf(w.cr), Produced(w);
            && ConfigMapRef(Key(c.namespace, AppOperatorValuesName(c.id))) in produced
            && ConfigMapRef(Key(c.namespace, ClusterValuesName(c.id))) in produced
            && SecretRef(Key(c.namespace, ClusterValuesName(c.id))) in produced
            && SecretRef(Key(c.namespace, KubeConfigSecretName(c.id))) !in produced
  {
    var maps, secrets := ConfigMaps(w), Secrets(w);
    Shapes(w);
    KubeConfigIsNoneOfOurs(RefOf(w.cr).id);
    assert maps[0] in maps && maps[1] in maps && secrets[0] in secrets;
  }

  /** Of all objects that the desired Apps of a live cluster refer to, the operator produces every one but
      the kubeconfig secret of the cluster. */
  lemma AllButKubeConfigProduced(r: Config, w: Case)
    requires Succeeds(w)
    ensures var c := RefOf(w.cr);
            DesiredReferences(r, c) - Produced(w) == {SecretRef(Key(c.namespace, KubeConfigSecretName(c.id)))}
  {
    AppOperatorReferences(r, RefOf(w.cr));
    ChartOperatorReferences(r, RefOf(w.cr));
    ProducedObjects(w);
  }
}
