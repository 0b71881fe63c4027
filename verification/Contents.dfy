/**
 What the secrets and the config maps of a cluster contain, field by field, and when the operator can
 compute them, in terms of the Cluster CR and of what reading its infrastructure yields.
 */
module Contents {
  import opened Objects
  import opened Clusters
  import opened NoProxy
  import opened ClusterResources
  import opened Agreement
  import opened Wrappers

  /** The non-empty Giant Swarm label, or else the upstream one, or nothing. */
  predicate IsIdOf(labels: Labels, id: string) {
    if Label.Cluster in labels && labels[Label.Cluster] != "" then id == labels[Label.Cluster]
    else if CapiCluster in labels then id == labels[CapiCluster]
    else id == ""
  }

  predicate Managed(labels: Labels, id: string) {
    labels == map[Label.Cluster := id, ManagedBy := "cluster-apps-operator"]
  }

  function Present(field: Result<Option<string>, Error>): bool {
    field.Ok? && field.value.Some?
  }

  /** The part of the infrastructure that both resources read is readable. */
  predicate PrivacyReadable(w: Case) {
    match w.cr.infrastructureKind
    case Some(AzureCluster) => Present(w.infra.apiServerLBType)
    case Some(AzureManagedCluster) => Present(w.infra.apiServerLBType)
    case Some(AWSCluster) => Present(w.infra.vpcMode)
    case Some(AWSManagedCluster) => Present(w.infra.vpcMode)
    case _ => true
  }

  /** When the secrets can be computed; for a cluster being deleted there are none. */
  lemma SecretsSucceedIff(w: Case)
    ensures w.cr.deleted ==> SecretsOf(w) == Ok([])
    ensures !w.cr.deleted ==>
              (SecretsOf(w).Ok? <==>
                && PrivacyReadable(w)
                && (w.cr.infrastructureKind == Some(VCDCluster) ==> w.infra.cloudDirectorConfig.Ok?)
                && (w.cr.infrastructureKind == Some(VSphereCluster) ==> w.infra.vsphereProxyEnabled.Ok?))
  {
  }

  /** The error for a field that cannot be read, or is not there. */
  function ReadError(field: Result<Option<string>, Error>): Error {
    if field.Err? then field.error else FieldNotFound
  }

  /** Which error it is when the secrets cannot be computed: that of the first read that fails. */
  lemma SecretsFirstError(w: Case)
    requires SecretsOf(w).Err?
    ensures match w.cr.infrastructureKind
            case Some(AzureCluster) => SecretsOf(w).error == ReadError(w.infra.apiServerLBType)
            case Some(AzureManagedCluster) => SecretsOf(w).error == ReadError(w.infra.apiServerLBType)
            case Some(AWSCluster) => SecretsOf(w).error == ReadError(w.infra.vpcMode)
            case Some(AWSManagedCluster) => SecretsOf(w).error == ReadError(w.infra.vpcMode)
            case Some(VCDCluster) => Err(SecretsOf(w).error) == w.infra.cloudDirectorConfig
            case Some(VSphereCluster) => Err(SecretsOf(w).error) == w.infra.vsphereProxyEnabled
            case _ => false
  {
  }

  /** The first service range that the cluster names, if it names one. */
  predicate OwnRange(ranges: Option<Option<seq<string>>>, range: string) {
    ranges.Some? && ranges.value.Some? && ranges.value.value != [] && ranges.value.value[0] == range && range != ""
  }

  ghost predicate HasOwnServices(cr: Cluster) {
    cr.network.Some? && exists range :: OwnRange(cr.network.value.services, range)
  }

  /** When the config maps can be computed; for a cluster being deleted there are none. */
  lemma ConfigMapsSucceedIff(w: Case)
    ensures w.cr.deleted ==> ConfigMapsOf(w) == Ok([])
    ensures !w.cr.deleted ==>
              (ConfigMapsOf(w).Ok? <==>
                && w.infra.clusterCA.Ok?
                && w.cr.infrastructureKind.Some?
                && PrivacyReadable(w)
                && (HasOwnServices(w.cr) ==>
                      && w.parse(w.cr.network.value.services.value.value[0]).V4?
                      && w.parse(w.cr.network.value.services.value.value[0]).address.d == 0)
                && (w.cr.infrastructureKind == Some(AzureCluster) ==> Present(w.infra.subscriptionID))
                && (w.cr.infrastructureKind == Some(GCPCluster) ==> Present(w.infra.gcpProject))
                && (w.cr.infrastructureKind == Some(GCPManagedCluster) ==> Present(w.infra.gcpProject)))
  {
    OwnServices(w.cr);
  }

  /** Which error it is when the config maps cannot be computed: the CA comes first, then the service range,
      then what tells whether the cluster is private, then the reference to the infrastructure, then the
      field that only the provider has. */
  lemma ConfigMapsFirstError(w: Case)
    requires ConfigMapsOf(w).Err?
    ensures var kind, error := w.cr.infrastructureKind, ConfigMapsOf(w).error;
            if w.infra.clusterCA.Err? then error == w.infra.clusterCA.error
            else if HasOwnServices(w.cr) && !(
              && w.parse(w.cr.network.value.services.value.value[0]).V4?
              && w.parse(w.cr.network.value.services.value.value[0]).address.d == 0) then error == Error.InvalidConfig
            else if !PrivacyReadable(w) then
              error == ReadError(if kind == Some(AzureCluster) || kind == Some(AzureManagedCluster)
                                 then w.infra.apiServerLBType else w.infra.vpcMode)
            else if kind == None then error == InfrastructureRefNotFound
            else if kind == Some(AzureCluster) then error == ReadError(w.infra.subscriptionID)
            else (kind == Some(GCPCluster) || kind == Some(GCPManagedCluster)) && error == ReadError(w.infra.gcpProject)
  {
    OwnServices(w.cr);
  }

  lemma OwnServices(cr: Cluster)
    ensures HasOwnServices(cr) <==> ServiceCIDR(cr) != ""
    ensures HasOwnServices(cr) ==> OwnRange(cr.network.value.services, ServiceCIDR(cr))
  {
    if ServiceCIDR(cr) != "" {
      assert OwnRange(cr.network.value.services, ServiceCIDR(cr));
    }
  }

  /** The settings of the installation's proxy reach the secrets of exactly these clusters. */
  lemma ProxiedIff(w: Case)
    requires Succeeds(w)
    ensures Proxied(w) <==>
              && w.proxy != Proxy("", "", "")
              && match w.cr.infrastructureKind
                 case Some(VCDCluster) => true
                 case Some(VSphereCluster) => w.infra.vsphereProxyEnabled == Ok(true)
                 case Some(AzureCluster) => w.infra.apiServerLBType == Ok(Some("Internal"))
                 case Some(AzureManagedCluster) => w.infra.apiServerLBType == Ok(Some("Internal"))
                 case Some(AWSCluster) => w.infra.vpcMode == Ok(Some("private"))
                 case Some(AWSManagedCluster) => w.infra.vpcMode == Ok(Some("private"))
                 case _ => false
  {
    SecretsProxied(w);
  }

  /** The main secret has the cloud-director settings of a VCD cluster under "global", untouched by the proxy
      values; nothing else but those is in it. */
  lemma MainSecretValues(w: Case)
    requires Succeeds(w)
    ensures |Secrets(w)| > 0 && Secrets(w)[0].data.MainSecret?
    ensures var values := Secrets(w)[0].data.values;
            && Lookup(values, "global") == (if w.cr.infrastructureKind == Some(VCDCluster)
                                            then Some(w.infra.cloudDirectorConfig.value) else None)
            && values.Keys == (if w.cr.infrastructureKind == Some(VCDCluster) then {"global"} else {})
                            + (if Proxied(w) then {"no_proxy", "http_proxy", "https_proxy", "cluster", "env"} else {})
  {
    SecretsSucceedIff(w);
    MainValuesAre(w);
    GlobalKeys(w.cr, w.infra);
    ProxyValuesKeep(GlobalValues(w.cr, w.infra), NoProxyValue(w.cr, w.proxy.noProxy), w.proxy);
  }

  lemma GlobalKeys(cr: Cluster, infra: Infra)
    requires cr.infrastructureKind == Some(VCDCluster) ==> infra.cloudDirectorConfig.Ok?
    ensures GlobalValues(cr, infra).Keys == if cr.infrastructureKind == Some(VCDCluster) then {"global"} else {}
    ensures Lookup(GlobalValues(cr, infra), "global")
         == if cr.infrastructureKind == Some(VCDCluster) then Some(infra.cloudDirectorConfig.value) else None
  {
  }

  lemma ProxyValuesKeep(values: Values, noProxy: string, proxy: Proxy)
    ensures Lookup(values + ProxyValues(noProxy, proxy), "global") == Lookup(values, "global")
    ensures (values + ProxyValues(noProxy, proxy)).Keys
         == values.Keys + {"no_proxy", "http_proxy", "https_proxy", "cluster", "env"}
  {
    GlobalIsOther();
    assert ProxyValues(noProxy, proxy).Keys == {"no_proxy", "http_proxy", "https_proxy", "cluster", "env"};
  }

  lemma MainValuesAre(w: Case)
    requires Succeeds(w)
    ensures |Secrets(w)| > 0 && Secrets(w)[0].data.MainSecret?
    ensures Secrets(w)[0].data.values == if Proxied(w)
              then GlobalValues(w.cr, w.infra) + ProxyValues(NoProxyValue(w.cr, w.proxy.noProxy), w.proxy)
              else GlobalValues(w.cr, w.infra)
  {
    SecretsProxied(w);
  }

  lemma GlobalIsOther()
    ensures "global" !in {"no_proxy", "http_proxy", "https_proxy", "cluster", "env"}
  {
    assert "global"[0] == 'g' && "no_proxy"[0] == 'n' && "http_proxy"[0] == 'h' && "https_proxy"[0] == 'h';
    assert "cluster"[0] == 'c' && "env"[0] == 'e';
  }

  /** The secrets themselves: the main one, and for a proxied cluster the one for containerd. */
  lemma SecretsHeads(w: Case, id: string)
    requires Succeeds(w) && IsIdOf(w.cr.labels, id)
    ensures var secrets := Secrets(w);
            && |secrets| == (if Proxied(w) then 2 else 1)
            && secrets[0].key == Key(w.cr.namespace, id + "-cluster-values") && Managed(secrets[0].labels, id)
            && (Proxied(w) ==>
                  && secrets[1].key == Key(w.cr.namespace, id + "-systemd-proxy") && Managed(secrets[1].labels, id)
                  && secrets[1].data == ContainerdProxy(w.proxy))
  {
    SecretsProxied(w);
  }

  /** The config maps themselves, and what the one for app-operator says. */
  lemma ConfigMapsHeads(w: Case, id: string)
    requires Succeeds(w) && IsIdOf(w.cr.labels, id)
    ensures var maps := ConfigMaps(w);
            && |maps| == 2
            && maps[0].key == Key(w.cr.namespace, id + "-app-operator-values") && Managed(maps[0].labels, id)
            && maps[1].key == Key(w.cr.namespace, id + "-cluster-values") && Managed(maps[1].labels, id)
            && maps[0].data.AppOperatorValues? && maps[1].data.ClusterValues?
            && maps[0].data.watchNamespace == w.cr.namespace && maps[0].data.workloadClusterID == id
            && maps[0].data.registryDomain == w.settings.registryDomain
            && maps[1].data.clusterID == id && maps[1].data.baseDomain == id + "." + w.settings.baseDomain
  {
  }

  /** The provider in both config maps, and the fields that only some providers have. */
  lemma ProviderFields(w: Case)
    requires Succeeds(w)
    ensures |ConfigMaps(w)| == 2 && ConfigMaps(w)[0].data.AppOperatorValues? && ConfigMaps(w)[1].data.ClusterValues?
    ensures var apps, cluster, kind := ConfigMaps(w)[0].data, ConfigMaps(w)[1].data, w.cr.infrastructureKind;
            && apps.provider == cluster.provider
            && (cluster.provider == Capa <==> kind == Some(AWSCluster) || kind == Some(AWSManagedCluster))
            && (cluster.provider == Capz <==>
                  || kind == Some(AzureCluster) || kind == Some(AzureManagedCluster)
                  || kind == Some(AzureASOManagedCluster))
            && (cluster.provider == CloudDirector <==> kind == Some(VCDCluster))
            && (cluster.provider == VSphere <==> kind == Some(VSphereCluster))
            && (cluster.provider == Gcp <==> kind == Some(GCPCluster) || kind == Some(GCPManagedCluster))
            && (cluster.provider == Proxmox <==> kind == Some(ProxmoxCluster))
            && (cluster.provider == Gcp ==> w.infra.gcpProject == Ok(Some(cluster.gcpProject)))
            && (cluster.provider != Gcp ==> cluster.gcpProject == "")
            && (kind == Some(AzureCluster) ==> w.infra.subscriptionID == Ok(Some(cluster.subscriptionID)))
            && (kind != Some(AzureCluster) ==> cluster.subscriptionID == "")
  {
  }

  /** The addresses that the cluster values carry: those of the cluster where it has its own, those of the
      installation exactly otherwise. */
  lemma ClusterRanges(w: Case)
    requires Succeeds(w)
    ensures |ConfigMaps(w)| == 2 && ConfigMaps(w)[1].data.ClusterValues?
    ensures var d, network := ConfigMaps(w)[1].data, w.cr.network;
            && Ok(d.clusterCA) == w.infra.clusterCA
            && d.clusterIPRange == w.settings.clusterIPRange
            && (forall range :: network.Some? && OwnRange(network.value.pods, range) ==> d.podCIDR == range)
            && (forall range :: network.Some? && OwnRange(network.value.services, range) ==>
                  w.parse(range).V4? && d.clusterDNSIP == w.parse(range).address.(d := 10))
            && ((network.None? || forall range :: !OwnRange(network.value.pods, range)) ==>
                  d.podCIDR == w.settings.podCIDR)
            && ((network.None? || forall range :: !OwnRange(network.value.services, range)) ==>
                  d.clusterDNSIP == w.settings.dnsIP)
  {
    Shapes(w);
    OwnServices(w.cr);
    var d, network := ConfigMaps(w)[1].data, w.cr.network;
    if network.Some? && FirstBlock(network.value.pods) != "" {
      assert OwnRange(network.value.pods, FirstBlock(network.value.pods));
    }
    if network.Some? && FirstBlock(network.value.services) != "" {
      assert OwnRange(network.value.services, FirstBlock(network.value.services));
    }
  }

  /** The config map is private, and hides the external DNS IP, for exactly these clusters. */
  lemma PrivateIff(w: Case)
    requires Succeeds(w)
    ensures Private(w) <==>
              match w.cr.infrastructureKind
              case Some(VSphereCluster) => true
              case Some(VCDCluster) => w.proxy != Proxy("", "", "")
              case Some(ProxmoxCluster) => w.proxy != Proxy("", "", "")
              case Some(AzureCluster) => w.infra.apiServerLBType == Ok(Some("Internal"))
              case Some(AzureManagedCluster) => w.infra.apiServerLBType == Ok(Some("Internal"))
              case Some(AWSCluster) => w.infra.vpcMode == Ok(Some("private"))
              case Some(AWSManagedCluster) => w.infra.vpcMode == Ok(Some("private"))
              case _ => false
  {
    Shapes(w);
    assert Private(w) <==> ConfigMaps(w)[1].data.private;
  }

  /** Secret and config map of a proxied cluster mean the same pod range: its own first pod range, which the
      config map carries, is among the entries of the no-proxy list. */
  lemma PodRangeIsNotProxied(w: Case, range: string)
    requires Succeeds(w) && Proxied(w) && CommaFreeNetwork(w.cr)
    requires w.cr.network.Some? && OwnRange(w.cr.network.value.pods, range)
    ensures |ConfigMaps(w)| == 2 && ConfigMaps(w)[1].data.ClusterValues? && ConfigMaps(w)[1].data.podCIDR == range
    ensures |Secrets(w)| == 2 && Secrets(w)[0].data.MainSecret?
    ensures var noProxy := Lookup(Secrets(w)[0].data.values, "no_proxy");
            noProxy.Some? && noProxy.value.Text? && range in Split(noProxy.value.text)
  {
    ClusterRanges(w);
    ProxyViews(w);
    PodsAmongEntries(w.cr, w.proxy.noProxy, range);
  }

  lemma PodsAmongEntries(cr: Cluster, globalNoProxy: string, range: string)
    requires CommaFreeNetwork(cr) && cr.network.Some? && OwnRange(cr.network.value.pods, range)
    ensures range in Split(NoProxyValue(cr, globalNoProxy))
  {
    var n := cr.network.value;
    NoProxyEntries(cr, globalNoProxy);
    assert BlockEntries(n.pods)[0] == range;
    assert range in BlockEntries(n.pods);
    assert range in Presence(n.serviceDomain) + BlockEntries(n.services) + BlockEntries(n.pods);
    assert range in Entries(cr, globalNoProxy);
    assert Blocks(n.pods) != [];
    assert Parts(cr, globalNoProxy) != [];
  }
}
