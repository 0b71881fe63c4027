/**
 The config maps and secrets that the operator wants for a cluster, computed by two resources that do
 not know of each other.
 */
module ClusterResources {
  import opened Objects
  import opened Keys
  import opened Clusters
  import opened DnsIp
  import opened NoProxy
  import opened Wrappers

  datatype Error = ReadFailed | FieldNotFound | InvalidConfig | InfrastructureRefNotFound

  datatype Proxy = Proxy(noProxy: string, http: string, https: string)

  predicate IsZero(proxy: Proxy) {
    proxy == Proxy("", "", "")
  }

  /** What reading the infrastructure of a cluster yields. A field that is absent is `None`. */
  datatype Infra = Infra(
    apiServerLBType: Result<Option<string>, Error>,
    vpcMode: Result<Option<string>, Error>,
    subscriptionID: Result<Option<string>, Error>,
    gcpProject: Result<Option<string>, Error>,
    cloudDirectorConfig: Result<Value, Error>,
    vsphereProxyEnabled: Result<bool, Error>,
    clusterCA: Result<string, Error>)

  datatype Value = Text(text: string) | Dict(fields: map<string, Value>) | Sequence(entries: seq<Value>)

  type Values = map<string, Value>

  function Require(field: Result<Option<string>, Error>): Result<string, Error> {
    match field
    case Err(e) => Err(e)
    case Ok(None) => Err(FieldNotFound)
    case Ok(Some(v)) => Ok(v)
  }

  function IsPrivateCluster(kind: Option<Kind>, infra: Infra): Result<bool, Error> {
    match kind
    case Some(AzureCluster) => IsValue(infra.apiServerLBType, "Internal")
    case Some(AzureManagedCluster) => IsValue(infra.apiServerLBType, "Internal")
    case Some(AWSCluster) => IsValue(infra.vpcMode, "private")
    case Some(AWSManagedCluster) => IsValue(infra.vpcMode, "private")
    case _ => Ok(false)
  }

  function IsValue(field: Result<Option<string>, Error>, wanted: string): Result<bool, Error> {
    var v := Require(field);
    if v.Err? then Err(v.error) else Ok(v.value == wanted)
  }

  // Secrets

  datatype SecretData = MainSecret(values: Values) | ContainerdProxy(proxy: Proxy)

  datatype Secret = Secret(key: Key, labels: Labels, data: SecretData)

  function NewSecret(c: Ref, key: Key, data: SecretData): Secret {
    Secret(key, map[Objects.Cluster := c.id, ManagedBy := PROJECT], data)
  }

  function ProxyEnv(name: string, value: string): Value {
    Dict(map["name" := Text(name), "value" := Text(value)])
  }

  function ProxyValues(noProxy: string, proxy: Proxy): Values {
    map[
      "no_proxy" := Text(noProxy),
      "http_proxy" := Text(proxy.http),
      "https_proxy" := Text(proxy.https),
      "cluster" := Dict(map["proxy" := Dict(map[
        "noProxy" := Text(noProxy), "http" := Text(proxy.http), "https" := Text(proxy.https)])]),
      "env" := Sequence([
        ProxyEnv("NO_PROXY", noProxy), ProxyEnv("HTTP_PROXY", proxy.http), ProxyEnv("HTTPS_PROXY", proxy.https)])]
  }

  /** Whether the proxy settings go into the secrets of the cluster. */
  function ProxyInSecret(cr: Cluster, proxy: Proxy, infra: Infra): Result<bool, Error> {
    var private := IsPrivateCluster(cr.infrastructureKind, infra);
    if private.Err? then Err(private.error)
    else
      match cr.infrastructureKind
      case Some(VCDCluster) =>
        if infra.cloudDirectorConfig.Err? then Err(infra.cloudDirectorConfig.error) else Ok(!IsZero(proxy))
      case Some(VSphereCluster) =>
        if infra.vsphereProxyEnabled.Err? then Err(infra.vsphereProxyEnabled.error)
        else Ok(!IsZero(proxy) && infra.vsphereProxyEnabled.value)
      case _ => Ok(private.value && !IsZero(proxy))
  }

  function GlobalValues(cr: Cluster, infra: Infra): Values {
    if cr.infrastructureKind == Some(VCDCluster) && infra.cloudDirectorConfig.Ok?
    then map["global" := infra.cloudDirectorConfig.value]
    else map[]
  }

  function DesiredSecrets(cr: Cluster, proxy: Proxy, infra: Infra): Result<seq<Secret>, Error> {
    var c := RefOf(cr);
    var main := Key(cr.namespace, ClusterValuesName(c.id));
    var proxied := ProxyInSecret(cr, proxy, infra);
    if cr.deleted then Ok([])
    else if proxied.Err? then Err(proxied.error)
    else if !proxied.value then Ok([NewSecret(c, main, MainSecret(GlobalValues(cr, infra)))])
    else Ok([
      NewSecret(c, main, MainSecret(GlobalValues(cr, infra) + ProxyValues(NoProxyValue(cr, proxy.noProxy), proxy))),
      NewSecret(c, Key(cr.namespace, SystemdProxyName(c.id)), ContainerdProxy(proxy))])
  }

  method GetDesiredSecrets(cr: Cluster, proxy: Proxy, infra: Infra) returns (r: Result<seq<Secret>, Error>)
    ensures r == DesiredSecrets(cr, proxy, infra)
  {
    var c := RefOf(cr);
    if cr.deleted {
      return Ok([]);
    }
    var values: Values := map[];
    var private := IsPrivateCluster(cr.infrastructureKind, infra);
    if private.Err? {
      return Err(private.error);
    }
    var privateCluster := private.value;
    if cr.infrastructureKind.Some? {
      match cr.infrastructureKind.value
      case VCDCluster =>
        if infra.cloudDirectorConfig.Err? {
          return Err(infra.cloudDirectorConfig.error);
        }
        values := values["global" := infra.cloudDirectorConfig.value];
        privateCluster := !IsZero(proxy);
      case VSphereCluster =>
        if infra.vsphereProxyEnabled.Err? {
          return Err(infra.vsphereProxyEnabled.error);
        }
        privateCluster := !IsZero(proxy) && infra.vsphereProxyEnabled.value;
      case _ =>
    }
    assert values == GlobalValues(cr, infra);

    var proxySecrets: seq<Secret> := [];
    if privateCluster && !IsZero(proxy) {
      var noProxy := NoProxy.NoProxy(cr, proxy.noProxy);
      values := values + ProxyValues(noProxy, proxy);
      proxySecrets := [NewSecret(c, Key(cr.namespace, SystemdProxyName(c.id)), ContainerdProxy(proxy))];
    }
    var main := NewSecret(c, Key(cr.namespace, ClusterValuesName(c.id)), MainSecret(values));
    assert proxySecrets == [] ==> [main] + proxySecrets == [main];
    assert proxySecrets != [] ==> [main] + proxySecrets == [main, proxySecrets[0]];
    return Ok([main] + proxySecrets);
  }

  // Config maps

  datatype Provider = Capa | Capz | CloudDirector | VSphere | Gcp | Proxmox | NoProvider

  datatype Settings = Settings(
    baseDomain: string,
    dnsIP: Address,
    podCIDR: string,
    clusterIPRange: string,
    registryDomain: string)

  datatype ConfigData =
    | AppOperatorValues(watchNamespace: string, workloadClusterID: string, provider: Provider, registryDomain: string)
    | ClusterValues(
        baseDomain: string,
        clusterCA: string,
        clusterDNSIP: Address,
        clusterID: string,
        clusterIPRange: string,
        externalDNSIP: Option<string>,
        gcpProject: string,
        podCIDR: string,
        private: bool,
        provider: Provider,
        subscriptionID: string)

  datatype ConfigMap = ConfigMap(key: Key, labels: Labels, data: ConfigData)

  function NewConfigMap(c: Ref, name: string, data: ConfigData): ConfigMap {
    ConfigMap(Key(c.namespace, name), map[Objects.Cluster := c.id, ManagedBy := PROJECT], data)
  }

  function ProviderOf(kind: Kind): Provider {
    match kind
    case AzureCluster => Capz
    case AzureManagedCluster => Capz
    case AzureASOManagedCluster => Capz
    case AWSCluster => Capa
    case AWSManagedCluster => Capa
    case VCDCluster => CloudDirector
    case VSphereCluster => VSphere
    case GCPCluster => Gcp
    case GCPManagedCluster => Gcp
    case ProxmoxCluster => Proxmox
    case OtherKind(_) => NoProvider
  }

  /** The first block of a network's range, or nothing. */
  function FirstBlock(ranges: Option<Option<seq<string>>>): string {
    if ranges.None? || ranges.value.None? || ranges.value.value == [] then "" else ranges.value.value[0]
  }

  function ServiceCIDR(cr: Cluster): string {
    if cr.network.None? then "" else FirstBlock(cr.network.value.services)
  }

  function PodCIDR(cr: Cluster, settings: Settings): string {
    var own := if cr.network.None? then "" else FirstBlock(cr.network.value.pods);
    if own == "" then settings.podCIDR else own
  }

  /** The first service block of the cluster decides; without one, the installation's default. */
  function ClusterDnsIP(cr: Cluster, settings: Settings, parse: string -> Parsed): Result<Address, Error> {
    if ServiceCIDR(cr) == "" then Ok(settings.dnsIP)
    else if Accepted(parse(ServiceCIDR(cr))) then Ok(DnsAddress(parse(ServiceCIDR(cr)).address))
    else Err(Error.InvalidConfig)
  }

  function ConfigPrivate(cr: Cluster, proxy: Proxy, private: bool): bool {
    match cr.infrastructureKind
    case Some(VCDCluster) => !IsZero(proxy)
    case Some(VSphereCluster) => true
    case Some(ProxmoxCluster) => !IsZero(proxy)
    case _ => private
  }

  function SubscriptionID(cr: Cluster, infra: Infra): Result<string, Error> {
    if cr.infrastructureKind == Some(AzureCluster) then Require(infra.subscriptionID) else Ok("")
  }

  function GcpProject(cr: Cluster, infra: Infra): Result<string, Error> {
    if cr.infrastructureKind == Some(GCPCluster) || cr.infrastructureKind == Some(GCPManagedCluster)
    then Require(infra.gcpProject) else Ok("")
  }

  /** The values on which the two config maps are built, or the first error. */
  function DesiredClusterValues(cr: Cluster, settings: Settings, proxy: Proxy, parse: string -> Parsed, infra: Infra)
    : Result<ConfigData, Error>
  {
    var dns := ClusterDnsIP(cr, settings, parse);
    var private := IsPrivateCluster(cr.infrastructureKind, infra);
    var subscription, project := SubscriptionID(cr, infra), GcpProject(cr, infra);
    if infra.clusterCA.Err? then Err(infra.clusterCA.error)
    else if dns.Err? then Err(dns.error)
    else if private.Err? then Err(private.error)
    else if cr.infrastructureKind.None? then Err(InfrastructureRefNotFound)
    else if subscription.Err? then Err(subscription.error)
    else if project.Err? then Err(project.error)
    else
      var hidden := ConfigPrivate(cr, proxy, private.value);
      Ok(ClusterValues(
        RefOf(cr).id + "." + settings.baseDomain,
        infra.clusterCA.value,
        dns.value,
        RefOf(cr).id,
        settings.clusterIPRange,
        if hidden then Some("") else None,
        project.value,
        PodCIDR(cr, settings),
        hidden,
        ProviderOf(cr.infrastructureKind.value),
        subscription.value))
  }

  function DesiredConfigMaps(cr: Cluster, settings: Settings, proxy: Proxy, parse: string -> Parsed, infra: Infra)
    : Result<seq<ConfigMap>, Error>
  {
    var c := RefOf(cr);
    var values := DesiredClusterValues(cr, settings, proxy, parse, infra);
    if cr.deleted then Ok([])
    else if values.Err? then Err(values.error)
    else if cr.infrastructureKind.None? then Err(InfrastructureRefNotFound)
    else Ok([
      NewConfigMap(c, AppOperatorValuesName(c.id),
        AppOperatorValues(cr.namespace, c.id, ProviderOf(cr.infrastructureKind.value), settings.registryDomain)),
      NewConfigMap(c, ClusterValuesName(c.id), values.value)])
  }

  method GetDesiredConfigMaps(cr: Cluster, settings: Settings, proxy: Proxy, parse: string -> Parsed, infra: Infra)
    returns (r: Result<seq<ConfigMap>, Error>)
    ensures r == DesiredConfigMaps(cr, settings, proxy, parse, infra)
  {
    var c := RefOf(cr);
    if cr.deleted {
      return Ok([]);
    }
    var podCIDR := PodCIDR(cr, settings);
    if infra.clusterCA.Err? {
      return Err(infra.clusterCA.error);
    }
    var clusterDNSIP := settings.dnsIP;
    var serviceCidr := ServiceCIDR(cr);
    if serviceCidr != "" {
      var dns := DnsIp.DnsIp(parse(serviceCidr));
      if dns.Err? {
        return Err(Error.InvalidConfig);
      }
      clusterDNSIP := dns.value;
    }
    var private := IsPrivateCluster(cr.infrastructureKind, infra);
    if private.Err? {
      return Err(private.error);
    }
    var provider, gcpProject, subscriptionID, privateCluster := NoProvider, "", "", private.value;
    if cr.infrastructureKind.Some? {
      match cr.infrastructureKind.value
      case AzureManagedCluster =>
        provider := Capz;
      case AzureASOManagedCluster =>
        provider := Capz;
      case AzureCluster =>
        provider := Capz;
        var id := Require(infra.subscriptionID);
        if id.Err? {
          return Err(id.error);
        }
        subscriptionID := id.value;
      case AWSCluster =>
        provider := Capa;
      case AWSManagedCluster =>
        provider := Capa;
      case VCDCluster =>
        provider, privateCluster := CloudDirector, !IsZero(proxy);
      case VSphereCluster =>
        provider, privateCluster := VSphere, !IsZero(proxy);
      case GCPCluster =>
        provider := Gcp;
        var project := Require(infra.gcpProject);
        if project.Err? {
          return Err(project.error);
        }
        gcpProject := project.value;
      case GCPManagedCluster =>
        provider := Gcp;
        var project := Require(infra.gcpProject);
        if project.Err? {
          return Err(project.error);
        }
        gcpProject := project.value;
      case ProxmoxCluster =>
        provider, privateCluster := Proxmox, !IsZero(proxy);
      case OtherKind(_) =>
    } else {
      return Err(InfrastructureRefNotFound);
    }

    var appOperatorValues := AppOperatorValues(cr.namespace, c.id, provider, settings.registryDomain);
    var clusterValues := ClusterValues(
      c.id + "." + settings.baseDomain, infra.clusterCA.value, clusterDNSIP, c.id,
      settings.clusterIPRange, None, gcpProject, podCIDR, false, provider, subscriptionID);
    if privateCluster || provider == VSphere {
      clusterValues := clusterValues.(externalDNSIP := Some(""));
      clusterValues := clusterValues.(private := true);
    }
    return Ok([
      NewConfigMap(c, AppOperatorValuesName(c.id), appOperatorValues),
      NewConfigMap(c, ClusterValuesName(c.id), clusterValues)]);
  }
}
