/** The two App CRs the operator wants for a cluster (`desiredApps`, `newApp`, `hasAppChanged`). */
module OperatorApps {
  import opened Objects
  import opened Keys
  import opened MergePatch
  import opened Wrappers

  const UNIQUE_OPERATOR_VERSION := "0.0.0"

  datatype Config = Config(
    appOperatorCatalog: string,
    appOperatorVersion: string,
    chartOperatorCatalog: string,
    chartOperatorVersion: string)

  datatype AppSpec = AppSpec(
    app: string,
    appOperatorVersion: string,
    appName: string,
    catalog: string,
    configMapName: string,
    configMapNamespace: string,
    inCluster: bool,
    secretName: string,
    secretNamespace: string,
    targetNamespace: string,
    useUpgradeForce: bool,
    version: string)

  function AppOperatorSpec(r: Config, c: Ref): AppSpec {
    AppSpec(
      app := "app-operator",
      appOperatorVersion := UNIQUE_OPERATOR_VERSION,
      appName := AppOperatorAppName(c.id),
      catalog := r.appOperatorCatalog,
      configMapName := AppOperatorValuesName(c.id),
      configMapNamespace := c.namespace,
      inCluster := true,
      secretName := "",
      secretNamespace := "",
      targetNamespace := c.namespace,
      useUpgradeForce := false,
      version := r.appOperatorVersion)
  }

  function ChartOperatorSpec(r: Config, c: Ref): AppSpec {
    AppSpec(
      app := "chart-operator",
      appOperatorVersion := r.appOperatorVersion,
      appName := ChartOperatorAppName(c.id),
      catalog := r.chartOperatorCatalog,
      configMapName := ClusterValuesName(c.id),
      configMapNamespace := c.namespace,
      inCluster := false,
      secretName := ClusterValuesName(c.id),
      secretNamespace := c.namespace,
      targetNamespace := "giantswarm",
      useUpgradeForce := false,
      version := r.chartOperatorVersion)
  }

  /** A spec field whose value is empty is a field that is not set. */
  function SetFields(m: Spec): Spec {
    map k | k in m && m[k] != "" :: m[k]
  }

  function FormatBool(b: bool): string { if b then "true" else "false" }

  function KubeConfigFields(c: Ref, spec: AppSpec): Spec {
    if spec.inCluster || IsBundle(spec.app) then
      map[InCluster := "true"]
    else
      map[KubeContextName := KubeConfigSecretName(c.id),
          KubeSecretName := KubeConfigSecretName(c.id),
          KubeSecretNamespace := c.namespace]
  }

  function NewApp(c: Ref, spec: AppSpec): Item {
    var bundle := IsBundle(spec.app);
    Item(
      Key(c.namespace, if bundle then c.id + "-" + spec.appName else spec.appName),
      App(
        labels := map[
          AppName := spec.app,
          AppOperatorVersion := if bundle then UNIQUE_OPERATOR_VERSION else spec.appOperatorVersion,
          Cluster := c.id,
          ManagedBy := PROJECT],
        annotations := map[ForceHelmUpgrade := FormatBool(spec.useUpgradeForce)],
        spec := SetFields(map[
          Catalog := spec.catalog,
          ConfigMapName := spec.configMapName,
          ConfigMapNamespace := spec.configMapNamespace,
          SecretName := spec.secretName,
          SecretNamespace := spec.secretNamespace,
          ChartName := spec.app,
          TargetNamespace := if bundle then c.namespace else spec.targetNamespace,
          Version := spec.version] + KubeConfigFields(c, spec)),
        finalizers := {},
        terminating := false,
        status := ""))
  }

  function DesiredApps(r: Config, c: Ref): seq<Item> {
    [NewApp(c, AppOperatorSpec(r, c)), NewApp(c, ChartOperatorSpec(r, c))]
  }

  /** The first App of that name and namespace. */
  function FindAppByName(apps: seq<Item>, name: string, namespace: string): (found: Option<Item>)
    ensures found.Some? ==> exists i :: (
              && 0 <= i < |apps| && found.value == apps[i] && apps[i].key == Key(namespace, name)
              && forall j :: 0 <= j < i ==> apps[j].key != Key(namespace, name))
    ensures found.None? <==> forall i :: 0 <= i < |apps| ==> apps[i].key != Key(namespace, name)
  {
    if apps == [] then None
    else if name == apps[0].key.name && namespace == apps[0].key.namespace then Some(apps[0])
    else
      var rest := FindAppByName(apps[1..], name, namespace);
      assert forall i :: 0 <= i < |apps| - 1 ==> apps[1..][i] == apps[i + 1];
      assert forall i :: 0 < i < |apps| ==> apps[i] == apps[1..][i - 1];
      rest
  }

  predicate SameDesired(a: App, b: App) {
    a.spec == b.spec && a.annotations == b.annotations && a.labels == b.labels
  }

  predicate HasAppChanged(current: App, desired: App) {
    !SameDesired(current, desired)
  }

  /** Everything `newApp` builds is in the cluster's namespace and is selected as an App of the
      operator, never as a cluster App that the teardown would sweep away. */
  lemma NewAppIsManaged(c: Ref, spec: AppSpec)
    ensures NewApp(c, spec).key.namespace == c.namespace
    ensures Matches(OperatorSelector(c.id), NewApp(c, spec).app.labels)
    ensures !Matches(ClusterAppSelector(c.id), NewApp(c, spec).app.labels)
    ensures FluxName !in NewApp(c, spec).app.labels && FluxNamespace !in NewApp(c, spec).app.labels
  {
    SelectorMeaning(c.id, NewApp(c, spec).app.labels);
  }

  /** An App is deployed with the credentials of the management cluster if its spec says so or it is a
      bundle; then, and only then, its spec names no kubeconfig of the workload cluster. A bundle is left
      to the unique app-operator and stays in the cluster's own namespace. */
  lemma WhereAppsAreDeployed(c: Ref, spec: AppSpec)
    ensures var app := NewApp(c, spec).app;
            && (InCluster in app.spec <==> spec.inCluster || IsBundle(spec.app))
            && (InCluster in app.spec <==> KubeContextName !in app.spec)
            && (KubeContextName in app.spec ==>
                  && Field(app.spec, KubeContextName) == Some(KubeConfigSecretName(c.id))
                  && Field(app.spec, KubeSecretName) == Field(app.spec, KubeContextName)
                  && Field(app.spec, KubeSecretNamespace) == NonEmpty(c.namespace))
    ensures IsBundle(spec.app) ==>
              && Field(NewApp(c, spec).app.labels, AppOperatorVersion) == Some(UNIQUE_OPERATOR_VERSION)
              && Field(NewApp(c, spec).app.spec, TargetNamespace) == NonEmpty(NewApp(c, spec).key.namespace)
              && NewApp(c, spec).key.name == c.id + "-" + spec.appName
  {
  }

  function NonEmpty(value: string): Option<string> {
    if value == "" then None else Some(value)
  }

  /** What a spec says reaches the App under the same name, except that a bundle settles the operator
      version and the target namespace itself. */
  lemma NewAppKeepsSpec(c: Ref, spec: AppSpec)
    ensures var app := NewApp(c, spec).app;
            && Field(app.labels, AppName) == Some(spec.app)
            && Field(app.annotations, ForceHelmUpgrade) == Some(FormatBool(spec.useUpgradeForce))
            && Field(app.spec, ChartName) == NonEmpty(spec.app)
            && Field(app.spec, Version) == NonEmpty(spec.version)
            && Field(app.spec, Catalog) == NonEmpty(spec.catalog)
            && (!IsBundle(spec.app) ==>
                  && Field(app.labels, AppOperatorVersion) == Some(spec.appOperatorVersion)
                  && Field(app.spec, TargetNamespace) == NonEmpty(spec.targetNamespace))
  {
  }

  lemma NewAppKeepsValues(c: Ref, spec: AppSpec)
    ensures var app := NewApp(c, spec).app;
            && Field(app.spec, ConfigMapName) == NonEmpty(spec.configMapName)
            && Field(app.spec, ConfigMapNamespace) == NonEmpty(spec.configMapNamespace)
            && Field(app.spec, SecretName) == NonEmpty(spec.secretName)
            && Field(app.spec, SecretNamespace) == NonEmpty(spec.secretNamespace)
  {
  }

  /** Two specs give the same App exactly when they are equal, or are of a bundle and differ in nothing but
      what a bundle settles itself. So no other change of a spec can go unnoticed. */
  lemma NewAppEqualIff(c: Ref, s: AppSpec, t: AppSpec)
    ensures NewApp(c, s) == NewApp(c, t) <==> s == t || (IsBundle(s.app) && SameBundle(s, t))
  {
    if NewApp(c, s) == NewApp(c, t) {
      SameParts(c, s, t);
    } else if IsBundle(s.app) && SameBundle(s, t) {
      SameBundleSameApp(c, s, t);
    }
  }

  lemma SameParts(c: Ref, s: AppSpec, t: AppSpec)
    requires NewApp(c, s) == NewApp(c, t)
    ensures SameBundle(s, t) && (!IsBundle(s.app) ==> s == t)
  {
    NewAppKeepsSpec(c, s);
    NewAppKeepsSpec(c, t);
    NewAppKeepsValues(c, s);
    NewAppKeepsValues(c, t);
    WhereAppsAreDeployed(c, s);
    WhereAppsAreDeployed(c, t);
    SameAppName(c, s, t);
  }

  lemma SameBundleSameApp(c: Ref, s: AppSpec, t: AppSpec)
    requires IsBundle(s.app) && SameBundle(s, t)
    ensures NewApp(c, s) == NewApp(c, t)
  {
  }

  predicate SameBundle(s: AppSpec, t: AppSpec) {
    t == s.(appOperatorVersion := t.appOperatorVersion, inCluster := t.inCluster, targetNamespace := t.targetNamespace)
  }

  lemma SameAppName(c: Ref, s: AppSpec, t: AppSpec)
    requires s.app == t.app && NewApp(c, s).key == NewApp(c, t).key
    ensures s.appName == t.appName
  {
    var p := c.id + "-";
    if IsBundle(s.app) {
      assert s.appName == (p + s.appName)[|p|..] && t.appName == (p + t.appName)[|p|..];
    }
  }

  /** `hasAppChanged` sees every change of the operator's configuration: for some desired App the one that
      was built before differs from the one that is wanted now exactly when the configuration changed. */
  lemma ConfigChangeIsSeenIff(before: Config, now: Config, c: Ref)
    ensures (exists i :: 0 <= i < 2 && HasAppChanged(DesiredApps(before, c)[i].app, DesiredApps(now, c)[i].app))
       <==> before != now
  {
    var old0, new0 := DesiredApps(before, c)[0].app, DesiredApps(now, c)[0].app;
    var old1, new1 := DesiredApps(before, c)[1].app, DesiredApps(now, c)[1].app;
    OperatorsFitTogether(before, c);
    OperatorsFitTogether(now, c);
    if before != now {
      assert HasAppChanged(old0, new0) || HasAppChanged(old1, new1);
    }
  }

  /** How the two desired Apps depend on each other: chart-operator is left to exactly the version of
      app-operator that the first App installs, and app-operator itself to the unique one. */
  lemma OperatorsFitTogether(r: Config, c: Ref)
    ensures var appOp, chart := DesiredApps(r, c)[0].app, DesiredApps(r, c)[1].app;
            && Field(appOp.labels, AppOperatorVersion) == Some(UNIQUE_OPERATOR_VERSION)
            && Field(appOp.spec, Version) == NonEmpty(r.appOperatorVersion)
            && Field(appOp.spec, Catalog) == NonEmpty(r.appOperatorCatalog)
            && Field(appOp.spec, TargetNamespace) == NonEmpty(c.namespace)
            && Field(chart.labels, AppOperatorVersion) == Some(r.appOperatorVersion)
            && Field(chart.spec, Version) == NonEmpty(r.chartOperatorVersion)
            && Field(chart.spec, Catalog) == NonEmpty(r.chartOperatorCatalog)
            && Field(chart.spec, TargetNamespace) == Some("giantswarm")
            && InCluster in appOp.spec && InCluster !in chart.spec
  {
    NotBundles();
    var appOp, chart := AppOperatorSpec(r, c), ChartOperatorSpec(r, c);
    assert DesiredApps(r, c) == [NewApp(c, appOp), NewApp(c, chart)];
    NewAppKeepsSpec(c, appOp);
    NewAppKeepsSpec(c, chart);
    WhereAppsAreDeployed(c, appOp);
    WhereAppsAreDeployed(c, chart);
    assert "giantswarm" != "";
  }

  /** The App that installs app-operator: by the unique app-operator, in the management cluster, watching
      the namespace of the cluster. */
  predicate InstallsAppOperator(r: Config, namespace: string, id: string, app: App) {
    && app.labels == map[AppName := "app-operator", AppOperatorVersion := "0.0.0", Cluster := id,
                         ManagedBy := "cluster-apps-operator"]
    && app.annotations == map[ForceHelmUpgrade := "false"]
    && Field(app.spec, ChartName) == Some("app-operator")
    && Field(app.spec, Version) == NonEmpty(r.appOperatorVersion)
    && Field(app.spec, Catalog) == NonEmpty(r.appOperatorCatalog)
    && Field(app.spec, TargetNamespace) == NonEmpty(namespace)
    && Field(app.spec, ConfigMapName) == Some(id + "-app-operator-values")
    && Field(app.spec, ConfigMapNamespace) == NonEmpty(namespace)
    && Field(app.spec, SecretName) == Field(app.spec, SecretNamespace) == None
    && Field(app.spec, InCluster) == Some("true")
    && Field(app.spec, KubeContextName) == Field(app.spec, KubeSecretName) == None
    && Field(app.spec, KubeSecretNamespace) == None
    && IsFresh(app)
  }

  /** The App that installs chart-operator: by the app-operator of that version, in the workload cluster,
      with the cluster values and the kubeconfig of the cluster. */
  predicate InstallsChartOperator(r: Config, namespace: string, id: string, app: App) {
    && app.labels == map[AppName := "chart-operator", AppOperatorVersion := r.appOperatorVersion, Cluster := id,
                         ManagedBy := "cluster-apps-operator"]
    && app.annotations == map[ForceHelmUpgrade := "false"]
    && Field(app.spec, ChartName) == Some("chart-operator")
    && Field(app.spec, Version) == NonEmpty(r.chartOperatorVersion)
    && Field(app.spec, Catalog) == NonEmpty(r.chartOperatorCatalog)
    && Field(app.spec, TargetNamespace) == Some("giantswarm")
    && Field(app.spec, ConfigMapName) == Field(app.spec, SecretName) == Some(id + "-cluster-values")
    && Field(app.spec, ConfigMapNamespace) == Field(app.spec, SecretNamespace) == NonEmpty(namespace)
    && Field(app.spec, InCluster) == None
    && Field(app.spec, KubeContextName) == Field(app.spec, KubeSecretName) == Some(id + "-kubeconfig")
    && Field(app.spec, KubeSecretNamespace) == NonEmpty(namespace)
    && IsFresh(app)
  }

  predicate IsFresh(app: App) {
    && (forall f <- app.spec.Keys :: !f.OtherField?)
    && app.finalizers == {} && !app.terminating && app.status == ""
  }

  /** Everything that `EnsureCreated` writes: the whole content of the two desired Apps. */
  lemma DesiredContents(r: Config, c: Ref)
    ensures InstallsAppOperator(r, c.namespace, c.id, DesiredApps(r, c)[0].app)
    ensures InstallsChartOperator(r, c.namespace, c.id, DesiredApps(r, c)[1].app)
  {
    AppOperatorContents(r, c);
    ChartOperatorContents(r, c);
  }

  /** Each App is named after the cluster and the chart that it installs, so neither can install the other's. */
  lemma NamedAfterChart(r: Config, c: Ref, d: Item)
    requires d in DesiredApps(r, c)
    ensures AppName in d.app.labels && ChartName in d.app.spec
    ensures d.app.labels[AppName] == d.app.spec[ChartName]
    ensures d.key == Key(c.namespace, c.id + "-" + d.app.spec[ChartName])
  {
    var appOp, chart := AppOperatorSpec(r, c), ChartOperatorSpec(r, c);
    SpecsNamedAfterChart(r, c);
    InstalledName(c, appOp);
    InstalledName(c, chart);
    assert DesiredApps(r, c) == [NewApp(c, appOp), NewApp(c, chart)];
  }

  lemma SpecsNamedAfterChart(r: Config, c: Ref)
    ensures forall spec <- [AppOperatorSpec(r, c), ChartOperatorSpec(r, c)] ::
              !IsBundle(spec.app) && spec.app != "" && spec.appName == c.id + "-" + spec.app
  {
    NotBundles();
    assert c.id + "-" + "app-operator" == c.id + "-app-operator";
    assert c.id + "-" + "chart-operator" == c.id + "-chart-operator";
  }

  lemma InstalledName(c: Ref, spec: AppSpec)
    requires !IsBundle(spec.app) && spec.app != "" && spec.appName == c.id + "-" + spec.app
    ensures var d := NewApp(c, spec);
            && AppName in d.app.labels && ChartName in d.app.spec
            && d.app.labels[AppName] == d.app.spec[ChartName]
            && d.key == Key(c.namespace, c.id + "-" + d.app.spec[ChartName])
  {
    NewAppKeepsSpec(c, spec);
  }

  lemma AppOperatorContents(r: Config, c: Ref)
    ensures InstallsAppOperator(r, c.namespace, c.id, NewApp(c, AppOperatorSpec(r, c)).app)
  {
    var spec := AppOperatorSpec(r, c);
    NotBundles();
    NewAppKeepsSpec(c, spec);
    NewAppKeepsValues(c, spec);
    WhereAppsAreDeployed(c, spec);
    InClusterNeedsNoKubeConfig(c, spec);
    NewAppIsFresh(c, spec);
  }

  lemma ChartOperatorContents(r: Config, c: Ref)
    ensures InstallsChartOperator(r, c.namespace, c.id, NewApp(c, ChartOperatorSpec(r, c)).app)
  {
    var spec := ChartOperatorSpec(r, c);
    NotBundles();
    NewAppKeepsSpec(c, spec);
    NewAppKeepsValues(c, spec);
    WhereAppsAreDeployed(c, spec);
    NewAppIsFresh(c, spec);
  }

  /** What an App whose name ends in "-bundle" is turned into, whatever its spec says. */
  lemma BundleContents(c: Ref, spec: AppSpec, prefix: string)
    requires spec.app == prefix + "-bundle"
    ensures var d := NewApp(c, spec);
            && d.key == Key(c.namespace, c.id + "-" + spec.appName)
            && Field(d.app.labels, AppOperatorVersion) == Some("0.0.0")
            && Field(d.app.spec, TargetNamespace) == NonEmpty(c.namespace)
            && Field(d.app.spec, InCluster) == Some("true")
            && Field(d.app.spec, KubeSecretName) == Field(d.app.spec, KubeSecretNamespace) == None
  {
    BundleMeaning(spec.app);
    WhereAppsAreDeployed(c, spec);
    InClusterNeedsNoKubeConfig(c, spec);
  }

  lemma InClusterNeedsNoKubeConfig(c: Ref, spec: AppSpec)
    requires spec.inCluster || IsBundle(spec.app)
    ensures var fields := NewApp(c, spec).app.spec;
            && Field(fields, InCluster) == Some("true")
            && Field(fields, KubeSecretName) == Field(fields, KubeSecretNamespace) == None
  {
  }

  lemma NewAppIsFresh(c: Ref, spec: AppSpec)
    ensures IsFresh(NewApp(c, spec).app)
  {
  }

  lemma NotBundles()
    ensures !IsBundle("app-operator") && !IsBundle("chart-operator")
  {
  }

  /** What the reconciliation relies on about the desired Apps: the two operator Apps, app-operator
      first, selected as Apps of the operator, with nothing that holds up their deletion. */
  ghost predicate IsDesired(apps: seq<Item>, c: Ref) {
    && |apps| == 2
    && apps[0].key == AppOperatorKey(c)
    && apps[1].key == ChartOperatorKey(c)
    && (forall i :: 0 <= i < 2 ==> Matches(OperatorSelector(c.id), apps[i].app.labels))
  }

  lemma DesiredAppsAreDesired(r: Config, c: Ref)
    ensures IsDesired(DesiredApps(r, c), c)
  {
    NotBundles();
    NewAppIsManaged(c, AppOperatorSpec(r, c));
    NewAppIsManaged(c, ChartOperatorSpec(r, c));
  }

  /** Looking up either name that the teardown waits for finds the App of that name. */
  lemma LookupDesired(apps: seq<Item>, c: Ref)
    requires IsDesired(apps, c)
    ensures AppOperatorKey(c) != ChartOperatorKey(c)
    ensures FindAppByName(apps, AppOperatorAppName(c.id), c.namespace) == Some(apps[0])
    ensures FindAppByName(apps, ChartOperatorAppName(c.id), c.namespace) == Some(apps[1])
  {
  }

  method BuildDesiredApps(r: Config, c: Ref) returns (apps: seq<Item>)
    ensures apps == DesiredApps(r, c) && IsDesired(apps, c)
    ensures InstallsAppOperator(r, c.namespace, c.id, apps[0].app)
    ensures InstallsChartOperator(r, c.namespace, c.id, apps[1].app)
  {
    var appSpecs := [AppOperatorSpec(r, c), ChartOperatorSpec(r, c)];
    apps := [];
    for i := 0 to |appSpecs|
      invariant apps == DesiredApps(r, c)[..i]
    {
      apps := apps + [NewApp(c, appSpecs[i])];
    }
    DesiredAppsAreDesired(r, c);
    DesiredContents(r, c);
  }
}
