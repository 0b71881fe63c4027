# cluster-apps-operator: a verified model

cluster-apps-operator keeps two App custom resources for every workload cluster, `<id>-app-operator` and
`<id>-chart-operator`, and takes a cluster's Apps down in stages before it lets the cluster's finalizer
go. It sees the API server only through List, Get, Create, Patch and Delete calls; users, Flux,
app-operator and the Apps' own finalizers act between any two of them, and every call can fail.

The model has two levels. At the code's level, `EnsureCreated`, `EnsureDeleted` and the functions they call
are methods with the source's loops and early returns, on an `ApiServer` object whose store the other actors
may replace entirely before every call. At the level of steps, module `Protocol` is a machine: a program
counter says which request comes next, the answer alone gives the next program counter. Each method is
proved to be a run of that machine; the theorems are about the runs.

| file | what it holds |
|---|---|
| `Objects.dfy`, `MergePatch.dfy`, `Api.dfy`, `ApiServer.dfy` | Apps, label selectors, merge patches (section 2 of RFC 7396), which answers and effects of a call are correct, the server object |
| `Keys.dfy`, `OperatorApps.dfy`, `Clusters.dfy` | names and selectors, the two desired Apps, the Cluster CR |
| `Protocol.dfy`, `Teardown.dfy`, `Creation.dfy` | the machine, and the methods that follow it |
| `TeardownContract.dfy`, `CreationContract.dfy` | what a whole pass asks and how it ends, by literal labels and names |
| `TeardownTrace.dfy` | what a teardown pass guarantees whatever the other actors do |
| `TeardownSafety.dfy` | teardown order as an invariant of the store over any number of passes |
| `TeardownProgress.dfy` | a falling measure, and release within four passes |
| `Convergence.dfy`, `ConcurrentEdits.dfy` | what a creation pass achieves, exactly, and when it survives edits between its Get and its Patch |
| `NonInterference.dfy` | passes for many clusters, interleaved call by call |
| `DnsIp.dfy`, `NoProxy.dfy`, `ClusterResources.dfy`, `Agreement.dfy`, `Contents.dfy`, `Collector.dfy` | the cluster DNS IP, the no-proxy list, the desired secrets and config maps, what they contain and in what they agree, the gauge of dangling Apps |

## Assumptions

- Controller: the operator framework removes the finalizer only after a pass that returned nil and did not
  mark the finalizers as kept; once the deletion timestamp is set it runs teardown passes only; it starts a
  pass for a cluster only after the previous one for that cluster ended.
- A call that fails may or may not have taken effect, and no later than its return. Reads see the current
  store. A Delete removes an App without finalizers at once and otherwise sets its deletion timestamp.
- Nothing is assumed about the other actors unless a theorem says so. `TeardownTrace` assumes nothing.
  `TeardownSafety` and `TeardownProgress` assume that they neither create nor relabel an App of the cluster
  nor one of its two operators (`Tame`); `ReleaseSafety` assumes this only after the empty listing.
  `Convergence` says which of its statements need an undisturbed pass (`Quiet`). `NonInterference` assumes
  that they leave the managed-by label of the one App it speaks of alone.
- The teardown order, on the trace and on the store, also needs that the first listing does not put an
  operator App up for deletion (`OperatorsSpared`), for which its managed-by label is enough. Both
  if-and-only-if theorems show that this cannot be weakened.

## What the model shows about the code

- The teardown order depends on labels. If one of the two operator Apps has lost its managed-by label, the
  first stage deletes it as an ordinary App; the order is guaranteed exactly when the store that the first
  listing sees has no such App (`OrderIffOperatorsSpared`, `InvariantIffOperatorsSpared`).
- A Flux App that nobody else removes blocks the teardown for good (`FluxAppBlocks`).
- `EnsureCreated` treats AlreadyExists as success. An existing App with the right name but without the
  selector labels is never repaired (`DesiredIffAbsentOrManaged`, an equivalence).
- An actor that removes the managed-by label between the Get and the Patch of an update leaves the App
  unlabelled: the patch omits the label, the pass returns nil, and later undisturbed passes do not repair it.
  `FurtherPassConvergesIff` gives the exact condition under which one further pass does converge.
- `DNSIP` checks that the last octet is 0, which its comment calls being a network address. That makes it
  one only for prefixes from 24 on (`AcceptedIsNetworkIff`), and the address it gives lies in the service
  range only for prefixes up to 28 (`DnsInRangeIff`), while the comment in the config map resource requires
  it always.
- The gauge counts the Apps of the cluster's name, the teardown those of its cluster ID; they agree in every
  store exactly when the two are equal (`GaugeAgreesIff`).
- A private config map does not imply proxy settings in the secret: `ProxyAgreement` and
  `PrivateUnproxiedIff` give the exact conditions, `ProxmoxIsUnproxied` an example.
- The no-proxy list that containerd gets is never the one that charts get (`ProxyViews`).
- The config map writes the DNS IP of the cluster's own service range beside the installation's range; the
  one need not lie in the other (`DnsInRangeBesideItIff`).
- The branches of `EnsureDeleted` for errors other than notDeleted cannot be reached: `waitForAppDeletion`
  has no other error.

## Model

| member | source | states |
|---|---|---|
| Teardown.EnsureDeleted | service/controller/resource/app/delete.go:23-93 | The calls of a pass, with their answers, are a run of the machine from the first listing to a halt; the halt decides error, nil with finalizers kept, or nil without. From the labels of the Cluster CR alone: the pass is a teardown, in the sense of the next row, for the non-empty Giant Swarm label, or else the upstream one, or else the empty ID. No call touches an App that keeps its managed-by label, other than operator Apps of the same cluster. |
| TeardownContract.PassIsTeardown | service/controller/resource/app/delete.go:32-92 | For namespace and ID, by literal labels and names: the first call lists `cluster=ID` without `managed-by=cluster-apps-operator`; each call is such a listing, or deletes an App that the first listing showed unstamped and lacking a Flux label, or deletes or probes `ID-chart-operator` after an empty second listing, or `ID-app-operator` when the former was also seen gone. It errs exactly when a listing failed, releases exactly when it saw all three gone in order, keeps the finalizers otherwise; after a release with tame others no App with that label and without managed-by is left in the namespace, and neither operator. |
| Teardown.RemoveClusterApps | service/controller/resource/app/delete.go:32-59 | The part before the operators: it errs only on a failed listing, stops with finalizers kept after a failed sweep or a non-empty second listing, and goes on to chart-operator otherwise. |
| Teardown.RemoveOperators | service/controller/resource/app/delete.go:61-90 | Chart-operator first, then app-operator; the only error is notDeleted, so the branches for other errors are dead. |
| Teardown.DeleteClusterApps | service/controller/resource/app/delete.go:106-137 | One Delete for each App of the list that lacks one of the two Flux labels and is not stamped, in order, up to and including the first hard error; NotFound stops nothing; an error is returned exactly after a hard error, and without one all of them were asked for. |
| Teardown.SweepByLabels | service/controller/key/key.go:162-174 | The same by labels: no Delete for an App with both Flux labels or a deletion timestamp, and without a hard error one for every other App of the list. |
| Teardown.SweepOfListing | service/controller/resource/app/delete.go:106-137 | Without a hard error the Apps asked to go are exactly the listed eligible ones of the store, each once. |
| Teardown.SweepUpToError | service/controller/resource/app/delete.go:125-131 | With a hard error they are exactly the eligible ones of a prefix of the list that ends with the App whose deletion failed, and only the last call failed. |
| Teardown.WaitForAppDeletion | service/controller/resource/app/delete.go:176-210 | One Delete, then Gets until NotFound or the time is up, however long that is; nil exactly when some answer was NotFound; the only error is notDeleted, hard errors of Delete and Get included. |
| Teardown.GetClusterApps | service/controller/resource/app/delete.go:141-171 | Exactly one List with the cluster label and without the managed-by label of the operator; its items unchanged, or its error. |
| Teardown.Cancel | service/controller/resource/app/delete.go:95-102 | The finalizers are kept. |
| ApiServers.Context.SetKept | service/controller/resource/app/delete.go:96-96 | Once set, the pass keeps its finalizers. |
| ApiServers.ApiServer.ListApps | service/controller/resource/app/delete.go:159-162 | One correctly answered List: the selected Apps of the store at that moment, each once, in any order, or an error. |
| ApiServers.ApiServer.GetApp | service/controller/resource/app/delete.go:191-195 | One Get, answered with the App, NotFound or an error. |
| ApiServers.ApiServer.DeleteApp | service/controller/resource/app/delete.go:125-131 | One Delete, answered with success, NotFound or an error, whose effect is removal or a deletion timestamp. |
| ApiServers.ApiServer.CreateApp | service/controller/resource/app/create.go:41-46 | One Create, answered with success, AlreadyExists or an error. |
| ApiServers.ApiServer.PatchApp | service/controller/resource/app/create.go:69-72 | One merge patch, answered with success, NotFound or an error. |
| Api.ServesOnlyItsKey | service/controller/resource/app/delete.go:125-125 | No served call touches an App other than the one it names. |
| Api.DeleteTakesEffect | service/controller/resource/app/delete.go:125-131 | A Delete without a hard error finds nothing exactly when there is nothing; it removes an App without finalizers and stamps any other. |
| TeardownTrace.TeardownOrder | service/controller/resource/app/delete.go:49-90 | Whatever the others do: a Delete of chart-operator comes after an empty second listing of the same pass, one of app-operator also after a NotFound for chart-operator, provided the first listing did not put an operator up for deletion. |
| TeardownTrace.LabelledOperatorsSpared | service/controller/resource/app/delete.go:147-147 | Operators that carry the managed-by label, whatever their other labels, are never put up for deletion by the first listing. |
| TeardownTrace.OrderIffOperatorsSpared | service/controller/resource/app/delete.go:29-44 | The order holds in all passes from a store if and only if neither operator there is a sweepable cluster App; otherwise some pass asks for it right after its first listing. |
| TeardownTrace.ReleasedIffAllGone | service/controller/resource/app/delete.go:49-92 | A pass ends released if and only if it saw, in this order, an empty second listing, NotFound for chart-operator and NotFound for app-operator. |
| TeardownTrace.PassGuarantees | service/controller/resource/app/delete.go:23-93 | The release condition and the order, for all calls of a pass at once. |
| TeardownTrace.SweepDeletesOnlyEligible | service/controller/resource/app/delete.go:106-123 | Before its second listing a pass deletes nothing but Apps of its first listing that lack one of the two Flux labels and are not stamped. |
| TeardownTrace.RemainingAppsKeepFinalizers | service/controller/resource/app/delete.go:49-59 | A pass whose second listing finds an App, a Flux one for instance, ends there with finalizers kept, and all it asked to go were eligible Apps of its first listing. |
| TeardownTrace.SweepErrorKeepsFinalizers | service/controller/resource/app/delete.go:40-44 | A hard error in the sweep ends the pass at that call with the finalizers kept. |
| TeardownTrace.PassFootprint | service/controller/resource/app/delete.go:106-210 | Whatever the others do, no call of a pass touches an App that is no operator App of the cluster and was not up for deletion in the store listed first, such as Apps of Flux and of other clusters. |
| TeardownTrace.PassEvidence | service/controller/resource/app/delete.go:32-92 | What every state of the machine says about the answers that led to it. |
| TeardownSafety.TeardownInvariant | service/controller/resource/app/delete.go:23-93 | In every reachable state of any number of passes with failures and tame others, from a store in which no operator App is up for deletion by a first listing: chart-operator ever asked to go implies no cluster App, app-operator ever asked implies no chart-operator either, a release implies that no App of the cluster is left then and later. |
| TeardownSafety.InvariantIffOperatorsSpared | service/controller/resource/app/delete.go:29-93 | These three facts hold in every state of every history from a store if and only if neither operator App there is up for deletion by a first listing. |
| TeardownSafety.CallSafe | service/controller/resource/app/delete.go:23-93 | Every call of the operator, failed ones included, keeps the inductive invariant. |
| TeardownSafety.TameKeeps | service/controller/resource/app/delete.go:46-48 | So does everything tame others do. |
| TeardownSafety.ReleaseSafety | service/controller/resource/app/delete.go:49-92 | With others that are tame only since the empty second listing, and no assumption about labels: after a release there is no App of the cluster and neither operator, then and later. |
| TeardownSafety.PassIsHistory | service/controller/resource/app/delete.go:23-93 | A pass of the operator extends any history of the transition system: its calls are the system's steps. |
| TeardownSafety.PassInOrder | service/controller/resource/app/delete.go:49-92 | For one pass from such a store: order and release, as facts about the store after each call. |
| TeardownProgress.RoundProgress | service/controller/resource/app/delete.go:40-92 | Without Flux Apps, failures and creations, and with requested deletions finished between passes, a pass never errs, and one that does not release makes the measure (2 per undeleted App, 1 per stamped one) fall and removes at least one stage. |
| TeardownProgress.FourPassesRelease | service/controller/resource/app/delete.go:40-92 | Of any passes among which at least four are such ones, one of these releases, for any number of Apps and however many other passes fail or break off in between. |
| TeardownProgress.AnyPassNeverRises | service/controller/resource/app/delete.go:23-93 | No pass, whatever fails in it and wherever it breaks off, makes the measure or the stage rise. |
| TeardownProgress.RemainingAppBlocks | service/controller/resource/app/delete.go:49-59 | A pass at whose every call some cluster App is still there does not release. |
| TeardownProgress.FluxAppBlocks | service/controller/resource/app/delete.go:46-59 | A cluster App with both Flux labels that the others leave alone during a pass is unchanged after it, and the pass does not release. |
| TeardownProgress.PassAchieves | service/controller/resource/app/delete.go:32-92 | What a pass without failures has achieved in each of its states. |
| Creation.EnsureCreated | service/controller/resource/app/create.go:24-79 | The calls of a pass are a run of the machine that ends converged or in an error. Undisturbed and nil, it leaves exactly the settled store; undisturbed and without hard errors, it returns nil. From the labels of the Cluster CR alone: the pass is a creation, in the sense of the next row, for the non-empty Giant Swarm label, or else the upstream one, or else the empty ID. No call touches an App that keeps its managed-by label, other than operator Apps of the same cluster. |
| CreationContract.PassIsCreation | service/controller/resource/app/create.go:30-78 | For namespace and ID, by literal labels and names: the first call lists `cluster=ID,managed-by=cluster-apps-operator`; each other call creates, gets or patches one of the two Apps with the contents of the next row, a patch setting just labels, annotations and spec on what the call before it fetched. It errs exactly when some call was not answered as asked, AlreadyExists aside, a Get or Patch answered NotFound included. |
| OperatorApps.DesiredContents | service/controller/resource/app/create.go:113-222 | The whole content of both Apps, by literal labels, chart names, object names and flags. |
| OperatorApps.NamedAfterChart | service/controller/resource/app/create.go:114-145 | Each App is named after the cluster and the chart it installs, which its spec and its name label agree on. |
| OperatorApps.BundleContents | service/controller/resource/app/create.go:159-184 | What an App whose chart name ends in `-bundle` is turned into. |
| Creation.EnsureApps | service/controller/resource/app/create.go:30-78 | One listing, then each desired App in order until the first error. |
| Creation.EnsureApp | service/controller/resource/app/create.go:35-76 | For one desired App: a Create when it is not listed, with AlreadyExists as success; an update when it is listed and has changed; no call otherwise. |
| Creation.UpdateApp | service/controller/resource/app/create.go:49-75 | A Get and a patch of annotations, labels and spec computed from what the Get returned; any error ends the pass. |
| Creation.CurrentApps | service/controller/resource/app/create.go:81-111 | Exactly one List with both selector labels. |
| Convergence.QuietPassSettles | service/controller/resource/app/create.go:35-78 | An undisturbed pass that returns nil leaves exactly the settled store, and one without hard errors returns nil. |
| Convergence.QuietReached | service/controller/resource/app/create.go:24-79 | The same for the calls of a whole pass, whatever the pass read the desired Apps to be, as long as they are the two operators with their labels. |
| Convergence.SettleMeaning | service/controller/resource/app/create.go:35-76 | App by App: absent ones are created, listed ones get the desired labels, annotations and spec and keep all else, unlisted ones of the right name are unchanged, and so is every other App. |
| Convergence.DesiredIffAbsentOrManaged | service/controller/resource/app/create.go:38-49 | An operator App is in its desired state afterwards if and only if it was absent or carried the selector labels. |
| Convergence.SecondPassChangesNothing | service/controller/resource/app/create.go:35-76 | Of two undisturbed passes in a row that return nil, the second leaves the store unchanged, and is a single List where each App was absent or carried the selector labels before the first. |
| Convergence.SettledIff | service/controller/resource/app/create.go:35-76 | After a pass nothing is left to do if and only if each App was absent or carried the selector labels. |
| Convergence.SettledPassOnlyLists | service/controller/resource/app/create.go:35-49 | Where both Apps are listed and right a pass is a single List and returns nil, whatever others do afterwards. |
| Convergence.NeverDamages | service/controller/resource/app/create.go:35-76 | No call of any pass, disturbed or failing part-way, changes an App that is in its desired state or one that is not an operator App of the cluster. |
| ConcurrentEdits.UpdateUnderEdits | service/controller/resource/app/create.go:52-72 | With an edit between Get and Patch the App gets the desired value wherever the fetched one differed and keeps the edited one elsewhere; finalizers, deletion timestamp and status stay. |
| ConcurrentEdits.FurtherPassConvergesIff | service/controller/resource/app/create.go:52-72 | After such an update, whatever the edit, one further undisturbed pass brings the App into its desired state if and only if each selector label was either set by the patch or untouched by the edit; otherwise it leaves the App as the patch did. |
| ConcurrentEdits.LabelsAfterEdit | service/controller/resource/app/create.go:64-69 | A patched App carries the selector labels if and only if, for each, the fetched App had it other than desired or the current App has it as desired. |
| ConcurrentEdits.LabelStrippedDuringUpdate | service/controller/resource/app/create.go:52-76 | A pass in which the managed-by label goes between Get and Patch: it returns nil, without a failure, and that condition does not hold after it. |
| MergePatch.MergeKeepsConcurrentEdits | service/controller/resource/app/create.go:64-69 | Field by field, a computed merge patch sets what fetched and wanted objects differ in and keeps the server's value elsewhere. |
| MergePatch.MergeYieldsWanted | service/controller/resource/app/create.go:64-69 | Without an edit the result is the wanted object; an object that already is the wanted one stays so. |
| NonInterference.LabelledAppsAreSafe | service/controller/resource/app/create.go:195-202 | In any interleaving of creation and teardown passes of any clusters, an App whose managed-by label the others leave alone keeps it, no sweep touches it, and no call touches it but those for a cluster whose operator App it is. |
| NonInterference.ClustersDoNotInterfere | service/controller/key/key.go:26-58 | So no call made for another cluster, and no sweep of its own, touches such an operator App. |
| NonInterference.PassIsHistory | service/controller/resource/app/delete.go:23-93 | A pass of either kind extends any history of that system in which it has just started: its calls are the system's steps. |
| NonInterference.WholePassSparesOthers | service/controller/resource/app/create.go:24-79 | For the calls of one whole creation or teardown pass: none touches an App that keeps its managed-by label and is no operator App of the same cluster, in particular no operator App of another one. |
| NonInterference.LabelledIsNotListed | service/controller/resource/app/delete.go:147-155 | No cluster's sweep contains an App that carries the managed-by label. |
| NonInterference.PatchKeepsLabels | service/controller/resource/app/create.go:64-69 | An update keeps every label that is as desired when the patch arrives, whatever was fetched. |
| Keys.OperatorNamesInjective | service/controller/key/key.go:26-40 | The two names are injective in the cluster ID and never equal each other, for any two IDs. |
| Keys.OperatorKeysDisjoint | service/controller/key/key.go:26-58 | Operator Apps of different clusters never share namespace and name. |
| Keys.SelectorPartition | service/controller/resource/app/delete.go:147-155 | In every store the two selectors are disjoint and together give exactly the Apps in the namespace with the cluster label. |
| Keys.SelectorMeaning | service/controller/resource/app/create.go:86-94 | What each selector demands of labels; a missing managed-by label meets the inequality. |
| Objects.ListingSize | service/collector/cluster.go:119-125 | Any listing has as many items as there are selected Apps. |
| OperatorApps.BuildDesiredApps | service/controller/resource/app/create.go:113-154 | The two Apps, app-operator first, under the names the teardown uses, with the selector labels and all their contents. |
| OperatorApps.NewAppIsManaged | service/controller/resource/app/create.go:195-202 | Everything that is built lies in the cluster's namespace, is selected as an operator App, never as a cluster App, and is not Flux's. |
| OperatorApps.NewAppEqualIff | service/controller/resource/app/create.go:156-222 | Two specs give the same App if and only if they are equal, or are of a bundle and differ only in what a bundle settles itself: operator version, in-cluster flag, target namespace. |
| OperatorApps.ConfigChangeIsSeenIff | service/controller/resource/app/create.go:224-239 | `hasAppChanged` holds between an App built before and the one wanted now, for at least one of the two Apps, if and only if the operator's configuration changed. |
| OperatorApps.OperatorsFitTogether | service/controller/resource/app/create.go:114-145 | Chart-operator is left to exactly the app-operator version that the first App installs, app-operator to the unique one; catalogs, versions and target namespaces are the configured ones. |
| OperatorApps.FindAppByName | service/controller/resource/app/resource.go:81-89 | The first App of that name and namespace; nothing exactly when there is none. |
| OperatorApps.LookupDesired | service/controller/resource/app/delete.go:179-180 | Both names that the teardown waits for are found in the desired list. |
| DnsIp.DnsIp | service/controller/key/key.go:61-81 | Succeeds exactly for IPv4 ranges whose last octet is 0, and only that octet changes, to 10. |
| DnsIp.DnsInRangeIff | service/controller/resource/clusterconfigmap/desired.go:72-75 | The result lies in the range (section 3.1 of RFC 4632) if and only if the prefix is at most 28. |
| DnsIp.AcceptedIsNetworkIff | service/controller/key/key.go:73-78 | Acceptance guarantees a network base, and a DNS IP that is network base + 10, if and only if the prefix is at least 24. |
| DnsIp.DisjointRangesDiffer | service/controller/key/key.go:61-81 | Disjoint accepted ranges, of any prefixes, give different DNS IPs. |
| DnsIp.DnsInOtherRangeIff | service/controller/key/key.go:61-81 | The DNS IP of one range lies in another if and only if the other has a prefix of at most 28 and contains the address of the first. |
| NoProxy.NoProxy | service/controller/resource/clustersecret/desired.go:183-219 | The value of the specification whose entries the next row gives. |
| NoProxy.NoProxyEntries | service/controller/resource/clustersecret/desired.go:183-219 | For comma-free components, splitting at commas gives in order domain, service blocks, pod blocks, host, each entry of the global list, svc, 127.0.0.1, localhost; one leading empty entry when nothing contributes, one empty entry for each present but empty list. |
| NoProxy.SplitJoin | service/controller/resource/clustersecret/desired.go:195-216 | Splitting undoes joining, for parts with any content. |
| ClusterResources.GetDesiredSecrets | service/controller/resource/clustersecret/desired.go:43-164 | The secrets of the specification that the rows on `Contents` and `Agreement` describe, or its error; nothing for a deleted cluster. |
| Contents.SecretsSucceedIff | service/controller/resource/clustersecret/desired.go:51-91 | When there are secrets at all, by infrastructure kind and what can be read. |
| Contents.SecretsFirstError | service/controller/resource/clustersecret/desired.go:57-91 | Which error it is otherwise. |
| Contents.MainSecretValues | service/controller/resource/clustersecret/desired.go:56-156 | The main secret has the cloud-director settings under "global" for a VCD cluster and nothing there for any other, proxied or not; its keys are exactly that and, for a proxied cluster, the five proxy keys. |
| Contents.ProxiedIff | service/controller/resource/clustersecret/desired.go:57-101 | The clusters whose secrets carry the proxy, by kind, field values and settings. |
| Contents.SecretsHeads | service/controller/resource/clustersecret/desired.go:93-181 | Names, labels and number of the secrets, and the data of the second. |
| ClusterResources.GetDesiredConfigMaps | service/controller/resource/clusterconfigmap/desired.go:28-293 | The two config maps of the specification that the rows on `Contents` and `Agreement` describe, or its error; nothing for a deleted cluster. |
| Contents.ConfigMapsSucceedIff | service/controller/resource/clusterconfigmap/desired.go:36-169 | When there are config maps at all, by kind, service range and what can be read. |
| Contents.ConfigMapsFirstError | service/controller/resource/clusterconfigmap/desired.go:54-169 | Which error it is otherwise: CA, service range, privacy, missing reference, provider field, in this order. |
| Contents.ClusterRanges | service/controller/resource/clusterconfigmap/desired.go:72-86 | The pod range is the cluster's first pod block if there is one that is not empty and the installation's exactly otherwise; the DNS IP is x.y.z.10 of the first service block, or the installation's; CA and cluster IP range as read. |
| Contents.ProviderFields | service/controller/resource/clusterconfigmap/desired.go:104-169 | Provider by kind in both config maps, project and subscription exactly where the kind has them. |
| Contents.ConfigMapsHeads | service/controller/resource/clusterconfigmap/desired.go:171-290 | Names and labels of the config maps, watched namespace, cluster ID, registry and base domain. |
| Contents.PrivateIff | service/controller/resource/clusterconfigmap/desired.go:99-162 | The clusters that are private, by kind, field values and settings. |
| Contents.PodRangeIsNotProxied | service/controller/resource/clustersecret/desired.go:198-200 | For a proxied cluster with comma-free components and pods of its own, the pod range of the config map is among the no-proxy entries of the secret. |
| Agreement.ProxyViews | service/controller/resource/clustersecret/desired.go:101-149 | All three forms of the proxy settings in the main secret agree; the containerd secret has the same HTTP and HTTPS proxy but always another no-proxy list, the raw global one, every entry of which is in the main secret's list. |
| Agreement.ProxyAgreement | service/controller/resource/clusterconfigmap/desired.go:99-169 | Where both resources succeed, proxy values in the secret if and only if the config map is private, a proxy is configured, and the cluster is neither Proxmox nor a vSphere one with its proxy off; the external DNS IP is blanked exactly in private config maps. |
| Agreement.PrivateUnproxiedIff | service/controller/resource/clustersecret/desired.go:62-101 | When a private cluster's secrets lack the proxy, by infrastructure kind. |
| Agreement.ProxmoxIsUnproxied | service/controller/resource/clusterconfigmap/desired.go:160-162 | A Proxmox cluster with a proxy where both resources succeed: private, and without proxy values in its secret. |
| Agreement.ConfiguredDnsInServiceRange | service/controller/resource/clusterconfigmap/desired.go:72-86 | The DNS IP written for a cluster with its own service range lies in that range exactly for prefixes up to 28. |
| Agreement.SameServiceRange | service/controller/resource/clustersecret/desired.go:189-196 | For a proxied cluster with comma-free components, the entry after the optional service domain, in the no-proxy value of its secret split at commas, is the service range from which the DNS IP in its config map was computed. |
| Agreement.DnsInRangeBesideItIff | service/controller/resource/clusterconfigmap/desired.go:222-228 | The DNS IP lies in the installation's range that is written beside it if and only if that range has a prefix of at most 28 and contains the address of the cluster's own range, if it has one. |
| Agreement.AllButKubeConfigProduced | service/controller/resource/app/create.go:114-173 | Of all config maps and secrets that the desired Apps of a live cluster refer to, kubeconfig included, the operator produces every one but the cluster's kubeconfig secret. |
| Collector.Collect | service/collector/cluster.go:64-96 | There is an increasing list of exactly the positions of the clusters that are being deleted and have the operator's finalizer; for each one listing and one metric, in order, with its name and the number of Apps then in the store with `cluster=name` and without the operator's managed-by label. A failed listing is the last call and ends the list there. |
| Collector.PositionsCount | service/collector/cluster.go:76-93 | So there are as many metrics as such clusters. |
| Collector.GetNumberOfApps | service/collector/cluster.go:104-126 | The number of Apps in the store with that cluster label and without the operator's managed-by label, or an error exactly when the listing failed. |
| Collector.GaugeAgreesIff | service/collector/cluster.go:81-92 | Gauge and teardown count the same in every store if and only if the cluster's ID is its name. |
| Collector.ZeroGaugeLetsTeardownGo | service/controller/resource/app/delete.go:49-64 | For such a cluster the gauge of a store is zero if and only if a second listing of it lets the teardown go on to chart-operator. |

## Left out

- RemoveClusterApps, RemoveOperators, EnsureApps, EnsureApp and UpdateApp are parts of one function each in the source; they are separate methods here so that each part has its own contract.
- Label, annotation and spec keys that the operator knows are constructors, all others are one `Other...` constructor with the key; a spec is a flat map in which an absent field is an unset one.
- The clock: how often a wait probes again is a parameter of the pass, any number; a wait always probes at least once.
- Aliasing in `waitForAppDeletion`: the Get overwrites the desired App object, which is not used again; here it is a local value.
- Object kinds other than App in the API server, resource versions, UIDs, generations and admission webhooks.
- Requests that take effect after the client saw an error, and reads from a stale cache.
- Parsing of label selectors, which fails for cluster IDs that are not valid label values, and the type check of the reconciled object.
- Logging, error masking and metrics wrappers; the operator framework's own creation and deletion of config maps and secrets.
- Parsing of CIDR text: `net.ParseCIDR` is an arbitrary function to malformed, IPv6, or four octets and a prefix; the IPv4-mapped notation of IPv6 is not distinguished.
- YAML and the template of the containerd proxy section: the secret holds the values and the raw proxy settings.
- The look-ups of the vSphere proxy switch, the cloud-director settings, the fields of infrastructure objects and the CA secret: arbitrary results, errors included; a CA that does not exist yet is the empty string.
- The error branch of the pod CIDR look-up, which only fails on an object of the wrong type.
- ClusterResources.GetDesiredConfigMaps: does not carry the fields that the EKS, AKS, Kamaji and management-cluster switches set (client cache, bootstrap mode, CNI, Helm client), because each is settled by reading one branch.
- The notes annotations, and the constant entries of the config maps.
- The Prometheus channel is a sequence of metrics, and the listing of clusters an arbitrary result.
- Constructors, configuration checks, HTTP endpoints, Helm charts and generated code.
