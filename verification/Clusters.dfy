/** The Cluster CR, as far as the operator reads it. */
module Clusters {
  import opened Objects
  import opened Keys
  import opened Wrappers

  /** A list is `None` when the field is absent, which is not the same as an empty list. */
  datatype Network = Network(
    serviceDomain: string,
    services: Option<Option<seq<string>>>,
    pods: Option<Option<seq<string>>>)

  datatype Finalizer =
    | OperatorFinalizer  // operatorkit.giantswarm.io/cluster-apps-operator-cluster-controller
    | OtherFinalizer(finalizer: string)

  datatype Kind =
    | AzureCluster
    | AzureManagedCluster
    | AzureASOManagedCluster
    | AWSCluster
    | AWSManagedCluster
    | VCDCluster
    | VSphereCluster
    | GCPCluster
    | GCPManagedCluster
    | ProxmoxCluster
    | OtherKind(kind: string)

  datatype Cluster = Cluster(
    namespace: string,
    name: string,
    labels: Labels,
    finalizers: seq<Finalizer>,
    deleted: bool,
    network: Option<Network>,
    controlPlaneHost: string,
    infrastructureKind: Option<Kind>)

  function RefOf(cr: Cluster): Ref {
    Ref(cr.namespace, ClusterID(cr.labels))
  }
}
