/** pkg/utils/managed_cluster.go: the managed-cluster lookup on the hub,
    used only by the imported-cluster search. */
module ManagedClusters {
  import opened Errors
  import opened ApiTypes
  import opened Dynamic

  const ClusterGvr: Gvr := Gvr("cluster.open-cluster-management.io", "v1", "managedclusters")

  /** GetManagedCluster: a cluster-scoped get by name, then conversion. */
  function GetManagedCluster(hub: Client, conv: Converter, clusterName: string): (r: Result<ManagedCluster>)
    ensures IsNotFound(r) <==> IsNotFound(hub.get(ClusterGvr, "", clusterName))
    ensures hub.get(ClusterGvr, "", clusterName).Err? ==> r == Err(hub.get(ClusterGvr, "", clusterName).error)
    ensures r.Ok? <==> hub.get(ClusterGvr, "", clusterName).Ok? && conv.toCluster(hub.get(ClusterGvr, "", clusterName).value).Decoded?
    ensures r.Ok? ==> conv.toCluster(hub.get(ClusterGvr, "", clusterName).value) == Decoded(r.value)
  {
    DecodeLookup(hub.get(ClusterGvr, "", clusterName), conv.toCluster)
  }
}
