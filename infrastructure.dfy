/**
 * The inputs of the chart-value compiler, already decoded from their JSON
 * and raw-extension forms: the infrastructure resource, the client
 * credentials, the provider-specific infrastructure configuration and the
 * cluster's cloud-profile configuration.
 */
module Infrastructure {
  import opened Wrappers

  /** The Infrastructure resource: its namespace and name, and its target region. */
  datatype Infrastructure = Infrastructure(namespace: string, name: string, region: string)

  /** The service-principal credentials of the cluster's cloud account. */
  datatype ClientAuth = ClientAuth(
    tenantID: string,
    clientID: string,
    clientSecret: string,
    subscriptionID: string)

  /**
   * The virtual-network descriptor. `{name, cidr}` asks for a new network,
   * `{name, resourceGroup}` reuses an existing one.
   */
  datatype VNet = VNet(name: Option<string>, cidr: Option<string>, resourceGroup: Option<string>)

  datatype NetworkConfig = NetworkConfig(vnet: VNet, workers: string, serviceEndpoints: seq<string>)

  datatype InfrastructureConfig = InfrastructureConfig(networks: NetworkConfig, zoned: bool)

  /** The number of fault or update domains available in one region. */
  datatype DomainCount = DomainCount(region: string, count: int)

  datatype CloudProfileConfig = CloudProfileConfig(
    countFaultDomains: seq<DomainCount>,
    countUpdateDomains: seq<DomainCount>)

  /** The part of the cluster the compiler reads: the cloud profile's provider configuration. */
  datatype Cluster = Cluster(cloudProfileConfig: CloudProfileConfig)

  /** The count of the first entry of `counts` listed for `region`, if there is one. */
  function FindDomainCount(counts: seq<DomainCount>, region: string): (r: Option<int>)
    ensures r.None? <==> forall i :: 0 <= i < |counts| ==> counts[i].region != region
    ensures r.Some? ==>
      exists i :: 0 <= i < |counts| && counts[i].region == region && counts[i].count == r.value
        && forall j :: 0 <= j < i ==> counts[j].region != region
  {
    if counts == [] then None
    else if counts[0].region == region then Some(counts[0].count)
    else
      var rest := FindDomainCount(counts[1..], region);
      assert forall i :: 1 <= i < |counts| ==> counts[i] == counts[1..][i - 1];
      rest
  }
}
