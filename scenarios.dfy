/**
 * The fixtures of the repository's tests for the two functions, and the
 * whole outputs those tests expect, proved equal to what the model computes.
 */
module Scenarios {
  import opened Wrappers
  import opened OutputKeys
  import opened ChartValues
  import opened Infrastructure
  import opened Compiler
  import opened Status

  const TestInfra := Infrastructure("foo", "bar", "eu-west-1")
  const TestAuth := ClientAuth("tenant_id", "client_id", "client_secret", "subscription_id")
  const TestCIDR := "10.1.0.0/16"

  function TestConfig(vnet: VNet, zoned: bool): InfrastructureConfig
  {
    InfrastructureConfig(NetworkConfig(vnet, TestCIDR, ["Microsoft.Test"]), zoned)
  }

  const NewTestVNet := VNet(Some("vnet"), Some(TestCIDR), None)
  const ExistingTestVNet := VNet(Some("test"), None, Some("test-rg"))

  /** The cluster of the tests: one fault domain and two update domains in the infrastructure's region. */
  const TestCluster :=
    Cluster(CloudProfileConfig([DomainCount("eu-west-1", 1)], [DomainCount("eu-west-1", 2)]))

  /** The tree the zoned test expects. */
  lemma ZonedClusterChartValues()
    ensures ComputeTerraformerChartValues(TestInfra, TestAuth, TestConfig(NewTestVNet, true), TestCluster)
      == Ok(Map(map[
           "azure" := Map(map[
             "subscriptionID" := Str("subscription_id"),
             "tenantID" := Str("tenant_id"),
             "region" := Str("eu-west-1")]),
           "create" := Map(map[
             "resourceGroup" := Bool(true),
             "vnet" := Bool(true),
             "availabilitySet" := Bool(false)]),
           "resourceGroup" := Map(map[
             "name" := Str("foo"),
             "vnet" := Map(map["name" := Str("foo"), "cidr" := Str(TestCIDR)]),
             "subnet" := Map(map["serviceEndpoints" := StrList(["Microsoft.Test"])])]),
           "identity" := Map(map["enabled" := Bool(false)]),
           "clusterName" := Str("foo"),
           "networks" := Map(map["worker" := Str(TestCIDR)]),
           "outputKeys" := Map(map[
             "resourceGroupName" := KeyRef(ResourceGroupName),
             "vnetName" := KeyRef(VNetName),
             "subnetName" := KeyRef(SubnetName),
             "routeTableName" := KeyRef(RouteTableName),
             "securityGroupName" := KeyRef(SecurityGroupName)])]))
  {
  }

  /** The tree the non-zoned test expects: domain counts 1 and 2, an availability set and its two output keys. */
  lemma NonZonedClusterChartValues()
    ensures ComputeTerraformerChartValues(TestInfra, TestAuth, TestConfig(NewTestVNet, false), TestCluster)
      == Ok(Map(map[
           "azure" := Map(map[
             "subscriptionID" := Str("subscription_id"),
             "tenantID" := Str("tenant_id"),
             "region" := Str("eu-west-1"),
             "countUpdateDomains" := Int(2),
             "countFaultDomains" := Int(1)]),
           "create" := Map(map[
             "resourceGroup" := Bool(true),
             "vnet" := Bool(true),
             "availabilitySet" := Bool(true)]),
           "resourceGroup" := Map(map[
             "name" := Str("foo"),
             "vnet" := Map(map["name" := Str("foo"), "cidr" := Str(TestCIDR)]),
             "subnet" := Map(map["serviceEndpoints" := StrList(["Microsoft.Test"])])]),
           "identity" := Map(map["enabled" := Bool(false)]),
           "clusterName" := Str("foo"),
           "networks" := Map(map["worker" := Str(TestCIDR)]),
           "outputKeys" := Map(map[
             "resourceGroupName" := KeyRef(ResourceGroupName),
             "vnetName" := KeyRef(VNetName),
             "subnetName" := KeyRef(SubnetName),
             "routeTableName" := KeyRef(RouteTableName),
             "securityGroupName" := KeyRef(SecurityGroupName),
             "availabilitySetID" := KeyRef(AvailabilitySetID),
             "availabilitySetName" := KeyRef(AvailabilitySetName)])]))
  {
    assert FindDomainCount(TestCluster.cloudProfileConfig.countFaultDomains, "eu-west-1") == Some(1);
    assert FindDomainCount(TestCluster.cloudProfileConfig.countUpdateDomains, "eu-west-1") == Some(2);
    assert AzureSection(TestInfra, TestAuth, NonZoned(1, 2)) == Map(map[
      "subscriptionID" := Str("subscription_id"),
      "tenantID" := Str("tenant_id"),
      "region" := Str("eu-west-1"),
      "countUpdateDomains" := Int(2),
      "countFaultDomains" := Int(1)]);
    assert OutputKeysSection(NewVNet(TestCIDR), NonZoned(1, 2)) == Map(map[
      "resourceGroupName" := KeyRef(ResourceGroupName),
      "vnetName" := KeyRef(VNetName),
      "subnetName" := KeyRef(SubnetName),
      "routeTableName" := KeyRef(RouteTableName),
      "securityGroupName" := KeyRef(SecurityGroupName),
      "availabilitySetID" := KeyRef(AvailabilitySetID),
      "availabilitySetName" := KeyRef(AvailabilitySetName)]);
  }

  /** The tree the existing-network test expects: the descriptor's name and resource group, no CIDR. */
  lemma ExistingVNetChartValues()
    ensures ComputeTerraformerChartValues(TestInfra, TestAuth, TestConfig(ExistingTestVNet, true), TestCluster)
      == Ok(Map(map[
           "azure" := Map(map[
             "subscriptionID" := Str("subscription_id"),
             "tenantID" := Str("tenant_id"),
             "region" := Str("eu-west-1")]),
           "create" := Map(map[
             "resourceGroup" := Bool(true),
             "vnet" := Bool(false),
             "availabilitySet" := Bool(false)]),
           "resourceGroup" := Map(map[
             "name" := Str("foo"),
             "vnet" := Map(map["name" := Str("test"), "resourceGroup" := Str("test-rg")]),
             "subnet" := Map(map["serviceEndpoints" := StrList(["Microsoft.Test"])])]),
           "identity" := Map(map["enabled" := Bool(false)]),
           "clusterName" := Str("foo"),
           "networks" := Map(map["worker" := Str(TestCIDR)]),
           "outputKeys" := Map(map[
             "resourceGroupName" := KeyRef(ResourceGroupName),
             "vnetName" := KeyRef(VNetName),
             "vnetResourceGroup" := KeyRef(VNetResourceGroup),
             "subnetName" := KeyRef(SubnetName),
             "routeTableName" := KeyRef(RouteTableName),
             "securityGroupName" := KeyRef(SecurityGroupName)])]))
  {
    var vnetMode := ExistingVNet("test", "test-rg");
    assert ResolveVNet(ExistingTestVNet) == Ok(vnetMode);
    assert OutputKeysSection(vnetMode, Zoned) == Map(map[
      "resourceGroupName" := KeyRef(ResourceGroupName),
      "vnetName" := KeyRef(VNetName),
      "vnetResourceGroup" := KeyRef(VNetResourceGroup),
      "subnetName" := KeyRef(SubnetName),
      "routeTableName" := KeyRef(RouteTableName),
      "securityGroupName" := KeyRef(SecurityGroupName)]);
  }

  /** The state of the status tests, with the given availability-set fields. */
  function TestState(availabilitySetID: string, availabilitySetName: string): TerraformState
  {
    TerraformState("vnet_name", "subnet_name", "routTable_name",
      availabilitySetID, availabilitySetName, "sg_name", "rg_name")
  }

  /** The status the zoned test expects, although the configuration passed says zoned in both status tests. */
  lemma ZonedClusterStatus()
    ensures StatusFromTerraformState(TestState("", ""), TestConfig(NewTestVNet, true))
      == InfrastructureStatus(
           StatusTypeMeta,
           ResourceGroup("rg_name"),
           [RouteTable("routTable_name", PurposeNodes)],
           [SecurityGroup("sg_name", PurposeNodes)],
           [],
           NetworkStatus(VNetStatus("vnet_name"), [Subnet("subnet_name", PurposeNodes)]),
           true)
  {
  }

  /** The status the non-zoned test expects: one availability set and `Zoned` false, with a zoned configuration. */
  lemma NonZonedClusterStatus()
    ensures StatusFromTerraformState(TestState("as_id", "as_name"), TestConfig(NewTestVNet, true))
      == InfrastructureStatus(
           StatusTypeMeta,
           ResourceGroup("rg_name"),
           [RouteTable("routTable_name", PurposeNodes)],
           [SecurityGroup("sg_name", PurposeNodes)],
           [AvailabilitySet("as_name", "as_id", PurposeNodes)],
           NetworkStatus(VNetStatus("vnet_name"), [Subnet("subnet_name", PurposeNodes)]),
           false)
  {
  }
}
