/**
 * The status extractor, `StatusFromTerraformState`: it turns the flat record
 * of the provisioning engine's outputs into the typed infrastructure status
 * stored on the Infrastructure resource.
 */
module Status {
  import opened Infrastructure

  /** The engine's outputs, already decoded. An empty string means "not produced". */
  datatype TerraformState = TerraformState(
    vnetName: string,
    subnetName: string,
    routeTableName: string,
    availabilitySetID: string,
    availabilitySetName: string,
    securityGroupName: string,
    resourceGroupName: string)

  /** The purpose of a resource. `PurposeNodes` is the one the extractor uses; its string is not part of this model. */
  datatype Purpose = PurposeNodes

  /** The type and version marker of the status; its strings are not part of this model. */
  datatype TypeMeta = StatusTypeMeta

  datatype ResourceGroup = ResourceGroup(name: string)
  datatype RouteTable = RouteTable(name: string, purpose: Purpose)
  datatype SecurityGroup = SecurityGroup(name: string, purpose: Purpose)
  datatype AvailabilitySet = AvailabilitySet(name: string, id: string, purpose: Purpose)
  datatype Subnet = Subnet(name: string, purpose: Purpose)
  datatype VNetStatus = VNetStatus(name: string)
  datatype NetworkStatus = NetworkStatus(vnet: VNetStatus, subnets: seq<Subnet>)

  /** The status; every list is a sequence, so none of them is ever nil. */
  datatype InfrastructureStatus = InfrastructureStatus(
    typeMeta: TypeMeta,
    resourceGroup: ResourceGroup,
    routeTables: seq<RouteTable>,
    securityGroups: seq<SecurityGroup>,
    availabilitySets: seq<AvailabilitySet>,
    networks: NetworkStatus,
    zoned: bool)

  /**
   * The availability sets follow the state, not the configuration: one set
   * when the engine reports an ID, none otherwise, and the cluster counts as
   * zoned exactly when there is none.
   */
  function StatusFromTerraformState(state: TerraformState, config: InfrastructureConfig): InfrastructureStatus
  {
    var hasAvailabilitySet := state.availabilitySetID != "";
    InfrastructureStatus(
      StatusTypeMeta,
      ResourceGroup(state.resourceGroupName),
      [RouteTable(state.routeTableName, PurposeNodes)],
      [SecurityGroup(state.securityGroupName, PurposeNodes)],
      if hasAvailabilitySet
        then [AvailabilitySet(state.availabilitySetName, state.availabilitySetID, PurposeNodes)]
        else [],
      NetworkStatus(VNetStatus(state.vnetName), [Subnet(state.subnetName, PurposeNodes)]),
      !hasAvailabilitySet)
  }

  /** The fields copied from the state in every case: one route table, one security group, one subnet, all for nodes. */
  lemma StatusFixedFields(state: TerraformState, config: InfrastructureConfig)
    ensures var s := StatusFromTerraformState(state, config);
      && s.typeMeta == StatusTypeMeta
      && s.resourceGroup.name == state.resourceGroupName
      && |s.routeTables| == 1 && s.routeTables[0].name == state.routeTableName
      && s.routeTables[0].purpose == PurposeNodes
      && |s.securityGroups| == 1 && s.securityGroups[0].name == state.securityGroupName
      && s.securityGroups[0].purpose == PurposeNodes
      && |s.networks.subnets| == 1 && s.networks.subnets[0].name == state.subnetName
      && s.networks.subnets[0].purpose == PurposeNodes
      && s.networks.vnet.name == state.vnetName
  {
  }

  /** Without an availability-set ID: no availability set, and the status is zoned. */
  lemma StatusWithoutAvailabilitySet(state: TerraformState, config: InfrastructureConfig)
    requires state.availabilitySetID == ""
    ensures var s := StatusFromTerraformState(state, config);
      s.availabilitySets == [] && s.zoned
  {
  }

  /** With an availability-set ID: exactly that one set, for nodes, and the status is not zoned. */
  lemma StatusWithAvailabilitySet(state: TerraformState, config: InfrastructureConfig)
    requires state.availabilitySetID != ""
    ensures var s := StatusFromTerraformState(state, config);
      && s.availabilitySets
           == [AvailabilitySet(state.availabilitySetName, state.availabilitySetID, PurposeNodes)]
      && !s.zoned
  {
  }

  /** `Zoned` is read from the state, not copied from the configuration: it holds exactly when no availability set is listed. */
  lemma ZonedIffNoAvailabilitySet(state: TerraformState, config: InfrastructureConfig)
    ensures var s := StatusFromTerraformState(state, config);
      && (s.zoned <==> s.availabilitySets == [])
      && (s.zoned <==> state.availabilitySetID == "")
  {
  }
}
