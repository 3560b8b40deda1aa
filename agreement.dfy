/**
 * The contract between the two halves: the outputs the compiler asks the
 * engine for are the outputs the extractor turns into status.
 */
module Agreement {
  import opened Wrappers
  import opened OutputKeys
  import opened ChartValues
  import opened Infrastructure
  import opened Compiler
  import opened Status

  /** The state field that holds the output a key names; the state record has no field for `VNetResourceGroup`. */
  function StateOutput(state: TerraformState, k: OutputKey): Option<string>
  {
    match k
    case ResourceGroupName => Some(state.resourceGroupName)
    case VNetName => Some(state.vnetName)
    case VNetResourceGroup => None
    case SubnetName => Some(state.subnetName)
    case RouteTableName => Some(state.routeTableName)
    case SecurityGroupName => Some(state.securityGroupName)
    case AvailabilitySetID => Some(state.availabilitySetID)
    case AvailabilitySetName => Some(state.availabilitySetName)
  }

  /** Where the status shows the output a key names, if it shows it at all. */
  function StatusField(s: InfrastructureStatus, k: OutputKey): Option<string>
  {
    match k
    case ResourceGroupName => Some(s.resourceGroup.name)
    case VNetName => Some(s.networks.vnet.name)
    case VNetResourceGroup => None
    case SubnetName => if s.networks.subnets == [] then None else Some(s.networks.subnets[0].name)
    case RouteTableName => if s.routeTables == [] then None else Some(s.routeTables[0].name)
    case SecurityGroupName => if s.securityGroups == [] then None else Some(s.securityGroups[0].name)
    case AvailabilitySetID => if s.availabilitySets == [] then None else Some(s.availabilitySets[0].id)
    case AvailabilitySetName => if s.availabilitySets == [] then None else Some(s.availabilitySets[0].name)
  }

  /** The engine honoured the mode it was compiled for: it reports an availability set exactly when not zoned. */
  predicate StateMatchesMode(state: TerraformState, config: InfrastructureConfig)
  {
    (state.availabilitySetID != "") == !config.zoned
  }

  /**
   * For a state that honours the compiled mode, the status shows an output
   * exactly when the catalog asked for it, with the value the engine
   * reported, and its `Zoned` agrees with the configuration's.
   */
  lemma KeyAgreement(
    infra: Infrastructure, auth: ClientAuth, config: InfrastructureConfig, cluster: Cluster, state: TerraformState)
    requires ComputeTerraformerChartValues(infra, auth, config, cluster).Ok?
    requires StateMatchesMode(state, config)
    ensures var v := ComputeTerraformerChartValues(infra, auth, config, cluster).value;
      var s := StatusFromTerraformState(state, config);
      && (forall k: OutputKey :: k != VNetResourceGroup ==>
            (Get(v, ["outputKeys", EntryName(k)]).Some? <==> StatusField(s, k).Some?))
      && (forall k: OutputKey :: Get(v, ["outputKeys", EntryName(k)]).Some? && k != VNetResourceGroup ==>
            StatusField(s, k) == StateOutput(state, k))
      && s.zoned == config.zoned
  {
    OutputKeyCatalog(infra, auth, config, cluster);
    var v := ComputeTerraformerChartValues(infra, auth, config, cluster).value;
    CatalogAgreement(v, state, config);
  }

  /** The agreement for any tree whose catalog is the one the configuration calls for. */
  lemma CatalogAgreement(v: Value, state: TerraformState, config: InfrastructureConfig)
    requires StateMatchesMode(state, config)
    requires forall k: OutputKey ::
      Get(v, ["outputKeys", EntryName(k)]) ==
        if k in BaseKeys
           || (k == VNetResourceGroup && config.networks.vnet.cidr.None?)
           || (k in AvailabilitySetKeys && !config.zoned)
        then Some(KeyRef(k)) else None
    ensures var s := StatusFromTerraformState(state, config);
      && (forall k: OutputKey :: k != VNetResourceGroup ==>
            (Get(v, ["outputKeys", EntryName(k)]).Some? <==> StatusField(s, k).Some?))
      && (forall k: OutputKey :: Get(v, ["outputKeys", EntryName(k)]).Some? && k != VNetResourceGroup ==>
            StatusField(s, k) == StateOutput(state, k))
      && s.zoned == config.zoned
  {
    forall k: OutputKey {
      StatusFieldOf(state, config, k);
    }
  }

  /** The status shows every output the state record holds, but the availability set's only when there is one. */
  lemma StatusFieldOf(state: TerraformState, config: InfrastructureConfig, k: OutputKey)
    ensures StatusField(StatusFromTerraformState(state, config), k) ==
      if k in AvailabilitySetKeys && state.availabilitySetID == "" then None else StateOutput(state, k)
  {
  }
}
