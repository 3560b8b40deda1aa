/**
 * The chart-value compiler, `ComputeTerraformerChartValues`: it turns the
 * infrastructure resource, the credentials, the infrastructure configuration
 * and the cluster into the variable tree of the provisioning engine.
 *
 * The two mode switches are resolved once, up front, into `VNetMode` and
 * `AvailabilityMode`; every section of the tree reads the resolved mode.
 */
module Compiler {
  import opened Wrappers
  import opened OutputKeys
  import opened ChartValues
  import opened Infrastructure

  /** Why a configuration cannot be compiled. */
  datatype CompileError =
    | VNetUndetermined
    | NoFaultDomainCount(region: string)
    | NoUpdateDomainCount(region: string)

  /** Whether the engine creates the virtual network or looks up an existing one. */
  datatype VNetMode =
    | NewVNet(cidr: string)
    | ExistingVNet(name: string, resourceGroup: string)

  /** Whether the cluster spreads over zones or over an availability set with these domain counts. */
  datatype AvailabilityMode =
    | Zoned
    | NonZoned(faultDomains: int, updateDomains: int)

  function ResolveVNet(vnet: VNet): Result<VNetMode, CompileError>
  {
    if vnet.cidr.Some? then Ok(NewVNet(vnet.cidr.value))
    else if vnet.name.Some? && vnet.resourceGroup.Some? then
      Ok(ExistingVNet(vnet.name.value, vnet.resourceGroup.value))
    else Err(VNetUndetermined)
  }

  function ResolveAvailability(zoned: bool, profile: CloudProfileConfig, region: string)
    : Result<AvailabilityMode, CompileError>
  {
    if zoned then Ok(Zoned)
    else
      match FindDomainCount(profile.countFaultDomains, region)
      case None => Err(NoFaultDomainCount(region))
      case Some(faults) =>
        match FindDomainCount(profile.countUpdateDomains, region)
        case None => Err(NoUpdateDomainCount(region))
        case Some(updates) => Ok(NonZoned(faults, updates))
  }

  function AzureSection(infra: Infrastructure, auth: ClientAuth, availability: AvailabilityMode): Value
  {
    var identity := map[
      "subscriptionID" := Str(auth.subscriptionID),
      "tenantID" := Str(auth.tenantID),
      "region" := Str(infra.region)];
    match availability
    case Zoned => Map(identity)
    case NonZoned(faults, updates) =>
      Map(identity["countFaultDomains" := Int(faults)]["countUpdateDomains" := Int(updates)])
  }

  function CreateSection(vnetMode: VNetMode, availability: AvailabilityMode): Value
  {
    Map(map[
      "resourceGroup" := Bool(true),
      "vnet" := Bool(vnetMode.NewVNet?),
      "availabilitySet" := Bool(availability.NonZoned?)])
  }

  function VNetSection(infra: Infrastructure, vnetMode: VNetMode): Value
  {
    match vnetMode
    case NewVNet(cidr) => Map(map["name" := Str(infra.namespace), "cidr" := Str(cidr)])
    case ExistingVNet(name, group) => Map(map["name" := Str(name), "resourceGroup" := Str(group)])
  }

  function ResourceGroupSection(infra: Infrastructure, networks: NetworkConfig, vnetMode: VNetMode): Value
  {
    Map(map[
      "name" := Str(infra.namespace),
      "vnet" := VNetSection(infra, vnetMode),
      "subnet" := Map(map["serviceEndpoints" := StrList(networks.serviceEndpoints)])])
  }

  function OutputKeysSection(vnetMode: VNetMode, availability: AvailabilityMode): Value
  {
    var base := map[
      EntryName(ResourceGroupName) := KeyRef(ResourceGroupName),
      EntryName(VNetName) := KeyRef(VNetName),
      EntryName(SubnetName) := KeyRef(SubnetName),
      EntryName(RouteTableName) := KeyRef(RouteTableName),
      EntryName(SecurityGroupName) := KeyRef(SecurityGroupName)];
    var withVNet :=
      if vnetMode.ExistingVNet? then base[EntryName(VNetResourceGroup) := KeyRef(VNetResourceGroup)]
      else base;
    if availability.NonZoned? then
      Map(withVNet[EntryName(AvailabilitySetID) := KeyRef(AvailabilitySetID)]
                  [EntryName(AvailabilitySetName) := KeyRef(AvailabilitySetName)])
    else Map(withVNet)
  }

  function ComputeTerraformerChartValues(
    infra: Infrastructure, auth: ClientAuth, config: InfrastructureConfig, cluster: Cluster)
    : Result<Value, CompileError>
  {
    var vnetMode :- ResolveVNet(config.networks.vnet);
    var availability :- ResolveAvailability(config.zoned, cluster.cloudProfileConfig, infra.region);
    Ok(ChartTree(infra, auth, config.networks, vnetMode, availability))
  }

  /** The whole variable tree once both modes are resolved. */
  function ChartTree(
    infra: Infrastructure, auth: ClientAuth, networks: NetworkConfig,
    vnetMode: VNetMode, availability: AvailabilityMode): Value
  {
    Map(map[
      "azure" := AzureSection(infra, auth, availability),
      "create" := CreateSection(vnetMode, availability),
      "resourceGroup" := ResourceGroupSection(infra, networks, vnetMode),
      "identity" := Map(map["enabled" := Bool(false)]),
      "clusterName" := Str(infra.namespace),
      "networks" := Map(map["worker" := Str(networks.workers)]),
      "outputKeys" := OutputKeysSection(vnetMode, availability)])
  }

  // ---------------------------------------------------------------------------
  // The tree of resolved modes, section by section
  // ---------------------------------------------------------------------------

  /** The entry names of the output-key catalog in each pair of modes. */
  lemma OutputKeysNames(vnetMode: VNetMode, availability: AvailabilityMode)
    ensures OutputKeysSection(vnetMode, availability).entries.Keys ==
      {"resourceGroupName", "vnetName", "subnetName", "routeTableName", "securityGroupName"}
      + (if vnetMode.ExistingVNet? then {"vnetResourceGroup"} else {})
      + (if availability.Zoned? then {} else {"availabilitySetID", "availabilitySetName"})
  {
  }

  /** The catalog entry of one output key: present, and holding that key, exactly when the modes call for it. */
  lemma OutputKeysEntry(vnetMode: VNetMode, availability: AvailabilityMode, k: OutputKey)
    ensures Child(OutputKeysSection(vnetMode, availability), EntryName(k)) ==
      if k in BaseKeys
         || (k == VNetResourceGroup && vnetMode.ExistingVNet?)
         || (k in AvailabilitySetKeys && availability.NonZoned?)
      then Some(KeyRef(k)) else None
  {
    match k
    case ResourceGroupName =>
    case VNetName =>
    case VNetResourceGroup =>
    case SubnetName =>
    case RouteTableName =>
    case SecurityGroupName =>
    case AvailabilitySetID =>
    case AvailabilitySetName =>
  }

  /** The seven sections of the tree. */
  lemma TreeSections(
    infra: Infrastructure, auth: ClientAuth, networks: NetworkConfig,
    vnetMode: VNetMode, availability: AvailabilityMode)
    ensures var v := ChartTree(infra, auth, networks, vnetMode, availability);
      && Child(v, "azure") == Some(AzureSection(infra, auth, availability))
      && Child(v, "create") == Some(CreateSection(vnetMode, availability))
      && Child(v, "resourceGroup") == Some(ResourceGroupSection(infra, networks, vnetMode))
      && Child(v, "identity") == Some(Map(map["enabled" := Bool(false)]))
      && Child(v, "clusterName") == Some(Str(infra.namespace))
      && Child(v, "networks") == Some(Map(map["worker" := Str(networks.workers)]))
      && Child(v, "outputKeys") == Some(OutputKeysSection(vnetMode, availability))
  {
  }

  /** The entry names of the tree, of `create` and of `resourceGroup`, in every mode. */
  lemma TreeShape(
    infra: Infrastructure, auth: ClientAuth, networks: NetworkConfig,
    vnetMode: VNetMode, availability: AvailabilityMode)
    ensures var v := ChartTree(infra, auth, networks, vnetMode, availability);
      && KeysAt(v, []) == Some({"azure", "create", "resourceGroup", "identity", "clusterName", "networks", "outputKeys"})
      && KeysAt(v, ["create"]) == Some({"resourceGroup", "vnet", "availabilitySet"})
      && KeysAt(v, ["resourceGroup"]) == Some({"name", "vnet", "subnet"})
  {
    var v := ChartTree(infra, auth, networks, vnetMode, availability);
    TreeSections(infra, auth, networks, vnetMode, availability);
    assert Get(v, []) == Some(v);
    assert v.entries.Keys == {"azure", "create", "resourceGroup", "identity", "clusterName", "networks", "outputKeys"};
    GetOne(v, "create");
    assert CreateSection(vnetMode, availability).entries.Keys == {"resourceGroup", "vnet", "availabilitySet"};
    GetOne(v, "resourceGroup");
    assert ResourceGroupSection(infra, networks, vnetMode).entries.Keys == {"name", "vnet", "subnet"};
  }

  /** The entries whose values are the same in every mode. */
  lemma TreeFixedFields(
    infra: Infrastructure, auth: ClientAuth, networks: NetworkConfig,
    vnetMode: VNetMode, availability: AvailabilityMode)
    ensures var v := ChartTree(infra, auth, networks, vnetMode, availability);
      && Get(v, ["create", "resourceGroup"]) == Some(Bool(true))
      && Get(v, ["identity"]) == Some(Map(map["enabled" := Bool(false)]))
      && Get(v, ["resourceGroup", "name"]) == Some(Str(infra.namespace))
      && Get(v, ["clusterName"]) == Some(Str(infra.namespace))
      && Get(v, ["networks"]) == Some(Map(map["worker" := Str(networks.workers)]))
      && Get(v, ["resourceGroup", "subnet"])
           == Some(Map(map["serviceEndpoints" := StrList(networks.serviceEndpoints)]))
  {
    var v := ChartTree(infra, auth, networks, vnetMode, availability);
    TreeSections(infra, auth, networks, vnetMode, availability);
    GetTwo(v, "create", "resourceGroup");
    GetOne(v, "identity");
    GetTwo(v, "resourceGroup", "name");
    GetOne(v, "clusterName");
    GetOne(v, "networks");
    GetTwo(v, "resourceGroup", "subnet");
  }

  /** The `azure` section: identifiers always, domain counts exactly when not zoned. */
  lemma TreeAzure(
    infra: Infrastructure, auth: ClientAuth, networks: NetworkConfig,
    vnetMode: VNetMode, availability: AvailabilityMode)
    ensures var v := ChartTree(infra, auth, networks, vnetMode, availability);
      && Get(v, ["azure", "subscriptionID"]) == Some(Str(auth.subscriptionID))
      && Get(v, ["azure", "tenantID"]) == Some(Str(auth.tenantID))
      && Get(v, ["azure", "region"]) == Some(Str(infra.region))
      && KeysAt(v, ["azure"]) ==
           Some({"subscriptionID", "tenantID", "region"}
                + (if availability.Zoned? then {} else {"countFaultDomains", "countUpdateDomains"}))
      && Get(v, ["azure", "countFaultDomains"])
           == (if availability.Zoned? then None else Some(Int(availability.faultDomains)))
      && Get(v, ["azure", "countUpdateDomains"])
           == (if availability.Zoned? then None else Some(Int(availability.updateDomains)))
  {
    var v := ChartTree(infra, auth, networks, vnetMode, availability);
    TreeSections(infra, auth, networks, vnetMode, availability);
    assert AzureSection(infra, auth, availability).entries.Keys ==
      {"subscriptionID", "tenantID", "region"}
      + (if availability.Zoned? then {} else {"countFaultDomains", "countUpdateDomains"});
    GetOne(v, "azure");
    GetTwo(v, "azure", "subscriptionID");
    GetTwo(v, "azure", "tenantID");
    GetTwo(v, "azure", "region");
    GetTwo(v, "azure", "countFaultDomains");
    GetTwo(v, "azure", "countUpdateDomains");
  }

  /** The availability-set switch: the create flag and the two output keys follow the mode. */
  lemma TreeAvailability(
    infra: Infrastructure, auth: ClientAuth, networks: NetworkConfig,
    vnetMode: VNetMode, availability: AvailabilityMode)
    ensures var v := ChartTree(infra, auth, networks, vnetMode, availability);
      && Get(v, ["create", "availabilitySet"]) == Some(Bool(availability.NonZoned?))
      && Get(v, ["outputKeys", "availabilitySetID"])
           == (if availability.Zoned? then None else Some(KeyRef(AvailabilitySetID)))
      && Get(v, ["outputKeys", "availabilitySetName"])
           == (if availability.Zoned? then None else Some(KeyRef(AvailabilitySetName)))
  {
    var v := ChartTree(infra, auth, networks, vnetMode, availability);
    TreeSections(infra, auth, networks, vnetMode, availability);
    GetTwo(v, "create", "availabilitySet");
    OutputKeysEntry(vnetMode, availability, AvailabilitySetID);
    OutputKeysEntry(vnetMode, availability, AvailabilitySetName);
    GetTwo(v, "outputKeys", "availabilitySetID");
    GetTwo(v, "outputKeys", "availabilitySetName");
  }

  /** The network switch: the create flag, the `vnet` sub-tree and the `vnetResourceGroup` output key. */
  lemma TreeVNet(
    infra: Infrastructure, auth: ClientAuth, networks: NetworkConfig,
    vnetMode: VNetMode, availability: AvailabilityMode)
    ensures var v := ChartTree(infra, auth, networks, vnetMode, availability);
      && Get(v, ["create", "vnet"]) == Some(Bool(vnetMode.NewVNet?))
      && Get(v, ["resourceGroup", "vnet"]) == Some(
           match vnetMode
           case NewVNet(cidr) => Map(map["name" := Str(infra.namespace), "cidr" := Str(cidr)])
           case ExistingVNet(name, group) => Map(map["name" := Str(name), "resourceGroup" := Str(group)]))
      && Get(v, ["outputKeys", "vnetResourceGroup"])
           == (if vnetMode.ExistingVNet? then Some(KeyRef(VNetResourceGroup)) else None)
  {
    var v := ChartTree(infra, auth, networks, vnetMode, availability);
    TreeSections(infra, auth, networks, vnetMode, availability);
    GetTwo(v, "create", "vnet");
    GetTwo(v, "resourceGroup", "vnet");
    OutputKeysEntry(vnetMode, availability, VNetResourceGroup);
    GetTwo(v, "outputKeys", "vnetResourceGroup");
  }

  /** The output-key catalog has no entries but the five base ones and those its modes call for. */
  lemma TreeOutputKeyNames(
    infra: Infrastructure, auth: ClientAuth, networks: NetworkConfig,
    vnetMode: VNetMode, availability: AvailabilityMode)
    ensures var v := ChartTree(infra, auth, networks, vnetMode, availability);
      KeysAt(v, ["outputKeys"]) == Some(
        {"resourceGroupName", "vnetName", "subnetName", "routeTableName", "securityGroupName"}
        + (if vnetMode.ExistingVNet? then {"vnetResourceGroup"} else {})
        + (if availability.Zoned? then {} else {"availabilitySetID", "availabilitySetName"}))
  {
    var v := ChartTree(infra, auth, networks, vnetMode, availability);
    TreeSections(infra, auth, networks, vnetMode, availability);
    GetOne(v, "outputKeys");
    OutputKeysNames(vnetMode, availability);
  }

  /** An entry of the output-key catalog exists exactly for the keys its modes call for. */
  lemma TreeOutputKey(
    infra: Infrastructure, auth: ClientAuth, networks: NetworkConfig,
    vnetMode: VNetMode, availability: AvailabilityMode, k: OutputKey)
    ensures var v := ChartTree(infra, auth, networks, vnetMode, availability);
      Get(v, ["outputKeys", EntryName(k)]) ==
        if k in BaseKeys
           || (k == VNetResourceGroup && vnetMode.ExistingVNet?)
           || (k in AvailabilitySetKeys && availability.NonZoned?)
        then Some(KeyRef(k)) else None
  {
    var v := ChartTree(infra, auth, networks, vnetMode, availability);
    TreeSections(infra, auth, networks, vnetMode, availability);
    GetTwo(v, "outputKeys", EntryName(k));
    OutputKeysEntry(vnetMode, availability, k);
  }

  // ---------------------------------------------------------------------------
  // Properties of the compiler
  // ---------------------------------------------------------------------------

  /** A successful compilation is the tree of the two resolved modes. */
  lemma Unfold(infra: Infrastructure, auth: ClientAuth, config: InfrastructureConfig, cluster: Cluster)
    ensures var r := ComputeTerraformerChartValues(infra, auth, config, cluster);
      var vnetMode := ResolveVNet(config.networks.vnet);
      var availability := ResolveAvailability(config.zoned, cluster.cloudProfileConfig, infra.region);
      && (r.Ok? <==> vnetMode.Ok? && availability.Ok?)
      && (r.Ok? ==> r.value == ChartTree(infra, auth, config.networks, vnetMode.value, availability.value))
  {
  }

  /** A descriptor with a CIDR, or with a name and a resource group, and a region the profile lists when not zoned, always compiles. */
  lemma CompileSucceeds(infra: Infrastructure, auth: ClientAuth, config: InfrastructureConfig, cluster: Cluster)
    requires config.networks.vnet.cidr.Some?
          || (config.networks.vnet.name.Some? && config.networks.vnet.resourceGroup.Some?)
    requires !config.zoned ==>
      (exists i :: 0 <= i < |cluster.cloudProfileConfig.countFaultDomains|
                     && cluster.cloudProfileConfig.countFaultDomains[i].region == infra.region)
      && (exists i :: 0 <= i < |cluster.cloudProfileConfig.countUpdateDomains|
                     && cluster.cloudProfileConfig.countUpdateDomains[i].region == infra.region)
    ensures ComputeTerraformerChartValues(infra, auth, config, cluster).Ok?
  {
  }

  /** The sections that do not depend on either mode. */
  lemma FixedFields(infra: Infrastructure, auth: ClientAuth, config: InfrastructureConfig, cluster: Cluster)
    requires ComputeTerraformerChartValues(infra, auth, config, cluster).Ok?
    ensures var v := ComputeTerraformerChartValues(infra, auth, config, cluster).value;
      && KeysAt(v, []) == Some({"azure", "create", "resourceGroup", "identity", "clusterName", "networks", "outputKeys"})
      && KeysAt(v, ["create"]) == Some({"resourceGroup", "vnet", "availabilitySet"})
      && KeysAt(v, ["resourceGroup"]) == Some({"name", "vnet", "subnet"})
      && Get(v, ["create", "resourceGroup"]) == Some(Bool(true))
      && Get(v, ["identity"]) == Some(Map(map["enabled" := Bool(false)]))
      && Get(v, ["resourceGroup", "name"]) == Some(Str(infra.namespace))
      && Get(v, ["clusterName"]) == Some(Str(infra.namespace))
      && Get(v, ["networks"]) == Some(Map(map["worker" := Str(config.networks.workers)]))
      && Get(v, ["resourceGroup", "subnet"])
           == Some(Map(map["serviceEndpoints" := StrList(config.networks.serviceEndpoints)]))
  {
    Unfold(infra, auth, config, cluster);
    var vnetMode := ResolveVNet(config.networks.vnet).value;
    var availability := ResolveAvailability(config.zoned, cluster.cloudProfileConfig, infra.region).value;
    TreeShape(infra, auth, config.networks, vnetMode, availability);
    TreeFixedFields(infra, auth, config.networks, vnetMode, availability);
  }

  /** The `azure` section carries the subscription, the tenant and the region, and the domain counts only when not zoned. */
  lemma AzureIdentity(infra: Infrastructure, auth: ClientAuth, config: InfrastructureConfig, cluster: Cluster)
    requires ComputeTerraformerChartValues(infra, auth, config, cluster).Ok?
    ensures var v := ComputeTerraformerChartValues(infra, auth, config, cluster).value;
      && Get(v, ["azure", "subscriptionID"]) == Some(Str(auth.subscriptionID))
      && Get(v, ["azure", "tenantID"]) == Some(Str(auth.tenantID))
      && Get(v, ["azure", "region"]) == Some(Str(infra.region))
      && KeysAt(v, ["azure"]) ==
           Some({"subscriptionID", "tenantID", "region"}
                + (if config.zoned then {} else {"countFaultDomains", "countUpdateDomains"}))
  {
    Unfold(infra, auth, config, cluster);
    TreeAzure(infra, auth, config.networks, ResolveVNet(config.networks.vnet).value,
      ResolveAvailability(config.zoned, cluster.cloudProfileConfig, infra.region).value);
  }

  /** The client ID and the client secret never reach the output: changing them changes nothing. */
  lemma SecretsNeverEmitted(
    infra: Infrastructure, auth1: ClientAuth, auth2: ClientAuth, config: InfrastructureConfig, cluster: Cluster)
    requires auth1.tenantID == auth2.tenantID && auth1.subscriptionID == auth2.subscriptionID
    ensures ComputeTerraformerChartValues(infra, auth1, config, cluster)
         == ComputeTerraformerChartValues(infra, auth2, config, cluster)
  {
  }

  /** Zoned: no domain counts, no availability set, no availability-set output keys. */
  lemma ZonedValues(infra: Infrastructure, auth: ClientAuth, config: InfrastructureConfig, cluster: Cluster)
    requires config.zoned
    requires ComputeTerraformerChartValues(infra, auth, config, cluster).Ok?
    ensures var v := ComputeTerraformerChartValues(infra, auth, config, cluster).value;
      && Get(v, ["azure", "countFaultDomains"]) == None
      && Get(v, ["azure", "countUpdateDomains"]) == None
      && Get(v, ["create", "availabilitySet"]) == Some(Bool(false))
      && Get(v, ["outputKeys", "availabilitySetID"]) == None
      && Get(v, ["outputKeys", "availabilitySetName"]) == None
  {
    Unfold(infra, auth, config, cluster);
    var vnetMode := ResolveVNet(config.networks.vnet).value;
    TreeAzure(infra, auth, config.networks, vnetMode, Zoned);
    TreeAvailability(infra, auth, config.networks, vnetMode, Zoned);
  }

  /** Not zoned: the region's domain counts, an availability set, and its two output keys. */
  lemma NonZonedValues(infra: Infrastructure, auth: ClientAuth, config: InfrastructureConfig, cluster: Cluster)
    requires !config.zoned
    requires FindDomainCount(cluster.cloudProfileConfig.countFaultDomains, infra.region).Some?
    requires FindDomainCount(cluster.cloudProfileConfig.countUpdateDomains, infra.region).Some?
    requires ComputeTerraformerChartValues(infra, auth, config, cluster).Ok?
    ensures var v := ComputeTerraformerChartValues(infra, auth, config, cluster).value;
      var profile := cluster.cloudProfileConfig;
      && Get(v, ["azure", "countFaultDomains"])
           == Some(Int(FindDomainCount(profile.countFaultDomains, infra.region).value))
      && Get(v, ["azure", "countUpdateDomains"])
           == Some(Int(FindDomainCount(profile.countUpdateDomains, infra.region).value))
      && Get(v, ["create", "availabilitySet"]) == Some(Bool(true))
      && Get(v, ["outputKeys", "availabilitySetID"]) == Some(KeyRef(AvailabilitySetID))
      && Get(v, ["outputKeys", "availabilitySetName"]) == Some(KeyRef(AvailabilitySetName))
  {
    Unfold(infra, auth, config, cluster);
    var vnetMode := ResolveVNet(config.networks.vnet).value;
    var availability := ResolveAvailability(config.zoned, cluster.cloudProfileConfig, infra.region).value;
    TreeAzure(infra, auth, config.networks, vnetMode, availability);
    TreeAvailability(infra, auth, config.networks, vnetMode, availability);
  }

  /** A descriptor with a CIDR: a new network named after the namespace, with that CIDR. */
  lemma NewVNetValues(infra: Infrastructure, auth: ClientAuth, config: InfrastructureConfig, cluster: Cluster)
    requires config.networks.vnet.cidr.Some?
    requires ComputeTerraformerChartValues(infra, auth, config, cluster).Ok?
    ensures var v := ComputeTerraformerChartValues(infra, auth, config, cluster).value;
      && Get(v, ["create", "vnet"]) == Some(Bool(true))
      && Get(v, ["resourceGroup", "vnet"])
           == Some(Map(map["name" := Str(infra.namespace), "cidr" := Str(config.networks.vnet.cidr.value)]))
      && Get(v, ["outputKeys", "vnetResourceGroup"]) == None
  {
    Unfold(infra, auth, config, cluster);
    TreeVNet(infra, auth, config.networks, NewVNet(config.networks.vnet.cidr.value),
      ResolveAvailability(config.zoned, cluster.cloudProfileConfig, infra.region).value);
  }

  /** A descriptor with a name and a resource group and no CIDR: the existing network is looked up, not created. */
  lemma ExistingVNetValues(infra: Infrastructure, auth: ClientAuth, config: InfrastructureConfig, cluster: Cluster)
    requires config.networks.vnet.cidr.None?
    requires config.networks.vnet.name.Some? && config.networks.vnet.resourceGroup.Some?
    requires ComputeTerraformerChartValues(infra, auth, config, cluster).Ok?
    ensures var v := ComputeTerraformerChartValues(infra, auth, config, cluster).value;
      var vnet := config.networks.vnet;
      && Get(v, ["create", "vnet"]) == Some(Bool(false))
      && Get(v, ["resourceGroup", "vnet"])
           == Some(Map(map["name" := Str(vnet.name.value), "resourceGroup" := Str(vnet.resourceGroup.value)]))
      && Get(v, ["outputKeys", "vnetResourceGroup"]) == Some(KeyRef(VNetResourceGroup))
  {
    Unfold(infra, auth, config, cluster);
    var vnet := config.networks.vnet;
    TreeVNet(infra, auth, config.networks, ExistingVNet(vnet.name.value, vnet.resourceGroup.value),
      ResolveAvailability(config.zoned, cluster.cloudProfileConfig, infra.region).value);
  }

  /** `create.vnet` is true exactly when the descriptor gives a CIDR. */
  lemma CreateVNetIffCidr(infra: Infrastructure, auth: ClientAuth, config: InfrastructureConfig, cluster: Cluster)
    requires ComputeTerraformerChartValues(infra, auth, config, cluster).Ok?
    ensures var v := ComputeTerraformerChartValues(infra, auth, config, cluster).value;
      Get(v, ["create", "vnet"]) == Some(Bool(config.networks.vnet.cidr.Some?))
  {
    Unfold(infra, auth, config, cluster);
    TreeVNet(infra, auth, config.networks, ResolveVNet(config.networks.vnet).value,
      ResolveAvailability(config.zoned, cluster.cloudProfileConfig, infra.region).value);
  }

  /**
   * The output-key catalog: the five base keys, `vnetResourceGroup` exactly for
   * an existing network, the two availability-set keys exactly when not zoned;
   * every entry holds its own constant, and there is no other entry.
   */
  lemma OutputKeyCatalog(infra: Infrastructure, auth: ClientAuth, config: InfrastructureConfig, cluster: Cluster)
    requires ComputeTerraformerChartValues(infra, auth, config, cluster).Ok?
    ensures var v := ComputeTerraformerChartValues(infra, auth, config, cluster).value;
      KeysAt(v, ["outputKeys"]) == Some(
        {"resourceGroupName", "vnetName", "subnetName", "routeTableName", "securityGroupName"}
        + (if config.networks.vnet.cidr.None? then {"vnetResourceGroup"} else {})
        + (if config.zoned then {} else {"availabilitySetID", "availabilitySetName"}))
    ensures var v := ComputeTerraformerChartValues(infra, auth, config, cluster).value;
      forall k: OutputKey ::
        Get(v, ["outputKeys", EntryName(k)]) ==
          if k in BaseKeys
             || (k == VNetResourceGroup && config.networks.vnet.cidr.None?)
             || (k in AvailabilitySetKeys && !config.zoned)
          then Some(KeyRef(k)) else None
  {
    Unfold(infra, auth, config, cluster);
    var vnetMode := ResolveVNet(config.networks.vnet).value;
    var availability := ResolveAvailability(config.zoned, cluster.cloudProfileConfig, infra.region).value;
    TreeOutputKeyNames(infra, auth, config.networks, vnetMode, availability);
    forall k: OutputKey
      ensures Get(ChartTree(infra, auth, config.networks, vnetMode, availability), ["outputKeys", EntryName(k)]) ==
          if k in BaseKeys
             || (k == VNetResourceGroup && config.networks.vnet.cidr.None?)
             || (k in AvailabilitySetKeys && !config.zoned)
          then Some(KeyRef(k)) else None
    {
      TreeOutputKey(infra, auth, config.networks, vnetMode, availability, k);
    }
  }
}
