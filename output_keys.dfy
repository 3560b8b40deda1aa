/**
 * The names of the outputs the provisioning engine is asked to expose.
 *
 * The Go constants `TerraformerOutputKey*` are defined in a file that is not
 * part of this model, so their strings are unknown. Each constant is a
 * constructor of `OutputKey`: the eight of them are pairwise distinct by
 * construction and nothing else is assumed about them.
 */
module OutputKeys {

  datatype OutputKey =
    | ResourceGroupName
    | VNetName
    | VNetResourceGroup
    | SubnetName
    | RouteTableName
    | SecurityGroupName
    | AvailabilitySetID
    | AvailabilitySetName

  /** The entry under `outputKeys` in the chart values that carries each constant. */
  function EntryName(k: OutputKey): string
  {
    match k
    case ResourceGroupName => "resourceGroupName"
    case VNetName => "vnetName"
    case VNetResourceGroup => "vnetResourceGroup"
    case SubnetName => "subnetName"
    case RouteTableName => "routeTableName"
    case SecurityGroupName => "securityGroupName"
    case AvailabilitySetID => "availabilitySetID"
    case AvailabilitySetName => "availabilitySetName"
  }

  /** The outputs every chart asks for, whatever the mode. */
  const BaseKeys: set<OutputKey> :=
    {ResourceGroupName, VNetName, SubnetName, RouteTableName, SecurityGroupName}

  /** The outputs that exist only for a cluster with an availability set. */
  const AvailabilitySetKeys: set<OutputKey> := {AvailabilitySetID, AvailabilitySetName}

  /** Distinct constants sit under distinct entries, so no entry hides another. */
  lemma EntryNameInjective(k1: OutputKey, k2: OutputKey)
    ensures EntryName(k1) == EntryName(k2) <==> k1 == k2
  {
  }
}
