# Azure infrastructure translation layer

A model of the two pure translation functions of the Azure provider
extension's infrastructure controller (package `pkg/internal/infrastructure`):

- `ComputeTerraformerChartValues` compiles the Infrastructure resource (its
  namespace, name and region), the client credentials, the provider's
  infrastructure configuration and the cluster's cloud-profile configuration
  into the variable tree of the Terraform chart. Two mode switches shape the
  tree: zoned vs. non-zoned (domain counts, `create.availabilitySet`, the
  availability-set output keys) and new vs. existing virtual network
  (`create.vnet`, the `resourceGroup.vnet` sub-tree, the `vnetResourceGroup`
  output key).
- `StatusFromTerraformState` turns the flat record of Terraform outputs into
  the typed `InfrastructureStatus`.

The implementation file of both functions is not part of this model; their
behaviour is taken from `pkg/internal/infrastructure/terraform_test.go`, which
compares whole outputs against literal structures.

Files and modules:

- `wrappers.dfy` (`Wrappers`): `Option` for Go pointer fields, `Result` for a
  compilation that fails.
- `output_keys.dfy` (`OutputKeys`): the eight `TerraformerOutputKey*` constants
  as the constructors of `OutputKey`, and the entry name each sits under in
  `outputKeys`.
- `chart_values.dfy` (`ChartValues`): the untyped tree `Value`
  (map / string / bool / int / string list / output-key constant) and `Get`,
  the lookup along a path of entry names, so that an absent key is `None`.
- `infrastructure.dfy` (`Infrastructure`): the decoded inputs and the lookup
  of a region's domain count in the cloud profile.
- `compiler.dfy` (`Compiler`): the compiler. The virtual-network descriptor and
  the zoned flag are resolved once into `VNetMode` and `AvailabilityMode`; the
  tree is built from these, section by section, and the properties are proved
  first about the tree of resolved modes and then about the compiler.
- `status.dfy` (`Status`): the status types and the extractor.
- `agreement.dfy` (`Agreement`): the contract between the two halves — the
  outputs the catalog asks for are exactly the ones the status shows.
- `scenarios.dfy` (`Scenarios`): the test fixtures and the five expected
  outputs, each proved equal to what the model computes.

Modelling decisions where the tests leave a choice:

- The status's `Zoned` is `AvailabilitySetID == ""`. Both status tests
  (terraform_test.go:309-336 and 338-369) pass a configuration with
  `Zoned: true`, and each expects `Zoned` to follow the availability-set ID:
  true without one, false with one. So the flag follows the state, not the
  configuration. The configuration parameter is kept and unused.
- A descriptor with a CIDR is a new network; the `cidr` emitted is the
  descriptor's CIDR (the tests make it equal to `Workers`, so they do not tell
  the two apart). Without a CIDR, a descriptor with a name and a resource
  group is an existing network. Any other descriptor is a `VNetUndetermined`
  error; this is a choice of the model, because no test covers such a
  descriptor.
- In non-zoned mode the domain counts are those of the first cloud-profile
  entry for the infrastructure's region; a region with no entry is an error,
  again a choice of the model that no test covers.
- The test infrastructure's namespace is `"foo"` and its name `"bar"`; the
  new network is named after the namespace, `"foo"`.
- Go lists become Dafny sequences, so no status list is ever nil: an absent
  availability set is the empty sequence.
- Calling either function twice on the same inputs gives the same value,
  since both are Dafny functions.

## Model

| member | source | states |
|---|---|---|
| `Infrastructure.FindDomainCount` | pkg/internal/infrastructure/terraform_test.go:49-54 | the count found is that of the first entry for the region; none is found exactly when no entry lists the region |
| `Compiler.CompileSucceeds` | pkg/internal/infrastructure/terraform_test.go:180-188 | a descriptor with a CIDR, or with a name and a resource group, compiles without error when zoned, or when the profile lists the region's fault and update domains |
| `Compiler.FixedFields` | pkg/internal/infrastructure/terraform_test.go:151-172 | in every mode: exactly the seven top-level sections; `create.resourceGroup` true; `identity` is `{enabled: false}`; `resourceGroup.name` and `clusterName` are the namespace; `networks` is `{worker: Workers}`; the subnet's service endpoints are the configured list unchanged |
| `Compiler.AzureIdentity` | pkg/internal/infrastructure/terraform_test.go:190-196 | the `azure` section holds the subscription ID, the tenant ID and the region, plus exactly the two domain-count keys when not zoned, and no other key |
| `Compiler.SecretsNeverEmitted` | pkg/internal/infrastructure/terraform_test.go:134-150 | the client ID and the client secret do not influence the output: two credentials that agree on tenant and subscription compile to the same result |
| `Compiler.ZonedValues` | pkg/internal/infrastructure/terraform_test.go:143-183 | zoned: no `countFaultDomains`/`countUpdateDomains`, `create.availabilitySet` false, no `availabilitySetID`/`availabilitySetName` output key |
| `Compiler.NonZonedValues` | pkg/internal/infrastructure/terraform_test.go:185-230 | not zoned, with the region listed for both kinds of domain: both domain counts are the cloud profile's counts for the infrastructure's region, `create.availabilitySet` true, both availability-set output keys present |
| `Compiler.NewVNetValues` | pkg/internal/infrastructure/terraform_test.go:151-179 | a descriptor with a CIDR: `create.vnet` true, `resourceGroup.vnet` is exactly `{name: namespace, cidr: the CIDR}`, no `vnetResourceGroup` output key |
| `Compiler.ExistingVNetValues` | pkg/internal/infrastructure/terraform_test.go:232-282 | a descriptor with a name and a resource group and no CIDR: `create.vnet` false, `resourceGroup.vnet` is exactly `{name, resourceGroup}` of the descriptor, the `vnetResourceGroup` output key present |
| `Compiler.CreateVNetIffCidr` | pkg/internal/infrastructure/terraform_test.go:249-253 | `create.vnet` is true if and only if the descriptor gives a CIDR |
| `Compiler.OutputKeyCatalog` | pkg/internal/infrastructure/terraform_test.go:271-278 | the output-key catalog holds an entry for a constant exactly when it is one of the five base keys, `vnetResourceGroup` for an existing network, or an availability-set key when not zoned; each entry holds its own constant; and the catalog has no entry beyond these |
| `OutputKeys.EntryNameInjective` | pkg/internal/infrastructure/terraform_test.go:219-227 | distinct output-key constants sit under distinct catalog entries |
| `Status.StatusFixedFields` | pkg/internal/infrastructure/terraform_test.go:311-333 | the status carries the type marker, the state's resource group, exactly one route table, one security group and one subnet, each for nodes and named from the state, and the state's network name |
| `Status.StatusWithoutAvailabilitySet` | pkg/internal/infrastructure/terraform_test.go:298-336 | an empty availability-set ID gives an empty availability-set list and `Zoned` true |
| `Status.StatusWithAvailabilitySet` | pkg/internal/infrastructure/terraform_test.go:338-368 | a non-empty availability-set ID gives exactly one availability set `{name, ID, nodes}` from the state and `Zoned` false |
| `Status.ZonedIffNoAvailabilitySet` | pkg/internal/infrastructure/terraform_test.go:334-367 | `Zoned` holds exactly when no availability set is listed, and exactly when the state has no availability-set ID |
| `Agreement.KeyAgreement` | pkg/internal/infrastructure/terraform_test.go:219-227 | for a state that honours the compiled mode, the status shows an output exactly when the catalog asked for it (apart from `vnetResourceGroup`), with the value the state reports, and the status's `Zoned` equals the configuration's |
| `Scenarios.ZonedClusterChartValues` | pkg/internal/infrastructure/terraform_test.go:143-183 | the test's zoned inputs compile to exactly the expected tree |
| `Scenarios.NonZonedClusterChartValues` | pkg/internal/infrastructure/terraform_test.go:185-230 | the test's non-zoned inputs compile to exactly the expected tree, with counts 1 and 2 |
| `Scenarios.ExistingVNetChartValues` | pkg/internal/infrastructure/terraform_test.go:232-282 | the test's existing-network inputs compile to exactly the expected tree |
| `Scenarios.ZonedClusterStatus` | pkg/internal/infrastructure/terraform_test.go:309-336 | the test's state without availability set gives exactly the expected status |
| `Scenarios.NonZonedClusterStatus` | pkg/internal/infrastructure/terraform_test.go:338-369 | the test's state with availability set gives exactly the expected status, `Zoned` false although the configuration says zoned |

## Left out

- `pkg/webhook/controlplane/ensurer.go` as a whole: its mutations delegate to webhook helpers, version comparison, the API client and a logger whose behaviour is not part of this model.
- JSON decoding of the cloud-profile configuration and of the provider configuration, and the versioned API types: the inputs are taken as already-decoded values, and a decoding error is not modelled.
- Decoding `TerraformState` from Terraform's outputs: the state record is an input.
- The strings of the `TerraformerOutputKey*` constants, of `StatusTypeMeta` and of `PurposeNodes` are not part of this model: they are opaque constructors, pairwise distinct.
- The error cases of the compiler are choices of the model, since every test expects no error (terraform_test.go:181, 188, 280): a descriptor without a CIDR that lacks a name or a resource group is `VNetUndetermined`, and a non-zoned region that the cloud profile does not list for fault or update domains is `NoFaultDomainCount` or `NoUpdateDomainCount`. `Compiler.ExistingVNetValues` and `Compiler.NonZonedValues` take the descriptor shape and the region lookups as premises, so no lemma states an error trigger.
- Compiler.NewVNetValues: states that the emitted `cidr` is the descriptor's CIDR; the tests expect `Workers` there (terraform_test.go:160, 206) but make the two strings equal (89-90, 98), so they do not tell the descriptor's CIDR from `Workers`.
- A descriptor with both a CIDR and a resource group is treated as a new network; the tests do not cover it.
- The status does not record the existing network's resource group, and the state record has no field for it, so `Agreement.KeyAgreement` leaves out the `vnetResourceGroup` output key.
- The pods and services CIDRs of the cluster never reach either output and are not modelled.
- The Ginkgo/Gomega harness, and the difference between a nil and an empty Go list.
- `Infrastructure.FindDomainCount`: counts are unbounded integers; Go's `int` width is not modelled, since the counts are small cloud-profile constants.
