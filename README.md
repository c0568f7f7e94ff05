# furyctl: EKS pre-flight gate and configuration dispatch, in Dafny

This project models two pieces of sequential decision logic of furyctl, the
SIGHUP cluster-lifecycle tool.

**The pre-flight phase of EKS cluster creation** (`PreFlight`, `preflight.dfy`).
Before creating or updating a cluster, the phase prepares its working folder,
copies the Terraform templates, creates the folder structure and runs
`terraform init`. It then asks Terraform for `data.aws_eks_cluster.fury`. If
that probe fails, this is a first apply and the phase succeeds at once.
Otherwise the cluster must be reachable through `kubectl version`, and
`CheckStateDiffs` must pass. `CheckStateDiffs` loads the stored configuration
from the state store, decodes it and reads the new configuration file. It then
diffs the two and builds the EKS rules. Finally it collects the immutability
violations of the `infrastructure`, `kubernetes` and `distribution` categories
and fails when that list is non-empty.

Every external collaborator is a field of an `Environment` value holding an
abstract outcome: the phase folder, the templates, the Terraform and kubectl
runners, the state store, YAML decoding, the diff engine, the rules builder
and the violation checker. That value stands for the fields of the Go
`PreFlight` receiver. `Exec` and `CheckStateDiffs` are methods with the
source's early returns. Each also returns a ghost trace `calls` of the external
calls it makes, in order. They are proved against the
specification functions `ExecResult`/`ExecCalls` and
`CheckStateDiffsResult`/`CheckStateDiffsCalls`. An independent reference
semantics, `FailFast`, runs a fixed list of calls (`Plan`) and stops right
after the first one that halts. `ExecIsFailFast` proves that the phase is
exactly that run.

**Configuration loading** (`Configuration`, `configuration.dfy`). `Parse`
reads a configuration file and decodes it. It then dispatches on `kind`:
`Cluster` goes to the cluster parser, `Bootstrap` to the bootstrap parser, and
anything else is refused. The cluster parser accepts only the `aws-simple`
provisioner. The bootstrap parser accepts only `dummy` and `aws`. On success
the provisioner name is recorded and the untyped spec is replaced by the typed
one. The file system and the YAML library are abstract results in a `YamlIO`
value. The flat table `SupportedSpec` is the reference for the nested dispatch.

`results.dfy` holds the `Option`/`Result`/`Outcome` types. `yaml.dfy` holds the
decoded-YAML `Value` type.

## Model

| member | source | states |
|---|---|---|
| `PreFlight.FailFast` | internal/apis/kfd/v1alpha2/eks/create/preflight.go:92-132 | the calls made are a prefix of the planned calls; every call but the last did not halt; the run is complete or its last call halted |
| `PreFlight.FailFastUnique` | internal/apis/kfd/v1alpha2/eks/create/preflight.go:92-132 | those three properties determine the fail-fast run uniquely |
| `PreFlight.LoadCallsFailFast` | internal/apis/kfd/v1alpha2/eks/create/preflight.go:189-218 | CheckStateDiffs makes GetConfig, unmarshal, config-file read, GenerateDiff and rules-builder calls in that order and stops at the first failure |
| `PreFlight.FailFastSkips` | internal/apis/kfd/v1alpha2/eks/create/preflight.go:92-132 | a block of calls none of which halts runs completely and the run goes on with what follows |
| `PreFlight.FailFastStops` | internal/apis/kfd/v1alpha2/eks/create/preflight.go:92-132 | once a call of a block halts, nothing after that block runs |
| `PreFlight.LoadFailsIffHalts` | internal/apis/kfd/v1alpha2/eks/create/preflight.go:189-218 | loading the two configurations, diffing them and building the rules fails exactly when one of those five calls fails |
| `PreFlight.CheckStateDiffsIsFailFast` | internal/apis/kfd/v1alpha2/eks/create/preflight.go:186-229 | CheckStateDiffs' calls are the fail-fast run of its five loading calls followed by its three immutability checks |
| `PreFlight.SetupStopIsFailFast` | internal/apis/kfd/v1alpha2/eks/create/preflight.go:95-123 | when a setup step fails, the cluster probe finds no cluster or kubectl fails, Exec stops right after that call |
| `PreFlight.ExecIsFailFast` | internal/apis/kfd/v1alpha2/eks/create/preflight.go:95-127 | Exec's calls are exactly the fail-fast run of the fixed order CreateFolder, copyFromTemplate, CreateFolderStructure, Init, state show, Version, then CheckStateDiffs' calls; no call follows a failing one |
| `PreFlight.ExecFastPath` | internal/apis/kfd/v1alpha2/eks/create/preflight.go:111-117 | when the setup succeeds and `terraform state show data.aws_eks_cluster.fury` fails, Exec returns nil after five calls, with neither the reachability check nor any CheckStateDiffs call |
| `PreFlight.ExecUnreachable` | internal/apis/kfd/v1alpha2/eks/create/preflight.go:121-123 | when the cluster exists but `kubectl version` fails, Exec fails with the unreachable error and never calls CheckStateDiffs |
| `PreFlight.ExecSucceedsIff` | internal/apis/kfd/v1alpha2/eks/create/preflight.go:107-131 | Exec returns nil exactly when every setup step succeeds and either the cluster probe fails, or the cluster is reachable and CheckStateDiffs returns nil |
| `PreFlight.LoadFailureStopsChecks` | internal/apis/kfd/v1alpha2/eks/create/preflight.go:191-218 | a loading failure is CheckStateDiffs' result, and no immutability check is made |
| `PreFlight.ViolationsConcatenate` | internal/apis/kfd/v1alpha2/eks/create/preflight.go:220-222 | the aggregated list is the infrastructure, kubernetes and distribution lists concatenated in that order; its length is their sum and its multiset their union, so nothing is deduplicated |
| `PreFlight.CheckStateDiffsVerdict` | internal/apis/kfd/v1alpha2/eks/create/preflight.go:224-228 | once loading succeeds, CheckStateDiffs returns nil exactly when all three lists are empty, and otherwise returns the immutable-path error carrying the whole aggregated list |
| `PreFlight.SameDiffsForEveryCategory` | internal/apis/kfd/v1alpha2/eks/create/preflight.go:206-222 | the three checks are made in the order infrastructure, kubernetes, distribution; each gets the one diff unchanged and that category's immutable paths |
| `PreFlight.Exec` | internal/apis/kfd/v1alpha2/eks/create/preflight.go:92-132 | the returned error and the traced calls are those of ExecResult and ExecCalls, so every property proved of those holds for the method |
| `PreFlight.CheckStateDiffs` | internal/apis/kfd/v1alpha2/eks/create/preflight.go:186-229 | the returned error, built by appending the three category lists, and the traced calls are those of CheckStateDiffsResult and CheckStateDiffsCalls |
| `Configuration.ParserFor` | internal/configuration/config.go:60-76 | kind `Cluster` selects the cluster parser and `Bootstrap` the bootstrap parser; every other kind fails with "Parser not found for <kind> kind" |
| `Configuration.ClusterSpecType` | internal/configuration/config.go:87-101 | the cluster parser accepts exactly the string provisioner `aws-simple`; anything else fails with "Cluster provisioner not found" |
| `Configuration.BootstrapSpecType` | internal/configuration/config.go:112-136 | the bootstrap parser accepts exactly `dummy` (Dummy spec) and `aws` (AWS spec); anything else fails with "Bootstrap provisioner not found" |
| `Configuration.ClusterParser` | internal/configuration/config.go:79-102 | requires a mapping spec; a marshal error comes first, whatever the provisioner; success holds exactly for `aws-simple` with marshal and decode succeeding; success records the provisioner, types the spec as AWSSimple and changes nothing else |
| `Configuration.BootstrapParser` | internal/configuration/config.go:104-137 | requires a mapping spec; a marshal error comes first; success holds exactly for `dummy` or `aws` with marshal and decode succeeding; success records the provisioner, types the spec and changes nothing else |
| `Configuration.Parse` | internal/configuration/config.go:47-77 | a failed read or decode is an error; every error carries no configuration; a success is an accepted kind/provisioner pair, with the provisioner recorded and the spec typed as that pair says |
| `Configuration.ParseLoadErrorsFirst` | internal/configuration/config.go:48-58 | a read error, and then a decode error, is returned before any dispatch |
| `Configuration.ParseDispatch` | internal/configuration/config.go:60-76 | after decoding, `Cluster` gives the cluster parser's result, `Bootstrap` the bootstrap parser's, and any other kind "Parser not found" |
| `Configuration.ParseAcceptsExactlySupportedPairs` | internal/configuration/config.go:60-136 | when the YAML layer does not fail, Parse succeeds exactly on the pairs (Cluster, aws-simple), (Bootstrap, dummy) and (Bootstrap, aws), and types the spec as the pair says |
| `Configuration.ClusterRejectsBootstrapProvisioner` | internal/configuration/config.go:61-101 | a Cluster document whose provisioner is `aws` is refused with "Cluster provisioner not found": acceptance needs a matching pair |

## Left out

- `NewPreFlight` only builds runners and paths. It is not modelled: the receiver's fields are the `Environment` parameter of `Exec` and `CheckStateDiffs`.
- `copyFromTemplate` (temporary folders, embedded templates, rendering) is file I/O. It appears only as one abstract outcome, and its error is returned as it is.
- Terraform, kubectl, the state store, the file system and YAML (un)marshalling are foreign calls. Each is an abstract success or failure or an abstract result.
- The internals of the diff engine, `AssertImmutableViolations` and the EKS rules lookup are not part of this model. They are opaque function-typed fields; so path matching, symmetry of the diff and the permissive unknown category are not modelled.
- Logging, and the formatted text of wrapped errors, are not modelled. Each error keeps its cause and its sentinel (`errImmutable` becomes `ImmutablePathChanged`); only the fixed texts of the configuration errors are modelled, by `Message`.
- Configuration.ProvisionerOf: spec mappings are keyed by strings only, while the source's spec is a `map[interface{}]interface{}`. A non-string `provisioner` key is not modelled. YAML floats are not modelled either.
- Configuration.Parse: the type assertion on `Spec`, which panics when the spec is not a mapping, is the precondition `ParseCannotPanic`. A panic is not modelled as a result.
- cmd/bootstrap.go (CLI wiring, signal handling, global state, analytics) is not part of this model.
