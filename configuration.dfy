/** Loading of a provisioner configuration file: read it, decode it, then pick
    the typed spec from the document's kind and its spec's provisioner.

    Reading the file and every YAML (un)marshalling are abstract results held
    in a `YamlIO`; the model fixes the order of those steps, the dispatch on
    kind and provisioner, and what a successful parse records. */
module Configuration {
  import opened Results
  import opened Yaml

  type Bytes = seq<bv8>

  datatype StateConfiguration = StateConfiguration(backend: string, config: map<string, string>)
  datatype TerraformExecutor = TerraformExecutor(path: string, version: string, state: StateConfiguration)
  datatype Metadata = Metadata(name: string, labels: map<string, Value>)

  /** The typed specs a provisioner selects: the cluster `AWSSimple` spec and
      the bootstrap `Dummy` and `AWS` specs. */
  datatype SpecType = AwsSimple | Dummy | Aws

  /** The `Spec` field: the value as decoded from YAML, or the typed spec
      that replaces it once the provisioner is known. */
  datatype Spec = Untyped(raw: Value) | Typed(specType: SpecType, fields: Value)

  datatype Configuration = Configuration(
    kind: string,
    metadata: Metadata,
    spec: Spec,
    executor: TerraformExecutor,
    provisioner: string)

  datatype ParseError =
    | ReadFailed(cause: string)
    | UnmarshalFailed(cause: string)
    | ParserNotFound(kind: string)
    | MarshalSpecFailed(cause: string)
    | DecodeSpecFailed(cause: string)
    | ClusterProvisionerNotFound
    | BootstrapProvisionerNotFound

  /** The text of each error; errors from the YAML layer are returned as they are. */
  function Message(e: ParseError): string {
    match e
    case ReadFailed(cause) => cause
    case UnmarshalFailed(cause) => cause
    case ParserNotFound(kind) => "Parser not found for " + kind + " kind"
    case MarshalSpecFailed(cause) => cause
    case DecodeSpecFailed(cause) => cause
    case ClusterProvisionerNotFound => "Cluster provisioner not found"
    case BootstrapProvisionerNotFound => "Bootstrap provisioner not found"
  }

  /** The file system and the YAML library, as abstract results. */
  datatype YamlIO = YamlIO(
    readFile: string -> Result<Bytes, string>,
    unmarshal: Bytes -> Result<Configuration, string>,
    marshal: Value -> Result<Bytes, string>,
    decodeSpec: (SpecType, Bytes) -> Result<Value, string>)

  /** The spec is a YAML mapping, so the parsers' unchecked type assertion
      on it does not panic. */
  predicate HasMapSpec(config: Configuration) {
    config.spec.Untyped? && config.spec.raw.Mapping?
  }

  /** The spec's `provisioner` entry (`nil` when absent); `nil` as well for a
      spec that is not a mapping, where the source would have panicked. */
  function ProvisionerOf(config: Configuration): Value {
    if HasMapSpec(config) then Lookup(config.spec.raw.entries, "provisioner") else Null
  }

  datatype Parser = ClusterKind | BootstrapKind

  /** The dispatch on `kind` in Parse. */
  function ParserFor(kind: string): (r: Result<Parser, ParseError>)
    ensures r.Success? <==> kind == "Cluster" || kind == "Bootstrap"
    ensures r == Success(ClusterKind) <==> kind == "Cluster"
    ensures r == Success(BootstrapKind) <==> kind == "Bootstrap"
    ensures r.Failure? ==> r.error == ParserNotFound(kind) &&
                           Message(r.error) == "Parser not found for " + kind + " kind"
  {
    if kind == "Cluster" then Success(ClusterKind)
    else if kind == "Bootstrap" then Success(BootstrapKind)
    else Failure(ParserNotFound(kind))
  }

  /** The dispatch on the provisioner in clusterParser. */
  function ClusterSpecType(provisioner: Value): (r: Result<SpecType, ParseError>)
    ensures r.Success? <==> provisioner == Str("aws-simple")
    ensures r.Success? ==> r.value == AwsSimple
    ensures r.Failure? ==> r.error == ClusterProvisionerNotFound &&
                           Message(r.error) == "Cluster provisioner not found"
  {
    if provisioner == Str("aws-simple") then Success(AwsSimple)
    else Failure(ClusterProvisionerNotFound)
  }

  /** The dispatch on the provisioner in bootstrapParser. */
  function BootstrapSpecType(provisioner: Value): (r: Result<SpecType, ParseError>)
    ensures r.Success? <==> provisioner == Str("dummy") || provisioner == Str("aws")
    ensures r == Success(Dummy) <==> provisioner == Str("dummy")
    ensures r == Success(Aws) <==> provisioner == Str("aws")
    ensures r.Failure? ==> r.error == BootstrapProvisionerNotFound &&
                           Message(r.error) == "Bootstrap provisioner not found"
  {
    if provisioner == Str("dummy") then Success(Dummy)
    else if provisioner == Str("aws") then Success(Aws)
    else Failure(BootstrapProvisionerNotFound)
  }

  /** `updated` is `config` with the provisioner name recorded and the spec
      replaced by a typed spec of `specType`; nothing else differs. */
  predicate Records(config: Configuration, updated: Configuration, specType: SpecType) {
    ProvisionerOf(config).Str? &&
    updated.provisioner == ProvisionerOf(config).s &&
    updated.spec.Typed? && updated.spec.specType == specType &&
    updated.kind == config.kind && updated.metadata == config.metadata &&
    updated.executor == config.executor
  }

  /** Decode the marshalled spec into the selected typed spec and record the
      provisioner name: the accepting branch of both parsers. */
  function DecodeSpec(io: YamlIO, config: Configuration, specBytes: Bytes, t: SpecType): Result<Configuration, ParseError>
    requires ProvisionerOf(config).Str?
  {
    match io.decodeSpec(t, specBytes)
    case Failure(e) => Failure(DecodeSpecFailed(e))
    case Success(fields) =>
      Success(config.(provisioner := ProvisionerOf(config).s, spec := Typed(t, fields)))
  }

  /** clusterParser: only the `aws-simple` provisioner is accepted. */
  function ClusterParser(io: YamlIO, config: Configuration): (r: Result<Configuration, ParseError>)
    requires HasMapSpec(config)
    ensures io.marshal(config.spec.raw).Failure? ==>
      r == Failure(MarshalSpecFailed(io.marshal(config.spec.raw).error))
    ensures io.marshal(config.spec.raw).Success? && ProvisionerOf(config) != Str("aws-simple") ==>
      r == Failure(ClusterProvisionerNotFound)
    ensures r.Success? <==>
      ProvisionerOf(config) == Str("aws-simple") && io.marshal(config.spec.raw).Success? &&
      io.decodeSpec(AwsSimple, io.marshal(config.spec.raw).value).Success?
    ensures r.Success? ==>
      Records(config, r.value, AwsSimple) &&
      r.value.spec.fields == io.decodeSpec(AwsSimple, io.marshal(config.spec.raw).value).value
  {
    match io.marshal(config.spec.raw)
    case Failure(e) => Failure(MarshalSpecFailed(e))
    case Success(specBytes) =>
      match ClusterSpecType(ProvisionerOf(config))
      case Failure(e) => Failure(e)
      case Success(t) => DecodeSpec(io, config, specBytes, t)
  }

  /** bootstrapParser: only the `dummy` and `aws` provisioners are accepted. */
  function BootstrapParser(io: YamlIO, config: Configuration): (r: Result<Configuration, ParseError>)
    requires HasMapSpec(config)
    ensures io.marshal(config.spec.raw).Failure? ==>
      r == Failure(MarshalSpecFailed(io.marshal(config.spec.raw).error))
    ensures io.marshal(config.spec.raw).Success? &&
            ProvisionerOf(config) != Str("dummy") && ProvisionerOf(config) != Str("aws") ==>
      r == Failure(BootstrapProvisionerNotFound)
    ensures r.Success? <==>
      (ProvisionerOf(config) == Str("dummy") || ProvisionerOf(config) == Str("aws")) &&
      io.marshal(config.spec.raw).Success? &&
      io.decodeSpec(if ProvisionerOf(config) == Str("dummy") then Dummy else Aws,
                    io.marshal(config.spec.raw).value).Success?
    ensures r.Success? ==>
      var t := if ProvisionerOf(config) == Str("dummy") then Dummy else Aws;
      Records(config, r.value, t) &&
      r.value.spec.fields == io.decodeSpec(t, io.marshal(config.spec.raw).value).value
  {
    match io.marshal(config.spec.raw)
    case Failure(e) => Failure(MarshalSpecFailed(e))
    case Success(specBytes) =>
      match BootstrapSpecType(ProvisionerOf(config))
      case Failure(e) => Failure(e)
      case Success(t) => DecodeSpec(io, config, specBytes, t)
  }

  /** The configuration as read and decoded from `path`, before dispatch. */
  function Decoded(io: YamlIO, path: string): Option<Configuration> {
    match io.readFile(path)
    case Failure(_) => None
    case Success(content) =>
      match io.unmarshal(content)
      case Failure(_) => None
      case Success(config) => Some(config)
  }

  /** The parser that Parse selects will not panic on its type assertion. */
  predicate ParseCannotPanic(io: YamlIO, path: string) {
    Decoded(io, path).Some? ==>
      var config := Decoded(io, path).value;
      (config.kind == "Cluster" || config.kind == "Bootstrap") ==> HasMapSpec(config)
  }

  /** The accepted kind/provisioner pairs and the typed spec each selects. */
  function SupportedSpec(kind: string, provisioner: Value): Option<SpecType> {
    if kind == "Cluster" && provisioner == Str("aws-simple") then Some(AwsSimple)
    else if kind == "Bootstrap" && provisioner == Str("dummy") then Some(Dummy)
    else if kind == "Bootstrap" && provisioner == Str("aws") then Some(Aws)
    else None
  }

  /** Parse: read the file, decode it, dispatch on kind. Every failure
      carries no configuration; a success is the decoded configuration with
      the provisioner recorded and the spec typed by the accepted pair. */
  function Parse(io: YamlIO, path: string): (r: Result<Configuration, ParseError>)
    requires ParseCannotPanic(io, path)
    ensures Decoded(io, path).None? ==> r.Failure? && (r.error.ReadFailed? || r.error.UnmarshalFailed?)
    ensures r.Success? ==>
      var config := Decoded(io, path).value;
      var t := SupportedSpec(config.kind, ProvisionerOf(config));
      t.Some? && Records(config, r.value, t.value)
  {
    match io.readFile(path)
    case Failure(e) => Failure(ReadFailed(e))
    case Success(content) =>
      match io.unmarshal(content)
      case Failure(e) => Failure(UnmarshalFailed(e))
      case Success(config) =>
        match ParserFor(config.kind)
        case Failure(e) => Failure(e)
        case Success(ClusterKind) => ClusterParser(io, config)
        case Success(BootstrapKind) => BootstrapParser(io, config)
  }

  /** A read error, then a decode error, is returned before any dispatch. */
  lemma ParseLoadErrorsFirst(io: YamlIO, path: string)
    requires ParseCannotPanic(io, path)
    ensures io.readFile(path).Failure? ==>
      Parse(io, path) == Failure(ReadFailed(io.readFile(path).error))
    ensures io.readFile(path).Success? && io.unmarshal(io.readFile(path).value).Failure? ==>
      Parse(io, path) == Failure(UnmarshalFailed(io.unmarshal(io.readFile(path).value).error))
  {
  }

  /** Kind `Cluster` goes to clusterParser, `Bootstrap` to bootstrapParser,
      anything else is refused with "Parser not found for <kind> kind". */
  lemma ParseDispatch(io: YamlIO, path: string)
    requires ParseCannotPanic(io, path)
    requires Decoded(io, path).Some?
    ensures var config := Decoded(io, path).value;
      (config.kind == "Cluster" ==> Parse(io, path) == ClusterParser(io, config)) &&
      (config.kind == "Bootstrap" ==> Parse(io, path) == BootstrapParser(io, config)) &&
      (config.kind != "Cluster" && config.kind != "Bootstrap" ==>
        Parse(io, path) == Failure(ParserNotFound(config.kind)))
  {
  }

  /** When the YAML layer never fails, Parse accepts exactly the supported
      kind/provisioner pairs, and types the spec as the pair says. */
  lemma ParseAcceptsExactlySupportedPairs(io: YamlIO, path: string)
    requires ParseCannotPanic(io, path)
    requires Decoded(io, path).Some?
    requires forall v :: io.marshal(v).Success?
    requires forall t, b :: io.decodeSpec(t, b).Success?
    ensures var config := Decoded(io, path).value;
      var t := SupportedSpec(config.kind, ProvisionerOf(config));
      (Parse(io, path).Success? <==> t.Some?) &&
      (Parse(io, path).Success? ==> Records(config, Parse(io, path).value, t.value))
  {
    var config := Decoded(io, path).value;
    if config.kind == "Cluster" || config.kind == "Bootstrap" {
      assert io.marshal(config.spec.raw).Success?;
      var bytes := io.marshal(config.spec.raw).value;
      assert io.decodeSpec(AwsSimple, bytes).Success?;
      assert io.decodeSpec(Dummy, bytes).Success?;
      assert io.decodeSpec(Aws, bytes).Success?;
    }
  }

  /** A provisioner of the other kind is refused: a `Cluster` document whose
      provisioner is `aws` fails with "Cluster provisioner not found". */
  lemma ClusterRejectsBootstrapProvisioner(io: YamlIO, config: Configuration)
    requires HasMapSpec(config)
    requires config.kind == "Cluster" && ProvisionerOf(config) == Str("aws")
    requires io.marshal(config.spec.raw).Success?
    ensures ClusterParser(io, config) == Failure(ClusterProvisionerNotFound)
    ensures SupportedSpec(config.kind, ProvisionerOf(config)).None?
  {
  }
}
