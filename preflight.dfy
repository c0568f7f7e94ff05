/** The pre-flight phase of EKS cluster creation: prepare the phase folder,
    initialise Terraform, and, when the cluster already exists, refuse any
    configuration change that touches an immutable path.

    Every external collaborator (folders, templates, the Terraform and kubectl
    runners, the state store, YAML loading, the diff engine and the rules
    builder) is an abstract outcome held in an `Environment`; the model fixes
    only the order in which they are called and what is done with their
    results. */
module PreFlight {
  import opened Results
  import opened Yaml

  /** One change between the stored and the new configuration. */
  datatype ChangeKind = Added | Removed | Changed
  datatype DiffRecord = DiffRecord(path: seq<string>, kind: ChangeKind, before: Option<Value>, after: Option<Value>)

  /** An immutable-path pattern, as the rules builder lists it. */
  type Pattern = string

  /** One reported immutability violation (a Go `error`). */
  datatype Violation = Violation(message: string)

  /** The rules builder: the immutable patterns declared for a category. */
  datatype Rules = Rules(getImmutables: string -> seq<Pattern>)

  /** The Terraform address whose presence means the cluster already exists. */
  const ClusterAddress := "data.aws_eks_cluster.fury"

  const Infrastructure := "infrastructure"
  const Kubernetes := "kubernetes"
  const Distribution := "distribution"

  /** What every external call returns, for one run of the phase. */
  datatype Environment = Environment(
    furyctlConfPath: string,
    distroPath: string,
    createFolder: Outcome<string>,
    copyFromTemplate: Outcome<string>,
    createFolderStructure: Outcome<string>,
    terraformInit: Outcome<string>,
    terraformStateShow: string -> Outcome<string>,
    kubectlVersion: Outcome<string>,
    getConfig: Result<string, string>,
    unmarshal: string -> Result<Tree, string>,
    fromFile: string -> Result<Tree, string>,
    generateDiff: (Tree, Tree) -> Result<seq<DiffRecord>, string>,
    newRulesBuilder: string -> Result<Rules, string>,
    assertImmutableViolations: (seq<DiffRecord>, seq<Pattern>) -> seq<Violation>)

  /** One external call, with the arguments it is made with. */
  datatype Call =
    | CreateFolder
    | CopyFromTemplate
    | CreateFolderStructure
    | TerraformInit
    | TerraformStateShow(address: string)
    | KubectlVersion
    | GetConfig
    | UnmarshalStoredConfig(text: string)
    | ReadConfigFile(path: string)
    | GenerateDiff(stored: Tree, incoming: Tree)
    | NewRulesBuilder(distroPath: string)
    | AssertImmutableViolations(category: string, diffs: seq<DiffRecord>, immutables: seq<Pattern>)

  datatype DiffsError =
    | GetConfigFailed(cause: string)
    | UnmarshalFailed(cause: string)
    | ReadConfigFailed(cause: string)
    | DiffFailed(cause: string)
    | RulesBuilderFailed(cause: string)
    | ImmutablePathChanged(violations: seq<Violation>)

  datatype ExecError =
    | CreateFolderFailed(cause: string)
    | CopyFromTemplateFailed(cause: string)
    | FolderStructureFailed(cause: string)
    | TerraformInitFailed(cause: string)
    | ClusterUnreachable(cause: string)
    | StateDiffsFailed(diffsError: DiffsError)

  /** True when `c` is the last call made: it failed, or (for the cluster
      probe) it found no cluster and the phase ends early. */
  predicate Halts(env: Environment, c: Call) {
    match c
    case CreateFolder => env.createFolder.Fail?
    case CopyFromTemplate => env.copyFromTemplate.Fail?
    case CreateFolderStructure => env.createFolderStructure.Fail?
    case TerraformInit => env.terraformInit.Fail?
    case TerraformStateShow(address) => env.terraformStateShow(address).Fail?
    case KubectlVersion => env.kubectlVersion.Fail?
    case GetConfig => env.getConfig.Failure?
    case UnmarshalStoredConfig(text) => env.unmarshal(text).Failure?
    case ReadConfigFile(path) => env.fromFile(path).Failure?
    case GenerateDiff(stored, incoming) => env.generateDiff(stored, incoming).Failure?
    case NewRulesBuilder(path) => env.newRulesBuilder(path).Failure?
    case AssertImmutableViolations(_, _, _) => false
  }

  /** `Halts` for one environment, as a predicate on calls. */
  function HaltsIn(env: Environment): Call -> bool {
    (c: Call) => Halts(env, c)
  }

  /** Reference semantics of a fail-fast sequence: run the steps in order and
      stop right after the first one that halts. */
  function FailFast<T>(halts: T -> bool, steps: seq<T>): (ran: seq<T>)
    ensures ran <= steps
    ensures forall i :: 0 <= i < |ran| - 1 ==> !halts(ran[i])
    ensures ran == steps || (ran != [] && halts(ran[|ran| - 1]))
  {
    if steps == [] then []
    else if halts(steps[0]) then [steps[0]]
    else [steps[0]] + FailFast(halts, steps[1..])
  }

  /** The three properties of FailFast determine its result. */
  lemma {:induction false} FailFastUnique<T>(halts: T -> bool, steps: seq<T>, ran: seq<T>)
    requires ran <= steps
    requires forall i :: 0 <= i < |ran| - 1 ==> !halts(ran[i])
    requires ran == steps || (ran != [] && halts(ran[|ran| - 1]))
    ensures ran == FailFast(halts, steps)
  {
    if steps != [] {
      assert ran != [] && ran[0] == steps[0];
      if halts(steps[0]) {
        assert ran == [steps[0]];
      } else {
        var rest := ran[1..];
        assert rest <= steps[1..];
        forall i | 0 <= i < |rest| - 1
          ensures !halts(rest[i])
        {
          assert rest[i] == ran[i + 1];
        }
        assert rest == steps[1..] || (rest != [] && halts(rest[|rest| - 1]));
        FailFastUnique(halts, steps[1..], rest);
        assert ran == [steps[0]] + rest;
      }
    }
  }

  /** No step of `steps` halts. */
  predicate NoneHalts<T>(halts: T -> bool, steps: seq<T>) {
    forall i :: 0 <= i < |steps| ==> !halts(steps[i])
  }

  /** When nothing in `xs` halts, a fail-fast run over `xs + ys` goes on into `ys`. */
  lemma FailFastSkips<T>(halts: T -> bool, xs: seq<T>, ys: seq<T>)
    requires NoneHalts(halts, xs)
    ensures FailFast(halts, xs + ys) == xs + FailFast(halts, ys)
  {
    var tail := FailFast(halts, ys);
    var ran := xs + tail;
    assert ran <= xs + ys by {
      assert ran == (xs + ys)[..|ran|];
    }
    forall i | 0 <= i < |ran| - 1
      ensures !halts(ran[i])
    {
      if i >= |xs| { assert ran[i] == tail[i - |xs|]; }
    }
    if tail == ys {
      assert ran == xs + ys;
    } else {
      assert ran[|ran| - 1] == tail[|tail| - 1];
    }
    FailFastUnique(halts, xs + ys, ran);
  }

  /** When something in `xs` halts, a fail-fast run over `xs + ys` never reaches `ys`. */
  lemma FailFastStops<T>(halts: T -> bool, xs: seq<T>, ys: seq<T>)
    requires !NoneHalts(halts, xs)
    ensures FailFast(halts, xs + ys) == FailFast(halts, xs)
  {
    var ran := FailFast(halts, xs);
    assert ran <= xs + ys by {
      assert ran == (xs + ys)[..|ran|];
    }
    var k :| 0 <= k < |xs| && halts(xs[k]);
    if ran == xs {
      assert k == |xs| - 1;
    }
    FailFastUnique(halts, xs + ys, ran);
  }

  /** A run in which nothing halts is complete. */
  lemma FailFastNoneHalts<T>(halts: T -> bool, steps: seq<T>)
    requires NoneHalts(halts, steps)
    ensures FailFast(halts, steps) == steps
  {
  }

  /** The calls up to and including the cluster-reachability check. */
  const SetupSteps: seq<Call> :=
    [CreateFolder, CopyFromTemplate, CreateFolderStructure, TerraformInit,
     TerraformStateShow(ClusterAddress), KubectlVersion]

  /** Rules that declare nothing (a placeholder argument, never reached). */
  const NoRules := Rules((category: string) => [])

  /** The three immutability checks, in the source's order, on one diff. */
  function AssertCalls(diffs: seq<DiffRecord>, rules: Rules): seq<Call> {
    [AssertImmutableViolations(Infrastructure, diffs, rules.getImmutables(Infrastructure)),
     AssertImmutableViolations(Kubernetes, diffs, rules.getImmutables(Kubernetes)),
     AssertImmutableViolations(Distribution, diffs, rules.getImmutables(Distribution))]
  }

  /** The text, trees, diff and rules that the loading calls produce, each
      as a placeholder when the call producing it fails; FailFast never
      reaches a call that takes a placeholder. */
  function PlannedText(env: Environment): string {
    env.getConfig.GetOr("")
  }

  function PlannedStored(env: Environment): Tree {
    env.unmarshal(PlannedText(env)).GetOr(map[])
  }

  function PlannedIncoming(env: Environment): Tree {
    env.fromFile(env.furyctlConfPath).GetOr(map[])
  }

  /** The five loading calls of CheckStateDiffs, in order. */
  function LoadPlan(env: Environment): seq<Call> {
    [GetConfig, UnmarshalStoredConfig(PlannedText(env)), ReadConfigFile(env.furyctlConfPath),
     GenerateDiff(PlannedStored(env), PlannedIncoming(env)), NewRulesBuilder(env.distroPath)]
  }

  /** The three immutability checks, on the planned diff and rules. */
  function AssertPlan(env: Environment): seq<Call> {
    AssertCalls(env.generateDiff(PlannedStored(env), PlannedIncoming(env)).GetOr([]),
                env.newRulesBuilder(env.distroPath).GetOr(NoRules))
  }

  /** The fourteen calls of the phase in their fixed order, as made when no
      call stops it. */
  function Plan(env: Environment): seq<Call> {
    SetupSteps + (LoadPlan(env) + AssertPlan(env))
  }

  /** What CheckStateDiffs holds once every loading step has succeeded. */
  datatype Loaded = Loaded(stored: Tree, incoming: Tree, diffs: seq<DiffRecord>, rules: Rules)

  /** The loading half of CheckStateDiffs: stored config, its decoding, the
      new config file, the diff and the rules builder, first failure wins. */
  function Load(env: Environment): Result<Loaded, DiffsError> {
    match env.getConfig
    case Failure(e) => Failure(GetConfigFailed(e))
    case Success(text) =>
      match env.unmarshal(text)
      case Failure(e) => Failure(UnmarshalFailed(e))
      case Success(stored) =>
        match env.fromFile(env.furyctlConfPath)
        case Failure(e) => Failure(ReadConfigFailed(e))
        case Success(incoming) =>
          match env.generateDiff(stored, incoming)
          case Failure(e) => Failure(DiffFailed(e))
          case Success(diffs) =>
            match env.newRulesBuilder(env.distroPath)
            case Failure(e) => Failure(RulesBuilderFailed(e))
            case Success(rules) => Success(Loaded(stored, incoming, diffs, rules))
  }

  /** The calls the loading half makes. */
  function LoadCalls(env: Environment): seq<Call> {
    [GetConfig] +
    match env.getConfig
    case Failure(_) => []
    case Success(text) =>
      [UnmarshalStoredConfig(text)] +
      match env.unmarshal(text)
      case Failure(_) => []
      case Success(stored) =>
        [ReadConfigFile(env.furyctlConfPath)] +
        match env.fromFile(env.furyctlConfPath)
        case Failure(_) => []
        case Success(incoming) =>
          [GenerateDiff(stored, incoming)] +
          match env.generateDiff(stored, incoming)
          case Failure(_) => []
          case Success(_) => [NewRulesBuilder(env.distroPath)]
  }

  /** The violations of one category. */
  function CategoryViolations(env: Environment, diffs: seq<DiffRecord>, rules: Rules, category: string): seq<Violation> {
    env.assertImmutableViolations(diffs, rules.getImmutables(category))
  }

  /** The aggregated violation list `errs`. */
  function Violations(env: Environment, diffs: seq<DiffRecord>, rules: Rules): seq<Violation> {
    CategoryViolations(env, diffs, rules, Infrastructure)
    + CategoryViolations(env, diffs, rules, Kubernetes)
    + CategoryViolations(env, diffs, rules, Distribution)
  }

  function CheckStateDiffsResult(env: Environment): Outcome<DiffsError> {
    match Load(env)
    case Failure(e) => Fail(e)
    case Success(l) =>
      var errs := Violations(env, l.diffs, l.rules);
      if |errs| > 0 then Fail(ImmutablePathChanged(errs)) else Pass
  }

  function CheckStateDiffsCalls(env: Environment): seq<Call> {
    LoadCalls(env) +
    match Load(env)
    case Failure(_) => []
    case Success(l) => AssertCalls(l.diffs, l.rules)
  }

  function ExecResult(env: Environment): Outcome<ExecError> {
    if env.createFolder.Fail? then Fail(CreateFolderFailed(env.createFolder.error))
    else if env.copyFromTemplate.Fail? then Fail(CopyFromTemplateFailed(env.copyFromTemplate.error))
    else if env.createFolderStructure.Fail? then Fail(FolderStructureFailed(env.createFolderStructure.error))
    else if env.terraformInit.Fail? then Fail(TerraformInitFailed(env.terraformInit.error))
    else if env.terraformStateShow(ClusterAddress).Fail? then Pass
    else if env.kubectlVersion.Fail? then Fail(ClusterUnreachable(env.kubectlVersion.error))
    else
      match CheckStateDiffsResult(env)
      case Fail(e) => Fail(StateDiffsFailed(e))
      case Pass => Pass
  }

  function ExecCalls(env: Environment): seq<Call> {
    if env.createFolder.Fail? then [CreateFolder]
    else if env.copyFromTemplate.Fail? then [CreateFolder, CopyFromTemplate]
    else if env.createFolderStructure.Fail? then [CreateFolder, CopyFromTemplate, CreateFolderStructure]
    else if env.terraformInit.Fail? then [CreateFolder, CopyFromTemplate, CreateFolderStructure, TerraformInit]
    else if env.terraformStateShow(ClusterAddress).Fail? then
      [CreateFolder, CopyFromTemplate, CreateFolderStructure, TerraformInit, TerraformStateShow(ClusterAddress)]
    else if env.kubectlVersion.Fail? then SetupSteps
    else SetupSteps + CheckStateDiffsCalls(env)
  }

  /** Every step of the setup half succeeded (the cluster probe excluded). */
  predicate SetupSucceeds(env: Environment) {
    env.createFolder.Pass? && env.copyFromTemplate.Pass? &&
    env.createFolderStructure.Pass? && env.terraformInit.Pass?
  }

  /** The loading half's calls are the fail-fast run of its five steps. */
  lemma LoadCallsFailFast(env: Environment)
    ensures LoadCalls(env) == FailFast(HaltsIn(env), LoadPlan(env))
  {
    var h := HaltsIn(env);
    var p := LoadPlan(env);
    var ran := LoadCalls(env);
    match env.getConfig
    case Failure(_) =>
      assert ran == p[..1];
      FailFastUnique(h, p, ran);
    case Success(text) =>
      match env.unmarshal(text)
      case Failure(_) =>
        assert ran == p[..2];
        FailFastUnique(h, p, ran);
      case Success(stored) =>
        match env.fromFile(env.furyctlConfPath)
        case Failure(_) =>
          assert ran == p[..3];
          FailFastUnique(h, p, ran);
        case Success(incoming) =>
          match env.generateDiff(stored, incoming)
          case Failure(_) =>
            assert ran == p[..4];
            FailFastUnique(h, p, ran);
          case Success(_) =>
            assert ran == p;
            FailFastUnique(h, p, ran);
  }

  /** Loading fails exactly when one of its five steps halts. */
  lemma LoadFailsIffHalts(env: Environment)
    ensures Load(env).Failure? <==> !NoneHalts(HaltsIn(env), LoadPlan(env))
  {
    var h := HaltsIn(env);
    var p := LoadPlan(env);
    if Load(env).Failure? {
      var k := if env.getConfig.Failure? then 0
        else if env.unmarshal(PlannedText(env)).Failure? then 1
        else if env.fromFile(env.furyctlConfPath).Failure? then 2
        else if env.generateDiff(PlannedStored(env), PlannedIncoming(env)).Failure? then 3
        else 4;
      assert h(p[k]);
    } else {
      forall i | 0 <= i < |p| ensures !h(p[i]) {
      }
    }
  }

  /** On a successful load, the planned immutability checks are the ones made. */
  lemma AssertPlanOnSuccess(env: Environment)
    requires Load(env).Success?
    ensures AssertPlan(env) == AssertCalls(Load(env).value.diffs, Load(env).value.rules)
  {
  }

  /** No setup step halts once the cluster is known to be reachable. */
  lemma SetupNoneHalts(env: Environment)
    requires SetupSucceeds(env) && env.terraformStateShow(ClusterAddress).Pass? && env.kubectlVersion.Pass?
    ensures NoneHalts(HaltsIn(env), SetupSteps)
  {
    forall i | 0 <= i < |SetupSteps| ensures !HaltsIn(env)(SetupSteps[i]) {
    }
  }

  /** When the phase stops within its setup steps, it is the fail-fast run. */
  lemma SetupStopIsFailFast(env: Environment)
    requires !SetupSucceeds(env) || env.terraformStateShow(ClusterAddress).Fail? || env.kubectlVersion.Fail?
    ensures ExecCalls(env) == FailFast(HaltsIn(env), Plan(env))
  {
    var k := if env.createFolder.Fail? then 1
      else if env.copyFromTemplate.Fail? then 2
      else if env.createFolderStructure.Fail? then 3
      else if env.terraformInit.Fail? then 4
      else if env.terraformStateShow(ClusterAddress).Fail? then 5
      else 6;
    assert ExecCalls(env) == SetupSteps[..k];
    assert Halts(env, SetupSteps[k - 1]);
    FailFastUnique(HaltsIn(env), SetupSteps, SetupSteps[..k]);
    assert !NoneHalts(HaltsIn(env), SetupSteps) by {
      assert HaltsIn(env)(SetupSteps[k - 1]);
    }
    FailFastStops(HaltsIn(env), SetupSteps, LoadPlan(env) + AssertPlan(env));
  }

  /** CheckStateDiffs' calls are the fail-fast run of its loading steps
      followed by its three immutability checks. */
  lemma CheckStateDiffsIsFailFast(env: Environment)
    ensures CheckStateDiffsCalls(env) == FailFast(HaltsIn(env), LoadPlan(env) + AssertPlan(env))
  {
    if Load(env).Failure? {
      LoadFailureIsFailFast(env);
    } else {
      LoadSuccessIsFailFast(env);
    }
  }

  /** A failed load stops CheckStateDiffs before any immutability check. */
  lemma LoadFailureIsFailFast(env: Environment)
    requires Load(env).Failure?
    ensures CheckStateDiffsCalls(env) == FailFast(HaltsIn(env), LoadPlan(env) + AssertPlan(env))
  {
    assert CheckStateDiffsCalls(env) == LoadCalls(env);
    LoadCallsFailFast(env);
    LoadFailsIffHalts(env);
    FailFastStops(HaltsIn(env), LoadPlan(env), AssertPlan(env));
  }

  /** After a successful load, the three immutability checks all run. */
  lemma LoadSuccessIsFailFast(env: Environment)
    requires Load(env).Success?
    ensures CheckStateDiffsCalls(env) == FailFast(HaltsIn(env), LoadPlan(env) + AssertPlan(env))
  {
    AssertPlanOnSuccess(env);
    assert CheckStateDiffsCalls(env) == LoadCalls(env) + AssertPlan(env);
    LoadCallsFailFast(env);
    LoadFailsIffHalts(env);
    FailFastSkips(HaltsIn(env), LoadPlan(env), AssertPlan(env));
    FailFastNoneHalts(HaltsIn(env), AssertPlan(env));
  }

  /** Once the cluster is known to be reachable, Exec's calls are the setup
      steps followed by CheckStateDiffs' calls, none of the former halting. */
  lemma CheckStageCalls(env: Environment)
    requires SetupSucceeds(env) && env.terraformStateShow(ClusterAddress).Pass? && env.kubectlVersion.Pass?
    ensures ExecCalls(env) == SetupSteps + CheckStateDiffsCalls(env)
    ensures NoneHalts(HaltsIn(env), SetupSteps)
  {
    SetupNoneHalts(env);
  }

  /** When the cluster is reachable, Exec's calls are the fail-fast run of Plan. */
  lemma CheckStageIsFailFast(env: Environment)
    requires SetupSucceeds(env) && env.terraformStateShow(ClusterAddress).Pass? && env.kubectlVersion.Pass?
    ensures ExecCalls(env) == FailFast(HaltsIn(env), Plan(env))
  {
    CheckStageCalls(env);
    CheckStateDiffsIsFailFast(env);
    FailFastSkips(HaltsIn(env), SetupSteps, LoadPlan(env) + AssertPlan(env));
  }

  /** Exec makes its calls in the fixed order of Plan, and the first call
      that fails (or finds no cluster) is the last one made. */
  lemma ExecIsFailFast(env: Environment)
    ensures ExecCalls(env) == FailFast(HaltsIn(env), Plan(env))
    ensures ExecCalls(env) <= Plan(env)
    ensures forall i :: 0 <= i < |ExecCalls(env)| - 1 ==> !Halts(env, ExecCalls(env)[i])
    ensures ExecCalls(env) == Plan(env) || Halts(env, ExecCalls(env)[|ExecCalls(env)| - 1])
  {
    if !SetupSucceeds(env) || env.terraformStateShow(ClusterAddress).Fail? || env.kubectlVersion.Fail? {
      SetupStopIsFailFast(env);
    } else {
      CheckStageIsFailFast(env);
    }
  }

  /** First apply: when the cluster probe fails, Exec succeeds without
      checking reachability or diffing anything. */
  lemma ExecFastPath(env: Environment)
    requires SetupSucceeds(env)
    requires env.terraformStateShow(ClusterAddress).Fail?
    ensures ExecResult(env) == Pass
    ensures ExecCalls(env) == SetupSteps[..5]
    ensures KubectlVersion !in ExecCalls(env) && GetConfig !in ExecCalls(env)
  {
  }

  /** An existing but unreachable cluster is fatal, and no diff is attempted. */
  lemma ExecUnreachable(env: Environment)
    requires SetupSucceeds(env)
    requires env.terraformStateShow(ClusterAddress).Pass?
    requires env.kubectlVersion.Fail?
    ensures ExecResult(env) == Fail(ClusterUnreachable(env.kubectlVersion.error))
    ensures GetConfig !in ExecCalls(env)
  {
  }

  /** Exec succeeds exactly on the fast path or when every step, the state
      diff check included, succeeds. */
  lemma ExecSucceedsIff(env: Environment)
    ensures ExecResult(env).Pass? <==>
      SetupSucceeds(env) &&
      (env.terraformStateShow(ClusterAddress).Fail? ||
       (env.kubectlVersion.Pass? && CheckStateDiffsResult(env).Pass?))
  {
  }

  /** A loading failure is returned before any immutability check runs. */
  lemma LoadFailureStopsChecks(env: Environment)
    requires Load(env).Failure?
    ensures CheckStateDiffsResult(env) == Fail(Load(env).error)
    ensures forall c :: c in CheckStateDiffsCalls(env) ==> !c.AssertImmutableViolations?
  {
  }

  /** The aggregated list is the three category lists concatenated in order:
      nothing dropped, nothing merged. */
  lemma ViolationsConcatenate(env: Environment, diffs: seq<DiffRecord>, rules: Rules)
    ensures var a, b, c := CategoryViolations(env, diffs, rules, Infrastructure),
                           CategoryViolations(env, diffs, rules, Kubernetes),
                           CategoryViolations(env, diffs, rules, Distribution);
      var errs := Violations(env, diffs, rules);
      |errs| == |a| + |b| + |c| &&
      errs[..|a|] == a && errs[|a|..|a| + |b|] == b && errs[|a| + |b|..] == c &&
      multiset(errs) == multiset(a) + multiset(b) + multiset(c)
  {
  }

  /** Once loading succeeds, CheckStateDiffs passes exactly when all three
      categories report no violation, and otherwise reports all of them. */
  lemma CheckStateDiffsVerdict(env: Environment)
    requires Load(env).Success?
    ensures var l := Load(env).value;
      CheckStateDiffsResult(env).Pass? <==>
        CategoryViolations(env, l.diffs, l.rules, Infrastructure) == [] &&
        CategoryViolations(env, l.diffs, l.rules, Kubernetes) == [] &&
        CategoryViolations(env, l.diffs, l.rules, Distribution) == []
    ensures var l := Load(env).value;
      CheckStateDiffsResult(env).Fail? ==>
        CheckStateDiffsResult(env) == Fail(ImmutablePathChanged(Violations(env, l.diffs, l.rules)))
  {
  }

  /** The one diff produced is handed unchanged to every immutability check,
      with that category's immutable paths, in the order infrastructure,
      kubernetes, distribution. */
  lemma SameDiffsForEveryCategory(env: Environment)
    requires Load(env).Success?
    ensures var l := Load(env).value;
      var asserts := CheckStateDiffsCalls(env)[|LoadCalls(env)|..];
      |asserts| == 3 &&
      asserts[0].category == Infrastructure && asserts[1].category == Kubernetes &&
      asserts[2].category == Distribution &&
      forall c :: c in asserts ==>
        c.AssertImmutableViolations? && c.diffs == l.diffs &&
        c.immutables == l.rules.getImmutables(c.category)
  {
  }

  /** The pre-flight phase. The phase object's collaborators are `env`;
      `calls` is the trace of the external calls made, in order. */
  method Exec(env: Environment) returns (err: Outcome<ExecError>, ghost calls: seq<Call>)
    ensures err == ExecResult(env)
    ensures calls == ExecCalls(env)
  {
    calls := [];
    calls := calls + [CreateFolder];
    if env.createFolder.Fail? {
      return Fail(CreateFolderFailed(env.createFolder.error)), calls;
    }
    calls := calls + [CopyFromTemplate];
    if env.copyFromTemplate.Fail? {
      return Fail(CopyFromTemplateFailed(env.copyFromTemplate.error)), calls;
    }
    calls := calls + [CreateFolderStructure];
    if env.createFolderStructure.Fail? {
      return Fail(FolderStructureFailed(env.createFolderStructure.error)), calls;
    }
    calls := calls + [TerraformInit];
    if env.terraformInit.Fail? {
      return Fail(TerraformInitFailed(env.terraformInit.error)), calls;
    }
    calls := calls + [TerraformStateShow(ClusterAddress)];
    if env.terraformStateShow(ClusterAddress).Fail? {
      return Pass, calls;
    }
    calls := calls + [KubectlVersion];
    if env.kubectlVersion.Fail? {
      return Fail(ClusterUnreachable(env.kubectlVersion.error)), calls;
    }
    var diffsErr, diffCalls := CheckStateDiffs(env);
    calls := calls + diffCalls;
    if diffsErr.Fail? {
      return Fail(StateDiffsFailed(diffsErr.error)), calls;
    }
    return Pass, calls;
  }

  /** Refuse an existing cluster's configuration change that touches an
      immutable path; `calls` is the trace of the external calls made. */
  method CheckStateDiffs(env: Environment) returns (err: Outcome<DiffsError>, ghost calls: seq<Call>)
    ensures err == CheckStateDiffsResult(env)
    ensures calls == CheckStateDiffsCalls(env)
  {
    calls := [];
    var errs: seq<Violation> := [];

    calls := calls + [GetConfig];
    var storedCfgStr := env.getConfig;
    if storedCfgStr.Failure? {
      return Fail(GetConfigFailed(storedCfgStr.error)), calls;
    }
    calls := calls + [UnmarshalStoredConfig(storedCfgStr.value)];
    var storedCfg := env.unmarshal(storedCfgStr.value);
    if storedCfg.Failure? {
      return Fail(UnmarshalFailed(storedCfg.error)), calls;
    }
    calls := calls + [ReadConfigFile(env.furyctlConfPath)];
    var newCfg := env.fromFile(env.furyctlConfPath);
    if newCfg.Failure? {
      return Fail(ReadConfigFailed(newCfg.error)), calls;
    }
    calls := calls + [GenerateDiff(storedCfg.value, newCfg.value)];
    var diffs := env.generateDiff(storedCfg.value, newCfg.value);
    if diffs.Failure? {
      return Fail(DiffFailed(diffs.error)), calls;
    }
    calls := calls + [NewRulesBuilder(env.distroPath)];
    var r := env.newRulesBuilder(env.distroPath);
    if r.Failure? {
      return Fail(RulesBuilderFailed(r.error)), calls;
    }

    calls := calls + AssertCalls(diffs.value, r.value)[..1];
    errs := errs + env.assertImmutableViolations(diffs.value, r.value.getImmutables(Infrastructure));
    calls := calls + AssertCalls(diffs.value, r.value)[1..2];
    errs := errs + env.assertImmutableViolations(diffs.value, r.value.getImmutables(Kubernetes));
    calls := calls + AssertCalls(diffs.value, r.value)[2..];
    errs := errs + env.assertImmutableViolations(diffs.value, r.value.getImmutables(Distribution));

    assert errs == Violations(env, diffs.value, r.value);
    if |errs| > 0 {
      return Fail(ImmutablePathChanged(errs)), calls;
    }
    return Pass, calls;
  }

}
