/**
 * The deployment-plan builder, `getContractsDeploymentMulticallArgs`: walks
 * the contracts in order, classifies each by its `custom:deploy-type` tag and
 * appends that contract's factory calls to one plan, advancing the factory's
 * transaction counter in step so that logic-contract addresses can be predicted.
 */
module DeploymentPlan {
  import opened Wrappers
  import opened Artifacts
  import opened DeploymentConfig
  import opened MultiCall

  /** The deploy-type tag values. */
  const STATIC_DEPLOYMENT: string := "deployStatic"
  const UPGRADEABLE_DEPLOYMENT: string := "deployUpgradeable"
  const ONLY_PROXY: string := "onlyProxy"

  datatype DeployKind = StaticKind | UpgradeableKind | OnlyProxyKind | OtherKind

  /** The `switch` on the tag: any other value, `undefined` included, falls to `default`. */
  function Classify(deployType: Option<string>): (kind: DeployKind)
    ensures kind == StaticKind <==> deployType == Some(STATIC_DEPLOYMENT)
    ensures kind == UpgradeableKind <==> deployType == Some(UPGRADEABLE_DEPLOYMENT)
    ensures kind == OnlyProxyKind <==> deployType == Some(ONLY_PROXY)
    ensures kind == OtherKind <==> deployType !in {Some(STATIC_DEPLOYMENT), Some(UPGRADEABLE_DEPLOYMENT), Some(ONLY_PROXY)}
  {
    if deployType == Some(STATIC_DEPLOYMENT) then StaticKind
    else if deployType == Some(UPGRADEABLE_DEPLOYMENT) then UpgradeableKind
    else if deployType == Some(ONLY_PROXY) then OnlyProxyKind
    else OtherKind
  }

  /** The fixed inputs of one planning pass. */
  datatype Job = Job(env: Env, factory: Address, inputFolder: Option<string>, outputFolder: Option<string>)

  /** The immediate `deployProxy` task run for an `ONLY_PROXY` contract. */
  datatype ProxyRequest = ProxyRequest(factoryAddress: Address, salt: Salt)

  /**
   * The builder's running state: the plan so far (`multiCallArgsArray`), the
   * transaction counter, and the proxy-only deployments requested so far.
   */
  datatype Progress = Progress(calls: seq<Call>, txCount: nat, proxyRequests: seq<ProxyRequest>)

  /** The kind of a contract; a contract whose tag cannot be read is treated as `OtherKind`. */
  function KindOf(job: Job, fullName: string): DeployKind {
    match DeployType(fullName, job.env.artifacts)
    case Ok(deployType) => Classify(deployType)
    case Err(_) => OtherKind
  }

  /** How many calls a contract of a kind contributes. */
  function GroupSize(kind: DeployKind): nat {
    match kind
    case StaticKind => 2
    case UpgradeableKind => 3
    case _ => 0
  }

  /** How far a contract of a kind advances the transaction counter. */
  function NonceSlots(kind: DeployKind): nat {
    if kind == StaticKind || kind == UpgradeableKind then 2 else 0
  }

  /** The shape of one contract's calls, started when the counter stood at `txCount`. */
  predicate GroupShape(kind: DeployKind, group: seq<Call>, factory: Address, txCount: nat) {
    match kind
    case StaticKind =>
      |group| == 2 && group[0].DeployTemplate? && group[1].DeployStatic?
    case UpgradeableKind =>
      && |group| == 3 && group[0].DeployCreate? && group[1].DeployProxy? && group[2].UpgradeProxy?
      && group[1].salt == group[2].salt
      && group[2].logic == CreatedAt(factory, txCount)
    case _ => group == []
  }

  /** One iteration of the builder's loop, for the contract `fullName`. */
  function Step(job: Job, st: Progress, fullName: string): (r: Result<Progress, Error>)
    ensures r.Ok? ==> DeployType(fullName, job.env.artifacts).Ok?
    ensures r.Ok? ==>
      && |r.value.calls| == |st.calls| + GroupSize(KindOf(job, fullName))
      && r.value.calls[..|st.calls|] == st.calls
      && GroupShape(KindOf(job, fullName), r.value.calls[|st.calls|..], job.factory, st.txCount)
      && r.value.txCount == st.txCount + NonceSlots(KindOf(job, fullName))
    ensures r.Ok? && KindOf(job, fullName) != OnlyProxyKind ==> r.value.proxyRequests == st.proxyRequests
    ensures r.Ok? && KindOf(job, fullName) == OnlyProxyKind ==>
      && |r.value.proxyRequests| == |st.proxyRequests| + 1
      && r.value.proxyRequests[..|st.proxyRequests|] == st.proxyRequests
      && r.value.proxyRequests[|st.proxyRequests|].factoryAddress == job.factory
    ensures DeployType(fullName, job.env.artifacts).Ok? && KindOf(job, fullName) == OtherKind ==> r == Ok(st)
  {
    match DeployType(fullName, job.env.artifacts)
    case Err(e) => Err(e)
    case Ok(deployType) =>
      match Classify(deployType)
      case StaticKind =>
        (match DeployMetaArgs(fullName, job.factory, job.env, job.inputFolder, job.outputFolder)
         case Err(e) => Err(e)
         case Ok(deployArgs) =>
           match DeployStaticMultiCallArgs(deployArgs, job.env)
           case Err(e) => Err(e)
           case Ok(group) =>
             assert (st.calls + group)[|st.calls|..] == group;
             Ok(Progress(st.calls + group, st.txCount + 2, st.proxyRequests)))
      case UpgradeableKind =>
        // the output folder is passed where the input folder is expected, as the source does
        (match DeployMetaArgs(fullName, job.factory, job.env, job.outputFolder, None)
         case Err(e) => Err(e)
         case Ok(deployArgs) =>
           match DeployUpgradeableMultiCallArgs(deployArgs, job.env, job.factory, st.txCount)
           case Err(e) => Err(e)
           case Ok(group) =>
             assert (st.calls + group)[|st.calls|..] == group;
             Ok(Progress(st.calls + group, st.txCount + 2, st.proxyRequests)))
      case OnlyProxyKind =>
        (match ExtractName(fullName)
         case None => Err(NotQualified(fullName))
         case Some(name) =>
           match Bytes32Salt(name, job.env.artifacts)
           case Err(e) => Err(e)
           case Ok(salt) =>
             assert (st.calls)[|st.calls|..] == [];
             Ok(Progress(st.calls, st.txCount, st.proxyRequests + [ProxyRequest(job.factory, salt)])))
      case OtherKind =>
        assert (st.calls)[|st.calls|..] == [];
        Ok(st)
  }

  /**
   * A static contract's step: the build output the deploy-type lookup read is
   * there for the argument lookup, and the encoder's calls are appended.
   */
  lemma StaticStep(job: Job, st: Progress, fullName: string)
    requires DeployType(fullName, job.env.artifacts).Ok?
    requires Classify(DeployType(fullName, job.env.artifacts).value) == StaticKind
    ensures DeployMetaArgs(fullName, job.factory, job.env, job.inputFolder, job.outputFolder).Ok?
    ensures Step(job, st, fullName) ==
      match DeployStaticMultiCallArgs(DeployMetaArgs(fullName, job.factory, job.env, job.inputFolder, job.outputFolder).value, job.env)
      case Err(e) => Err(e)
      case Ok(group) => Ok(Progress(st.calls + group, st.txCount + 2, st.proxyRequests))
  {
  }

  /** An upgradeable contract's step, with the output folder in the input folder's place. */
  lemma UpgradeableStep(job: Job, st: Progress, fullName: string)
    requires DeployType(fullName, job.env.artifacts).Ok?
    requires Classify(DeployType(fullName, job.env.artifacts).value) == UpgradeableKind
    ensures DeployMetaArgs(fullName, job.factory, job.env, job.outputFolder, None).Ok?
    ensures Step(job, st, fullName) ==
      match DeployUpgradeableMultiCallArgs(DeployMetaArgs(fullName, job.factory, job.env, job.outputFolder, None).value, job.env, job.factory, st.txCount)
      case Err(e) => Err(e)
      case Ok(group) => Ok(Progress(st.calls + group, st.txCount + 2, st.proxyRequests))
  {
  }

  /** A proxy-only contract's step: the deploy-type lookup has already needed the name part. */
  lemma OnlyProxyStep(job: Job, st: Progress, fullName: string)
    requires DeployType(fullName, job.env.artifacts).Ok?
    requires Classify(DeployType(fullName, job.env.artifacts).value) == OnlyProxyKind
    ensures ExtractName(fullName).Some?
    ensures Step(job, st, fullName) ==
      match Bytes32Salt(ExtractName(fullName).value, job.env.artifacts)
      case Err(e) => Err(e)
      case Ok(salt) => Ok(Progress(st.calls, st.txCount, st.proxyRequests + [ProxyRequest(job.factory, salt)]))
  {
  }

  /** The builder's loop from state `st` over the remaining contracts; the first error aborts. */
  function PlanFrom(job: Job, st: Progress, contracts: seq<string>): (r: Result<Progress, Error>)
    ensures contracts == [] ==> r == Ok(st)
    ensures r.Ok? ==>
      && |st.calls| <= |r.value.calls| && r.value.calls[..|st.calls|] == st.calls
      && st.txCount <= r.value.txCount
      && |st.proxyRequests| <= |r.value.proxyRequests| && r.value.proxyRequests[..|st.proxyRequests|] == st.proxyRequests
    decreases |contracts|
  {
    if contracts == [] then Ok(st)
    else
      match Step(job, st, contracts[0])
      case Err(e) => Err(e)
      case Ok(next) => PlanFrom(job, next, contracts[1..])
  }

  /** A whole pass, starting with an empty plan and the counter at `txCount`. */
  function Plan(job: Job, txCount: nat, contracts: seq<string>): (r: Result<Progress, Error>)
    ensures contracts == [] ==> r == Ok(Progress([], txCount, []))
    ensures r.Ok? ==> txCount <= r.value.txCount
  {
    PlanFrom(job, Progress([], txCount, []), contracts)
  }

  /** The number of contracts of a kind. */
  function CountKind(job: Job, contracts: seq<string>, kind: DeployKind): nat {
    if contracts == [] then 0
    else (if KindOf(job, contracts[0]) == kind then 1 else 0) + CountKind(job, contracts[1..], kind)
  }

  /**
   * `getContractsDeploymentMulticallArgs`. Returns the plan together with the
   * final counter and the proxy-only deployments requested along the way.
   */
  method GetContractsDeploymentMulticallArgs(job: Job, contracts: seq<string>, txCount: nat) returns (r: Result<Progress, Error>)
    ensures r == Plan(job, txCount, contracts)
    ensures r.Ok? ==>
      && |r.value.calls| == 2 * CountKind(job, contracts, StaticKind) + 3 * CountKind(job, contracts, UpgradeableKind)
      && r.value.txCount == txCount + 2 * (CountKind(job, contracts, StaticKind) + CountKind(job, contracts, UpgradeableKind))
      && |r.value.proxyRequests| == CountKind(job, contracts, OnlyProxyKind)
  {
    var multiCallArgsArray: seq<Call> := [];
    var count := txCount;
    var proxyRequests: seq<ProxyRequest> := [];
    for i := 0 to |contracts|
      invariant PlanFrom(job, Progress(multiCallArgsArray, count, proxyRequests), contracts[i..]) == Plan(job, txCount, contracts)
    {
      var fullName := contracts[i];
      ghost var st := Progress(multiCallArgsArray, count, proxyRequests);
      assert contracts[i..][0] == fullName && contracts[i..][1..] == contracts[i + 1..];
      assert PlanFrom(job, st, contracts[i..]) ==
        match Step(job, st, fullName)
        case Err(e) => Err(e)
        case Ok(next) => PlanFrom(job, next, contracts[i + 1..]);
      var deployType := DeployType(fullName, job.env.artifacts);
      if deployType.Err? {
        assert Step(job, st, fullName) == Err(deployType.error);
        return Err(deployType.error);
      }
      match Classify(deployType.value) {
        case StaticKind =>
          var deployArgs := DeployMetaArgs(fullName, job.factory, job.env, job.inputFolder, job.outputFolder);
          StaticStep(job, st, fullName);
          var group := DeployStaticMultiCallArgs(deployArgs.value, job.env);
          if group.Err? {
            return Err(group.error);
          }
          var deployTemplate, deployStatic := group.value[0], group.value[1];
          assert group.value == [deployTemplate, deployStatic];
          multiCallArgsArray := multiCallArgsArray + [deployTemplate, deployStatic];
          count := count + 2;
          assert Progress(multiCallArgsArray, count, proxyRequests) == Progress(st.calls + group.value, st.txCount + 2, st.proxyRequests);
        case UpgradeableKind =>
          var deployArgs := DeployMetaArgs(fullName, job.factory, job.env, job.outputFolder, None);
          UpgradeableStep(job, st, fullName);
          var group := DeployUpgradeableMultiCallArgs(deployArgs.value, job.env, job.factory, count);
          if group.Err? {
            return Err(group.error);
          }
          var deployCreate, deployProxy, upgradeProxy := group.value[0], group.value[1], group.value[2];
          assert group.value == [deployCreate, deployProxy, upgradeProxy];
          multiCallArgsArray := multiCallArgsArray + [deployCreate, deployProxy, upgradeProxy];
          count := count + 2;
          assert Progress(multiCallArgsArray, count, proxyRequests) == Progress(st.calls + group.value, st.txCount + 2, st.proxyRequests);
        case OnlyProxyKind =>
          var name := ExtractName(fullName);
          OnlyProxyStep(job, st, fullName);
          var salt := Bytes32Salt(name.value, job.env.artifacts);
          if salt.Err? {
            return Err(salt.error);
          }
          proxyRequests := proxyRequests + [ProxyRequest(job.factory, salt.value)];
        case OtherKind =>
          assert Step(job, st, fullName) == Ok(st);
      }
    }
    r := Ok(Progress(multiCallArgsArray, count, proxyRequests));
    PlanFromCounts(job, Progress([], txCount, []), contracts);
  }

  /** What a pass adds to a state: the calls, counter steps and proxy requests of its contracts. */
  lemma {:induction false} PlanFromCounts(job: Job, st: Progress, contracts: seq<string>)
    requires PlanFrom(job, st, contracts).Ok?
    ensures var p := PlanFrom(job, st, contracts).value;
      && |p.calls| == |st.calls| + 2 * CountKind(job, contracts, StaticKind) + 3 * CountKind(job, contracts, UpgradeableKind)
      && p.calls[..|st.calls|] == st.calls
      && p.txCount == st.txCount + 2 * (CountKind(job, contracts, StaticKind) + CountKind(job, contracts, UpgradeableKind))
      && |p.proxyRequests| == |st.proxyRequests| + CountKind(job, contracts, OnlyProxyKind)
    decreases |contracts|
  {
    if contracts != [] {
      var next := Step(job, st, contracts[0]).value;
      PlanFromCounts(job, next, contracts[1..]);
      var p := PlanFrom(job, st, contracts).value;
      assert p == PlanFrom(job, next, contracts[1..]).value;
      assert p.calls[..|st.calls|] == p.calls[..|next.calls|][..|st.calls|];
    }
  }

  /** A pass succeeds only if the deploy type of every one of its contracts could be read. */
  lemma {:induction false} PlanReadsEveryDeployType(job: Job, st: Progress, contracts: seq<string>)
    requires PlanFrom(job, st, contracts).Ok?
    ensures forall i :: 0 <= i < |contracts| ==> DeployType(contracts[i], job.env.artifacts).Ok?
    decreases |contracts|
  {
    if contracts != [] {
      var next := Step(job, st, contracts[0]).value;
      PlanReadsEveryDeployType(job, next, contracts[1..]);
      forall i | 0 <= i < |contracts|
        ensures DeployType(contracts[i], job.env.artifacts).Ok?
      {
        if i > 0 {
          assert contracts[i] == contracts[1..][i - 1];
        }
      }
    }
  }

  /** Running a pass over `a + b` is running it over `a`, then over `b` from where `a` left off. */
  lemma {:induction false} PlanFromAppend(job: Job, st: Progress, a: seq<string>, b: seq<string>)
    ensures PlanFrom(job, st, a + b) ==
      match PlanFrom(job, st, a)
      case Err(e) => Err(e)
      case Ok(mid) => PlanFrom(job, mid, b)
    decreases |a|
  {
    if a == [] {
      assert a + b == b;
    } else {
      assert (a + b)[0] == a[0] && (a + b)[1..] == a[1..] + b;
      match Step(job, st, a[0])
      case Err(e) =>
      case Ok(next) => PlanFromAppend(job, next, a[1..], b);
    }
  }

  /**
   * In a successful pass, contract `i` is encoded once the plan of the contracts
   * before it is complete, with the counter at the initial count plus two for
   * every static or upgradeable contract before it; its calls follow theirs
   * in the final plan and have the shape its kind prescribes.
   */
  lemma ContractContribution(job: Job, txCount: nat, contracts: seq<string>, i: nat)
    requires Plan(job, txCount, contracts).Ok?
    requires i < |contracts|
    ensures Plan(job, txCount, contracts[..i]).Ok?
    ensures
      var before := Plan(job, txCount, contracts[..i]).value;
      && before.txCount == txCount + 2 * (CountKind(job, contracts[..i], StaticKind) + CountKind(job, contracts[..i], UpgradeableKind))
      && Step(job, before, contracts[i]).Ok?
      && var after := Step(job, before, contracts[i]).value;
      && after.calls <= Plan(job, txCount, contracts).value.calls
      && |after.calls| == |before.calls| + GroupSize(KindOf(job, contracts[i]))
      && GroupShape(KindOf(job, contracts[i]), after.calls[|before.calls|..], job.factory, before.txCount)
  {
    var init := Progress([], txCount, []);
    assert contracts == contracts[..i] + contracts[i..];
    PlanFromAppend(job, init, contracts[..i], contracts[i..]);
    var before := PlanFrom(job, init, contracts[..i]).value;
    PlanFromCounts(job, init, contracts[..i]);
    assert contracts[i..][0] == contracts[i] && contracts[i..][1..] == contracts[i + 1..];
    var after := Step(job, before, contracts[i]).value;
    assert PlanFrom(job, after, contracts[i + 1..]) == Plan(job, txCount, contracts);
    PlanFromCounts(job, after, contracts[i + 1..]);
  }

  /**
   * In a successful pass, once contract `i` is encoded the counter stands at the
   * initial count plus two for every static or upgradeable contract up to and
   * including it.
   */
  lemma ContractCounter(job: Job, txCount: nat, contracts: seq<string>, i: nat)
    requires Plan(job, txCount, contracts).Ok?
    requires i < |contracts|
    ensures Plan(job, txCount, contracts[..i + 1]).Ok?
    ensures Plan(job, txCount, contracts[..i + 1]).value.txCount
      == txCount + 2 * (CountKind(job, contracts[..i + 1], StaticKind) + CountKind(job, contracts[..i + 1], UpgradeableKind))
  {
    PlanPrefix(job, txCount, contracts, i + 1);
    PlanFromCounts(job, Progress([], txCount, []), contracts[..i + 1]);
  }

  /** In a successful pass, the plan of any prefix of the contracts is a prefix of the plan. */
  lemma PlanPrefix(job: Job, txCount: nat, contracts: seq<string>, i: nat)
    requires Plan(job, txCount, contracts).Ok?
    requires i <= |contracts|
    ensures Plan(job, txCount, contracts[..i]).Ok?
    ensures Plan(job, txCount, contracts[..i]).value.calls <= Plan(job, txCount, contracts).value.calls
  {
    var init := Progress([], txCount, []);
    assert contracts == contracts[..i] + contracts[i..];
    PlanFromAppend(job, init, contracts[..i], contracts[i..]);
    var before := PlanFrom(job, init, contracts[..i]).value;
    PlanFromCounts(job, before, contracts[i..]);
  }

  /**
   * The static group carries the constructor arguments read from the input
   * folder; the upgradeable group reads them from the output folder, because
   * the source passes `outputFolder` in the `inputFolder` position.
   */
  lemma ConstructorArgsFolder(job: Job, st: Progress, fullName: string)
    requires Step(job, st, fullName).Ok?
    requires KindOf(job, fullName) == StaticKind || KindOf(job, fullName) == UpgradeableKind
    requires ConstructorArgsDeclared(fullName, job.env.artifacts) == Ok(true)
    ensures var folder := if KindOf(job, fullName) == StaticKind then job.inputFolder else job.outputFolder;
      Step(job, st, fullName).value.calls[|st.calls|].bytecode
        == DeployTransaction(ExtractName(fullName).value, DeploymentConstructorArgs(job.env.config, fullName, folder))
  {
  }
}
