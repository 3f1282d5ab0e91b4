/**
 * The per-contract call encoders: which factory calls a contract needs, in
 * which order, carrying which salt, logic address and initializer call data.
 * ABI encoding (`encodeFunctionData`), address derivation
 * (`getContractAddress`), salt formatting (`formatBytes32String`) and
 * creation-bytecode assembly (`getDeployTransaction`) belong to libraries
 * outside the model; their results are kept as symbolic terms, one
 * constructor per library call, so equal terms mean equal arguments.
 */
module MultiCall {
  import opened Wrappers
  import opened Artifacts
  import opened DeploymentConfig
  import JsStrings

  /** An address: an account given from outside, or `getContractAddress({from, nonce})`. */
  datatype Address = Account(id: string) | CreatedAt(sender: Address, nonce: nat)

  /** `formatBytes32String` applied to the contract's `custom:salt` tag (possibly `undefined`). */
  datatype Salt = Bytes32(text: Option<string>)

  /** `getDeployTransaction(...constructorArgs).data` of the named contract. */
  datatype Bytecode = DeployTransaction(contractName: string, constructorArgs: seq<Arg>)

  /** Initializer call data: "0x", or `encodeFunctionData("initialize", args)`. */
  datatype InitCall = EmptyCallData | EncodedInitialize(args: seq<string>)

  /** One encoded factory call, `encodeFunctionData(<factory function>, [...])`. */
  datatype Call =
    | DeployTemplate(bytecode: Bytecode)
    | DeployStatic(salt: Salt, initData: InitCall)
    | DeployCreate(bytecode: Bytecode)
    | DeployProxy(salt: Salt)
    | UpgradeProxy(salt: Salt, logic: Address, initData: InitCall)

  /** The `DeployArgs` record handed to an encoder. */
  datatype DeployArgs = DeployArgs(
    contractName: string,
    factoryAddress: Address,
    initCallData: Option<string>,
    constructorArgs: Option<seq<Arg>>,
    outputFolder: Option<string>)

  /** The artifact store and the configuration files the encoders consult. */
  datatype Env = Env(artifacts: ArtifactStore, config: ConfigFiles)

  /**
   * `getDeployMetaArgs` (and `getDeployUpgradeableProxyArgs`, whose body is
   * identical): initializer call data only for initializable contracts,
   * constructor arguments only for contracts whose constructor takes inputs.
   */
  function DeployMetaArgs(fullName: string, factory: Address, env: Env, inputFolder: Option<string>, outputFolder: Option<string>): (r: Result<DeployArgs, Error>)
    ensures r.Ok? <==> Initializable(fullName, env.artifacts).Ok?
    ensures r.Ok? ==>
      && Some(r.value.contractName) == ExtractName(fullName)
      && r.value.factoryAddress == factory
      && r.value.outputFolder == outputFolder
    ensures r.Ok? ==>
      (r.value.initCallData.Some? <==>
        Initializable(fullName, env.artifacts).value && DeploymentInitializerArgs(env.config, fullName, inputFolder).Some?)
    ensures r.Ok? && r.value.initCallData.Some? ==>
      r.value.initCallData == EncodedInitCallData(DeploymentInitializerArgs(env.config, fullName, inputFolder))
    ensures r.Ok? ==>
      (r.value.constructorArgs.Some? <==> ConstructorArgsDeclared(fullName, env.artifacts).value)
    ensures r.Ok? && r.value.constructorArgs.Some? ==>
      r.value.constructorArgs.value == DeploymentConstructorArgs(env.config, fullName, inputFolder)
  {
    var initAble :- Initializable(fullName, env.artifacts);
    var initCallData := if initAble then EncodedInitCallData(DeploymentInitializerArgs(env.config, fullName, inputFolder)) else None;
    match ConstructorArgsDeclared(fullName, env.artifacts)
    case Err(e) => Err(e)
    case Ok(hasConArgs) =>
      var constructorArgs := if hasConArgs then Some(DeploymentConstructorArgs(env.config, fullName, inputFolder)) else None;
      match ExtractName(fullName)
      case None => Err(NotQualified(fullName))
      case Some(name) => Ok(DeployArgs(name, factory, initCallData, constructorArgs, outputFolder))
  }

  /** `getBytes32Salt`: the formatted `custom:salt` tag of the contract's fully-qualified name. */
  function Bytes32Salt(contractName: string, store: ArtifactStore): (r: Result<Salt, Error>)
    ensures r.Ok? <==> FullyQualifiedName(contractName, store).Ok? && SaltTag(FullyQualifiedName(contractName, store).value, store).Ok?
    ensures r.Ok? ==> r.value == Bytes32(SaltTag(FullyQualifiedName(contractName, store).value, store).value)
  {
    var fullName :- FullyQualifiedName(contractName, store);
    var salt :- SaltTag(fullName, store);
    Ok(Bytes32(salt))
  }

  /** The initializer call data of an encoder: "0x" unless the contract is initializable. */
  function InitCallFor(initializable: bool, initCallData: Option<string>): (r: InitCall)
    ensures r == EmptyCallData <==> !initializable
    ensures r.EncodedInitialize? ==> (r.args == [] <==> initCallData.None?)
    ensures r.EncodedInitialize? ==> forall k :: 0 <= k < |r.args| ==> ',' !in r.args[k] && JsStrings.WhitespaceFree(r.args[k])
  {
    if initializable then EncodedInitialize(InitArgs(initCallData)) else EmptyCallData
  }

  /** Whether the lookups both encoders make for a contract succeed. */
  predicate EncoderLookupsSucceed(contractName: string, store: ArtifactStore) {
    && FullyQualifiedName(contractName, store).Ok?
    && Initializable(FullyQualifiedName(contractName, store).value, store).Ok?
    && Bytes32Salt(contractName, store).Ok?
  }

  /** The init call data and the salt both encoders compute, in the order they compute them. */
  function InitCallAndSalt(d: DeployArgs, store: ArtifactStore): (r: Result<(InitCall, Salt), Error>)
    ensures r.Ok? <==> EncoderLookupsSucceed(d.contractName, store)
    ensures r.Ok? ==>
      && r.value.0 == InitCallFor(Initializable(FullyQualifiedName(d.contractName, store).value, store).value, d.initCallData)
      && r.value.1 == Bytes32Salt(d.contractName, store).value
  {
    var initArgs := InitArgs(d.initCallData);
    var fullName :- FullyQualifiedName(d.contractName, store);
    var isInitable :- Initializable(fullName, store);
    var initCallData := if isInitable then EncodedInitialize(initArgs) else EmptyCallData;
    var salt :- Bytes32Salt(d.contractName, store);
    Ok((initCallData, salt))
  }

  /**
   * `getDeployStaticMultiCallArgs`: deploy the template from the creation
   * bytecode, then deploy the static instance with the salt and init data.
   */
  function DeployStaticMultiCallArgs(d: DeployArgs, env: Env): (r: Result<seq<Call>, Error>)
    ensures r.Ok? <==> EncoderLookupsSucceed(d.contractName, env.artifacts)
    ensures r.Ok? ==>
      var fullName := FullyQualifiedName(d.contractName, env.artifacts).value;
      && |r.value| == 2
      && r.value[0] == DeployTemplate(DeployTransaction(d.contractName, d.constructorArgs.GetOr([])))
      && r.value[1] == DeployStatic(Bytes32Salt(d.contractName, env.artifacts).value,
                                    InitCallFor(Initializable(fullName, env.artifacts).value, d.initCallData))
  {
    var constructorArgs := d.constructorArgs.GetOr([]);
    var deployTxReq := DeployTransaction(d.contractName, constructorArgs);
    var initAndSalt :- InitCallAndSalt(d, env.artifacts);
    var (initCallData, salt) := initAndSalt;
    Ok([DeployTemplate(deployTxReq), DeployStatic(salt, initCallData)])
  }

  /**
   * `getDeployUpgradeableMultiCallArgs`: create the logic contract, deploy the
   * proxy under the salt, then point the proxy at the logic contract's
   * predicted address `getContractAddress(factory, txCount)`.
   */
  function DeployUpgradeableMultiCallArgs(d: DeployArgs, env: Env, factory: Address, txCount: nat): (r: Result<seq<Call>, Error>)
    ensures r.Ok? <==> EncoderLookupsSucceed(d.contractName, env.artifacts)
    ensures r.Ok? ==>
      var fullName := FullyQualifiedName(d.contractName, env.artifacts).value;
      var salt := Bytes32Salt(d.contractName, env.artifacts).value;
      && |r.value| == 3
      && r.value[0] == DeployCreate(DeployTransaction(d.contractName, d.constructorArgs.GetOr([])))
      && r.value[1] == DeployProxy(salt)
      && r.value[2] == UpgradeProxy(salt, CreatedAt(factory, txCount),
                                    InitCallFor(Initializable(fullName, env.artifacts).value, d.initCallData))
  {
    var initAndSalt :- InitCallAndSalt(d, env.artifacts);
    var (initCallData, salt) := initAndSalt;
    var constructorArgs := d.constructorArgs.GetOr([]);
    var deployTx := DeployTransaction(d.contractName, constructorArgs);
    var logicAddress := CreatedAt(factory, txCount);
    Ok([DeployCreate(deployTx), DeployProxy(salt), UpgradeProxy(salt, logicAddress, initCallData)])
  }

  /**
   * The initializer data of a static contract, end to end from the
   * configuration document: "0x" when the contract is not initializable;
   * otherwise `initialize` encoded with no arguments when the document has no
   * entry, with the one argument "" when the entry is an empty list, and with
   * the entry's values themselves when they are defined and hold no comma and
   * no whitespace. Whether ethers accepts that argument count for the ABI's
   * `initialize` entry is not modelled.
   */
  lemma StaticInitData(fullName: string, factory: Address, env: Env, inputFolder: Option<string>, outputFolder: Option<string>)
    requires DeployMetaArgs(fullName, factory, env, inputFolder, outputFolder).Ok?
    requires var d := DeployMetaArgs(fullName, factory, env, inputFolder, outputFolder).value;
      DeployStaticMultiCallArgs(d, env).Ok? && FullyQualifiedName(d.contractName, env.artifacts) == Ok(fullName)
    ensures
      var d := DeployMetaArgs(fullName, factory, env, inputFolder, outputFolder).value;
      var initData := DeployStaticMultiCallArgs(d, env).value[1].initData;
      var initializable := Initializable(fullName, env.artifacts).value;
      var entry := DeploymentInitializerArgs(env.config, fullName, inputFolder);
      && (!initializable ==> initData == EmptyCallData)
      && (initializable && entry.None? ==> initData == EncodedInitialize([]))
      && (initializable && entry == Some([]) ==> initData == EncodedInitialize([""]))
      && (initializable && entry.Some? && |entry.value| >= 1
          && (forall i :: 0 <= i < |entry.value| ==>
                entry.value[i].Some? && ',' !in entry.value[i].value && JsStrings.WhitespaceFree(entry.value[i].value))
          ==> initData.EncodedInitialize? && initData.args == Render(entry.value))
  {
    var entry := DeploymentInitializerArgs(env.config, fullName, inputFolder);
    if Initializable(fullName, env.artifacts).value {
      if entry == Some([]) {
        InitArgsOfEmptyList();
      } else if entry.Some? && |entry.value| >= 1
          && (forall i :: 0 <= i < |entry.value| ==>
                entry.value[i].Some? && ',' !in entry.value[i].value && JsStrings.WhitespaceFree(entry.value[i].value)) {
        InitArgsRoundTrip(entry.value);
      }
    }
  }
}
