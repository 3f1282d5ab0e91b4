/**
 * Compiled-contract metadata: ABI entries, NatSpec `@custom:` tags, and the
 * "path:Name" fully-qualified names by which the build output is indexed.
 * The artifact store is passed in as a value; reading it from disk is not modelled.
 */
module Artifacts {
  import opened Wrappers
  import opened JsStrings

  /** Name of the initializer function looked for in an ABI. */
  const INITIALIZER: string := "initialize"
  /** The `type` of the ABI entry that describes a constructor. */
  const CONSTRUCTOR_TYPE: string := "constructor"

  /** One ABI entry: its `name` (constructors have none), its `type`, and its `inputs`. */
  datatype AbiEntry = AbiEntry(name: Option<string>, kind: string, inputs: seq<string>)

  /** `output.contracts[path][name]` of a build: the ABI and the developer documentation. */
  datatype ContractOutput = ContractOutput(abi: seq<AbiEntry>, devdoc: map<string, string>)

  /** A build's output, indexed by source path and then by contract name. */
  datatype BuildInfo = BuildInfo(contracts: map<string, map<string, ContractOutput>>)

  /**
   * What the artifact store answers: `getBuildInfo` by fully-qualified name,
   * the `sourceName` of `readArtifact` by contract name, and
   * `getAllFullyQualifiedNames` in the store's order.
   */
  datatype ArtifactStore = ArtifactStore(
    buildInfos: map<string, BuildInfo>,
    sourceNames: map<string, string>,
    fullyQualifiedNames: seq<string>)

  /** The errors the utilities throw. */
  datatype Error =
    | BuildInfoMissing(fullName: string)         // `buildInfo.output` read on undefined
    | ContractOutputMissing(fullName: string)    // `contracts[path][name]` is undefined
    | NatspecTagUnavailable(tagName: string)     // "Failed to get natspec tag <tag>"
    | ArtifactMissing(contractName: string)      // `readArtifact` finds no artifact
    | NotQualified(fullName: string)             // a name without the ':' part

  /** `extractPath`: the first ':'-separated piece of a fully-qualified name. */
  function ExtractPath(fullName: string): (path: string)
    ensures ':' !in path
    ensures path <= fullName
    ensures |path| < |fullName| ==> fullName[|path|] == ':'
  {
    Split(fullName, ':')[0]
  }

  /**
   * `extractName`: the second ':'-separated piece, `undefined` when there is
   * no ':' at all.
   */
  function ExtractName(fullName: string): (name: Option<string>)
    ensures name.Some? <==> ':' in fullName
    ensures name.Some? ==>
      var prefix := ExtractPath(fullName) + [':'] + name.value;
      && ':' !in name.value
      && prefix <= fullName
      && (|prefix| < |fullName| ==> fullName[|prefix|] == ':')
  {
    var parts := Split(fullName, ':');
    if |parts| > 1 then
      var path := parts[0];
      var rest := fullName[|path| + 1..];
      assert fullName == path + [':'] + rest;
      SplitAtSeparator(path, ':', rest);
      Some(parts[1])
    else
      None
  }

  /** `getFullyQualifiedName`: the artifact's source path, a ':', and the contract name. */
  function FullyQualifiedName(contractName: string, store: ArtifactStore): (r: Result<string, Error>)
    ensures r.Ok? <==> contractName in store.sourceNames
    ensures r.Err? ==> r.error == ArtifactMissing(contractName)
    ensures r.Ok? && ':' !in contractName && ':' !in store.sourceNames[contractName] ==>
      ExtractPath(r.value) == store.sourceNames[contractName] && ExtractName(r.value) == Some(contractName)
  {
    if contractName in store.sourceNames then
      var path := store.sourceNames[contractName];
      var fullName := path + ":" + contractName;
      assert ':' !in contractName && ':' !in path ==>
        ExtractPath(fullName) == path && ExtractName(fullName) == Some(contractName) by {
        if ':' !in contractName && ':' !in path {
          QualifiedNameParts(path, contractName);
        }
      }
      Ok(fullName)
    else
      Err(ArtifactMissing(contractName))
  }

  /** Taking a "path:Name" string apart gives back both parts when neither has a ':'. */
  lemma QualifiedNameParts(path: string, name: string)
    requires ':' !in path && ':' !in name
    ensures ExtractPath(path + ":" + name) == path
    ensures ExtractName(path + ":" + name) == Some(name)
  {
    assert path + ":" + name == path + [':'] + name;
    SplitAtSeparator(path, ':', name);
    SplitSeparatorFree(name, ':');
  }

  /** `buildInfo.output.contracts[path][name]` for a fully-qualified name. */
  function ContractOutputOf(fullName: string, store: ArtifactStore): (r: Result<ContractOutput, Error>)
    ensures fullName !in store.buildInfos <==> r == Err(BuildInfoMissing(fullName))
    ensures r.Ok? ==> ':' in fullName
    ensures r.Ok? <==>
      && fullName in store.buildInfos
      && ExtractName(fullName).Some?
      && ExtractPath(fullName) in store.buildInfos[fullName].contracts
      && ExtractName(fullName).value in store.buildInfos[fullName].contracts[ExtractPath(fullName)]
    ensures r.Ok? ==>
      r.value == store.buildInfos[fullName].contracts[ExtractPath(fullName)][ExtractName(fullName).value]
  {
    if fullName !in store.buildInfos then Err(BuildInfoMissing(fullName))
    else
      var contracts := store.buildInfos[fullName].contracts;
      var path := ExtractPath(fullName);
      var name := ExtractName(fullName);
      if name.Some? && path in contracts && name.value in contracts[path] then
        Ok(contracts[path][name.value])
      else
        Err(ContractOutputMissing(fullName))
  }

  /**
   * `getCustomNSTag`: the `custom:<tag>` entry of the contract's devdoc
   * (`undefined` when the entry is absent); throws when there is no build info.
   */
  function CustomNSTag(fullName: string, tagName: string, store: ArtifactStore): (r: Result<Option<string>, Error>)
    ensures fullName !in store.buildInfos <==> r == Err(NatspecTagUnavailable(tagName))
    ensures r.Ok? <==> ContractOutputOf(fullName, store).Ok?
    ensures r.Ok? ==> r.value == Get(ContractOutputOf(fullName, store).value.devdoc, "custom:" + tagName)
  {
    if fullName in store.buildInfos then
      var info :- ContractOutputOf(fullName, store);
      Ok(Get(info.devdoc, "custom:" + tagName))
    else
      Err(NatspecTagUnavailable(tagName))
  }

  /** `getDeployType`: the `custom:deploy-type` tag. */
  function DeployType(fullName: string, store: ArtifactStore): (r: Result<Option<string>, Error>)
    ensures fullName !in store.buildInfos <==> r == Err(NatspecTagUnavailable("deploy-type"))
    ensures r.Ok? <==> ContractOutputOf(fullName, store).Ok?
    ensures r.Ok? ==> r.value == Get(ContractOutputOf(fullName, store).value.devdoc, "custom:deploy-type")
  {
    assert "custom:" + "deploy-type" == "custom:deploy-type";
    CustomNSTag(fullName, "deploy-type", store)
  }

  /** `getSalt`: the `custom:salt` tag. */
  function SaltTag(fullName: string, store: ArtifactStore): (r: Result<Option<string>, Error>)
    ensures fullName !in store.buildInfos <==> r == Err(NatspecTagUnavailable("salt"))
    ensures r.Ok? <==> ContractOutputOf(fullName, store).Ok?
    ensures r.Ok? ==> r.value == Get(ContractOutputOf(fullName, store).value.devdoc, "custom:salt")
  {
    assert "custom:" + "salt" == "custom:salt";
    CustomNSTag(fullName, "salt", store)
  }

  /** Some ABI entry is named `initialize`. */
  predicate DeclaresInitializer(abi: seq<AbiEntry>) {
    exists i :: 0 <= i < |abi| && abi[i].name == Some(INITIALIZER)
  }

  /** Whether a contract is initializable, as `isInitializable` answers it. */
  function Initializable(fullName: string, store: ArtifactStore): Result<bool, Error> {
    var info :- ContractOutputOf(fullName, store);
    Ok(DeclaresInitializer(info.abi))
  }

  /** `isInitializable`: scans the ABI for an entry named `initialize`. */
  method IsInitializable(fullName: string, store: ArtifactStore) returns (r: Result<bool, Error>)
    ensures r == Initializable(fullName, store)
  {
    var info := ContractOutputOf(fullName, store);
    if info.Err? {
      return Err(info.error);
    }
    var methods := info.value.abi;
    for i := 0 to |methods|
      invariant forall j :: 0 <= j < i ==> methods[j].name != Some(INITIALIZER)
    {
      if methods[i].name == Some(INITIALIZER) {
        return Ok(true);
      }
    }
    return Ok(false);
  }

  /** The position of the first constructor entry of an ABI, if there is one. */
  function FirstConstructor(abi: seq<AbiEntry>): (r: Option<nat>)
    ensures r.Some? ==> r.value < |abi| && abi[r.value].kind == CONSTRUCTOR_TYPE
    ensures forall j :: 0 <= j < |abi| && (r.None? || j < r.value) ==> abi[j].kind != CONSTRUCTOR_TYPE
  {
    if abi == [] then None
    else if abi[0].kind == CONSTRUCTOR_TYPE then Some(0)
    else
      match FirstConstructor(abi[1..])
      case None => None
      case Some(k) => Some(k + 1)
  }

  /** The first constructor entry takes inputs; false when there is no constructor entry. */
  predicate ConstructorTakesInputs(abi: seq<AbiEntry>) {
    match FirstConstructor(abi)
    case None => false
    case Some(i) => |abi[i].inputs| > 0
  }

  /** Whether a contract has constructor arguments, as `hasConstructorArgs` answers it. */
  function ConstructorArgsDeclared(fullName: string, store: ArtifactStore): Result<bool, Error> {
    var info :- ContractOutputOf(fullName, store);
    Ok(ConstructorTakesInputs(info.abi))
  }

  /** `hasConstructorArgs`: answers for the first `constructor` entry of the ABI. */
  method HasConstructorArgs(fullName: string, store: ArtifactStore) returns (r: Result<bool, Error>)
    ensures r == ConstructorArgsDeclared(fullName, store)
  {
    var info := ContractOutputOf(fullName, store);
    if info.Err? {
      return Err(info.error);
    }
    var methods := info.value.abi;
    for i := 0 to |methods|
      invariant forall j :: 0 <= j < i ==> methods[j].kind != CONSTRUCTOR_TYPE
    {
      if methods[i].kind == CONSTRUCTOR_TYPE {
        return Ok(|methods[i].inputs| > 0);
      }
    }
    return Ok(false);
  }

  /**
   * `getContract`: the first fully-qualified name in the store whose name
   * part equals `name`, or `undefined` when there is none.
   */
  method GetContract(name: string, store: ArtifactStore) returns (r: Option<string>)
    ensures r.Some? ==>
      exists i :: 0 <= i < |store.fullyQualifiedNames| && store.fullyQualifiedNames[i] == r.value
        && ExtractName(store.fullyQualifiedNames[i]) == Some(name)
        && forall j :: 0 <= j < i ==> ExtractName(store.fullyQualifiedNames[j]) != Some(name)
    ensures r.None? ==>
      forall i :: 0 <= i < |store.fullyQualifiedNames| ==> ExtractName(store.fullyQualifiedNames[i]) != Some(name)
  {
    var artifactPaths := store.fullyQualifiedNames;
    for i := 0 to |artifactPaths|
      invariant forall j :: 0 <= j < i ==> ExtractName(artifactPaths[j]) != Some(name)
    {
      var parts := Split(artifactPaths[i], ':');
      if |parts| > 1 && parts[1] == name {
        return Some(artifactPaths[i]);
      }
    }
    return None;
  }
}
