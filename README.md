# Deployment-plan core of `deploymentUtil.ts`, modelled in Dafny

The file `bridge/scripts/lib/deployment/deploymentUtil.ts` builds the batched
factory calls that deploy a set of contracts. The model covers its
deterministic core:

- **Plan builder** (`DeploymentPlan`). `getContractsDeploymentMulticallArgs`
  walks the contracts in order and reads each one's `custom:deploy-type` NatSpec tag.
  - A static contract contributes `[deployTemplate, deployStatic]`.
  - An upgradeable contract contributes `[deployCreate, deployProxy, upgradeProxy]`.
  - Both advance the factory's transaction counter by 2.
  - An `onlyProxy` contract adds no call. It triggers an immediate proxy deployment, kept as a `ProxyRequest`.
  - Any other tag is skipped with no error.
  - The builder is a method with a loop. It is proved equal to the recursive
    specification `Plan`. Lemmas give the plan's length, the counter arithmetic,
    the order of the groups and the counter value each contract is encoded with.
- **Call encoders** (`MultiCall`). `getDeployStaticMultiCallArgs` and
  `getDeployUpgradeableMultiCallArgs` give the calls, their order, the salt, the
  predicted logic address and the initializer data each call carries.
  `getDeployMetaArgs` assembles the arguments. `getDeployUpgradeableProxyArgs`
  (lines 106-133) has the same body, so the one function `DeployMetaArgs` models both.
- **Metadata** (`Artifacts`). This part covers:
  - `extractPath` and `extractName`, and their inverse `getFullyQualifiedName`;
  - `getCustomNSTag`, which throws when build info is missing;
  - `isInitializable`, `hasConstructorArgs` and `getContract`, which are loop methods proved against declarative specifications.
- **Arguments** (`DeploymentConfig`). This part covers `extractArgs`, the
  constructor and initializer config lookups, `getEncodedInitCallData`, and
  the encoders' whitespace-strip-and-split of the call data.
  - The join/split pair is proved a round trip for non-empty lists of comma-free, whitespace-free values.
  - An empty list comes back as `[""]`, so `encodeFunctionData("initialize", [""])` is called.
  - A missing entry makes the call with no arguments. Whether ethers accepts that argument list depends on the ABI's `initialize` entry, which the model does not check (see "## Left out").
- **JavaScript strings** (`JsStrings`). `split` with a one-character separator,
  `join` (and so `Array.prototype.toString`), and `replace(/\s+/g, "")` with the
  ECMAScript whitespace set.

Library results are symbolic terms: each is a datatype constructor applied to its arguments.
- ABI encoding (`encodeFunctionData`) is `Call`.
- Address derivation (`getContractAddress`) is `Address.CreatedAt`.
- `formatBytes32String` is `Salt.Bytes32`.
- `getDeployTransaction` is `Bytecode.DeployTransaction`.

The artifact store, the devdoc tags and the parsed configuration files are
passed in as values (`ArtifactStore`, `ConfigFiles`). Exceptions are modelled
as `Result.Err`.

As written, the upgradeable branch passes `outputFolder` in the `inputFolder`
position of `getDeployUpgradeableProxyArgs` (lines 316-321). The model keeps
this. `DeploymentPlan.ConstructorArgsFolder` shows that an upgradeable
contract's constructor arguments are read from the output folder's config,
while a static contract's come from the input folder's.

The repository's constants module is not part of this model. The tag values
`deployStatic`, `deployUpgradeable` and `onlyProxy` and the initializer name
`initialize` are taken from the names used. The proofs rely only on the three
tags being distinct.

## Model

| member | source | states |
|---|---|---|
| `JsStrings.RemoveWhitespace` | bridge/scripts/lib/deployment/deploymentUtil.ts:164 | no whitespace character remains, the result is no longer than the input, and a whitespace-free string is unchanged |
| `JsStrings.RemoveWhitespaceCons` | bridge/scripts/lib/deployment/deploymentUtil.ts:164 | a leading whitespace character is dropped and any other leading character is kept in front of the rest's result (with an empty rest: the one-character strings) |
| `JsStrings.RemoveWhitespaceAppend` | bridge/scripts/lib/deployment/deploymentUtil.ts:164 | stripping distributes over concatenation, so the non-whitespace characters survive in their order |
| `JsStrings.Split` | bridge/scripts/lib/deployment/deploymentUtil.ts:428 | at least one piece; no piece holds the separator; the first piece is the longest separator-free prefix; exactly one piece iff the separator does not occur |
| `JsStrings.SplitAtSeparator` | bridge/scripts/lib/deployment/deploymentUtil.ts:432 | splitting `a + sep + b` with `a` separator-free gives `a` followed by the pieces of `b` |
| `JsStrings.SplitSeparatorFree` | bridge/scripts/lib/deployment/deploymentUtil.ts:428 | a separator-free string splits into itself alone |
| `JsStrings.Join` | bridge/scripts/lib/deployment/deploymentUtil.ts:409 | no parts give ""; the first part begins the result; with two or more parts the separator follows the first part (what follows the separator is stated by `JoinCons`) |
| `JsStrings.JoinCons` | bridge/scripts/lib/deployment/deploymentUtil.ts:409 | with two or more parts the result is the first part, the separator, and the join of the remaining parts |
| `JsStrings.SplitJoin` | bridge/scripts/lib/deployment/deploymentUtil.ts:409 | splitting the join of a non-empty list of separator-free strings gives the list back |
| `JsStrings.JoinSplit` | bridge/scripts/lib/deployment/deploymentUtil.ts:164 | re-joining the pieces of any string on the same separator gives the string back |
| `JsStrings.JoinWhitespaceFree` | bridge/scripts/lib/deployment/deploymentUtil.ts:409 | joining whitespace-free strings on a non-whitespace separator leaves no whitespace |
| `Artifacts.ExtractPath` | bridge/scripts/lib/deployment/deploymentUtil.ts:427-429 | the path is the longest ':'-free prefix of the name |
| `Artifacts.ExtractName` | bridge/scripts/lib/deployment/deploymentUtil.ts:431-433 | defined iff the name holds a ':'; then it is the ':'-free segment after the first ':' |
| `Artifacts.FullyQualifiedName` | bridge/scripts/lib/deployment/deploymentUtil.ts:528-535 | fails iff the artifact is missing; for ':'-free parts, extracting path and name from the result gives back the source path and the contract name |
| `Artifacts.QualifiedNameParts` | bridge/scripts/lib/deployment/deploymentUtil.ts:427-433 | for ':'-free `p` and `n`, `extractPath(p:n) == p` and `extractName(p:n) == n` |
| `Artifacts.ContractOutputOf` | bridge/scripts/lib/deployment/deploymentUtil.ts:440-444 | the build-info error exactly when build info is absent; succeeds iff the name holds a ':' and the output holds its path and name part, and is then that entry |
| `Artifacts.CustomNSTag` | bridge/scripts/lib/deployment/deploymentUtil.ts:435-449 | throws the natspec-tag error exactly when build info is absent; on success it is the `custom:<tag>` devdoc entry, undefined when missing |
| `Artifacts.SaltTag` | bridge/scripts/lib/deployment/deploymentUtil.ts:515-517 | the natspec-tag error for `salt` exactly when build info is absent; succeeds iff the contract output is found, with the `custom:salt` devdoc entry |
| `Artifacts.DeployType` | bridge/scripts/lib/deployment/deploymentUtil.ts:536-538 | the natspec-tag error for `deploy-type` exactly when build info is absent; succeeds iff the contract output is found, with the `custom:deploy-type` devdoc entry |
| `Artifacts.IsInitializable` | bridge/scripts/lib/deployment/deploymentUtil.ts:369-383 | the scan answers true iff some ABI entry is named `initialize`; a missing build output is an error |
| `Artifacts.FirstConstructor` | bridge/scripts/lib/deployment/deploymentUtil.ts:393-397 | the index of a constructor entry with no constructor entry before it, or none when the ABI has none |
| `Artifacts.HasConstructorArgs` | bridge/scripts/lib/deployment/deploymentUtil.ts:385-399 | the scan answers whether the first constructor entry has inputs, false when there is none |
| `Artifacts.GetContract` | bridge/scripts/lib/deployment/deploymentUtil.ts:413-420 | returns the first name in store order whose name part equals the query, or undefined when no name matches |
| `DeploymentConfig.ConfigPath` | bridge/scripts/lib/deployment/deploymentUtil.ts:458-461 | the given directory, or the default one when none is given, followed by `/deploymentArgsTemplate` |
| `DeploymentConfig.ReadDeploymentArgs` | bridge/scripts/lib/deployment/deploymentUtil.ts:458-462 | defined iff a file exists at that path, and is then that file's contents |
| `DeploymentConfig.ArgValues` | bridge/scripts/lib/deployment/deploymentUtil.ts:480-488 | same length as the input; element i is the value under the first key of record i |
| `DeploymentConfig.ExtractArgs` | bridge/scripts/lib/deployment/deploymentUtil.ts:480-488 | the loop's output equals `ArgValues` of its input |
| `DeploymentConfig.DeploymentConstructorArgs` | bridge/scripts/lib/deployment/deploymentUtil.ts:452-478 | `[]` when the document, its constructor section or the entry is missing; otherwise the entry's values, one per record, in order |
| `DeploymentConfig.DeploymentInitializerArgs` | bridge/scripts/lib/deployment/deploymentUtil.ts:491-513 | undefined when the document, its initializer section or the entry is missing; otherwise the entry's values, one per record, in order |
| `DeploymentConfig.Render` | bridge/scripts/lib/deployment/deploymentUtil.ts:409 | each element prints as its value, undefined as the empty string |
| `DeploymentConfig.EncodedInitCallData` | bridge/scripts/lib/deployment/deploymentUtil.ts:405-411 | defined iff the list is defined; the empty list encodes as "" |
| `DeploymentConfig.InitArgs` | bridge/scripts/lib/deployment/deploymentUtil.ts:161-164 | empty iff the call data is undefined; every piece is free of commas and whitespace |
| `DeploymentConfig.SplitPiecesWhitespaceFree` | bridge/scripts/lib/deployment/deploymentUtil.ts:164 | the pieces of a whitespace-free string are whitespace-free |
| `DeploymentConfig.InitArgsRoundTrip` | bridge/scripts/lib/deployment/deploymentUtil.ts:405-411 | joining, stripping and splitting a non-empty list of defined comma-free, whitespace-free values recovers the values |
| `DeploymentConfig.InitArgsOfEmptyList` | bridge/scripts/lib/deployment/deploymentUtil.ts:161-164 | an empty list encodes as "" and comes back as `[""]` |
| `DeploymentConfig.InitArgsSplitsValues` | bridge/scripts/lib/deployment/deploymentUtil.ts:405-411 | a single value holding a comma comes back as two arguments |
| `DeploymentConfig.InitArgsDropsWhitespace` | bridge/scripts/lib/deployment/deploymentUtil.ts:161-164 | a whitespace character inside a comma-free value is removed and the characters around it are kept, giving one argument |
| `MultiCall.DeployMetaArgs` | bridge/scripts/lib/deployment/deploymentUtil.ts:76-104 | succeeds iff the build output is readable; carries the name part, the factory and the output folder; init call data is present iff the contract is initializable and an initializer entry exists, and is then the encoded entry; constructor arguments are present iff the constructor takes inputs, and are then looked up in the input folder |
| `MultiCall.Bytes32Salt` | bridge/scripts/lib/deployment/deploymentUtil.ts:519-527 | succeeds iff the artifact and its salt tag lookup succeed; the salt is the formatted `custom:salt` tag |
| `MultiCall.InitCallFor` | bridge/scripts/lib/deployment/deploymentUtil.ts:170-172 | "0x" exactly when the contract is not initializable; otherwise `initialize` with no arguments iff the call data is undefined, and every argument free of commas and whitespace |
| `MultiCall.InitCallAndSalt` | bridge/scripts/lib/deployment/deploymentUtil.ts:207-225 | init data is `encode(initialize, initArgs)` for an initializable contract and "0x" otherwise; the salt is the contract's formatted salt tag |
| `MultiCall.DeployStaticMultiCallArgs` | bridge/scripts/lib/deployment/deploymentUtil.ts:135-194 | exactly `[deployTemplate, deployStatic]`; the template carries the bytecode built from the constructor arguments (`[]` when undefined); the static call carries the salt and the init data |
| `MultiCall.DeployUpgradeableMultiCallArgs` | bridge/scripts/lib/deployment/deploymentUtil.ts:196-265 | exactly `[deployCreate, deployProxy, upgradeProxy]`; both proxy calls carry the same salt; `upgradeProxy` carries `address(factory, txCount)` and the init data; `deployCreate` carries the bytecode from the constructor arguments (`[]` when undefined) |
| `MultiCall.StaticInitData` | bridge/scripts/lib/deployment/deploymentUtil.ts:161-172 | from the config to the arguments handed to `encodeFunctionData("initialize", …)`: "0x" when not initializable; no arguments for a missing entry; `[""]` for an empty entry; the entry's own values when they hold no comma or whitespace |
| `DeploymentPlan.Classify` | bridge/scripts/lib/deployment/deploymentUtil.ts:287-364 | each of the three tags selects its own branch, and every other value, undefined included, falls to the no-op default |
| `DeploymentPlan.Step` | bridge/scripts/lib/deployment/deploymentUtil.ts:282-364 | one contract appends 2 static calls or 3 upgradeable calls, in order, to the unchanged earlier plan, and advances the counter by 2; `onlyProxy` adds only a proxy request to the factory; an unrecognised tag changes nothing and is not an error |
| `DeploymentPlan.GetContractsDeploymentMulticallArgs` | bridge/scripts/lib/deployment/deploymentUtil.ts:267-367 | the loop builds exactly `Plan`; on success the plan has 2·#static + 3·#upgradeable calls, and the counter ends at the initial count plus 2·(#static + #upgradeable) |
| `DeploymentPlan.PlanFrom` | bridge/scripts/lib/deployment/deploymentUtil.ts:281-365 | no contracts leave the state as it is; a successful pass only extends the calls and proxy requests and never lowers the counter |
| `DeploymentPlan.Plan` | bridge/scripts/lib/deployment/deploymentUtil.ts:267-367 | no contracts give an empty plan at the initial count; a successful plan never ends below the initial count |
| `DeploymentPlan.PlanReadsEveryDeployType` | bridge/scripts/lib/deployment/deploymentUtil.ts:281-284 | a successful pass read the deploy type of every contract |
| `DeploymentPlan.PlanFromCounts` | bridge/scripts/lib/deployment/deploymentUtil.ts:297-343 | a pass keeps the earlier plan as a prefix and adds 2 calls per static and 3 per upgradeable contract; the counter rises 2 for each of them; one proxy request is added per `onlyProxy` contract |
| `DeploymentPlan.PlanFromAppend` | bridge/scripts/lib/deployment/deploymentUtil.ts:281-365 | a pass over `a + b` is a pass over `a` followed by a pass over `b` from that state; an error in `a` aborts the whole pass |
| `DeploymentPlan.ContractCounter` | bridge/scripts/lib/deployment/deploymentUtil.ts:297-343 | in a successful pass the plan of the first i+1 contracts succeeds, and its counter (the counter once contract i is encoded) is the initial count plus 2·(#static + #upgradeable among them) |
| `DeploymentPlan.ContractContribution` | bridge/scripts/lib/deployment/deploymentUtil.ts:297-343 | contract i is encoded with the counter at the initial count plus 2·(#static + #upgradeable before i); its calls follow the earlier contracts' calls in the final plan and have its kind's shape |
| `DeploymentPlan.PlanPrefix` | bridge/scripts/lib/deployment/deploymentUtil.ts:304-342 | in a successful pass, the plan of the first i contracts is a prefix of the whole plan |
| `DeploymentPlan.ConstructorArgsFolder` | bridge/scripts/lib/deployment/deploymentUtil.ts:316-321 | a static contract's constructor arguments come from the input folder's config; an upgradeable contract's come from the output folder's |

## Left out

- ABI encoding, address derivation, salt formatting and creation-bytecode assembly are not modelled. These belong to ethers and Hardhat, and the model keeps them as distinct symbolic terms. Equal terms therefore stand for equal encoded bytes.
- DeployStaticMultiCallArgs, DeployUpgradeableMultiCallArgs, StaticInitData: ethers' checks of argument count and type in `encodeFunctionData` and `getDeployTransaction` are not modelled. The source throws when the number of values differs from the inputs of the `initialize` or constructor entry: for example, an empty initializer entry (one value `""`) for an `initialize` without inputs, or a constructor with inputs but no config entry (no values). The model always returns the symbolic call.
- `MultiCall.Bytes32Salt`: the failures of `formatBytes32String` itself are not modelled. These are a tag over 31 bytes and an undefined tag. The salt term simply holds the tag as read.
- DeployStaticMultiCallArgs, DeployUpgradeableMultiCallArgs: the throws of `getContractFactory` (lines 151, 158, 204, 226) are not modelled. It fails like `readArtifact` when the artifact is missing, which the model does cover. It also throws for an abstract contract (bytecode `"0x"`) and for a contract whose library links are missing; in those cases the model returns `Ok`.
- Reading build info, artifacts, the list of fully-qualified names and the deployment-args file is I/O. These are parameters. `deploymentConfigUtil` is not part of this model, so a file that reads as undefined is simply absent from the map.
- `evm_setBlockGasLimit` on the `hardhat` network (lines 143-150, 233-240) is not modelled. It is test-network plumbing.
- The `deployProxy` task of an `onlyProxy` contract is recorded as a `ProxyRequest`. Its gas result and the `cumulativeGasUsed` total are not modelled. The same goes for `estimateGas.multiCall`, which the source takes over an always-empty `argsArray` (lines 315, 337-338).
- `DeploymentPlan.GetContractsDeploymentMulticallArgs`: on an error the model returns only the error. It does not report proxy requests already issued. On success it also returns the final counter and the proxy requests, which the source keeps internal.
- Console timing with `Date.now()` is not modelled. It is logging only.
- `deployFactory` (lines 72-74) and `getAllContracts` (lines 422-425) are single task or store calls and are not modelled. `getDeployGroup` and `getDeployGroupIndex` (lines 540-549) are tag reads like `getDeployType` that the builder does not use, so they are left out too.
- `templateAddress` (lines 181-184) is computed but unused, and is not modelled.
- JavaScript object details are not modelled. These are:
  - `deploymentConfig.constructor` reaches `Object` through the prototype when the section is absent. This gives the same result as a missing section for any name that holds a ':'.
  - `Object.keys` puts integer-like keys first. Records are taken in enumeration order.
  - A fully-qualified name without ':' would index the build output with the key `"undefined"`. The model treats this as missing output.
- Argument values other than strings and ABI entries without an `inputs` list are not modelled. The source's types do not admit them.
