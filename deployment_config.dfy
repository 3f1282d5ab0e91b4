/**
 * Constructor and initializer arguments taken from the deployment-args
 * configuration document, and the comma-joined call-data string through which
 * initializer arguments travel to the call encoders.
 */
module DeploymentConfig {
  import opened Wrappers
  import opened JsStrings

  /**
   * One named-argument record, as its entries in key-enumeration order
   * (`Object.keys`). The schema expects exactly one entry, name to value.
   */
  type ArgData = seq<(string, string)>

  /** An argument value; `None` is the `undefined` an empty record yields. */
  type Arg = Option<string>

  /** A section of the document: contract identifier to its argument records. */
  type ContractArgs = map<string, seq<ArgData>>

  /** The parsed document; either section may be missing. */
  datatype DeploymentArgs = DeploymentArgs(constructorSection: Option<ContractArgs>, initializerSection: Option<ContractArgs>)

  /**
   * The configuration files as `readDeploymentArgs` would find them, by path
   * (a path that reads as `undefined` is absent), and the default directory
   * used when no directory is given.
   */
  datatype ConfigFiles = ConfigFiles(files: map<string, DeploymentArgs>, defaultDir: string)

  const ARGS_FILE: string := "/deploymentArgsTemplate"

  /** The file read for a given configuration directory. */
  function ConfigPath(config: ConfigFiles, configDirPath: Option<string>): (path: string)
    ensures |path| == |configDirPath.GetOr(config.defaultDir)| + |ARGS_FILE|
    ensures path[..|configDirPath.GetOr(config.defaultDir)|] == configDirPath.GetOr(config.defaultDir)
    ensures path[|configDirPath.GetOr(config.defaultDir)|..] == ARGS_FILE
    ensures configDirPath.None? ==> path[..|config.defaultDir|] == config.defaultDir
  {
    configDirPath.GetOr(config.defaultDir) + ARGS_FILE
  }

  /** `readDeploymentArgs`, over the files passed in. */
  function ReadDeploymentArgs(config: ConfigFiles, configDirPath: Option<string>): (r: Option<DeploymentArgs>)
    ensures r.Some? <==> ConfigPath(config, configDirPath) in config.files
    ensures r.Some? ==> r.value == config.files[ConfigPath(config, configDirPath)]
  {
    Get(config.files, ConfigPath(config, configDirPath))
  }

  /** `argData[Object.keys(argData)[0]]`: the value under a record's first key. */
  function FirstValue(record: ArgData): Arg {
    if |record| == 0 then None else Some(record[0].1)
  }

  /** What `extractArgs` returns: each record's first value, in record order. */
  function ArgValues(input: seq<ArgData>): (output: seq<Arg>)
    ensures |output| == |input|
    ensures forall i :: 0 <= i < |input| ==> output[i] == FirstValue(input[i])
  {
    if input == [] then [] else [FirstValue(input[0])] + ArgValues(input[1..])
  }

  /** `extractArgs`: keeps the value of each record, in order. */
  method ExtractArgs(input: seq<ArgData>) returns (output: seq<Arg>)
    ensures output == ArgValues(input)
  {
    output := [];
    for i := 0 to |input|
      invariant |output| == i
      invariant forall j :: 0 <= j < i ==> output[j] == FirstValue(input[j])
    {
      var argData := input[i];
      output := output + [FirstValue(argData)];
    }
  }

  /** The records listed for `fullName` in one section of a deployment-args document. */
  function SectionEntry(section: Option<ContractArgs>, fullName: string): Option<seq<ArgData>> {
    if section.Some? then Get(section.value, fullName) else None
  }

  /**
   * `getDeploymentConstructorArgs`: the constructor argument values; `[]`
   * when the document, its constructor section or the contract's entry is missing.
   */
  function DeploymentConstructorArgs(config: ConfigFiles, fullName: string, configDirPath: Option<string>): (output: seq<Arg>)
    ensures ReadDeploymentArgs(config, configDirPath).None? ==> output == []
    ensures ReadDeploymentArgs(config, configDirPath).Some? ==>
      var section := ReadDeploymentArgs(config, configDirPath).value.constructorSection;
      if section.Some? && fullName in section.value then
        |output| == |section.value[fullName]|
        && forall i :: 0 <= i < |output| ==> output[i] == FirstValue(section.value[fullName][i])
      else
        output == []
  {
    match ReadDeploymentArgs(config, configDirPath)
    case None => []
    case Some(args) =>
      match SectionEntry(args.constructorSection, fullName)
      case None => []
      case Some(records) => ArgValues(records)
  }

  /**
   * `getDeploymentInitializerArgs`: the initializer argument values;
   * `undefined` when the document, its initializer section or the contract's entry is missing.
   */
  function DeploymentInitializerArgs(config: ConfigFiles, fullName: string, configDirPath: Option<string>): (output: Option<seq<Arg>>)
    ensures ReadDeploymentArgs(config, configDirPath).None? ==> output == None
    ensures ReadDeploymentArgs(config, configDirPath).Some? ==>
      var section := ReadDeploymentArgs(config, configDirPath).value.initializerSection;
      if section.Some? && fullName in section.value then
        output.Some? && |output.value| == |section.value[fullName]|
        && forall i :: 0 <= i < |output.value| ==> output.value[i] == FirstValue(section.value[fullName][i])
      else
        output == None
  {
    match ReadDeploymentArgs(config, configDirPath)
    case None => None
    case Some(args) =>
      match SectionEntry(args.initializerSection, fullName)
      case None => None
      case Some(records) => Some(ArgValues(records))
  }

  /** How `Array.prototype.toString` prints an element: `undefined` prints as "". */
  function Render(args: seq<Arg>): (r: seq<string>)
    ensures |r| == |args|
    ensures forall i :: 0 <= i < |args| ==> r[i] == args[i].GetOr("")
  {
    if args == [] then [] else [args[0].GetOr("")] + Render(args[1..])
  }

  /** `getEncodedInitCallData`: the list comma-joined by `toString()`, `undefined` stays `undefined`. */
  function EncodedInitCallData(args: Option<seq<Arg>>): (r: Option<string>)
    ensures r.Some? <==> args.Some?
    ensures args == Some([]) ==> r == Some("")
  {
    match args
    case None => None
    case Some(list) => Some(Join(Render(list), ','))
  }

  /**
   * The encoders' `initArgs`: `[]` when the call data is `undefined`, else the
   * call data with all whitespace removed, split on ",".
   */
  function InitArgs(initCallData: Option<string>): (r: seq<string>)
    ensures r == [] <==> initCallData.None?
    ensures forall k :: 0 <= k < |r| ==> ',' !in r[k] && WhitespaceFree(r[k])
  {
    match initCallData
    case None => []
    case Some(s) =>
      var parts := Split(RemoveWhitespace(s), ',');
      assert forall k :: 0 <= k < |parts| ==> WhitespaceFree(parts[k]) by {
        SplitPiecesWhitespaceFree(RemoveWhitespace(s), ',');
      }
      parts
  }

  /** The pieces of a whitespace-free string are whitespace-free. */
  lemma {:induction false} SplitPiecesWhitespaceFree(s: string, sep: char)
    requires WhitespaceFree(s)
    ensures forall k :: 0 <= k < |Split(s, sep)| ==> WhitespaceFree(Split(s, sep)[k])
    decreases |s|
  {
    if s != [] {
      SplitPiecesWhitespaceFree(s[1..], sep);
    }
  }

  /**
   * The join/split pair is a round trip on a non-empty list of defined values
   * that contain no comma and no whitespace.
   */
  lemma InitArgsRoundTrip(args: seq<Arg>)
    requires |args| >= 1
    requires forall i :: 0 <= i < |args| ==> args[i].Some? && ',' !in args[i].value && WhitespaceFree(args[i].value)
    ensures |InitArgs(EncodedInitCallData(Some(args)))| == |args|
    ensures forall i :: 0 <= i < |args| ==> InitArgs(EncodedInitCallData(Some(args)))[i] == args[i].value
  {
    var parts := Render(args);
    assert forall k :: 0 <= k < |parts| ==> parts[k] == args[k].value;
    JoinWhitespaceFree(parts, ',');
    SplitJoin(parts, ',');
  }

  /** The edge case of the round trip: an empty list comes back as one empty argument. */
  lemma InitArgsOfEmptyList()
    ensures EncodedInitCallData(Some([])) == Some("")
    ensures InitArgs(EncodedInitCallData(Some([]))) == [""]
  {
  }

  /** A comma inside an argument value does not survive the round trip: the value splits in two. */
  lemma InitArgsSplitsValues(v: string, w: string)
    requires ',' !in v && ',' !in w && WhitespaceFree(v) && WhitespaceFree(w)
    ensures InitArgs(EncodedInitCallData(Some([Some(v + "," + w)]))) == [v, w]
  {
    var joined := Join(Render([Some(v + "," + w)]), ',');
    assert joined == v + [','] + w;
    assert WhitespaceFree(joined);
    SplitAtSeparator(v, ',', w);
    SplitSeparatorFree(w, ',');
  }

  /**
   * Whitespace inside an argument value does not survive the round trip: it
   * is removed and the characters around it are joined.
   */
  lemma InitArgsDropsWhitespace(v: string, c: char, w: string)
    requires IsWhitespace(c)
    requires ',' !in v && ',' !in w && WhitespaceFree(v) && WhitespaceFree(w)
    ensures InitArgs(Some(v + [c] + w)) == [v + w]
  {
    RemoveWhitespaceAppend(v + [c], w);
    RemoveWhitespaceAppend(v, [c]);
    RemoveWhitespaceCons(c, []);
    assert [c] + [] == [c];
    assert RemoveWhitespace(v + [c] + w) == v + w;
    SplitSeparatorFree(v + w, ',');
  }
}
