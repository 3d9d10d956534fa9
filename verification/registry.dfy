/**
 * The registry of the eight tools: names, titles and input contracts in
 * declaration order, and the validated call that each invocation becomes.
 */
module Registry {
  import opened Wrappers
  import opened Schema

  datatype Tool =
    | HealthCheck
    | RegisterUser
    | RotateApiKey
    | CreateDataset
    | UpdateDataset
    | GetPublicDataset
    | GetPublicDatasetSchema
    | GetApiKeyStatus

  /** A tool together with its validated arguments: what a handler receives. */
  datatype Call =
    | CheckHealth
    | Register(username: string, password: string)
    | RotateKey
    | Create(name: string, data: Option<Json>)
    | Update(datasetId: string, data: Option<Json>)
    | FetchDataset(owner: string, datasetId: string)
    | FetchSchema(owner: string, datasetId: string)
    | KeyStatus

  /** The registry in declaration order. */
  const Tools: seq<Tool> := [HealthCheck, RegisterUser, RotateApiKey, CreateDataset,
                             UpdateDataset, GetPublicDataset, GetPublicDatasetSchema, GetApiKeyStatus]

  function Name(t: Tool): string
  {
    match t
    case HealthCheck => "health_check"
    case RegisterUser => "register_user"
    case RotateApiKey => "rotate_api_key"
    case CreateDataset => "create_dataset"
    case UpdateDataset => "update_dataset"
    case GetPublicDataset => "get_public_dataset"
    case GetPublicDatasetSchema => "get_public_dataset_schema"
    case GetApiKeyStatus => "get_api_key_status"
  }

  function Title(t: Tool): string
  {
    match t
    case HealthCheck => "Health Check"
    case RegisterUser => "Register User"
    case RotateApiKey => "Rotate API Key"
    case CreateDataset => "Create Dataset"
    case UpdateDataset => "Update Dataset"
    case GetPublicDataset => "Get Public Dataset"
    case GetPublicDatasetSchema => "Get Public Dataset Schema"
    case GetApiKeyStatus => "Get API Key Status"
  }

  /** The tools whose handlers send the API key and refuse to run without one. */
  predicate NeedsKey(t: Tool)
  {
    t == RotateApiKey || t == CreateDataset || t == UpdateDataset
  }

  /** The input contract of each tool; an empty contract accepts every argument object. */
  function Contract(t: Tool): (ps: seq<Param>)
    ensures forall i, j :: 0 <= i < j < |ps| ==> ps[i].name != ps[j].name
    ensures ps == [] <==> t == HealthCheck || t == RotateApiKey || t == GetApiKeyStatus
    ensures forall i :: 0 <= i < |ps| ==> ps[i].rule.Str? || ps[i].name == "data"
  {
    match t
    case HealthCheck => []
    case RegisterUser => [Param("username", UsernameRule), Param("password", PasswordRule)]
    case RotateApiKey => []
    case CreateDataset => [Param("name", DatasetNameRule), Param("data", AnyJson(true))]
    case UpdateDataset => [Param("dataset_id", AnyString), Param("data", AnyJson(false))]
    case GetPublicDataset => [Param("username", AnyString), Param("dataset_id", AnyString)]
    case GetPublicDatasetSchema => [Param("username", AnyString), Param("dataset_id", AnyString)]
    case GetApiKeyStatus => []
  }

  function ToolOf(c: Call): Tool
  {
    match c
    case CheckHealth => HealthCheck
    case Register(_, _) => RegisterUser
    case RotateKey => RotateApiKey
    case Create(_, _) => CreateDataset
    case Update(_, _) => UpdateDataset
    case FetchDataset(_, _) => GetPublicDataset
    case FetchSchema(_, _) => GetPublicDatasetSchema
    case KeyStatus => GetApiKeyStatus
  }

  /** The first tool of `ts` with the given name. */
  function Find(ts: seq<Tool>, name: string): (r: Option<Tool>)
    ensures r.Some? ==> r.value in ts && Name(r.value) == name
    ensures r.None? ==> forall i :: 0 <= i < |ts| ==> Name(ts[i]) != name
  {
    if ts == [] then None
    else if Name(ts[0]) == name then Some(ts[0])
    else Find(ts[1..], name)
  }

  /** Dispatch by name: the registered tool called `name`, if any. */
  function ToolNamed(name: string): (r: Option<Tool>)
    ensures r.Some? ==> Name(r.value) == name
  {
    Find(Tools, name)
  }

  /** The position of each tool in the registry. */
  function Position(t: Tool): (i: nat)
    ensures i < |Tools| && Tools[i] == t
  {
    match t
    case HealthCheck => 0
    case RegisterUser => 1
    case RotateApiKey => 2
    case CreateDataset => 3
    case UpdateDataset => 4
    case GetPublicDataset => 5
    case GetPublicDatasetSchema => 6
    case GetApiKeyStatus => 7
  }

  /** No two registered tools share a name. */
  lemma RegistryWellFormed()
    ensures forall i, j :: 0 <= i < j < |Tools| ==> Name(Tools[i]) != Name(Tools[j])
  {
  }

  /** Looking a tool up by its own name finds that tool: names identify tools. */
  lemma ToolNamedName(t: Tool)
    ensures ToolNamed(Name(t)) == Some(t)
  {
    RegistryWellFormed();
    var i := Position(t);
    var u := Position(ToolNamed(Name(t)).value);
  }

  /** Every validated string argument is present and a string. */
  lemma StringsPresent(params: seq<Param>, args: Args, k: nat)
    requires Issues(params, args) == []
    requires k < |params| && params[k].rule.Str?
    ensures StrArg(args, params[k].name).Some?
    ensures Admits(params[k].rule, Some(JString(StrArg(args, params[k].name).value)))
  {
    assert Admits(params[k].rule, Lookup(args, params[k].name));
  }

  /** The string arguments each tool's handler destructures are present. */
  predicate Destructurable(t: Tool, args: Args)
  {
    match t
    case RegisterUser => StrArg(args, "username").Some? && StrArg(args, "password").Some?
    case CreateDataset => StrArg(args, "name").Some?
    case UpdateDataset => StrArg(args, "dataset_id").Some?
    case GetPublicDataset => StrArg(args, "username").Some? && StrArg(args, "dataset_id").Some?
    case GetPublicDatasetSchema => StrArg(args, "username").Some? && StrArg(args, "dataset_id").Some?
    case _ => true
  }

  /** Arguments that passed validation can be destructured by the handler. */
  lemma ArgumentsPresent(t: Tool, args: Args)
    requires Issues(Contract(t), args) == []
    ensures Destructurable(t, args)
  {
    match t
    case RegisterUser =>
      StringsPresent(Contract(t), args, 0);
      StringsPresent(Contract(t), args, 1);
    case CreateDataset =>
      StringsPresent(Contract(t), args, 0);
    case UpdateDataset =>
      StringsPresent(Contract(t), args, 0);
    case GetPublicDataset =>
      StringsPresent(Contract(t), args, 0);
      StringsPresent(Contract(t), args, 1);
    case GetPublicDatasetSchema =>
      StringsPresent(Contract(t), args, 0);
      StringsPresent(Contract(t), args, 1);
    case _ =>
  }

  /** The handler's input, built from arguments that passed validation. */
  function Build(t: Tool, args: Args): (c: Call)
    requires Destructurable(t, args)
    ensures ToolOf(c) == t
  {
    match t
    case HealthCheck => CheckHealth
    case RegisterUser => Register(StrArg(args, "username").value, StrArg(args, "password").value)
    case RotateApiKey => RotateKey
    case CreateDataset => Create(StrArg(args, "name").value, Lookup(args, "data"))
    case UpdateDataset => Update(StrArg(args, "dataset_id").value, Lookup(args, "data"))
    case GetPublicDataset => FetchDataset(StrArg(args, "username").value, StrArg(args, "dataset_id").value)
    case GetPublicDatasetSchema => FetchSchema(StrArg(args, "username").value, StrArg(args, "dataset_id").value)
    case GetApiKeyStatus => KeyStatus
  }

  /**
   * Validation before the handler runs: either every issue of the contract, each
   * naming a declared parameter, or the tool's call; arguments the contract does
   * not declare are dropped.
   */
  function Parse(t: Tool, args: Args): (r: Result<Call, seq<Issue>>)
    ensures r.Failure? <==> exists i :: 0 <= i < |Contract(t)| && !Admits(Contract(t)[i].rule, Lookup(args, Contract(t)[i].name))
    ensures r.Failure? ==> r.error != []
    ensures r.Failure? ==> forall k :: 0 <= k < |r.error| ==> r.error[k].path in Names(Contract(t))
    ensures r.Success? ==> ToolOf(r.value) == t
  {
    var issues := Issues(Contract(t), args);
    if issues != [] then Failure(issues)
    else
      ArgumentsPresent(t, args);
      Success(Build(t, args))
  }

  /** `register_user` runs iff the username has 3 to 50 characters of `[a-zA-Z0-9_-]` and the password 8 to 100. */
  lemma RegisterValidation(args: Args)
    ensures Parse(RegisterUser, args).Success? <==>
      (&& StrArg(args, "username").Some? && ValidUsername(StrArg(args, "username").value)
       && StrArg(args, "password").Some? && ValidPassword(StrArg(args, "password").value))
    ensures Parse(RegisterUser, args).Success?
        ==> Parse(RegisterUser, args).value == Register(StrArg(args, "username").value, StrArg(args, "password").value)
  {
    var c := Contract(RegisterUser);
    UsernameRuleMeaning(Lookup(args, "username"));
    PasswordRuleMeaning(Lookup(args, "password"));
    assert c[0].name == "username" && c[1].name == "password";
  }

  /** `create_dataset` runs iff the name has 1 to 100 characters; `data` may be absent or any value. */
  lemma CreateValidation(args: Args)
    ensures Parse(CreateDataset, args).Success?
        <==> StrArg(args, "name").Some? && ValidDatasetName(StrArg(args, "name").value)
    ensures Parse(CreateDataset, args).Success?
        ==> Parse(CreateDataset, args).value == Create(StrArg(args, "name").value, Lookup(args, "data"))
  {
    var c := Contract(CreateDataset);
    DatasetNameRuleMeaning(Lookup(args, "name"));
    assert c[0].name == "name" && c[1].rule.AnyJson?;
  }

  /**
   * `update_dataset` runs iff `dataset_id` is a string, of any length including 0;
   * `data`, declared with `z.any()`, admits `undefined` and so may be absent.
   */
  lemma UpdateValidation(args: Args)
    ensures Parse(UpdateDataset, args).Success? <==> StrArg(args, "dataset_id").Some?
    ensures Parse(UpdateDataset, args).Success?
        ==> Parse(UpdateDataset, args).value == Update(StrArg(args, "dataset_id").value, Lookup(args, "data"))
  {
    var c := Contract(UpdateDataset);
    assert c[0].name == "dataset_id" && c[1].rule.AnyJson?;
  }

  /** The public dataset tools run iff both `username` and `dataset_id` are strings, of any length. */
  lemma PublicDatasetValidation(t: Tool, args: Args)
    requires t == GetPublicDataset || t == GetPublicDatasetSchema
    ensures Parse(t, args).Success? <==> StrArg(args, "username").Some? && StrArg(args, "dataset_id").Some?
    ensures Parse(t, args).Success? ==>
      var c := Parse(t, args).value;
      c.owner == StrArg(args, "username").value && c.datasetId == StrArg(args, "dataset_id").value
  {
    var c := Contract(t);
    assert c[0].name == "username" && c[1].name == "dataset_id";
  }

  /** The tools with an empty contract run whatever the arguments. */
  lemma ParameterlessAcceptAll(t: Tool, args: Args)
    requires Contract(t) == []
    ensures Parse(t, args).Success?
    ensures t == HealthCheck || t == RotateApiKey || t == GetApiKeyStatus
  {
  }
}
