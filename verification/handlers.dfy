/**
 * The eight tool handlers: given the validated call, the resolved API key and
 * what the one `fetch` would produce, the request issued (if any) and the text
 * report returned to the host. Every path, the catch blocks included, ends in a
 * report; nothing escapes a handler.
 */
module Handlers {
  import opened Wrappers
  import opened Schema
  import opened Registry
  import opened Requests
  import Config
  import Decimal

  /**
   * Reading a response body: `Read(content)` is the rendered body (the raw text for
   * `response.text()`, the result of `JSON.stringify(data, null, 2)` for
   * `response.json()`), `ReadFails(error)` the stringified exception it throws.
   */
  datatype BodyRead = Read(content: string) | ReadFails(error: string)

  /**
   * What the handler's `fetch` produces: an exception (network failure), or a
   * response with its status and what each way of reading its body would give.
   */
  datatype Outcome = Thrown(error: string) | Resp(status: nat, text: BodyRead, json: BodyRead)

  /** `response.ok`. */
  predicate Ok(status: int)
  {
    200 <= status <= 299
  }

  /** The operations named by the JSON-returning tools. */
  datatype Operation =
    | Registration
    | KeyRotation
    | DatasetCreation
    | DatasetUpdate
    | DatasetRetrieval
    | SchemaRetrieval

  function OperationName(op: Operation): string
  {
    match op
    case Registration => "Registration"
    case KeyRotation => "Key rotation"
    case DatasetCreation => "Dataset creation"
    case DatasetUpdate => "Dataset update"
    case DatasetRetrieval => "Dataset retrieval"
    case SchemaRetrieval => "Schema retrieval"
  }

  /** The opening of the report of an authenticated tool run without a key. */
  const NoKeyLead := "Error: No API key provided."

  /** The first line(s) of a report, one constructor per way a handler can end. */
  datatype StatusLine =
    | HealthStatus(code: nat, text: string)
    | HealthCheckFailed(error: string)
    | Completed(op: Operation, ok: bool, body: string)
    | Failed(op: Operation, error: string)
    | NoApiKey
    | KeyNotConfigured
    | KeyConfigured(masked: string, healthy: bool)
    | KeyCheckError(error: string)

  /**
   * The rendered status line: never empty, and the free text a line carries (the
   * response body, the stringified error) comes last, unaltered.
   */
  function Line(s: StatusLine): (r: string)
    ensures r != []
    ensures s.Completed? ==> EndsWith(r, s.body)
    ensures s.HealthStatus? ==> EndsWith(r, s.text)
    ensures s.HealthCheckFailed? || s.Failed? || s.KeyCheckError? ==> EndsWith(r, s.error)
  {
    match s
    case HealthStatus(code, text) => "Health Status: " + Decimal.Show(code) + " - " + text
    case HealthCheckFailed(error) => "Health check failed: " + error
    case Completed(op, ok, body) => OperationName(op) + " " + (if ok then "successful" else "failed") + ": " + body
    case Failed(op, error) => OperationName(op) + " failed: " + error
    case NoApiKey => NoKeyLead + " Set BAKUL_API_KEY environment variable."
    case KeyNotConfigured => "API Key Status: Not configured"
    case KeyConfigured(masked, healthy) =>
      "API Key Status: Configured (" + masked + "...)" + HealthLine(healthy)
    case KeyCheckError(error) => "API Key Status: Error checking status - " + error
  }

  /** The second line of a configured key's status. */
  function HealthLine(healthy: bool): string
  {
    "\nAPI Health: " + (if healthy then "Healthy" else "Unhealthy")
  }

  /** The fixed "Tool Usage" hints. */
  datatype Hint =
    | VerifyAvailability | ApiUnavailable
    | SaveRegisteredKey | CheckCredentials
    | RegisterForRotation | StoreRotatedKey | CheckCurrentKey
    | RegisterForDatasets | SaveDatasetId | CheckKeyAndFormat
    | ChangesAvailable | CheckDatasetPermission
    | UseRetrievedData | CheckPublicDataset
    | UseSchema | CheckSchemaExists
    | SetKeyOrRegister | KeyReady | CheckKeyAndNetwork

  /** The hint text, word for word, after "Tool Usage: ". */
  function HintText(h: Hint): string
  {
    match h
    case VerifyAvailability =>
      "Use this to verify API availability before making other requests."
    case ApiUnavailable =>
      "API appears to be unavailable. Check network connection and try again."
    case SaveRegisteredKey =>
      ("Save the API key from successful registration for use with other tools "
       + "that require authentication.")
    case CheckCredentials =>
      "Check your network connection and verify the provided credentials are valid."
    case RegisterForRotation =>
      "Register a user first to get an API key, then use it for key rotation."
    case StoreRotatedKey =>
      "Update your stored API key with the new key returned. The old key is now invalid."
    case CheckCurrentKey =>
      "Verify your current API key is valid and not expired."
    case RegisterForDatasets =>
      "Register a user first to get an API key, then use it for dataset operations."
    case SaveDatasetId =>
      ("Save the dataset ID from successful creation for future updates or sharing. "
       + "Dataset is private by default.")
    case CheckKeyAndFormat =>
      "Verify your API key is valid and check the dataset content format."
    case ChangesAvailable =>
      ("Changes are immediately available. "
       + "Use get_public_dataset to verify updates for public datasets.")
    case CheckDatasetPermission =>
      "Verify the dataset ID exists and you have permission to update it."
    case UseRetrievedData =>
      ("This data can be analyzed, processed, or used as input for other operations. "
       + "Only public datasets are accessible via this method.")
    case CheckPublicDataset =>
      "Verify the username and dataset ID are correct and that the dataset is public."
    case UseSchema =>
      ("Use this schema to understand the structure and types of data in the dataset "
       + "before processing or analysis.")
    case CheckSchemaExists =>
      "Verify the dataset exists, is public, and has a defined schema."
    case SetKeyOrRegister =>
      "Set BAKUL_API_KEY environment variable or register a new user to get an API key."
    case KeyReady =>
      "Your API key is ready for use with dataset operations."
    case CheckKeyAndNetwork =>
      "Verify your API key and network connection."
  }

  /** A report: its status line and its usage hint. */
  datatype Report = Report(status: StatusLine, hint: Hint)

  /** The text content of a reply: `<status line>\n\nTool Usage: <hint>`. */
  function Text(r: Report): (t: string)
    ensures Line(r.status) <= t
    ensures EndsWith(t, HintText(r.hint))
  {
    var line, hint := Line(r.status), HintText(r.hint);
    var t := (line + UsageLead) + hint;
    assert t[..|line|] == line;
    assert t[|t| - |hint|..] == hint;
    t
  }

  const UsageLead := "\n\nTool Usage: "

  /** What one invocation does: at most one request, and exactly one report. */
  datatype Reply = Reply(request: Option<Request>, report: Report)

  predicate EndsWith(s: string, suffix: string)
  {
    |suffix| <= |s| && s[|s| - |suffix|..] == suffix
  }

  /** How the handler reads the response body. */
  datatype Reading = ReadsText | ReadsJson | ReadsNothing

  function ReadingOf(c: Call): Reading
  {
    if c.CheckHealth? then ReadsText else if c.KeyStatus? then ReadsNothing else ReadsJson
  }

  /** The exception caught by the handler's `catch`, if `fetch` or the body read throws. */
  function Caught(c: Call, o: Outcome): (e: Option<string>)
    ensures o.Thrown? ==> e == Some(o.error)
    ensures o.Resp? && ReadingOf(c) == ReadsNothing ==> e.None?
  {
    match o
    case Thrown(error) => Some(error)
    case Resp(_, text, json) =>
      match ReadingOf(c)
      case ReadsText => if text.ReadFails? then Some(text.error) else None
      case ReadsJson => if json.ReadFails? then Some(json.error) else None
      case ReadsNothing => None
  }

  function OperationOf(c: Call): Operation
    requires ReadingOf(c) == ReadsJson
  {
    match c
    case Register(_, _) => Registration
    case RotateKey => KeyRotation
    case Create(_, _) => DatasetCreation
    case Update(_, _) => DatasetUpdate
    case FetchDataset(_, _) => DatasetRetrieval
    case FetchSchema(_, _) => SchemaRetrieval
  }

  /** The hint of a report built from a response. */
  function SuccessHint(c: Call): Hint
  {
    match c
    case CheckHealth => VerifyAvailability
    case Register(_, _) => SaveRegisteredKey
    case RotateKey => StoreRotatedKey
    case Create(_, _) => SaveDatasetId
    case Update(_, _) => ChangesAvailable
    case FetchDataset(_, _) => UseRetrievedData
    case FetchSchema(_, _) => UseSchema
    case KeyStatus => KeyReady
  }

  /** The hint of each handler's `catch` block. */
  function FailureHint(c: Call): Hint
  {
    match c
    case CheckHealth => ApiUnavailable
    case Register(_, _) => CheckCredentials
    case RotateKey => CheckCurrentKey
    case Create(_, _) => CheckKeyAndFormat
    case Update(_, _) => CheckDatasetPermission
    case FetchDataset(_, _) => CheckPublicDataset
    case FetchSchema(_, _) => CheckSchemaExists
    case KeyStatus => CheckKeyAndNetwork
  }

  /** `apiKey.substring(0, 8)`: the first eight characters, or the whole key when shorter. */
  function Mask(key: string): (m: string)
    ensures |m| == if |key| < 8 then |key| else 8
    ensures m <= key
    ensures m == "" <==> key == ""
  {
    if |key| < 8 then key else key[..8]
  }

  /** The report of a handler that returned before `fetch` because the key is empty. */
  function MissingKeyReport(c: Call): (r: Report)
    ensures r.status == (if c.KeyStatus? then KeyNotConfigured else NoApiKey)
    ensures r.hint != SuccessHint(c) && r.hint != FailureHint(c)
  {
    match c
    case KeyStatus => Report(KeyNotConfigured, SetKeyOrRegister)
    case RotateKey => Report(NoApiKey, RegisterForRotation)
    case _ => Report(NoApiKey, RegisterForDatasets)
  }

  /** The report of a handler's `catch` block. */
  function CaughtReport(c: Call, error: string): (r: Report)
    ensures r.hint == FailureHint(c) != SuccessHint(c)
    ensures (r.status.HealthCheckFailed? || r.status.Failed? || r.status.KeyCheckError?) && r.status.error == error
    ensures EndsWith(Line(r.status), error)
  {
    match c
    case CheckHealth => Report(HealthCheckFailed(error), FailureHint(c))
    case KeyStatus => Report(KeyCheckError(error), FailureHint(c))
    case _ => Report(Failed(OperationOf(c), error), FailureHint(c))
  }

  /** The report built from a response whose body was read without an exception. */
  function ResponseReport(c: Call, key: string, o: Outcome): (r: Report)
    requires o.Resp? && Caught(c, o).None?
    ensures r.hint == SuccessHint(c) != FailureHint(c)
    ensures ReadingOf(c) == ReadsJson ==> r.status.Completed? && r.status.ok == Ok(o.status) && r.status.body == o.json.content
    ensures c.CheckHealth? ==> EndsWith(Line(r.status), o.text.content)
    ensures c.KeyStatus? ==> r.status.KeyConfigured? && r.status.masked <= key && r.status.healthy == Ok(o.status)
  {
    match c
    case CheckHealth => Report(HealthStatus(o.status, o.text.content), SuccessHint(c))
    case KeyStatus => Report(KeyConfigured(Mask(key), Ok(o.status)), SuccessHint(c))
    case _ => Report(Completed(OperationOf(c), Ok(o.status), o.json.content), SuccessHint(c))
  }

  /**
   * The report of one handler run: the outcome is consulted only when the handler
   * reaches `fetch`, and the hint is the catch block's exactly when an exception
   * was caught.
   */
  function Respond(c: Call, key: string, o: Outcome): (r: Report)
    ensures !Sends(c, key) ==> r.status == NoApiKey || r.status == KeyNotConfigured
    ensures Sends(c, key) ==> (r.hint == FailureHint(c) <==> Caught(c, o).Some?)
  {
    if !Sends(c, key) then MissingKeyReport(c)
    else if Caught(c, o).Some? then CaughtReport(c, Caught(c, o).value)
    else ResponseReport(c, key, o)
  }

  /** One handler run: the request it issues, if any, and its report. */
  function Handle(c: Call, key: string, o: Outcome): (r: Reply)
    ensures r.request.None? <==> !Sends(c, key)
    ensures r.request.None? ==> r.report == MissingKeyReport(c)
    ensures r.request.Some? && Caught(c, o).Some? ==> r.report == CaughtReport(c, Caught(c, o).value)
    ensures r.request.Some? ==> (HasHeader(r.request.value.headers, "Authorization") <==> NeedsKeyCall(c))
  {
    PlanShape(c, key);
    Reply(Plan(c, key), Respond(c, key, o))
  }

  /**
   * One tool invocation from the host: the arguments are validated first, and a
   * rejected call reaches no handler; otherwise the handler runs with the key
   * resolved from the environment.
   */
  function Invoke(t: Tool, args: Args, env: Config.Env, o: Outcome): (r: Result<Reply, seq<Issue>>)
    ensures r.Failure? <==> exists i :: 0 <= i < |Contract(t)| && !Admits(Contract(t)[i].rule, Lookup(args, Contract(t)[i].name))
    ensures r.Failure? ==> r.error != [] && forall k :: 0 <= k < |r.error| ==> r.error[k].path in Names(Contract(t))
    ensures r.Success? ==>
      (r.value.request.None? <==> (NeedsKey(t) || t == GetApiKeyStatus) && Config.ResolveKey(env) == "")
    ensures r.Success? && r.value.request.Some? ==>
      (HasHeader(r.value.request.value.headers, "Authorization") <==> NeedsKey(t))
    ensures r.Success? && NeedsKey(t) && Config.ResolveKey(env) != "" ==>
      !(NoKeyLead <= Text(r.value.report))
  {
    match Parse(t, args)
    case Failure(issues) => Failure(issues)
    case Success(c) =>
      var key := Config.ResolveKey(env);
      assert NeedsKeyCall(c) ==> (NoKeyLead <= Text(Respond(c, key, o)) <==> key == "") by {
        if NeedsKeyCall(c) {
          MissingKeyShortCircuits(c, key, o);
        }
      }
      Success(Handle(c, key, o))
  }

  /**
   * The three authenticated tools answer "Error: No API key provided." exactly when
   * the key is empty, and then make no request.
   */
  lemma MissingKeyShortCircuits(c: Call, key: string, o: Outcome)
    requires NeedsKeyCall(c)
    ensures NoKeyLead <= Line(Respond(c, key, o).status) <==> key == ""
    ensures NoKeyLead <= Text(Respond(c, key, o)) <==> key == ""
    ensures key == "" ==> Plan(c, key).None? && Respond(c, key, o).status == NoApiKey
  {
    var r := Respond(c, key, o);
    assert r.status == NoApiKey <==> key == "";
    NoKeyLeadOnlyForNoKey(r);
  }

  /** Only the missing-key status line opens with "Error: No API key provided."; every other starts with another letter. */
  lemma NoKeyLeadOpensNoApiKey(s: StatusLine)
    ensures s == NoApiKey ==> NoKeyLead <= Line(s)
    ensures s != NoApiKey ==> Line(s)[0] != NoKeyLead[0]
  {
    var line := Line(s);
    assert NoKeyLead[0] == 'E';
    match s
    case HealthStatus(_, _) => assert line[0] == 'H';
    case HealthCheckFailed(_) => assert line[0] == 'H';
    case Completed(op, _, _) => assert line[0] == OperationName(op)[0];
    case Failed(op, _) => assert line[0] == OperationName(op)[0];
    case NoApiKey => assert line == NoKeyLead + " Set BAKUL_API_KEY environment variable.";
    case KeyNotConfigured => assert line[0] == 'A';
    case KeyConfigured(_, _) => assert line[0] == 'A';
    case KeyCheckError(_) => assert line[0] == 'A';
  }

  /** Of all reports, only the missing-key one opens with "Error: No API key provided.", in its line and in its text. */
  lemma NoKeyLeadOnlyForNoKey(r: Report)
    ensures NoKeyLead <= Line(r.status) <==> r.status == NoApiKey
    ensures NoKeyLead <= Text(r) <==> r.status == NoApiKey
  {
    NoKeyLeadOpensNoApiKey(r.status);
    assert Text(r)[0] == Line(r.status)[0];
  }

  /** Through the whole invocation: with no key in the environment, a valid authenticated call issues no request. */
  lemma InvokeWithoutKey(t: Tool, args: Args, env: Config.Env, o: Outcome)
    requires NeedsKey(t) && Config.ResolveKey(env) == ""
    requires Parse(t, args).Success?
    ensures Invoke(t, args, env, o).Success?
    ensures Invoke(t, args, env, o).value.request.None?
    ensures NoKeyLead <= Text(Invoke(t, args, env, o).value.report)
  {
    MissingKeyShortCircuits(Parse(t, args).value, "", o);
  }

  /** A completed operation's line begins "<Operation> successful: " iff `ok`, and ends with the body. */
  lemma CompletedLine(op: Operation, ok: bool, body: string)
    ensures OperationName(op) + " successful: " <= Line(Completed(op, ok, body)) <==> ok
    ensures !ok ==> OperationName(op) + " failed: " <= Line(Completed(op, ok, body))
    ensures EndsWith(Line(Completed(op, ok, body)), ": " + body)
  {
    var name := OperationName(op);
    var s := Line(Completed(op, ok, body));
    var w := if ok then "successful" else "failed";
    assert s == (name + " " + w) + (": " + body);
    if !ok {
      assert s == (name + " failed: ") + body;
      assert s[|name| + 1] == 'f';
      assert (name + " successful: ")[|name| + 1] == 's';
    }
  }

  /** A failed operation's line begins "<Operation> failed: ", never "<Operation> successful: ". */
  lemma FailedLine(op: Operation, error: string)
    ensures OperationName(op) + " failed: " <= Line(Failed(op, error))
    ensures !(OperationName(op) + " successful: " <= Line(Failed(op, error)))
  {
    var name := OperationName(op);
    assert Line(Failed(op, error)) == (name + " failed: ") + error;
    assert Line(Failed(op, error))[|name| + 1] == 'f';
    assert (name + " successful: ")[|name| + 1] == 's';
  }

  /**
   * For the JSON-returning tools, once the request is made the status line begins
   * "<Operation> successful: " exactly when the response is `ok` and its body
   * parsed; a read response's line ends with the serialized body.
   */
  lemma StatusWordReflectsOk(c: Call, key: string, o: Outcome)
    requires ReadingOf(c) == ReadsJson && Sends(c, key)
    ensures OperationName(OperationOf(c)) + " successful: " <= Line(Respond(c, key, o).status)
        <==> o.Resp? && Ok(o.status) && o.json.Read?
    ensures !(o.Resp? && Ok(o.status) && o.json.Read?)
        ==> OperationName(OperationOf(c)) + " failed: " <= Line(Respond(c, key, o).status)
    ensures o.Resp? && o.json.Read? ==> EndsWith(Line(Respond(c, key, o).status), ": " + o.json.content)
  {
    var op := OperationOf(c);
    if o.Resp? && o.json.Read? {
      assert Respond(c, key, o).status == Completed(op, Ok(o.status), o.json.content);
      CompletedLine(op, Ok(o.status), o.json.content);
    } else {
      assert Respond(c, key, o).status == Failed(op, Caught(c, o).value);
      FailedLine(op, Caught(c, o).value);
    }
  }

  /**
   * `health_check` never tests `ok`: whenever the body is read, the line is
   * "Health Status: <status> - <text>", whose digits read back as the status code.
   */
  lemma HealthReportsAnyStatus(key: string, status: nat, text: string, json: BodyRead)
    ensures
      var s := Line(Respond(CheckHealth, key, Resp(status, Read(text), json)).status);
      var digits := Decimal.Show(status);
      && s == "Health Status: " + digits + " - " + text
      && (forall i :: 0 <= i < |digits| ==> Decimal.IsDigit(digits[i]))
      && Decimal.Value(digits) == status
  {
    Decimal.ValueOfShow(status);
  }

  /**
   * An exception, whether from `fetch` or from reading the body, becomes the one
   * "<Operation> failed: <error>" report, ending with the error, with the tool's
   * fixed catch hint.
   */
  lemma ExceptionBecomesReport(c: Call, key: string, o: Outcome)
    requires Sends(c, key) && Caught(c, o).Some?
    ensures Respond(c, key, o) == CaughtReport(c, Caught(c, o).value)
    ensures EndsWith(Line(Respond(c, key, o).status), Caught(c, o).value)
    ensures Respond(c, key, o).hint == FailureHint(c) != SuccessHint(c)
  {
  }

  /** A response whose body cannot be read reports like a network exception carrying the same error. */
  lemma BodyFailureLikeNetworkFailure(c: Call, key: string, status: nat, error: string)
    requires !c.KeyStatus?
    ensures Handle(c, key, Resp(status, ReadFails(error), ReadFails(error))) == Handle(c, key, Thrown(error))
  {
  }

  /** With an empty key, `get_api_key_status` reports "Not configured" and makes no request. */
  lemma KeyStatusUnconfigured(o: Outcome)
    ensures Handle(KeyStatus, "", o) == Reply(None, Report(KeyNotConfigured, SetKeyOrRegister))
  {
  }

  /**
   * `get_api_key_status` reveals no more of the key than its first eight
   * characters: two keys with the same prefix give the same reply.
   */
  lemma KeyStatusRevealsOnlyMask(k1: string, k2: string, o: Outcome)
    requires Mask(k1) == Mask(k2)
    ensures Handle(KeyStatus, k1, o) == Handle(KeyStatus, k2, o)
  {
  }

  /**
   * With a key, the status line shows the masked key followed by "...", never reads
   * the body, and ends "API Health: Healthy" exactly when the response is `ok`.
   */
  lemma KeyStatusHealth(key: string, status: nat, text: BodyRead, json: BodyRead)
    requires key != ""
    ensures
      var s := Line(Respond(KeyStatus, key, Resp(status, text, json)).status);
      && "API Key Status: Configured (" + Mask(key) + "...)" <= s
      && (EndsWith(s, "API Health: Healthy") <==> Ok(status))
  {
    var head := "API Key Status: Configured (" + Mask(key) + "...)";
    var s := Line(Respond(KeyStatus, key, Resp(status, text, json)).status);
    assert s == head + HealthLine(Ok(status));
    EndsWithAppend(head, HealthLine(Ok(status)), "API Health: Healthy");
    HealthyWord();
  }

  /** Only the healthy second line ends with "API Health: Healthy". */
  lemma HealthyWord()
    ensures EndsWith(HealthLine(true), "API Health: Healthy")
    ensures !EndsWith(HealthLine(false), "API Health: Healthy")
  {
    assert HealthLine(true) == "\n" + "API Health: Healthy";
    assert HealthLine(true)[1..] == "API Health: Healthy";
    assert |HealthLine(false)| == 22;
    assert HealthLine(false)[3] == 'I';
  }

  lemma EndsWithAppend(a: string, b: string, suffix: string)
    requires |suffix| <= |b|
    ensures EndsWith(a + b, suffix) <==> EndsWith(b, suffix)
  {
    assert (a + b)[|a + b| - |suffix|..] == b[|b| - |suffix|..];
  }

  /** The tools that do not use the key behave the same whatever key is configured. */
  lemma KeyIrrelevantToPublicTools(c: Call, k1: string, k2: string, o: Outcome)
    requires !NeedsKeyCall(c) && !c.KeyStatus?
    ensures Handle(c, k1, o) == Handle(c, k2, o)
  {
  }

  /** When no request is made, nothing about the network can change the reply. */
  lemma NoRequestNoDependence(c: Call, key: string, o1: Outcome, o2: Outcome)
    requires !Sends(c, key)
    ensures Handle(c, key, o1) == Handle(c, key, o2)
  {
  }
}
