# bakul-mcp: a Dafny model of the tool layer

bakul-mcp is a Model Context Protocol server. It exposes the Bakul HTTP API
(`https://ba.kul.to/api`) to an agent host as eight tools: `health_check`,
`register_user`, `rotate_api_key`, `create_dataset`, `update_dataset`,
`get_public_dataset`, `get_public_dataset_schema` and `get_api_key_status`.
One invocation goes through these steps:

- the MCP SDK validates the arguments against the tool's declared zod schema,
  and a rejected call never reaches the handler;
- the three authenticated handlers (`rotate_api_key`, `create_dataset`,
  `update_dataset`) and `get_api_key_status` resolve an API key from the
  environment and return early when it is empty; `health_check`,
  `register_user` and the two public-dataset handlers never read it;
- a handler that does not return early makes one `fetch` call;
- it turns the response, or the caught exception, into one text report.

This project models that decision layer as pure functions and proves its
properties. The network call is an input: a value of type `Outcome`.

Modules, one per file:

- `Wrappers` (wrappers.dfy): `Option` and `Result`.
- `Config` (config.dfy): `getApiKey`, modelled as `BAKUL_API_KEY || API_KEY || ''`
  under JavaScript truthiness. An unset variable (`None`) and an empty one are both falsy.
- `Decimal` (decimal.dfy): how the HTTP status number is printed in the health
  report. A reading-back function proves that the rendering loses nothing.
- `Schema` (schema.dfy): the zod constraints as data (`Rule`, `Param`) and
  validation as a list of `Issue`s, one per failed check, each naming its parameter.
- `Registry` (registry.dfy): the eight tools, their names, titles and input
  contracts, lookup by name, and `Parse`. `Parse` turns a validated argument
  object into a `Call`, the handler's typed input.
- `Requests` (requests.dfy): `Plan` builds the request a handler issues
  (method, URL, headers, JSON body), or `None` when the handler returns before
  `fetch`. URLs are the base plus the arguments spliced in unescaped.
  `Segments`, `Join` and `Split` give the reference reading of a path.
- `Handlers` (handlers.dfy):
  - `Outcome` is what `fetch` yields: a thrown error, or a status code plus the
    result of reading the body as text and as JSON.
  - `Respond` picks the report.
  - `Handle` pairs the report with the request.
  - `Invoke` is the whole invocation of a known tool: validate, then resolve the
    key, then handle. Looking a tool up by its name (`Registry.ToolNamed`) is the
    SDK's dispatch and is modelled on its own; `Invoke` starts from the tool it finds.
  - A report is a `StatusLine` and a `Hint`. `Line`, `HintText` and `Text` render
    them as the exact strings the source returns.

The handler's parameter type `{ dataset_id: string; data: any }`
(src/index.ts:235) reads as if `update_dataset` required `data`, but its schema
`z.any()` (src/index.ts:232) also accepts a missing value, so `data` is not
actually required. The model
treats it as optional: `UpdateValidation` proves that only `dataset_id` is
checked. Without `data`, the request body is the empty object (`AbsentDataIsOmitted`).

## Model

| member | source | states |
|---|---|---|
| `Config.ResolveKey` | src/index.ts:16-18 | the key is BAKUL_API_KEY when that is non-empty, else API_KEY when that is non-empty, else ""; the result is "" exactly when both are unset or empty |
| `Config.FirstNonEmptyChoice` | src/index.ts:16-18 | the reference "first non-empty source" is "" iff every source is unset or empty, and otherwise equals some truthy source with no truthy source before it |
| `Config.ResolveKeyIsFirstNonEmpty` | src/index.ts:17 | `getApiKey` equals the first non-empty of [BAKUL_API_KEY, API_KEY] |
| `Config.EmptyPrimaryFallsThrough` | src/index.ts:17 | an empty BAKUL_API_KEY behaves like an unset one and does not block the API_KEY fallback |
| `Decimal.ValueOfShow` | src/index.ts:44 | the decimal text of a status code reads back as that code |
| `Decimal.ShowInjective` | src/index.ts:44 | different status codes print differently |
| `Decimal.Show` | src/index.ts:44 | `${response.status}` prints at least one decimal digit, only digits, and no leading zero |
| `Schema.ParamIssues` | src/index.ts:69-75 | one parameter gets no issue iff its value satisfies its rule; every issue names that parameter |
| `Schema.Issues` | src/index.ts:68-76 | a contract yields no issue iff every parameter's value satisfies its rule; every issue names a declared parameter |
| `Schema.UsernameRuleMeaning` | src/index.ts:69-74 | the username rule admits exactly strings of length 3 to 50 over `[a-zA-Z0-9_-]` |
| `Schema.PasswordRuleMeaning` | src/index.ts:75 | the password rule admits exactly strings of length 8 to 100 |
| `Schema.DatasetNameRuleMeaning` | src/index.ts:173 | the dataset name rule admits exactly strings of length 1 to 100 |
| `Schema.UsernameIssuesExample` | src/index.ts:69-74 | "a!" gets both a too-short and a pattern issue, in declaration order; a missing username gets one type issue |
| `Registry.RegistryWellFormed` | src/index.ts:29-360 | the eight registered tool names are pairwise distinct |
| `Registry.ToolNamed` | src/index.ts:9-11 | dispatch by name returns only a tool with that name |
| `Registry.ToolNamedName` | src/index.ts:9-11 | looking a tool up by its own name returns that tool |
| `Registry.Parse` | src/index.ts:68-76 | validation fails iff some declared parameter's value breaks its rule; it then gives a non-empty list of issues naming declared parameters; otherwise it gives a call of the same tool |
| `Registry.RegisterValidation` | src/index.ts:69-78 | `register_user` runs iff the username has 3 to 50 characters from `[a-zA-Z0-9_-]` and the password 8 to 100; the handler gets exactly those strings |
| `Registry.CreateValidation` | src/index.ts:173-177 | `create_dataset` runs iff the name has 1 to 100 characters; `data` may be absent or any value and is passed on as given |
| `Registry.UpdateValidation` | src/index.ts:231-235 | `update_dataset` runs iff `dataset_id` is a string, the empty string included; `data` may be absent |
| `Registry.PublicDatasetValidation` | src/index.ts:289-293 | the two public-dataset tools run iff `username` and `dataset_id` are strings of any length, and receive them unchanged |
| `Registry.ParameterlessAcceptAll` | src/index.ts:33 | the tools with an empty schema (health, rotation, key status) accept any argument object |
| `Registry.Contract` | src/index.ts:33-364 | each tool's `inputSchema`: parameter names are distinct within a schema, the schema is empty exactly for health, key rotation and key status, and every declared parameter but `data` is a string |
| `Registry.Build` | src/index.ts:78 | the destructured handler input belongs to the tool that was validated |
| `Requests.Plan` | src/index.ts:122-140 | a request is made exactly when the handler does not stop on an empty key |
| `Requests.PlanShape` | src/index.ts:80-86 | the Authorization header is present exactly on the three authenticated tools and reads "Bearer " + key; POST and PUT carry the JSON content type; GET requests carry no headers; only POST or PUT have a body |
| `Requests.PathFollowsSegments` | src/index.ts:249 | every path is the endpoint's segments, each after a slash: /health, /register, /rotate-key, /datasets, /datasets/{id}, /datasets/{user}/{id}, /datasets/{user}/{id}/schema |
| `Requests.SplitJoin` | src/index.ts:295 | when no segment contains a slash, splitting the path gives the segments back |
| `Requests.UrlDeterminesSegments` | src/index.ts:295 | two requests with the same URL and slash-free arguments have the same endpoint and arguments |
| `Requests.UnescapedIdReachesSchema` | src/index.ts:295 | arguments are not escaped: a dataset id ending in "/schema" produces the schema request of the shorter id |
| `Requests.KeyStatusProbeIsAnonymous` | src/index.ts:382 | the key-status probe is the plain health request and never carries the key |
| `Requests.AbsentDataIsOmitted` | src/index.ts:197 | without data, create sends only the name and update sends an empty object |
| `Requests.Verb` | src/index.ts:80-81 | a request is a POST or PUT exactly for registration and the three authenticated tools; all others are GET |
| `Requests.Path` | src/index.ts:249 | every path starts with a slash; the dataset paths start "/datasets/", and the update and retrieval paths end with the dataset id exactly as given |
| `Requests.Headers` | src/index.ts:134-140 | the Authorization header is present iff the tool is authenticated; every header is the JSON content type or "Bearer " + key; writes carry the JSON content type; GET requests carry none |
| `Requests.Body` | src/index.ts:197 | only writes have a body, and every field it sends is a parameter the tool's schema declares |
| `Handlers.Caught` | src/index.ts:48 | a thrown `fetch` is caught with its error; `get_api_key_status` never reads the body and so never catches a body error |
| `Handlers.Mask` | src/index.ts:389 | the masked key is the key's first min(8, length) characters and is empty only for the empty key |
| `Handlers.Respond` | src/index.ts:120-161 | with no request the report is the missing-key or not-configured one; otherwise the hint is the catch block's exactly when an exception was caught |
| `Handlers.MissingKeyReport` | src/index.ts:370-379 | the early return gives "Not configured" for the key status check and the no-key error otherwise, with a hint that is neither the success nor the catch hint |
| `Handlers.CaughtReport` | src/index.ts:98-107 | a catch block's report carries the tool's catch hint, never its success hint, and a line that ends with the stringified error |
| `Handlers.ResponseReport` | src/index.ts:88-96 | a read response gets the success hint; a JSON tool's line records `response.ok` and the serialized body; health ends with the body text; key status records a prefix of the key and `response.ok` as its health |
| `Handlers.Handle` | src/index.ts:120-161 | a handler makes a request iff it does not stop on an empty key, and then reports the missing key; a caught exception gives the catch report; the Authorization header is sent iff the tool is authenticated |
| `Handlers.Invoke` | src/index.ts:9-11 | an invocation is rejected iff some declared parameter's value breaks its rule, with a non-empty list of issues naming declared parameters; an accepted one makes no request exactly when the tool is authenticated or the key status check and the environment key is empty; a request carries an Authorization header iff the tool is authenticated; an authenticated tool with a key never answers "Error: No API key provided." |
| `Handlers.Line` | src/index.ts:44-398 | every status line is non-empty and ends with the text it carries, unaltered: the serialized body, the health body text, or the stringified error |
| `Handlers.Text` | src/index.ts:389 | a reply's text starts with its status line and ends with its usage hint |
| `Handlers.MissingKeyShortCircuits` | src/index.ts:122-132 | an authenticated tool's status line, and its whole text, start "Error: No API key provided." iff the key is empty, and then no request is made |
| `Handlers.NoKeyLeadOpensNoApiKey` | src/index.ts:128 | only the missing-key status line opens with "Error: No API key provided."; every other line opens with a different letter |
| `Handlers.NoKeyLeadOnlyForNoKey` | src/index.ts:185 | a report's line, and its text, open with "Error: No API key provided." iff its status is the missing-key one |
| `Handlers.InvokeWithoutKey` | src/index.ts:179-189 | with no key in the environment, a valid create, update or rotate call issues no request and its text starts "Error: No API key provided." |
| `Handlers.CompletedLine` | src/index.ts:94 | a completed operation's line starts "<Operation> successful: " iff `ok`, and "<Operation> failed: " when not; it ends with the serialized body |
| `Handlers.FailedLine` | src/index.ts:103 | the catch line of an operation starts "<Operation> failed: " and never "<Operation> successful: " |
| `Handlers.StatusWordReflectsOk` | src/index.ts:264 | for the JSON tools, the line starts "<Operation> successful: " iff the status is 200 to 299 and the body parsed, and otherwise (a non-ok status or a caught exception) starts "<Operation> failed: "; a parsed body is embedded at the end |
| `Handlers.HealthReportsAnyStatus` | src/index.ts:37-44 | health_check never tests `ok`: the line is "Health Status: <status> - <text>" whatever the status, and its digits read back as the status |
| `Handlers.ExceptionBecomesReport` | src/index.ts:306-315 | an exception from `fetch` or from reading the body becomes the catch report, whose line ends with the error, with the tool's fixed catch hint, which is not its success hint |
| `Handlers.BodyFailureLikeNetworkFailure` | src/index.ts:334 | a body that cannot be read gives the same reply as a network exception with the same error |
| `Handlers.KeyStatusUnconfigured` | src/index.ts:370-379 | with an empty key, get_api_key_status reports "Not configured" and makes no request |
| `Handlers.KeyStatusRevealsOnlyMask` | src/index.ts:389 | two keys with the same first eight characters give identical replies, so nothing past the eighth character is revealed |
| `Handlers.KeyStatusHealth` | src/index.ts:382-389 | with a key, the line starts "API Key Status: Configured (<mask>...)" and ends "API Health: Healthy" iff the probe's status is 200 to 299 |
| `Handlers.HealthyWord` | src/index.ts:389 | only the healthy second line ends with "API Health: Healthy" |
| `Handlers.KeyIrrelevantToPublicTools` | src/index.ts:293-295 | the tools that do not read the key give the same reply whatever the key is |
| `Handlers.NoRequestNoDependence` | src/index.ts:237-247 | when no request is made, the reply does not depend on the network outcome |

## Left out

- The MCP server object, the untyped `registerToolWithSchema` shim, the stdio transport and the `main` bootstrap with `process.exit(1)`. These are library calls and process I/O (src/index.ts:4-11, 21-24, 406-416). `Invoke` stands for what the shim's registration does with one call.
- The network. `fetch` is an `Outcome` parameter, not an effect.
- `JSON.stringify(…, null, 2)` and the `${error}` template. Both are opaque: the outcome carries the already rendered body text and error text.
- How zod's rejection reaches the host. The model returns the list of issues, and no handler runs. zod's message wording is not modelled.
- Keys that the schema does not declare. zod strips them, and the model simply never reads them.
- Character counts. zod's length checks and `substring(0, 8)` count UTF-16 code units, while the model counts characters. The two differ only for characters outside the Basic Multilingual Plane. The username pattern is ASCII-only, so there they agree.
- JSON numbers are integers in `Schema.Json`. Fractions play no role in any decision here.
- The tool and parameter description strings, which are discovery text only. Titles are modelled.
- The "max 5MB" note on `data`. It appears only in description text and no code enforces it.
- URL parsing beyond slashes. A `?` or `#` inside an argument would also change how the URL is read. The model works on the URL as a string.
- The test file. It checks only mocked environment values and zod's own behaviour.
- HintText: the nineteen usage hints are the source's words as data, with no contract of their own. Any contract over these long literals exceeds the verifier's resource limit, so `Text` states only where the hint goes.
- ExceptionBecomesReport: it shows that the catch hint differs from the success hint by hint identity; it does not compare the two rendered hint texts.
