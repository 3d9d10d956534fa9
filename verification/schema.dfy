/**
 * The input contracts the tools declare (zod schemas), kept as data, and the
 * validation that runs on a tool's arguments before its handler is entered.
 */
module Schema {
  import opened Wrappers

  /** A JSON value as the host sends it in a tool's argument object. */
  datatype Json =
    | JNull
    | JBool(b: bool)
    | JNumber(n: int)
    | JString(s: string)
    | JArray(items: seq<Json>)
    | JObject(fields: seq<(string, Json)>)

  /** The argument object of one invocation; a key that is not present is `undefined`. */
  type Args = map<string, Json>

  /**
   * What a schema says about one parameter: a string with optional length bounds
   * and, optionally, the pattern `^[a-zA-Z0-9_-]+$`; or any JSON value at all.
   */
  datatype Rule =
    | Str(minLength: Option<nat>, maxLength: Option<nat>, slug: bool)
    | AnyJson(declaredOptional: bool)

  datatype Param = Param(name: string, rule: Rule)

  /** The kinds of problem the validator reports, one per failed check. */
  datatype Problem = InvalidType | TooSmall(minimum: nat) | TooBig(maximum: nat) | InvalidPattern

  /** One validation issue, naming the offending parameter. */
  datatype Issue = Issue(path: string, problem: Problem)

  /** `username`: 3 to 50 characters from `[a-zA-Z0-9_-]`. */
  const UsernameRule := Str(Some(3), Some(50), true)
  /** `password`: 8 to 100 characters. */
  const PasswordRule := Str(Some(8), Some(100), false)
  /** dataset `name`: 1 to 100 characters. */
  const DatasetNameRule := Str(Some(1), Some(100), false)
  /** `dataset_id` and the owner `username` of a public dataset: any string, even "". */
  const AnyString := Str(None, None, false)

  predicate SlugChar(c: char)
  {
    ('a' <= c <= 'z') || ('A' <= c <= 'Z') || ('0' <= c <= '9') || c == '_' || c == '-'
  }

  /** The regular expression `^[a-zA-Z0-9_-]+$`. */
  predicate MatchesSlug(s: string)
  {
    |s| >= 1 && forall i :: 0 <= i < |s| ==> SlugChar(s[i])
  }

  function Lookup(args: Args, name: string): Option<Json>
  {
    if name in args then Some(args[name]) else None
  }

  /** The argument `name` when it is present and a string. */
  function StrArg(args: Args, name: string): Option<string>
  {
    if name in args && args[name].JString? then Some(args[name].s) else None
  }

  /** Reference definition: the value `v` satisfies `rule`. */
  predicate Admits(rule: Rule, v: Option<Json>)
  {
    match rule
    case AnyJson(_) => true
    case Str(lo, hi, slug) =>
      && v.Some? && v.value.JString?
      && (lo.Some? ==> lo.value <= |v.value.s|)
      && (hi.Some? ==> |v.value.s| <= hi.value)
      && (slug ==> MatchesSlug(v.value.s))
  }

  /** The checks on a string run in declaration order (min, max, pattern) and each failure is reported. */
  function StringIssues(name: string, lo: Option<nat>, hi: Option<nat>, slug: bool, s: string): seq<Issue>
  {
    (if lo.Some? && |s| < lo.value then [Issue(name, TooSmall(lo.value))] else [])
    + (if hi.Some? && |s| > hi.value then [Issue(name, TooBig(hi.value))] else [])
    + (if slug && !MatchesSlug(s) then [Issue(name, InvalidPattern)] else [])
  }

  /**
   * The issues for one parameter: a missing or non-string value is one type issue
   * and no further check runs; `AnyJson` accepts everything, `undefined` included.
   */
  function ParamIssues(p: Param, args: Args): (r: seq<Issue>)
    ensures r == [] <==> Admits(p.rule, Lookup(args, p.name))
    ensures forall i :: 0 <= i < |r| ==> r[i].path == p.name
  {
    match p.rule
    case AnyJson(_) => []
    case Str(lo, hi, slug) =>
      if p.name !in args || !args[p.name].JString? then [Issue(p.name, InvalidType)]
      else StringIssues(p.name, lo, hi, slug, args[p.name].s)
  }

  /** The parameter names of a contract. */
  function Names(params: seq<Param>): (names: set<string>)
    ensures forall i :: 0 <= i < |params| ==> params[i].name in names
  {
    set i | 0 <= i < |params| :: params[i].name
  }

  /** The issues of an argument object against a contract, parameter by parameter. */
  function Issues(params: seq<Param>, args: Args): (r: seq<Issue>)
    ensures r == [] <==> forall i :: 0 <= i < |params| ==> Admits(params[i].rule, Lookup(args, params[i].name))
    ensures forall k :: 0 <= k < |r| ==> r[k].path in Names(params)
  {
    if params == [] then []
    else
      var head := ParamIssues(params[0], args);
      var tail := Issues(params[1..], args);
      assert Names(params[1..]) <= Names(params) by {
        forall n | n in Names(params[1..]) ensures n in Names(params) {
          var i :| 0 <= i < |params[1..]| && params[1..][i].name == n;
          assert params[i + 1].name == n;
        }
      }
      head + tail
  }

  predicate ValidUsername(s: string)
  {
    3 <= |s| <= 50 && forall i :: 0 <= i < |s| ==> SlugChar(s[i])
  }

  predicate ValidPassword(s: string)
  {
    8 <= |s| <= 100
  }

  predicate ValidDatasetName(s: string)
  {
    1 <= |s| <= 100
  }

  /** The username rule admits exactly the strings of length 3 to 50 over `[a-zA-Z0-9_-]`. */
  lemma UsernameRuleMeaning(v: Option<Json>)
    ensures Admits(UsernameRule, v) <==> v.Some? && v.value.JString? && ValidUsername(v.value.s)
  {
  }

  /** The password rule admits exactly the strings of length 8 to 100, whatever their characters. */
  lemma PasswordRuleMeaning(v: Option<Json>)
    ensures Admits(PasswordRule, v) <==> v.Some? && v.value.JString? && ValidPassword(v.value.s)
  {
  }

  /** The dataset name rule admits exactly the strings of length 1 to 100. */
  lemma DatasetNameRuleMeaning(v: Option<Json>)
    ensures Admits(DatasetNameRule, v) <==> v.Some? && v.value.JString? && ValidDatasetName(v.value.s)
  {
  }

  /** A too-short username with a bad character gets both issues, in that order. */
  lemma UsernameIssuesExample()
    ensures ParamIssues(Param("username", UsernameRule), map["username" := JString("a!")])
         == [Issue("username", TooSmall(3)), Issue("username", InvalidPattern)]
    ensures ParamIssues(Param("username", UsernameRule), map[]) == [Issue("username", InvalidType)]
  {
    assert !SlugChar("a!"[1]);
  }
}
