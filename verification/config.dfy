/** Resolution of the API key from the process environment (`getApiKey`). */
module Config {
  import opened Wrappers

  /** The two environment variables the server reads; `None` is an unset variable. */
  datatype Env = Env(bakulApiKey: Option<string>, apiKey: Option<string>)

  /** JavaScript truthiness of an environment value: unset and "" are both falsy. */
  predicate Truthy(v: Option<string>)
  {
    v.Some? && v.value != ""
  }

  /** JavaScript `a || b` on two environment values: `a` when it is truthy, else `b`. */
  function JsOr(a: Option<string>, b: Option<string>): (r: Option<string>)
    ensures Truthy(r) <==> Truthy(a) || Truthy(b)
  {
    if Truthy(a) then a else b
  }

  /**
   * `BAKUL_API_KEY || API_KEY || ''`: the primary variable when it is non-empty,
   * else the fallback when it is non-empty, else the empty string.
   */
  function ResolveKey(env: Env): (k: string)
    ensures k == "" <==> !Truthy(env.bakulApiKey) && !Truthy(env.apiKey)
    ensures Truthy(env.bakulApiKey) ==> k == env.bakulApiKey.value
    ensures !Truthy(env.bakulApiKey) && Truthy(env.apiKey) ==> k == env.apiKey.value
  {
    JsOr(env.bakulApiKey, JsOr(env.apiKey, Some(""))).value
  }

  /** Reference definition: the first non-empty value of a priority list, or "". */
  function FirstNonEmpty(sources: seq<Option<string>>): (k: string)
  {
    if sources == [] then ""
    else if Truthy(sources[0]) then sources[0].value
    else FirstNonEmpty(sources[1..])
  }

  /** The first non-empty source wins, and an empty result means every source was empty or unset. */
  lemma {:induction false} FirstNonEmptyChoice(sources: seq<Option<string>>)
    ensures FirstNonEmpty(sources) == ""
        <==> forall i :: 0 <= i < |sources| ==> !Truthy(sources[i])
    ensures FirstNonEmpty(sources) != ""
        ==> exists i :: 0 <= i < |sources| && Truthy(sources[i])
              && sources[i].value == FirstNonEmpty(sources)
              && forall j :: 0 <= j < i ==> !Truthy(sources[j])
  {
    if sources != [] && !Truthy(sources[0]) {
      FirstNonEmptyChoice(sources[1..]);
      if FirstNonEmpty(sources) != "" {
        var i :| 0 <= i < |sources[1..]| && Truthy(sources[1..][i])
          && sources[1..][i].value == FirstNonEmpty(sources[1..])
          && forall j :: 0 <= j < i ==> !Truthy(sources[1..][j]);
        assert forall j :: 0 <= j < i + 1 ==> !Truthy(sources[j]) by {
          forall j | 0 <= j < i + 1 ensures !Truthy(sources[j]) {
            if j > 0 { assert sources[j] == sources[1..][j - 1]; }
          }
        }
        assert Truthy(sources[i + 1]);
      } else {
        forall i | 0 <= i < |sources| ensures !Truthy(sources[i]) {
          if i > 0 { assert sources[i] == sources[1..][i - 1]; }
        }
      }
    }
  }

  /** `getApiKey` is "first non-empty of BAKUL_API_KEY, API_KEY, else empty". */
  lemma ResolveKeyIsFirstNonEmpty(env: Env)
    ensures ResolveKey(env) == FirstNonEmpty([env.bakulApiKey, env.apiKey])
  {
    var s := [env.bakulApiKey, env.apiKey];
    assert s[1..] == [env.apiKey];
    assert s[1..][1..] == [];
    assert FirstNonEmpty(s[1..]) == if Truthy(env.apiKey) then env.apiKey.value else "";
  }

  /** An empty (not only an unset) BAKUL_API_KEY does not block the API_KEY fallback. */
  lemma EmptyPrimaryFallsThrough(fallback: Option<string>)
    ensures ResolveKey(Env(Some(""), fallback)) == ResolveKey(Env(None, fallback))
    ensures Truthy(fallback) ==> ResolveKey(Env(Some(""), fallback)) == fallback.value
  {
  }
}
