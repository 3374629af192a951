/**
 * utils/helpers.go: query matching for the split server, environment lookup
 * with a fallback, and the delay rule (the sleep becomes a computed delay).
 */
module Helpers {
  import opened Config
  import opened Query

  /**
   * ApplyDelay sleeps only for a positive delay. The model returns how long it
   * sleeps: the given delay when positive, otherwise nothing.
   */
  function EffectiveDelay(delayMs: int): (slept: nat)
    ensures slept > 0 <==> delayMs > 0
    ensures slept > 0 ==> slept == delayMs
  {
    if delayMs > 0 then delayMs else 0
  }

  /**
   * MatchQueryParams of the split server: an empty condition matches every
   * request; otherwise every expected key must be present with a first value
   * equal to the expected one.
   */
  function MatchQueryParams(requestParams: QueryValues, expectedParams: QueryMatch): bool
  {
    if |expectedParams| == 0 then true
    else FirstValuesMatch(requestParams, expectedParams)
  }

  /** GetEnv: the environment's value when the key is set (even to ""), else the fallback. */
  function GetEnv(env: map<string, string>, key: string, fallback: string): string
  {
    if key in env then env[key] else fallback
  }

  // ----- Properties of MatchQueryParams --------------------------------------

  /** An empty condition matches every request, including one without parameters. */
  lemma EmptyConditionMatchesEveryRequest(requestParams: QueryValues)
    ensures MatchQueryParams(requestParams, map[])
    ensures MatchQueryParams(map[], map[])
  {
  }

  /** The early return for an empty condition agrees with the key-by-key loop. */
  lemma MatchIsFirstValuesMatch(requestParams: QueryValues, expectedParams: QueryMatch)
    ensures MatchQueryParams(requestParams, expectedParams) <==> FirstValuesMatch(requestParams, expectedParams)
  {
  }

  /** A non-empty condition never matches a request without query parameters. */
  lemma NonEmptyConditionRejectsEmptyRequest(expectedParams: QueryMatch)
    requires |expectedParams| > 0
    ensures !MatchQueryParams(map[], expectedParams)
  {
    var empty: QueryValues := map[];
    var key :| key in expectedParams;
    assert key !in empty;
  }

  /** Only the first value of a repeated parameter is consulted. */
  lemma OnlyFirstValueConsulted(requestParams: QueryValues, expectedParams: QueryMatch, key: string, later: seq<string>)
    requires key in requestParams && |requestParams[key]| > 0
    ensures MatchQueryParams(requestParams[key := [requestParams[key][0]] + later], expectedParams)
        == MatchQueryParams(requestParams, expectedParams)
  {
    FirstValueOnly(requestParams, expectedParams, key, later);
  }

  /** A parameter the condition does not name never changes the result. */
  lemma UnnamedParameterIgnored(requestParams: QueryValues, expectedParams: QueryMatch, key: string, values: seq<string>)
    requires key !in expectedParams
    ensures MatchQueryParams(requestParams[key := values], expectedParams)
        == MatchQueryParams(requestParams, expectedParams)
  {
    ExtraKeyIgnored(requestParams, expectedParams, key, values);
  }

  /** Dropping keys from a condition can only make it match more requests. */
  lemma WeakerConditionStillMatches(requestParams: QueryValues, expectedParams: QueryMatch, weaker: QueryMatch)
    requires forall key :: key in weaker ==> key in expectedParams && weaker[key] == expectedParams[key]
    requires MatchQueryParams(requestParams, expectedParams)
    ensures MatchQueryParams(requestParams, weaker)
  {
  }

  // ----- Properties of GetEnv -----------------------------------------------

  /** A set variable is returned as set, even when empty; an unset one yields the fallback. */
  lemma GetEnvSetAndUnset(env: map<string, string>, key: string, value: string, fallback: string)
    ensures GetEnv(env[key := value], key, fallback) == value
    ensures GetEnv(env - {key}, key, fallback) == fallback
    ensures GetEnv(env[key := ""], key, fallback) == ""
  {
  }

  /** Setting one variable does not change the lookup of another. */
  lemma GetEnvOtherKeys(env: map<string, string>, key: string, other: string, value: string, fallback: string)
    requires other != key
    ensures GetEnv(env[key := value], other, fallback) == GetEnv(env, other, fallback)
  {
  }
}
