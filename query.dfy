/**
 * The key-by-key loop that both query matchers run (main.go's
 * matchQueryParams and utils/helpers.go's MatchQueryParams), with the
 * properties both copies inherit from it.
 */
module Query {
  import opened Config

  /**
   * The loop shared by both query matchers: every expected parameter is present
   * with at least one value, and its first value equals the expected one.
   */
  predicate FirstValuesMatch(requestParams: QueryValues, expected: QueryMatch)
  {
    forall key :: key in expected ==>
      key in requestParams && |requestParams[key]| > 0 && requestParams[key][0] == expected[key]
  }

  /** Replacing later values of a present key changes nothing. */
  lemma FirstValueOnly(requestParams: QueryValues, expected: QueryMatch, key: string, later: seq<string>)
    requires key in requestParams && |requestParams[key]| > 0
    ensures FirstValuesMatch(requestParams[key := [requestParams[key][0]] + later], expected)
        == FirstValuesMatch(requestParams, expected)
  {
    var updated := requestParams[key := [requestParams[key][0]] + later];
    forall k | k in expected
      ensures (k in updated && |updated[k]| > 0 && updated[k][0] == expected[k])
          == (k in requestParams && |requestParams[k]| > 0 && requestParams[k][0] == expected[k])
    {
    }
  }

  /** Adding or replacing an unnamed key changes nothing. */
  lemma ExtraKeyIgnored(requestParams: QueryValues, expected: QueryMatch, key: string, values: seq<string>)
    requires key !in expected
    ensures FirstValuesMatch(requestParams[key := values], expected) == FirstValuesMatch(requestParams, expected)
  {
  }
}
