/** The Bot API endpoint a request is posted to. */
module Endpoint {
  import opened Wrappers

  /** Everything of the endpoint before the bot token. */
  const ApiPrefix: string := "https://api.telegram.org/bot"

  /** The endpoint of `operation` for the bot whose token is `token`. */
  function RequestUrl(token: string, operation: string): (url: string)
    ensures |url| == |ApiPrefix| + |token| + 1 + |operation|
    ensures url[..|ApiPrefix|] == ApiPrefix
    ensures url[|ApiPrefix|..] == token + "/" + operation
  {
    ApiPrefix + token + "/" + operation
  }

  /** The position of the first `c` in `s`, or `|s|` when there is none. */
  function IndexOf(s: string, c: char): (i: nat)
    ensures i <= |s|
    ensures forall j :: 0 <= j < i ==> s[j] != c
    ensures i < |s| ==> s[i] == c
  {
    if s == [] then 0
    else if s[0] == c then 0
    else 1 + IndexOf(s[1..], c)
  }

  /**
    The token and the operation an endpoint was built from, split at the
    first `/` after the prefix; `None` for a URL of another shape.
   */
  function SplitUrl(url: string): (r: Option<(string, string)>)
    ensures r.Some? ==> '/' !in r.value.0 && RequestUrl(r.value.0, r.value.1) == url
  {
    if |url| < |ApiPrefix| || url[..|ApiPrefix|] != ApiPrefix then None
    else
      var rest := url[|ApiPrefix|..];
      var slash := IndexOf(rest, '/');
      if slash == |rest| then None
      else
        assert rest == rest[..slash] + "/" + rest[slash + 1..];
        assert url == ApiPrefix + rest;
        Some((rest[..slash], rest[slash + 1..]))
  }

  /**
    A token never holds a `/` (it is a bot id, a colon and an alphanumeric
    secret), so the endpoint gives back the token and the operation.
   */
  lemma SplitRequestUrl(token: string, operation: string)
    ensures '/' !in token ==> SplitUrl(RequestUrl(token, operation)) == Some((token, operation))
  {
    var rest := token + "/" + operation;
    var slash := IndexOf(rest, '/');
    assert rest[|token|] == '/';
    assert forall j :: 0 <= j < |token| ==> rest[j] == token[j];
    assert rest[..|token|] == token;
    assert rest[|token| + 1..] == operation;
  }

  /** Two bots, or two operations, never share an endpoint. */
  lemma RequestUrlInjective(token: string, operation: string, token': string, operation': string)
    requires '/' !in token && '/' !in token'
    requires RequestUrl(token, operation) == RequestUrl(token', operation')
    ensures token == token' && operation == operation'
  {
    SplitRequestUrl(token, operation);
    SplitRequestUrl(token', operation');
  }
}
