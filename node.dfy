/**
  The node's `execute`: one Bot API request per input item, in order, and
  one result record per request.
 */
module SendMessageCustom {
  import opened Wrappers
  import opened Json
  import opened BodyBuilder
  import opened Endpoint

  /** The HTTP request handed to the host's request helper. */
  datatype HttpRequest = HttpRequest(verb: string, url: string, body: Body, json: bool)

  /** One output item: the body that was sent and the response that came back. */
  datatype ResultRecord = ResultRecord(request: Body, response: Value)

  /**
    The host's HTTP helper, seen as an oracle: the response to the request
    made at a given position of the run.
   */
  type Transport = (nat, HttpRequest) -> Value

  /** The request posted for `item` once its body is built. */
  function RequestFor(token: string, item: ItemParameters, body: Body): (req: HttpRequest)
    ensures req.verb == "POST" && req.json
    ensures req.body == body
    ensures req.url == RequestUrl(token, item.operation)
    ensures '/' !in token ==> SplitUrl(req.url) == Some((token, item.operation))
  {
    SplitRequestUrl(token, item.operation);
    HttpRequest("POST", RequestUrl(token, item.operation), body, true)
  }

  /** A per-item body builder: the body of an item, or the error that aborts the run. */
  type Builder = ItemParameters -> Result<Body, Error>

  /**
    The loop of `execute` over a given body builder. `sent` lists the
    requests posted, in order. The run succeeds with one record per item
    exactly when every item's body builds; otherwise it stops at the first
    item whose body does not build, with that item's error, after posting
    the requests of the items before it and none after.
   */
  method ExecuteWith(token: string, items: seq<ItemParameters>, build: Builder, send: Transport)
    returns (outcome: Result<seq<ResultRecord>, Error>, sent: seq<HttpRequest>)
    ensures |sent| <= |items|
    ensures forall i :: 0 <= i < |sent| ==>
      && build(items[i]).Success?
      && sent[i] == RequestFor(token, items[i], build(items[i]).value)
    ensures outcome.Success? <==> forall i :: 0 <= i < |items| ==> build(items[i]).Success?
    ensures outcome.Success? ==>
      && |sent| == |items|
      && |outcome.value| == |items|
      && forall i :: 0 <= i < |items| ==>
           outcome.value[i] == ResultRecord(sent[i].body, send(i, sent[i]))
    ensures outcome.Failure? ==>
      && |sent| < |items|
      && build(items[|sent|]) == Failure(outcome.error)
  {
    var results: seq<ResultRecord> := [];
    sent := [];
    var i := 0;
    while i < |items|
      invariant i <= |items|
      invariant |sent| == i && |results| == i
      invariant forall j :: 0 <= j < i ==>
        && build(items[j]).Success?
        && sent[j] == RequestFor(token, items[j], build(items[j]).value)
      invariant forall j :: 0 <= j < i ==> results[j] == ResultRecord(sent[j].body, send(j, sent[j]))
    {
      var built := build(items[i]);
      if built.Failure? {
        outcome := Failure(built.error);
        return;
      }
      var request := RequestFor(token, items[i], built.value);
      var response := send(i, request);
      sent := sent + [request];
      results := results + [ResultRecord(request.body, response)];
      i := i + 1;
    }
    outcome := Success(results);
  }

  /**
    The node's `execute` with the bot token `token`: the loop above with
    each item's body built from its parameters and override.
   */
  method Execute(token: string, items: seq<ItemParameters>, parse: Parser, send: Transport)
    returns (outcome: Result<seq<ResultRecord>, Error>, sent: seq<HttpRequest>)
    ensures |sent| <= |items|
    ensures forall i :: 0 <= i < |sent| ==>
      && BuildBody(items[i], parse).Success?
      && sent[i] == RequestFor(token, items[i], BuildBody(items[i], parse).value)
    ensures outcome.Success? <==> forall i :: 0 <= i < |items| ==> BuildBody(items[i], parse).Success?
    ensures outcome.Success? ==>
      && |sent| == |items|
      && |outcome.value| == |items|
      && forall i :: 0 <= i < |items| ==>
           outcome.value[i] == ResultRecord(sent[i].body, send(i, sent[i]))
    ensures outcome.Failure? ==>
      && |sent| < |items|
      && BuildBody(items[|sent|], parse) == Failure(outcome.error)
  {
    outcome, sent := ExecuteWith(token, items, item => BuildBody(item, parse), send);
  }

  /**
    A run over items whose first `k` bodies build and whose item `k` does not
    fails with item `k`'s error, after posting exactly the first `k` requests.
   */
  method ExecuteStopsAtFirstFailure(
    token: string, items: seq<ItemParameters>, parse: Parser, send: Transport, k: nat)
    returns (outcome: Result<seq<ResultRecord>, Error>, sent: seq<HttpRequest>)
    requires k < |items|
    requires forall j :: 0 <= j < k ==> BuildBody(items[j], parse).Success?
    requires BuildBody(items[k], parse).Failure?
    ensures outcome == Failure(BuildBody(items[k], parse).error)
    ensures outcome.Failure? && (ErrorMessage(outcome.error) == InvalidJsonMessage <==>
      items[k].customJson.Text? && parse(items[k].customJson.text).None?)
    ensures |sent| == k
    ensures forall j :: 0 <= j < k ==> sent[j].url == RequestUrl(token, items[j].operation)
  {
    outcome, sent := Execute(token, items, parse, send);
  }
}
