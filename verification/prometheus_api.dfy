/**
 * Reading the JSON envelope of the Prometheus HTTP API, as the live checks do
 * before looking at any data: the status code must be 200, the body must be
 * JSON, and its `status` field must be the string "success".
 */
module PrometheusApi {

  import opened Values

  /** The decoded body of a successful API call; None when any of the three envelope checks fails. */
  function Succeeded(resp: Response): (r: Option<Value>)
    ensures r.Some? <==> resp.status == 200 && resp.json.Some? && Item(resp.json.value, "status") == Some(Str("success"))
    ensures r.Some? ==> r == resp.json
  {
    if resp.status != 200 then None
    else
      var body :- resp.json;
      if Item(body, "status") == Some(Str("success")) then Some(body) else None
  }

  /**
   * `data["data"]["activeTargets"]` of a `/api/v1/targets` answer, as the
   * elements a loop visits: available exactly when the answer is a success
   * whose `data` mapping holds an iterable `activeTargets`.
   */
  function ActiveTargets(resp: Response): (r: Option<seq<Value>>)
    ensures r.Some? <==>
      && Succeeded(resp).Some?
      && var body := resp.json.value;
         && "data" in body.fields && body.fields["data"].Map?
         && "activeTargets" in body.fields["data"].fields
         && Elements(body.fields["data"].fields["activeTargets"]).Some?
    ensures r.Some? ==> r == Elements(resp.json.value.fields["data"].fields["activeTargets"])
  {
    var body :- Succeeded(resp);
    LookupPair(body, "data", "activeTargets");
    var targets :- Lookup(body, ["data", "activeTargets"]);
    Elements(targets)
  }

  /**
   * `data["data"]["result"]` of a `/api/v1/query` answer: available exactly
   * when the answer is a success whose `data` mapping holds `result`.
   */
  function QueryResult(resp: Response): (r: Option<Value>)
    ensures r.Some? <==>
      && Succeeded(resp).Some?
      && var body := resp.json.value;
         && "data" in body.fields && body.fields["data"].Map?
         && "result" in body.fields["data"].fields
    ensures r.Some? ==> r.value == resp.json.value.fields["data"].fields["result"]
  {
    var body :- Succeeded(resp);
    LookupPair(body, "data", "result");
    Lookup(body, ["data", "result"])
  }

  /** A targets answer whose `data.activeTargets` is the list `targets`. */
  function TargetsAnswer(targets: seq<Value>): Response
  {
    var data := Map(map["activeTargets" := List(targets)]);
    Response(200, "", Some(Map(map["status" := Str("success"), "data" := data])))
  }

  lemma TargetsAnswerLists(targets: seq<Value>)
    ensures ActiveTargets(TargetsAnswer(targets)) == Some(targets)
  {
    var data := Map(map["activeTargets" := List(targets)]);
    var body := Map(map["status" := Str("success"), "data" := data]);
    assert Lookup(body, ["data", "activeTargets"]) == Lookup(data, ["activeTargets"]);
    assert Lookup(data, ["activeTargets"]) == Lookup(List(targets), []);
  }
}
