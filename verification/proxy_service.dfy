/**
 * Service B's handlers: `/proxy-items`, which fetches the item list from
 * Service A, tags it and answers 503 on any failure, and `/health`.
 */
module ProxyService {
  import opened Wrappers
  import opened JsonValue
  import opened ProxyClient

  /** The start of the detail of every 503 answer. */
  const DetailPrefix := "Error communicating with Service A: "

  /** An HTTP answer: status and JSON body. */
  datatype Response = Response(status: int, body: Json)

  /** The 503 answer for a failure whose `str()` is `message`. */
  function Unavailable(message: string): (r: Response)
    ensures r.status == 503
    ensures r.body == Singleton("detail", JString(DetailPrefix + message))
  {
    Response(503, Singleton("detail", JString(DetailPrefix + message)))
  }

  /** `prefix` is a prefix of `s`. */
  predicate StartsWith(s: string, prefix: string)
  {
    |prefix| <= |s| && s[..|prefix|] == prefix
  }

  /**
   * GET /proxy-items: fetch, then transform. Whatever the fetch or the
   * transform raises becomes a 503 carrying its text; otherwise the answer is
   * 200 with the transformed body, all of it.
   */
  function ProxyItems(x: Exchange): (r: Response)
    ensures r.status == 200 || r.status == 503
    ensures r.status == 200 <==> GetItems(x).Success? && Transformed(GetItems(x).value).Success?
    ensures r.status == 200 ==> r.body == JObject(Transformed(GetItems(x).value).value)
    ensures GetItems(x).Failure? ==> r == Unavailable(GetItems(x).error)
    ensures GetItems(x).Success? && Transformed(GetItems(x).value).Failure? ==>
      r == Unavailable(Message(Transformed(GetItems(x).value).error))
  {
    match GetItems(x)
    case Failure(reason) => Unavailable(reason)
    case Success(data) =>
      match Transformed(data)
      case Failure(e) => Unavailable(Message(e))
      case Success(out) => Response(200, JObject(out))
  }

  /**
   * Every answer is one of two whole shapes: 200 with an `items` list and
   * nothing else, or 503 with a `detail` that starts with the fixed prefix and
   * no items at all.
   */
  lemma AllOrNothing(x: Exchange)
    ensures var r := ProxyItems(x);
      && r.body.JObject?
      && (r.status == 200 ==> r.body.fields.Keys == {"items"} && r.body.fields["items"].JArray?)
      && (r.status == 503 ==> r.body.fields.Keys == {"detail"} && r.body.fields["detail"].JString?
                              && StartsWith(r.body.fields["detail"].s, DetailPrefix))
  {
  }

  /** With Service A unreachable the answer is 503 and names the transport error after the prefix. */
  lemma UnreachableIs503(reason: string)
    ensures ProxyItems(Unreachable(reason)) == Unavailable(reason)
    ensures ProxyItems(Unreachable(reason)).body.fields["detail"].s == DetailPrefix + reason
  {
  }

  /** A 404 or 500 from Service A on the list is not passed through: it becomes a 503. */
  lemma ErrorStatusIs503(status: int, body: Body, statusError: string)
    requires !IsSuccessStatus(status)
    ensures ProxyItems(Replied(status, body, statusError)) == Unavailable(statusError)
  {
  }

  /**
   * Service A answers 200 with two plain items: the proxy answers 200 with both
   * items, in order, each tagged and with its id and value kept.
   */
  lemma TwoItemsProxied(statusError: string)
    ensures var item1 := map["id" := JInt(1), "value" := JString("test item 1")];
            var item2 := map["id" := JInt(2), "value" := JString("test item 2")];
            var data := Singleton("items", JArray([JObject(item1), JObject(item2)]));
            ProxyItems(Replied(200, Parsed(data), statusError)) ==
              Response(200, Singleton("items", JArray([
                JObject(item1["source" := JString(Source)]),
                JObject(item2["source" := JString(Source)])])))
  {
    TwoItemsTagged();
  }

  /** GET /health: a fixed answer whatever the state of Service A. */
  function HealthCheck(): (body: Json)
    ensures body.JObject? && body.fields.Keys == {"status"}
    ensures body.fields["status"] == JString("healthy")
  {
    Singleton("status", JString("healthy"))
  }
}
