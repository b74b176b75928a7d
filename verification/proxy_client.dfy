/**
 * Service B's client of Service A: fetching the item list over HTTP, taken as
 * an abstract exchange, and the transform that tags every fetched item with
 * the service it came from.
 */
module ProxyClient {
  import opened Wrappers
  import opened JsonValue

  /** The provenance tag the transform writes into every item. */
  const Source := "service_a"

  // ---------------------------------------------------------------------------
  // Fetching the items

  /** What a decoded response body is: a JSON value, or the decoder's error text. */
  datatype Body = Parsed(json: Json) | Unparsable(reason: string)

  /**
   * One GET of Service A's `/items`. Either no response arrived (connection
   * refused, DNS failure, ...) and the transport raised with `reason`, or a
   * response arrived with `status` and `body`; `statusError` is the text of the
   * error that raising for a non-2xx status produces (it names the URL and the
   * reason phrase, which this model does not build).
   */
  datatype Exchange =
    | Unreachable(reason: string)
    | Replied(status: int, body: Body, statusError: string)

  /** A 2xx status. */
  predicate IsSuccessStatus(status: int)
  {
    200 <= status < 300
  }

  /**
   * get_items: the decoded body of a 2xx response, or the text of what the call
   * raised: the transport error, the status error for any non-2xx response, or
   * the decoder's error for a body that is not JSON.
   */
  function GetItems(x: Exchange): (r: Result<Json, string>)
    ensures r.Success? <==> x.Replied? && IsSuccessStatus(x.status) && x.body.Parsed?
    ensures r.Success? ==> r.value == x.body.json
    ensures x.Unreachable? ==> r == Failure(x.reason)
    ensures x.Replied? && !IsSuccessStatus(x.status) ==> r == Failure(x.statusError)
    ensures x.Replied? && IsSuccessStatus(x.status) && x.body.Unparsable? ==> r == Failure(x.body.reason)
  {
    match x
    case Unreachable(reason) => Failure(reason)
    case Replied(status, body, statusError) =>
      if !IsSuccessStatus(status) then Failure(statusError)
      else match body
        case Parsed(json) => Success(json)
        case Unparsable(reason) => Failure(reason)
  }

  // ---------------------------------------------------------------------------
  // The transform

  /** The Python exceptions the transform can raise on a body of the wrong shape. */
  datatype PyError =
    | NoAttribute(typeName: string, attribute: string)  // AttributeError
    | NotIterable(typeName: string)                     // TypeError from `for`
    | NotAMapping(typeName: string)                     // TypeError from `**`

  /**
   * The text `str(e)` gives for each error, in CPython's wording: the offending
   * value's type name in quotes, then what that type lacks.
   */
  function Message(e: PyError): (text: string)
    ensures |text| > |e.typeName| + 2
    ensures text[..|e.typeName| + 2] == "'" + e.typeName + "'"
  {
    match e
    case NoAttribute(t, a) => "'" + t + "' object has no attribute '" + a + "'"
    case NotIterable(t) => "'" + t + "' object is not iterable"
    case NotAMapping(t) => "'" + t + "' object is not a mapping"
  }

  /** `{**item, "source": "service_a"}`: the item's fields with `source` set last. */
  function Tag(item: map<string, Json>): (tagged: map<string, Json>)
    ensures tagged.Keys == item.Keys + {"source"}
    ensures tagged["source"] == JString(Source)
    ensures forall k :: k in item && k != "source" ==> tagged[k] == item[k]
  {
    item["source" := JString(Source)]
  }

  /** `items_data.get("items", [])`: the value under `items`, or an empty list. */
  function ItemsValue(top: map<string, Json>): Json
  {
    if "items" in top then top["items"] else JArray([])
  }

  /**
   * The values `for item in v` binds, in order, or the error the loop raises
   * before the body has tagged any of them. A list yields its elements and a
   * string its one-character strings. A dict yields its keys, which are
   * strings, so a non-empty dict fails on its first key whatever the key order;
   * an empty one yields nothing. Any other value is not iterable.
   */
  function LoopElements(v: Json): (r: Result<seq<Json>, PyError>)
    ensures v.JArray? ==> r == Success(v.elems)
    ensures v.JString? ==> r == Success(seq(|v.s|, i requires 0 <= i < |v.s| => JString([v.s[i]])))
    ensures v.JObject? && v.fields == map[] ==> r == Success([])
    ensures v.JObject? && v.fields != map[] ==> r == Failure(NotAMapping("str"))
    ensures v.JNull? || v.JBool? || v.JInt? ==> r == Failure(NotIterable(PyTypeName(v)))
    ensures r.Success? && r.value != [] ==> v.JArray? || v.JString?
  {
    match v
    case JArray(elems) => Success(elems)
    case JString(s) => Success(seq(|s|, i requires 0 <= i < |s| => JString([s[i]])))
    case JObject(fields) => if fields == map[] then Success([]) else Failure(NotAMapping("str"))
    case _ => Failure(NotIterable(PyTypeName(v)))
  }

  /**
   * The list the loop builds from `elems`, or the error it raises at the first
   * element that is not an object.
   */
  function TagAll(elems: seq<Json>): (r: Result<seq<Json>, PyError>)
    ensures r.Success? <==> forall i :: 0 <= i < |elems| ==> elems[i].JObject?
    ensures r.Success? ==> |r.value| == |elems|
    ensures r.Success? ==> forall i :: 0 <= i < |elems| ==> r.value[i] == JObject(Tag(elems[i].fields))
  {
    if elems == [] then Success([])
    else
      var init := elems[..|elems| - 1];
      var last := elems[|elems| - 1];
      assert forall i :: 0 <= i < |init| ==> init[i] == elems[i];
      match TagAll(init)
      case Failure(e) => Failure(e)
      case Success(done) =>
        if last.JObject? then Success(done + [JObject(Tag(last.fields))])
        else Failure(NotAMapping(PyTypeName(last)))
  }

  /** Position `j` holds the first element that is not an object. */
  ghost predicate FirstNonObject(elems: seq<Json>, j: int)
    requires 0 <= j < |elems|
  {
    !elems[j].JObject? && forall i :: 0 <= i < j ==> elems[i].JObject?
  }

  /**
   * transform_items, as a value: `{"items": [tagged items]}` built from the
   * decoded body, or the Python error it raises on a body of the wrong shape.
   */
  function Transformed(data: Json): (r: Result<map<string, Json>, PyError>)
    ensures !data.JObject? ==> r == Failure(NoAttribute(PyTypeName(data), "get"))
    ensures r.Success? ==> r.value.Keys == {"items"} && r.value["items"].JArray?
    ensures data.JObject? && "items" !in data.fields ==> r == Success(map["items" := JArray([])])
    ensures data.JObject? && LoopElements(ItemsValue(data.fields)).Success? ==>
      var elems := LoopElements(ItemsValue(data.fields)).value;
      && (r.Success? <==> forall i :: 0 <= i < |elems| ==> elems[i].JObject?)
      && (r.Success? ==> |r.value["items"].elems| == |elems|)
  {
    match data
    case JObject(top) =>
      (match LoopElements(ItemsValue(top))
       case Failure(e) => Failure(e)
       case Success(elems) =>
         match TagAll(elems)
         case Failure(e) => Failure(e)
         case Success(tagged) => Success(map["items" := JArray(tagged)]))
    case _ => Failure(NoAttribute(PyTypeName(data), "get"))
  }

  /**
   * The loop of transform_items: walks the items one by one, appending each
   * tagged copy to the output list, and stops at the first element that `**`
   * cannot spread.
   */
  method TagEach(elems: seq<Json>) returns (r: Result<seq<Json>, PyError>)
    ensures r == TagAll(elems)
  {
    var transformed: seq<Json> := [];
    var i := 0;
    while i < |elems|
      invariant 0 <= i <= |elems|
      invariant TagAll(elems[..i]) == Success(transformed)
    {
      TagAllStep(elems, i);
      var item := elems[i];
      if !item.JObject? {
        TagAllFailsAtFirst(elems, i);
        return Failure(NotAMapping(PyTypeName(item)));
      }
      transformed := transformed + [JObject(Tag(item.fields))];
      i := i + 1;
    }
    assert elems[..i] == elems;
    r := Success(transformed);
  }

  /** Tagging one more element extends the list, or fails on that element. */
  lemma TagAllStep(elems: seq<Json>, i: nat)
    requires i < |elems|
    requires TagAll(elems[..i]).Success?
    ensures elems[i].JObject? ==> TagAll(elems[..i + 1]) == Success(TagAll(elems[..i]).value + [JObject(Tag(elems[i].fields))])
    ensures forall j :: 0 <= j < i ==> elems[j].JObject?
  {
    assert elems[..i + 1][..i] == elems[..i];
    assert forall j :: 0 <= j < i ==> elems[..i][j] == elems[j];
  }

  /** The error is that of the first element that is not an object, wherever the list ends. */
  lemma {:induction false} TagAllFailsAtFirst(elems: seq<Json>, j: nat)
    requires j < |elems| && FirstNonObject(elems, j)
    ensures TagAll(elems) == Failure(NotAMapping(PyTypeName(elems[j])))
  {
    var init := elems[..|elems| - 1];
    assert forall i :: 0 <= i < |init| ==> init[i] == elems[i];
    if j < |elems| - 1 {
      assert FirstNonObject(init, j);
      TagAllFailsAtFirst(init, j);
    } else {
      assert TagAll(init).Success?;
    }
  }

  /** transform_items: look up the items, tag each, wrap the list under `items`. */
  method TransformItems(data: Json) returns (r: Result<map<string, Json>, PyError>)
    ensures r == Transformed(data)
  {
    if !data.JObject? {
      return Failure(NoAttribute(PyTypeName(data), "get"));
    }
    var source := LoopElements(ItemsValue(data.fields));
    if source.Failure? {
      return Failure(source.error);
    }
    var tagged := TagEach(source.value);
    if tagged.Failure? {
      return Failure(tagged.error);
    }
    r := Success(map["items" := JArray(tagged.value)]);
  }

  // ---------------------------------------------------------------------------
  // Properties of the transform

  /**
   * A successful transform keeps the length and order of the input items and
   * tags each one: output element i is input element i with `source` set to
   * "service_a" and every other field unchanged.
   */
  lemma TransformTagsEveryItem(data: Json, i: int)
    requires Transformed(data).Success?
    requires data.JObject? && ItemsValue(data.fields).JArray?
    requires 0 <= i < |ItemsValue(data.fields).elems|
    ensures var input := ItemsValue(data.fields).elems[i];
            var output := Transformed(data).value["items"].elems;
      && |output| == |ItemsValue(data.fields).elems|
      && input.JObject? && output[i].JObject?
      && output[i].fields.Keys == input.fields.Keys + {"source"}
      && output[i].fields["source"] == JString(Source)
      && forall k :: k in input.fields && k != "source" ==> output[i].fields[k] == input.fields[k]
  {
  }

  /** Every element of a successful transform's output carries `source == "service_a"`. */
  lemma EveryOutputTagged(data: Json)
    requires Transformed(data).Success?
    ensures forall o :: o in Transformed(data).value["items"].elems ==>
      o.JObject? && "source" in o.fields && o.fields["source"] == JString(Source)
  {
  }

  /** An item that already has a `source` field has it overwritten, not kept. */
  lemma SourceOverridden(item: map<string, Json>, oldSource: Json)
    requires "source" in item && item["source"] == oldSource && oldSource != JString(Source)
    ensures Tag(item)["source"] != oldSource
    ensures |Tag(item)| == |item|
  {
  }

  /** Top-level keys other than `items` are dropped from the transformed body. */
  lemma OtherTopLevelKeysDropped(data: Json, key: string)
    requires Transformed(data).Success? && key != "items"
    ensures key !in Transformed(data).value
  {
  }

  /**
   * A non-empty string or dict under `items` is iterable, but what it yields
   * is a str, which `**` cannot spread: the transform fails with
   * "'str' object is not a mapping".
   */
  lemma StrElementsFail(data: Json)
    requires data.JObject? && "items" in data.fields
    requires var v := data.fields["items"];
      (v.JString? && v.s != "") || (v.JObject? && v.fields != map[])
    ensures Transformed(data) == Failure(NotAMapping("str"))
  {
    StrLoopFails(ItemsValue(data.fields));
  }

  /** The loop over a non-empty string or dict stops at its first element, a str. */
  lemma StrLoopFails(v: Json)
    requires (v.JString? && v.s != "") || (v.JObject? && v.fields != map[])
    ensures LoopElements(v).Failure? ==> LoopElements(v).error == NotAMapping("str")
    ensures LoopElements(v).Success? ==> TagAll(LoopElements(v).value) == Failure(NotAMapping("str"))
  {
    if v.JString? {
      var elems := LoopElements(v).value;
      assert PyTypeName(elems[0]) == "str" by {
        assert elems[0] == JString([v.s[0]]);
      }
      TagAllFailsAtFirst(elems, 0);
    }
  }

  /** The test's body: two plain items come out tagged, with id and value kept. */
  lemma TwoItemsTagged()
    ensures var item1 := map["id" := JInt(1), "value" := JString("test item 1")];
            var item2 := map["id" := JInt(2), "value" := JString("test item 2")];
            var data := Singleton("items", JArray([JObject(item1), JObject(item2)]));
            Transformed(data) == Success(map["items" := JArray([
              JObject(item1["source" := JString(Source)]),
              JObject(item2["source" := JString(Source)])])])
  {
    var item1 := map["id" := JInt(1), "value" := JString("test item 1")];
    var item2 := map["id" := JInt(2), "value" := JString("test item 2")];
    var elems := [JObject(item1), JObject(item2)];
    var tagged := TagAll(elems).value;
    assert tagged == [JObject(Tag(item1)), JObject(Tag(item2))];
  }
}
