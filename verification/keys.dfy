/** The `api.key` facade: listing, creating, reading, updating,
    regenerating and removing API keys. */
module Keys {
  import opened Wrappers
  import opened JsValue
  import opened Errors
  import opened UriEncoding
  import opened Utils
  import opened Http
  import opened Paths

  /** Properties a key object must carry. */
  const KeyFields := ["name", "permissions"]

  /** `key.search(device, cbS, cbE)`: the keys of one device, or, when the
      device is left out and the first argument is the continuation, all
      keys. */
  function Search(device: Value, cbS: Value, cbE: Value): (c: Call)
    ensures c.verb == GET && c.path == "/keys" && c.body == Undefined
    ensures ReadPath(c.path) == Some(["keys"])
    ensures IsFunc(device) ==> c.urlParams == EmptyObject && c.onSuccess == device && c.onError == cbS
    ensures !IsFunc(device) ==> c.urlParams == Singleton("device", device) && c.onSuccess == cbS && c.onError == cbE
  {
    var urlParams := if IsFunc(device) then EmptyObject else Singleton("device", device);
    var onSuccess := if IsFunc(device) then device else cbS;
    var onError := if IsFunc(device) then cbS else cbE;
    FixedRoute("/keys", ["keys"]);
    Call(GET, "/keys", urlParams, Undefined, onSuccess, onError)
  }

  /** `key.create(key, cbS, cbE)`: the object check comes first with its
      own message, so the property check only ever sees an object. */
  function Create(key: Value, cbS: Value, cbE: Value): (r: Result<Call, Error>)
    ensures r.Success? <==> key.Obj? && forall i :: 0 <= i < |KeyFields| ==> HasUsable(key.props, KeyFields[i])
    ensures !key.Obj? ==> r == Failure(Thrown(KeyNotObject))
    ensures key.Obj? && r.Failure? ==> exists i :: 0 <= i < |KeyFields| && r.error == MissingProperty(KeyFields[i])
    ensures key.Obj? && r.Failure? ==> Fail(r.error) == CheckObjectHasProperties(key, KeyFields)
    ensures r.Success? ==> r.value == Call(POST, "/keys", Undefined, key, cbS, cbE)
    ensures r.Success? ==> ReadPath(r.value.path) == Some(["keys"])
  {
    if !IsObj(key) then Failure(Thrown(KeyNotObject))
    else
      var check := CheckObjectHasProperties(key, KeyFields);
      if check.Fail? then Failure(check.error)
      else
        FixedRoute("/keys", ["keys"]);
        Success(Call(POST, "/keys", Undefined, key, cbS, cbE))
  }

  /** `key.getDetails(key, cbS, cbE)`. */
  function GetDetails(key: Value, cbS: Value, cbE: Value): (r: Result<Call, Error>)
    ensures r.Success? <==> key.Str?
    ensures r.Failure? ==> r.error == Thrown(KeyIdNotString)
    ensures r.Success? ==> r.value == Call(GET, "/keys/" + Encode(key.s), Undefined, Undefined, cbS, cbE)
    ensures r.Success? && Routable(key.s) ==> ReadPath(r.value.path) == Some(["keys", key.s])
  {
    if !IsString(key) then Failure(Thrown(KeyIdNotString))
    else
      var template := "/keys/" + "{1}";
      OneIdRoute(template, "/keys/", "keys", key.s, "", [], ["keys", key.s]);
      Success(Call(GET, FormatURL(template, [key]), Undefined, Undefined, cbS, cbE))
  }

  /** `key.update(id, key, cbS, cbE)`. */
  function Update(id: Value, key: Value, cbS: Value, cbE: Value): (r: Result<Call, Error>)
    ensures r.Success? <==> id.Str? && CheckObjectHasProperties(key, KeyFields).Pass?
    ensures !id.Str? ==> r == Failure(Thrown(KeyIdNotString))
    ensures id.Str? && r.Failure? ==> Fail(r.error) == CheckObjectHasProperties(key, KeyFields)
    ensures r.Success? ==> r.value == Call(PUT, "/keys/" + Encode(id.s), Undefined, key, cbS, cbE)
    ensures r.Success? ==> key.Obj?
    ensures r.Success? && Routable(id.s) ==> ReadPath(r.value.path) == Some(["keys", id.s])
  {
    if !IsString(id) then Failure(Thrown(KeyIdNotString))
    else
      var check := CheckObjectHasProperties(key, KeyFields);
      if check.Fail? then Failure(check.error)
      else
        var template := "/keys/" + "{1}";
        OneIdRoute(template, "/keys/", "keys", id.s, "", [], ["keys", id.s]);
        Success(Call(PUT, FormatURL(template, [id]), Undefined, key, cbS, cbE))
  }

  /** `key.regenerate(id, cbS, cbE)`. */
  function Regenerate(id: Value, cbS: Value, cbE: Value): (r: Result<Call, Error>)
    ensures r.Success? <==> id.Str?
    ensures r.Failure? ==> r.error == Thrown(KeyIdNotString)
    ensures r.Success? ==> r.value == Call(POST, "/keys/" + Encode(id.s) + "/regenerate", Undefined, Undefined, cbS, cbE)
    ensures r.Success? && Routable(id.s) ==> ReadPath(r.value.path) == Some(["keys", id.s, "regenerate"])
  {
    if !IsString(id) then Failure(Thrown(KeyIdNotString))
    else
      var template := "/keys/" + "{1}" + "/regenerate";
      OneIdRoute(template, "/keys/", "keys", id.s, "/regenerate", ["regenerate"], ["keys", id.s, "regenerate"]);
      Success(Call(POST, FormatURL(template, [id]), Undefined, Undefined, cbS, cbE))
  }

  /** `key.remove(id, cbS, cbE)`. */
  function Remove(id: Value, cbS: Value, cbE: Value): (r: Result<Call, Error>)
    ensures r.Success? <==> id.Str?
    ensures r.Failure? ==> r.error == Thrown(KeyIdNotString)
    ensures r.Success? ==> r.value == Call(DELETE, "/keys/" + Encode(id.s), Undefined, Undefined, cbS, cbE)
    ensures r.Success? && Routable(id.s) ==> ReadPath(r.value.path) == Some(["keys", id.s])
  {
    if !IsString(id) then Failure(Thrown(KeyIdNotString))
    else
      var template := "/keys/" + "{1}";
      OneIdRoute(template, "/keys/", "keys", id.s, "", [], ["keys", id.s]);
      Success(Call(DELETE, FormatURL(template, [id]), Undefined, Undefined, cbS, cbE))
  }

  /** Listing the keys of a device named by a string: the request carries
      exactly one query parameter, `device`, which the server reads back
      as that name. */
  lemma SearchByDeviceQuery(cfg: Config, device: string, cbS: Value, cbE: Value)
    ensures var r := Send(cfg, Search(Str(device), cbS, cbE));
      r.Success? && r.value.url == cfg.baseEndPoint + "/keys" + ("?" + ("device" + "=" + Encode(device)))
    ensures ParseQuery("device" + "=" + Encode(device)) == Some([Field("device", device)])
  {
    SingleParameterQuery("device", device);
  }
}
