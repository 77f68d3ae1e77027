/** The `api.distribution` facade, modelled as `Device` models the
    device facade: validation in the library's order, then the argument
    object handed to `request`. */
module Distribution {
  import opened Wrappers
  import opened JsValue
  import opened Errors
  import opened UriEncoding
  import opened Utils
  import opened Http
  import opened Paths
  import opened Facade

  /** Properties a distribution object must carry. */
  const DistributionFields := ["name", "visibility"]
  /** Properties a trigger object must carry. */
  const TriggerFields := ["stream", "condition", "value", "name", "callback_url"]

  // ---------------------------------------------------------------------
  // Distributions

  /** `distribution.search(options, cbS, cbE)`. */
  function Search(options: Value, cbS: Value, cbE: Value): (c: Call)
    ensures c.verb == GET && c.path == "/distributions" && c.body == Undefined
    ensures ReadPath(c.path) == Some(["distributions"])
    ensures IsFunc(options) ==> c.urlParams == EmptyObject && c.onSuccess == options && c.onError == cbS
    ensures !IsFunc(options) ==> c.urlParams == options && c.onSuccess == cbS && c.onError == cbE
  {
    var shifted := ShiftOptions(options, cbS, cbE);
    FixedRoute("/distributions", ["distributions"]);
    Call(GET, "/distributions", shifted.urlParams, Undefined, shifted.onSuccess, shifted.onError)
  }

  /** `distribution.create(distribution, cbS, cbE)`. */
  function Create(distribution: Value, cbS: Value, cbE: Value): (r: Result<Call, Error>)
    ensures r.Success? <==> CheckObjectHasProperties(distribution, DistributionFields).Pass?
    ensures r.Failure? ==> Fail(r.error) == CheckObjectHasProperties(distribution, DistributionFields)
    ensures r.Success? ==> r.value == Call(POST, "/distributions", Undefined, distribution, cbS, cbE)
    ensures r.Success? ==> distribution.Obj? && ReadPath(r.value.path) == Some(["distributions"])
  {
    var check := CheckObjectHasProperties(distribution, DistributionFields);
    if check.Fail? then Failure(check.error)
    else
      FixedRoute("/distributions", ["distributions"]);
      Success(Call(POST, "/distributions", Undefined, distribution, cbS, cbE))
  }

  /** `distribution.getDetails(id, cbS, cbE)`, whose message alone reads
      "a string". */
  function GetDetails(id: Value, cbS: Value, cbE: Value): (r: Result<Call, Error>)
    ensures r.Success? <==> id.Str?
    ensures r.Failure? ==> r.error == Thrown(IdNotAString)
    ensures r.Success? ==> r.value == Call(GET, "/distributions/" + Encode(id.s), Undefined, Undefined, cbS, cbE)
    ensures r.Success? && Routable(id.s) ==> ReadPath(r.value.path) == Some(["distributions", id.s])
  {
    if !IsString(id) then Failure(Thrown(IdNotAString))
    else
      var template := "/distributions/" + "{1}";
      OneIdRoute(template, "/distributions/", "distributions", id.s, "", [], ["distributions", id.s]);
      Success(Call(GET, FormatURL(template, [id]), Undefined, Undefined, cbS, cbE))
  }

  /** `distribution.update(id, distribution, cbS, cbE)`. */
  function Update(id: Value, distribution: Value, cbS: Value, cbE: Value): (r: Result<Call, Error>)
    ensures r.Success? <==> id.Str? && CheckObjectHasProperties(distribution, DistributionFields).Pass?
    ensures !id.Str? ==> r == Failure(Thrown(IdNotString))
    ensures id.Str? && r.Failure? ==> Fail(r.error) == CheckObjectHasProperties(distribution, DistributionFields)
    ensures r.Success? ==> r.value == Call(PUT, "/distributions/" + Encode(id.s), Undefined, distribution, cbS, cbE)
    ensures r.Success? ==> distribution.Obj?
    ensures r.Success? && Routable(id.s) ==> ReadPath(r.value.path) == Some(["distributions", id.s])
  {
    if !IsString(id) then Failure(Thrown(IdNotString))
    else
      var check := CheckObjectHasProperties(distribution, DistributionFields);
      if check.Fail? then Failure(check.error)
      else
        var template := "/distributions/" + "{1}";
        OneIdRoute(template, "/distributions/", "distributions", id.s, "", [], ["distributions", id.s]);
        Success(Call(PUT, FormatURL(template, [id]), Undefined, distribution, cbS, cbE))
  }

  /** `distribution.getDevices(id, options, cbS, cbE)`. */
  function GetDevices(id: Value, options: Value, cbS: Value, cbE: Value): (r: Result<Call, Error>)
    ensures r.Success? <==> id.Str?
    ensures r.Failure? ==> r.error == Thrown(IdNotString)
    ensures r.Success? ==> r.value.verb == GET && r.value.body == Undefined
    ensures r.Success? ==> r.value.path == "/distributions/" + Encode(id.s) + "/devices"
    ensures r.Success? && Routable(id.s) ==> ReadPath(r.value.path) == Some(["distributions", id.s, "devices"])
    ensures r.Success? && IsFunc(options) ==> r.value.urlParams == EmptyObject && r.value.onSuccess == options && r.value.onError == cbS
    ensures r.Success? && !IsFunc(options) ==> r.value.urlParams == options && r.value.onSuccess == cbS && r.value.onError == cbE
  {
    var shifted := ShiftOptions(options, cbS, cbE);
    if !IsString(id) then Failure(Thrown(IdNotString))
    else
      var template := "/distributions/" + "{1}" + "/devices";
      OneIdRoute(template, "/distributions/", "distributions", id.s, "/devices", ["devices"], ["distributions", id.s, "devices"]);
      Success(Call(GET, FormatURL(template, [id]), shifted.urlParams, Undefined, shifted.onSuccess, shifted.onError))
  }

  /** The serial-number guard of `addDevice`: a string passes; any other
      non-number is "not present"; `NaN` is a "type mismatch"; every other
      number passes. */
  function SerialCheck(serial: Value): (r: Outcome<Error>)
    ensures r.Pass? <==> serial.Str? || serial.Num?
    ensures !serial.Str? && !IsNumber(serial) ==> r == Fail(Thrown(SerialMissing))
    ensures serial.NaN? ==> r == Fail(Thrown(SerialNaN))
  {
    if IsString(serial) then Pass
    else if !IsNumber(serial) then Fail(Thrown(SerialMissing))
    else if serial.NaN? then Fail(Thrown(SerialNaN))
    else Pass
  }

  /** `distribution.addDevice(id, serial, cbS, cbE)`. */
  function AddDevice(id: Value, serial: Value, cbS: Value, cbE: Value): (r: Result<Call, Error>)
    ensures r.Success? <==> id.Str? && (serial.Str? || serial.Num?)
    ensures !id.Str? ==> r == Failure(Thrown(DistributionIdNotString))
    ensures id.Str? && !serial.Str? && !IsNumber(serial) ==> r == Failure(Thrown(SerialMissing))
    ensures id.Str? && serial.NaN? ==> r == Failure(Thrown(SerialNaN))
    ensures r.Success? ==> r.value == Call(POST, "/distributions/" + Encode(id.s) + "/devices", Undefined, Singleton("serial", serial), cbS, cbE)
    ensures r.Success? && Routable(id.s) ==> ReadPath(r.value.path) == Some(["distributions", id.s, "devices"])
  {
    if !IsString(id) then Failure(Thrown(DistributionIdNotString))
    else
      var check := SerialCheck(serial);
      if check.Fail? then Failure(check.error)
      else
        var template := "/distributions/" + "{1}" + "/devices";
        OneIdRoute(template, "/distributions/", "distributions", id.s, "/devices", ["devices"], ["distributions", id.s, "devices"]);
        Success(Call(POST, FormatURL(template, [id]), Undefined, Singleton("serial", serial), cbS, cbE))
  }

  /** `distribution.remove(id, cbS, cbE)`. */
  function Remove(id: Value, cbS: Value, cbE: Value): (r: Result<Call, Error>)
    ensures r.Success? <==> id.Str?
    ensures r.Failure? ==> r.error == Thrown(DistributionIdNotString)
    ensures r.Success? ==> r.value == Call(DELETE, "/distributions/" + Encode(id.s), Undefined, Undefined, cbS, cbE)
    ensures r.Success? && Routable(id.s) ==> ReadPath(r.value.path) == Some(["distributions", id.s])
  {
    if !IsString(id) then Failure(Thrown(DistributionIdNotString))
    else
      var template := "/distributions/" + "{1}";
      OneIdRoute(template, "/distributions/", "distributions", id.s, "", [], ["distributions", id.s]);
      Success(Call(DELETE, FormatURL(template, [id]), Undefined, Undefined, cbS, cbE))
  }

  // ---------------------------------------------------------------------
  // Data streams

  /** `distribution.getDataStreams(id, cbS, cbE)`. */
  function GetDataStreams(id: Value, cbS: Value, cbE: Value): (r: Result<Call, Error>)
    ensures r.Success? <==> id.Str?
    ensures r.Failure? ==> r.error == Thrown(IdNotString)
    ensures r.Success? ==> r.value == Call(GET, "/distributions/" + Encode(id.s) + "/streams", Undefined, Undefined, cbS, cbE)
    ensures r.Success? && Routable(id.s) ==> ReadPath(r.value.path) == Some(["distributions", id.s, "streams"])
  {
    if !IsString(id) then Failure(Thrown(IdNotString))
    else
      var template := "/distributions/" + "{1}" + "/streams";
      OneIdRoute(template, "/distributions/", "distributions", id.s, "/streams", ["streams"], ["distributions", id.s, "streams"]);
      Success(Call(GET, FormatURL(template, [id]), Undefined, Undefined, cbS, cbE))
  }

  /** `distribution.updateStream(id, name, stream, cbS, cbE)`, shifting a
      function in place of the stream object as the device facade does. */
  function UpdateStream(id: Value, name: Value, stream: Value, cbS: Value, cbE: Value): (r: Result<Call, Error>)
    ensures r.Success? <==> id.Str? && IsStreamName(name)
    ensures !id.Str? ==> r == Failure(Thrown(IdNotString))
    ensures id.Str? && r.Failure? ==> r.error == Thrown(BadStreamName)
    ensures r.Success? ==> r.value.verb == PUT && r.value.urlParams == Undefined
    ensures r.Success? ==> r.value.path == "/distributions/" + Encode(id.s) + "/streams/" + Encode(name.s)
    ensures r.Success? && Routable(id.s) && Routable(name.s) ==> ReadPath(r.value.path) == Some(["distributions", id.s, "streams", name.s])
    ensures r.Success? && IsFunc(stream) ==> r.value.body == EmptyObject && r.value.onSuccess == stream && r.value.onError == cbS
    ensures r.Success? && !IsFunc(stream) ==> r.value.body == stream && r.value.onSuccess == cbS && r.value.onError == cbE
  {
    var body := if IsFunc(stream) then EmptyObject else stream;
    var onSuccess := if IsFunc(stream) then stream else cbS;
    var onError := if IsFunc(stream) then cbS else cbE;
    if !IsString(id) then Failure(Thrown(IdNotString))
    else if StreamNameRejected(name) then Failure(Thrown(BadStreamName))
    else
      var template := "/distributions/" + "{1}" + "/streams/" + "{2}";
      TwoIdRoute(template, "/distributions/", "distributions", id.s, "/streams/", "streams", name, "", [], ["distributions", id.s, "streams", name.s]);
      Success(Call(PUT, FormatURL(template, [id, name]), Undefined, body, onSuccess, onError))
  }

  /** `distribution.getDataStreamDetails(id, name, cbS, cbE)`. */
  function GetDataStreamDetails(id: Value, name: Value, cbS: Value, cbE: Value): (r: Result<Call, Error>)
    ensures r.Success? <==> id.Str? && IsStreamName(name)
    ensures !id.Str? ==> r == Failure(Thrown(IdNotString))
    ensures id.Str? && r.Failure? ==> r.error == Thrown(BadStreamName)
    ensures r.Success? ==> r.value == Call(GET, "/distributions/" + Encode(id.s) + "/streams/" + Encode(name.s), Undefined, Undefined, cbS, cbE)
    ensures r.Success? && Routable(id.s) && Routable(name.s) ==> ReadPath(r.value.path) == Some(["distributions", id.s, "streams", name.s])
  {
    if !IsString(id) then Failure(Thrown(IdNotString))
    else if StreamNameRejected(name) then Failure(Thrown(BadStreamName))
    else
      var template := "/distributions/" + "{1}" + "/streams/" + "{2}";
      TwoIdRoute(template, "/distributions/", "distributions", id.s, "/streams/", "streams", name, "", [], ["distributions", id.s, "streams", name.s]);
      Success(Call(GET, FormatURL(template, [id, name]), Undefined, Undefined, cbS, cbE))
  }

  /** `distribution.deleteDataStream(id, name, cbS, cbE)`. */
  function DeleteDataStream(id: Value, name: Value, cbS: Value, cbE: Value): (r: Result<Call, Error>)
    ensures r.Success? <==> id.Str? && IsStreamName(name)
    ensures !id.Str? ==> r == Failure(Thrown(IdNotString))
    ensures id.Str? && r.Failure? ==> r.error == Thrown(BadStreamName)
    ensures r.Success? ==> r.value == Call(DELETE, "/distributions/" + Encode(id.s) + "/streams/" + Encode(name.s), Undefined, Undefined, cbS, cbE)
    ensures r.Success? && Routable(id.s) && Routable(name.s) ==> ReadPath(r.value.path) == Some(["distributions", id.s, "streams", name.s])
  {
    if !IsString(id) then Failure(Thrown(IdNotString))
    else if StreamNameRejected(name) then Failure(Thrown(BadStreamName))
    else
      var template := "/distributions/" + "{1}" + "/streams/" + "{2}";
      TwoIdRoute(template, "/distributions/", "distributions", id.s, "/streams/", "streams", name, "", [], ["distributions", id.s, "streams", name.s]);
      Success(Call(DELETE, FormatURL(template, [id, name]), Undefined, Undefined, cbS, cbE))
  }

  // ---------------------------------------------------------------------
  // Triggers

  /** `distribution.getTriggers(id, options, cbS, cbE)`. */
  function GetTriggers(id: Value, options: Value, cbS: Value, cbE: Value): (r: Result<Call, Error>)
    ensures r.Success? <==> id.Str?
    ensures r.Failure? ==> r.error == Thrown(IdNotString)
    ensures r.Success? ==> r.value.verb == GET && r.value.body == Undefined
    ensures r.Success? ==> r.value.path == "/distributions/" + Encode(id.s) + "/triggers"
    ensures r.Success? && Routable(id.s) ==> ReadPath(r.value.path) == Some(["distributions", id.s, "triggers"])
    ensures r.Success? && IsFunc(options) ==> r.value.urlParams == EmptyObject && r.value.onSuccess == options && r.value.onError == cbS
    ensures r.Success? && !IsFunc(options) ==> r.value.urlParams == options && r.value.onSuccess == cbS && r.value.onError == cbE
  {
    var shifted := ShiftOptions(options, cbS, cbE);
    if !IsString(id) then Failure(Thrown(IdNotString))
    else
      var template := "/distributions/" + "{1}" + "/triggers";
      OneIdRoute(template, "/distributions/", "distributions", id.s, "/triggers", ["triggers"], ["distributions", id.s, "triggers"]);
      Success(Call(GET, FormatURL(template, [id]), shifted.urlParams, Undefined, shifted.onSuccess, shifted.onError))
  }

  /** `distribution.createTrigger(id, trigger, cbS, cbE)`. */
  function CreateTrigger(id: Value, trigger: Value, cbS: Value, cbE: Value): (r: Result<Call, Error>)
    ensures r.Success? <==> id.Str? && CheckObjectHasProperties(trigger, TriggerFields).Pass?
    ensures !id.Str? ==> r == Failure(Thrown(IdNotString))
    ensures id.Str? && r.Failure? ==> Fail(r.error) == CheckObjectHasProperties(trigger, TriggerFields)
    ensures r.Success? ==> r.value == Call(POST, "/distributions/" + Encode(id.s) + "/triggers", Undefined, trigger, cbS, cbE)
    ensures r.Success? ==> trigger.Obj?
    ensures r.Success? && Routable(id.s) ==> ReadPath(r.value.path) == Some(["distributions", id.s, "triggers"])
  {
    if !IsString(id) then Failure(Thrown(IdNotString))
    else
      var check := CheckObjectHasProperties(trigger, TriggerFields);
      if check.Fail? then Failure(check.error)
      else
        var template := "/distributions/" + "{1}" + "/triggers";
        OneIdRoute(template, "/distributions/", "distributions", id.s, "/triggers", ["triggers"], ["distributions", id.s, "triggers"]);
        Success(Call(POST, FormatURL(template, [id]), Undefined, trigger, cbS, cbE))
  }

  /** `distribution.getTriggerDetails(id, triggerId, cbS, cbE)`: the
      trigger id is not checked. */
  function GetTriggerDetails(id: Value, triggerId: Value, cbS: Value, cbE: Value): (r: Result<Call, Error>)
    ensures r.Success? <==> id.Str?
    ensures r.Failure? ==> r.error == Thrown(IdNotString)
    ensures r.Success? ==> r.value == Call(GET, "/distributions/" + Encode(id.s) + "/triggers/" + Filled(triggerId, "2"), Undefined, Undefined, cbS, cbE)
    ensures r.Success? && !triggerId.Undefined? && Routable(id.s) && Routable(ToStr(triggerId)) ==> ReadPath(r.value.path) == Some(["distributions", id.s, "triggers", ToStr(triggerId)])
  {
    if !IsString(id) then Failure(Thrown(IdNotString))
    else
      var template := "/distributions/" + "{1}" + "/triggers/" + "{2}";
      TwoIdRoute(template, "/distributions/", "distributions", id.s, "/triggers/", "triggers", triggerId, "", [], ["distributions", id.s, "triggers", ToStr(triggerId)]);
      Success(Call(GET, FormatURL(template, [id, triggerId]), Undefined, Undefined, cbS, cbE))
  }

  /** `distribution.updateTrigger(id, triggerId, trigger, cbS, cbE)`: the
      trigger id is not checked. */
  function UpdateTrigger(id: Value, triggerId: Value, trigger: Value, cbS: Value, cbE: Value): (r: Result<Call, Error>)
    ensures r.Success? <==> id.Str? && CheckObjectHasProperties(trigger, TriggerFields).Pass?
    ensures !id.Str? ==> r == Failure(Thrown(IdNotString))
    ensures id.Str? && r.Failure? ==> Fail(r.error) == CheckObjectHasProperties(trigger, TriggerFields)
    ensures r.Success? ==> r.value == Call(PUT, "/distributions/" + Encode(id.s) + "/triggers/" + Filled(triggerId, "2"), Undefined, trigger, cbS, cbE)
    ensures r.Success? ==> trigger.Obj?
    ensures r.Success? && !triggerId.Undefined? && Routable(id.s) && Routable(ToStr(triggerId)) ==> ReadPath(r.value.path) == Some(["distributions", id.s, "triggers", ToStr(triggerId)])
  {
    if !IsString(id) then Failure(Thrown(IdNotString))
    else
      var check := CheckObjectHasProperties(trigger, TriggerFields);
      if check.Fail? then Failure(check.error)
      else
        var template := "/distributions/" + "{1}" + "/triggers/" + "{2}";
        TwoIdRoute(template, "/distributions/", "distributions", id.s, "/triggers/", "triggers", triggerId, "", [], ["distributions", id.s, "triggers", ToStr(triggerId)]);
        Success(Call(PUT, FormatURL(template, [id, triggerId]), Undefined, trigger, cbS, cbE))
  }

  /** `distribution.testTrigger(id, triggerId, cbS, cbE)`. */
  function TestTrigger(id: Value, triggerId: Value, cbS: Value, cbE: Value): (r: Result<Call, Error>)
    ensures r.Success? <==> id.Str? && triggerId.Str?
    ensures !id.Str? ==> r == Failure(Thrown(IdNotString))
    ensures id.Str? && r.Failure? ==> r.error == Thrown(TriggerIdNotString)
    ensures r.Success? ==> r.value == Call(POST, "/distributions/" + Encode(id.s) + "/triggers/" + Encode(triggerId.s) + "/test", Undefined, Undefined, cbS, cbE)
    ensures r.Success? && Routable(id.s) && Routable(triggerId.s) ==> ReadPath(r.value.path) == Some(["distributions", id.s, "triggers", triggerId.s, "test"])
  {
    if !IsString(id) then Failure(Thrown(IdNotString))
    else if !IsString(triggerId) then Failure(Thrown(TriggerIdNotString))
    else
      var template := "/distributions/" + "{1}" + "/triggers/" + "{2}" + "/test";
      TwoIdRoute(template, "/distributions/", "distributions", id.s, "/triggers/", "triggers", triggerId, "/test", ["test"], ["distributions", id.s, "triggers", triggerId.s, "test"]);
      Success(Call(POST, FormatURL(template, [id, triggerId]), Undefined, Undefined, cbS, cbE))
  }

  /** `distribution.deleteTrigger(id, triggerId, cbS, cbE)`. */
  function DeleteTrigger(id: Value, triggerId: Value, cbS: Value, cbE: Value): (r: Result<Call, Error>)
    ensures r.Success? <==> id.Str? && triggerId.Str?
    ensures !id.Str? ==> r == Failure(Thrown(IdNotString))
    ensures id.Str? && r.Failure? ==> r.error == Thrown(TriggerIdNotString)
    ensures r.Success? ==> r.value == Call(DELETE, "/distributions/" + Encode(id.s) + "/triggers/" + Encode(triggerId.s), Undefined, Undefined, cbS, cbE)
    ensures r.Success? && Routable(id.s) && Routable(triggerId.s) ==> ReadPath(r.value.path) == Some(["distributions", id.s, "triggers", triggerId.s])
  {
    if !IsString(id) then Failure(Thrown(IdNotString))
    else if !IsString(triggerId) then Failure(Thrown(TriggerIdNotString))
    else
      var template := "/distributions/" + "{1}" + "/triggers/" + "{2}";
      TwoIdRoute(template, "/distributions/", "distributions", id.s, "/triggers/", "triggers", triggerId, "", [], ["distributions", id.s, "triggers", triggerId.s]);
      Success(Call(DELETE, FormatURL(template, [id, triggerId]), Undefined, Undefined, cbS, cbE))
  }

  // ---------------------------------------------------------------------
  // Omitted arguments

  /** Every operation that shifts a function in place of its options (or,
      for `UpdateStream`, of its stream object) makes the same request as
      a call passing `{}` there, with the continuations in their own
      places. */
  lemma OmittedOptionsAreEmpty(id: Value, name: Value, f: Value, cbS: Value, cbE: Value)
    requires IsFunc(f)
    ensures Search(f, cbS, cbE) == Search(EmptyObject, f, cbS)
    ensures GetDevices(id, f, cbS, cbE) == GetDevices(id, EmptyObject, f, cbS)
    ensures GetTriggers(id, f, cbS, cbE) == GetTriggers(id, EmptyObject, f, cbS)
    ensures UpdateStream(id, name, f, cbS, cbE) == UpdateStream(id, name, EmptyObject, f, cbS)
  {
  }
}
