/** The `api.device` facade: each operation validates its arguments in
    the order the library does and, when they pass, yields the argument
    object it hands to `request`. A thrown `Error` is a `Failure`. Every
    path is stated twice: as the text `formatURL` produces, and as the
    segments the server reads back from it. */
module Device {
  import opened Wrappers
  import opened JsValue
  import opened Errors
  import opened UriEncoding
  import opened Utils
  import opened Http
  import opened Paths
  import opened Facade

  /** Properties a device object must carry. */
  const DeviceFields := ["name", "visibility"]
  /** Properties a location object must carry. */
  const LocationFields := ["latitude", "longitude"]
  /** Properties a trigger object must carry. */
  const TriggerFields := ["stream", "condition", "value", "name", "callback_url"]
  /** Properties every value posted to a stream must carry. */
  const ValueFields := ["timestamp", "value"]
  /** Properties a value range for deletion must carry. */
  const RangeFields := ["from", "end"]

  // ---------------------------------------------------------------------
  // Devices

  /** `device.search(options, cbS, cbE)`: the options are the query even
      when they are the success continuation; a function `cbS` then
      becomes the error continuation. */
  function Search(options: Value, cbS: Value, cbE: Value): (c: Call)
    ensures c.verb == GET && c.path == "/devices" && c.urlParams == options && c.body == Undefined
    ensures ReadPath(c.path) == Some(["devices"])
    ensures !IsFunc(options) ==> c.onSuccess == cbS && c.onError == cbE
    ensures IsFunc(options) ==> c.onSuccess == options
    ensures IsFunc(options) && IsFunc(cbS) ==> c.onError == cbS
    ensures IsFunc(options) && !IsFunc(cbS) ==> c.onError == cbE
  {
    var onSuccess := if IsFunc(options) then options else cbS;
    var onError := if IsFunc(options) && IsFunc(cbS) then cbS else cbE;
    FixedRoute("/devices", ["devices"]);
    Call(GET, "/devices", options, Undefined, onSuccess, onError)
  }

  /** `device.searchDeviceGroups(options, cbS, cbE)`, shifting its
      arguments as `Search` does. */
  function SearchDeviceGroups(options: Value, cbS: Value, cbE: Value): (c: Call)
    ensures c.verb == GET && c.path == "/devices/groups" && c.urlParams == options && c.body == Undefined
    ensures ReadPath(c.path) == Some(["devices", "groups"])
    ensures !IsFunc(options) ==> c.onSuccess == cbS && c.onError == cbE
    ensures IsFunc(options) ==> c.onSuccess == options
    ensures IsFunc(options) && IsFunc(cbS) ==> c.onError == cbS
    ensures IsFunc(options) && !IsFunc(cbS) ==> c.onError == cbE
  {
    var onSuccess := if IsFunc(options) then options else cbS;
    var onError := if IsFunc(options) && IsFunc(cbS) then cbS else cbE;
    FixedRoute("/devices/groups", ["devices", "groups"]);
    Call(GET, "/devices/groups", options, Undefined, onSuccess, onError)
  }

  /** `device.create(device, cbS, cbE)`. */
  function Create(device: Value, cbS: Value, cbE: Value): (r: Result<Call, Error>)
    ensures r.Success? <==> CheckObjectHasProperties(device, DeviceFields).Pass?
    ensures r.Failure? ==> Fail(r.error) == CheckObjectHasProperties(device, DeviceFields)
    ensures r.Success? ==> r.value == Call(POST, "/devices", Undefined, device, cbS, cbE)
    ensures r.Success? ==> device.Obj? && ReadPath(r.value.path) == Some(["devices"])
  {
    var check := CheckObjectHasProperties(device, DeviceFields);
    if check.Fail? then Failure(check.error)
    else
      FixedRoute("/devices", ["devices"]);
      Success(Call(POST, "/devices", Undefined, device, cbS, cbE))
  }

  /** `device.update(id, device, cbS, cbE)`. */
  function Update(id: Value, device: Value, cbS: Value, cbE: Value): (r: Result<Call, Error>)
    ensures r.Success? <==> id.Str? && CheckObjectHasProperties(device, DeviceFields).Pass?
    ensures !id.Str? ==> r == Failure(Thrown(IdNotString))
    ensures id.Str? && r.Failure? ==> Fail(r.error) == CheckObjectHasProperties(device, DeviceFields)
    ensures r.Success? ==> r.value == Call(PUT, "/devices/" + Encode(id.s), Undefined, device, cbS, cbE)
    ensures r.Success? ==> device.Obj?
    ensures r.Success? && Routable(id.s) ==> ReadPath(r.value.path) == Some(["devices", id.s])
  {
    if !IsString(id) then Failure(Thrown(IdNotString))
    else
      var check := CheckObjectHasProperties(device, DeviceFields);
      if check.Fail? then Failure(check.error)
      else
        var template := "/devices/" + "{1}";
        OneIdRoute(template, "/devices/", "devices", id.s, "", [], ["devices", id.s]);
        Success(Call(PUT, FormatURL(template, [id]), Undefined, device, cbS, cbE))
  }

  /** `device.getDetails(id, cbS, cbE)`. */
  function GetDetails(id: Value, cbS: Value, cbE: Value): (r: Result<Call, Error>)
    ensures r.Success? <==> id.Str?
    ensures r.Failure? ==> r.error == Thrown(IdNotString)
    ensures r.Success? ==> r.value == Call(GET, "/devices/" + Encode(id.s), Undefined, Undefined, cbS, cbE)
    ensures r.Success? && Routable(id.s) ==> ReadPath(r.value.path) == Some(["devices", id.s])
  {
    if !IsString(id) then Failure(Thrown(IdNotString))
    else
      var template := "/devices/" + "{1}";
      OneIdRoute(template, "/devices/", "devices", id.s, "", [], ["devices", id.s]);
      Success(Call(GET, FormatURL(template, [id]), Undefined, Undefined, cbS, cbE))
  }

  /** `device.getLocation(id, cbS, cbE)`. */
  function GetLocation(id: Value, cbS: Value, cbE: Value): (r: Result<Call, Error>)
    ensures r.Success? <==> id.Str?
    ensures r.Failure? ==> r.error == Thrown(IdNotString)
    ensures r.Success? ==> r.value == Call(GET, "/devices/" + Encode(id.s) + "/location", Undefined, Undefined, cbS, cbE)
    ensures r.Success? && Routable(id.s) ==> ReadPath(r.value.path) == Some(["devices", id.s, "location"])
  {
    if !IsString(id) then Failure(Thrown(IdNotString))
    else
      var template := "/devices/" + "{1}" + "/location";
      OneIdRoute(template, "/devices/", "devices", id.s, "/location", ["location"], ["devices", id.s, "location"]);
      Success(Call(GET, FormatURL(template, [id]), Undefined, Undefined, cbS, cbE))
  }

  /** `device.updateLocation(id, location, cbS, cbE)`. */
  function UpdateLocation(id: Value, location: Value, cbS: Value, cbE: Value): (r: Result<Call, Error>)
    ensures r.Success? <==> id.Str? && CheckObjectHasProperties(location, LocationFields).Pass?
    ensures !id.Str? ==> r == Failure(Thrown(IdNotString))
    ensures id.Str? && r.Failure? ==> Fail(r.error) == CheckObjectHasProperties(location, LocationFields)
    ensures r.Success? ==> r.value == Call(PUT, "/devices/" + Encode(id.s) + "/location", Undefined, location, cbS, cbE)
    ensures r.Success? ==> location.Obj?
    ensures r.Success? && Routable(id.s) ==> ReadPath(r.value.path) == Some(["devices", id.s, "location"])
  {
    if !IsString(id) then Failure(Thrown(IdNotString))
    else
      var check := CheckObjectHasProperties(location, LocationFields);
      if check.Fail? then Failure(check.error)
      else
        var template := "/devices/" + "{1}" + "/location";
        OneIdRoute(template, "/devices/", "devices", id.s, "/location", ["location"], ["devices", id.s, "location"]);
        Success(Call(PUT, FormatURL(template, [id]), Undefined, location, cbS, cbE))
  }

  /** `device.remove(id, cbS, cbE)`, whose message names the device. */
  function Remove(id: Value, cbS: Value, cbE: Value): (r: Result<Call, Error>)
    ensures r.Success? <==> id.Str?
    ensures r.Failure? ==> r.error == Thrown(DeviceIdNotString)
    ensures r.Success? ==> r.value == Call(DELETE, "/devices/" + Encode(id.s), Undefined, Undefined, cbS, cbE)
    ensures r.Success? && Routable(id.s) ==> ReadPath(r.value.path) == Some(["devices", id.s])
  {
    if !IsString(id) then Failure(Thrown(DeviceIdNotString))
    else
      var template := "/devices/" + "{1}";
      OneIdRoute(template, "/devices/", "devices", id.s, "", [], ["devices", id.s]);
      Success(Call(DELETE, FormatURL(template, [id]), Undefined, Undefined, cbS, cbE))
  }

  /** `device.getRequestsLog(id, options, cbS, cbE)`. */
  function GetRequestsLog(id: Value, options: Value, cbS: Value, cbE: Value): (r: Result<Call, Error>)
    ensures r.Success? <==> id.Str?
    ensures r.Failure? ==> r.error == Thrown(IdNotString)
    ensures r.Success? ==> r.value.verb == GET && r.value.body == Undefined
    ensures r.Success? ==> r.value.path == "/devices/" + Encode(id.s) + "/log"
    ensures r.Success? && Routable(id.s) ==> ReadPath(r.value.path) == Some(["devices", id.s, "log"])
    ensures r.Success? && IsFunc(options) ==> r.value.urlParams == EmptyObject && r.value.onSuccess == options && r.value.onError == cbS
    ensures r.Success? && !IsFunc(options) ==> r.value.urlParams == options && r.value.onSuccess == cbS && r.value.onError == cbE
  {
    var shifted := ShiftOptions(options, cbS, cbE);
    if !IsString(id) then Failure(Thrown(IdNotString))
    else
      var template := "/devices/" + "{1}" + "/log";
      OneIdRoute(template, "/devices/", "devices", id.s, "/log", ["log"], ["devices", id.s, "log"]);
      Success(Call(GET, FormatURL(template, [id]), shifted.urlParams, Undefined, shifted.onSuccess, shifted.onError))
  }

  // ---------------------------------------------------------------------
  // Data streams

  /** `device.getDataStreams(id, cbS, cbE)`. */
  function GetDataStreams(id: Value, cbS: Value, cbE: Value): (r: Result<Call, Error>)
    ensures r.Success? <==> id.Str?
    ensures r.Failure? ==> r.error == Thrown(IdNotString)
    ensures r.Success? ==> r.value == Call(GET, "/devices/" + Encode(id.s) + "/streams", Undefined, Undefined, cbS, cbE)
    ensures r.Success? && Routable(id.s) ==> ReadPath(r.value.path) == Some(["devices", id.s, "streams"])
  {
    if !IsString(id) then Failure(Thrown(IdNotString))
    else
      var template := "/devices/" + "{1}" + "/streams";
      OneIdRoute(template, "/devices/", "devices", id.s, "/streams", ["streams"], ["devices", id.s, "streams"]);
      Success(Call(GET, FormatURL(template, [id]), Undefined, Undefined, cbS, cbE))
  }

  /** `device.updateStream(id, name, stream, cbS, cbE)`: a function in
      place of the stream object means the body was left out, so `{}` is
      sent and the continuations move one place left. */
  function UpdateStream(id: Value, name: Value, stream: Value, cbS: Value, cbE: Value): (r: Result<Call, Error>)
    ensures r.Success? <==> id.Str? && IsStreamName(name)
    ensures !id.Str? ==> r == Failure(Thrown(IdNotString))
    ensures id.Str? && r.Failure? ==> r.error == Thrown(BadStreamName)
    ensures r.Success? ==> r.value.verb == PUT && r.value.urlParams == Undefined
    ensures r.Success? ==> r.value.path == "/devices/" + Encode(id.s) + "/streams/" + Encode(name.s)
    ensures r.Success? && Routable(id.s) && Routable(name.s) ==> ReadPath(r.value.path) == Some(["devices", id.s, "streams", name.s])
    ensures r.Success? && IsFunc(stream) ==> r.value.body == EmptyObject && r.value.onSuccess == stream && r.value.onError == cbS
    ensures r.Success? && !IsFunc(stream) ==> r.value.body == stream && r.value.onSuccess == cbS && r.value.onError == cbE
  {
    var body := if IsFunc(stream) then EmptyObject else stream;
    var onSuccess := if IsFunc(stream) then stream else cbS;
    var onError := if IsFunc(stream) then cbS else cbE;
    if !IsString(id) then Failure(Thrown(IdNotString))
    else if StreamNameRejected(name) then Failure(Thrown(BadStreamName))
    else
      var template := "/devices/" + "{1}" + "/streams/" + "{2}";
      TwoIdRoute(template, "/devices/", "devices", id.s, "/streams/", "streams", name, "", [], ["devices", id.s, "streams", name.s]);
      Success(Call(PUT, FormatURL(template, [id, name]), Undefined, body, onSuccess, onError))
  }

  /** `device.updateDataStreamValue(id, name, streamValue, cbS, cbE)`. */
  function UpdateDataStreamValue(id: Value, name: Value, streamValue: Value, cbS: Value, cbE: Value): (r: Result<Call, Error>)
    ensures r.Success? <==> id.Str? && IsStreamName(name) && CheckObjectHasProperties(streamValue, ["value"]).Pass?
    ensures !id.Str? ==> r == Failure(Thrown(IdNotString))
    ensures id.Str? && !IsStreamName(name) ==> r == Failure(Thrown(BadStreamName))
    ensures id.Str? && IsStreamName(name) && r.Failure? ==> Fail(r.error) == CheckObjectHasProperties(streamValue, ["value"])
    ensures r.Success? ==> r.value == Call(PUT, "/devices/" + Encode(id.s) + "/streams/" + Encode(name.s) + "/value", Undefined, streamValue, cbS, cbE)
    ensures r.Success? ==> streamValue.Obj?
    ensures r.Success? && Routable(id.s) && Routable(name.s) ==> ReadPath(r.value.path) == Some(["devices", id.s, "streams", name.s, "value"])
  {
    if !IsString(id) then Failure(Thrown(IdNotString))
    else if StreamNameRejected(name) then Failure(Thrown(BadStreamName))
    else
      var check := CheckObjectHasProperties(streamValue, ["value"]);
      if check.Fail? then Failure(check.error)
      else
        var template := "/devices/" + "{1}" + "/streams/" + "{2}" + "/value";
        TwoIdRoute(template, "/devices/", "devices", id.s, "/streams/", "streams", name, "/value", ["value"], ["devices", id.s, "streams", name.s, "value"]);
        Success(Call(PUT, FormatURL(template, [id, name]), Undefined, streamValue, cbS, cbE))
  }

  /** `device.getDataStreamDetails(id, name, cbS, cbE)`. */
  function GetDataStreamDetails(id: Value, name: Value, cbS: Value, cbE: Value): (r: Result<Call, Error>)
    ensures r.Success? <==> id.Str? && IsStreamName(name)
    ensures !id.Str? ==> r == Failure(Thrown(IdNotString))
    ensures id.Str? && r.Failure? ==> r.error == Thrown(BadStreamName)
    ensures r.Success? ==> r.value == Call(GET, "/devices/" + Encode(id.s) + "/streams/" + Encode(name.s), Undefined, Undefined, cbS, cbE)
    ensures r.Success? && Routable(id.s) && Routable(name.s) ==> ReadPath(r.value.path) == Some(["devices", id.s, "streams", name.s])
  {
    if !IsString(id) then Failure(Thrown(IdNotString))
    else if StreamNameRejected(name) then Failure(Thrown(BadStreamName))
    else
      var template := "/devices/" + "{1}" + "/streams/" + "{2}";
      TwoIdRoute(template, "/devices/", "devices", id.s, "/streams/", "streams", name, "", [], ["devices", id.s, "streams", name.s]);
      Success(Call(GET, FormatURL(template, [id, name]), Undefined, Undefined, cbS, cbE))
  }

  /** `device.getDataStreamValues(id, name, options, cbS, cbE)`. */
  function GetDataStreamValues(id: Value, name: Value, options: Value, cbS: Value, cbE: Value): (r: Result<Call, Error>)
    ensures r.Success? <==> id.Str? && IsStreamName(name)
    ensures !id.Str? ==> r == Failure(Thrown(IdNotString))
    ensures id.Str? && r.Failure? ==> r.error == Thrown(BadStreamName)
    ensures r.Success? ==> r.value.verb == GET && r.value.body == Undefined
    ensures r.Success? ==> r.value.path == "/devices/" + Encode(id.s) + "/streams/" + Encode(name.s) + "/values.json"
    ensures r.Success? && Routable(id.s) && Routable(name.s) ==> ReadPath(r.value.path) == Some(["devices", id.s, "streams", name.s, "values.json"])
    ensures r.Success? && IsFunc(options) ==> r.value.urlParams == EmptyObject && r.value.onSuccess == options && r.value.onError == cbS
    ensures r.Success? && !IsFunc(options) ==> r.value.urlParams == options && r.value.onSuccess == cbS && r.value.onError == cbE
  {
    var shifted := ShiftOptions(options, cbS, cbE);
    if !IsString(id) then Failure(Thrown(IdNotString))
    else if StreamNameRejected(name) then Failure(Thrown(BadStreamName))
    else
      var template := "/devices/" + "{1}" + "/streams/" + "{2}" + "/values.json";
      TwoIdRoute(template, "/devices/", "devices", id.s, "/streams/", "streams", name, "/values.json", ["values.json"], ["devices", id.s, "streams", name.s, "values.json"]);
      Success(Call(GET, FormatURL(template, [id, name]), shifted.urlParams, Undefined, shifted.onSuccess, shifted.onError))
  }

  /** `device.getDataStreamStats(id, name, options, cbS, cbE)`. */
  function GetDataStreamStats(id: Value, name: Value, options: Value, cbS: Value, cbE: Value): (r: Result<Call, Error>)
    ensures r.Success? <==> id.Str? && IsStreamName(name)
    ensures !id.Str? ==> r == Failure(Thrown(IdNotString))
    ensures id.Str? && r.Failure? ==> r.error == Thrown(BadStreamName)
    ensures r.Success? ==> r.value.verb == GET && r.value.body == Undefined
    ensures r.Success? ==> r.value.path == "/devices/" + Encode(id.s) + "/streams/" + Encode(name.s) + "/stats"
    ensures r.Success? && Routable(id.s) && Routable(name.s) ==> ReadPath(r.value.path) == Some(["devices", id.s, "streams", name.s, "stats"])
    ensures r.Success? && IsFunc(options) ==> r.value.urlParams == EmptyObject && r.value.onSuccess == options && r.value.onError == cbS
    ensures r.Success? && !IsFunc(options) ==> r.value.urlParams == options && r.value.onSuccess == cbS && r.value.onError == cbE
  {
    var shifted := ShiftOptions(options, cbS, cbE);
    if !IsString(id) then Failure(Thrown(IdNotString))
    else if StreamNameRejected(name) then Failure(Thrown(BadStreamName))
    else
      var template := "/devices/" + "{1}" + "/streams/" + "{2}" + "/stats";
      TwoIdRoute(template, "/devices/", "devices", id.s, "/streams/", "streams", name, "/stats", ["stats"], ["devices", id.s, "streams", name.s, "stats"]);
      Success(Call(GET, FormatURL(template, [id, name]), shifted.urlParams, Undefined, shifted.onSuccess, shifted.onError))
  }

  /** `device.postDataStreamValues(id, name, values, cbS, cbE)`: `values`
      must be an array whose every element carries a timestamp and a
      value; the first element that does not decides the error. */
  function PostDataStreamValues(id: Value, name: Value, values: Value, cbS: Value, cbE: Value): (r: Result<Call, Error>)
    ensures r.Success? <==> id.Str? && IsStreamName(name) && values.Arr?
                            && forall i :: 0 <= i < |values.elems| ==> CheckObjectHasProperties(values.elems[i], ValueFields).Pass?
    ensures !id.Str? ==> r == Failure(Thrown(IdNotString))
    ensures id.Str? && !IsStreamName(name) ==> r == Failure(Thrown(BadStreamName))
    ensures id.Str? && IsStreamName(name) && !values.Arr? ==> r == Failure(Thrown(ValuesNotArray))
    ensures id.Str? && IsStreamName(name) && values.Arr? && r.Failure? ==> Fail(r.error) == CheckEach(values.elems, ValueFields)
    ensures id.Str? && IsStreamName(name) && values.Arr? && r.Failure? ==>
              exists i :: 0 <= i < |values.elems| && Fail(r.error) == CheckObjectHasProperties(values.elems[i], ValueFields)
                          && forall j :: 0 <= j < i ==> CheckObjectHasProperties(values.elems[j], ValueFields).Pass?
    ensures r.Success? ==> r.value == Call(POST, "/devices/" + Encode(id.s) + "/streams/" + Encode(name.s) + "/values", Undefined, Singleton("values", values), cbS, cbE)
    ensures r.Success? && Routable(id.s) && Routable(name.s) ==> ReadPath(r.value.path) == Some(["devices", id.s, "streams", name.s, "values"])
  {
    if !IsString(id) then Failure(Thrown(IdNotString))
    else if StreamNameRejected(name) then Failure(Thrown(BadStreamName))
    else if !IsArray(values) then Failure(Thrown(ValuesNotArray))
    else
      var check := CheckEach(values.elems, ValueFields);
      if check.Fail? then Failure(check.error)
      else
        var template := "/devices/" + "{1}" + "/streams/" + "{2}" + "/values";
        TwoIdRoute(template, "/devices/", "devices", id.s, "/streams/", "streams", name, "/values", ["values"], ["devices", id.s, "streams", name.s, "values"]);
        Success(Call(POST, FormatURL(template, [id, name]), Undefined, Singleton("values", values), cbS, cbE))
  }

  /** `device.deleteDataStreamValues(id, name, parameters, cbS, cbE)`. */
  function DeleteDataStreamValues(id: Value, name: Value, parameters: Value, cbS: Value, cbE: Value): (r: Result<Call, Error>)
    ensures r.Success? <==> id.Str? && IsStreamName(name) && CheckObjectHasProperties(parameters, RangeFields).Pass?
    ensures !id.Str? ==> r == Failure(Thrown(IdNotString))
    ensures id.Str? && !IsStreamName(name) ==> r == Failure(Thrown(BadStreamName))
    ensures id.Str? && IsStreamName(name) && r.Failure? ==> Fail(r.error) == CheckObjectHasProperties(parameters, RangeFields)
    ensures r.Success? ==> r.value == Call(DELETE, "/devices/" + Encode(id.s) + "/streams/" + Encode(name.s) + "/values", Undefined, parameters, cbS, cbE)
    ensures r.Success? ==> parameters.Obj?
    ensures r.Success? && Routable(id.s) && Routable(name.s) ==> ReadPath(r.value.path) == Some(["devices", id.s, "streams", name.s, "values"])
  {
    if !IsString(id) then Failure(Thrown(IdNotString))
    else if StreamNameRejected(name) then Failure(Thrown(BadStreamName))
    else
      var check := CheckObjectHasProperties(parameters, RangeFields);
      if check.Fail? then Failure(check.error)
      else
        var template := "/devices/" + "{1}" + "/streams/" + "{2}" + "/values";
        TwoIdRoute(template, "/devices/", "devices", id.s, "/streams/", "streams", name, "/values", ["values"], ["devices", id.s, "streams", name.s, "values"]);
        Success(Call(DELETE, FormatURL(template, [id, name]), Undefined, parameters, cbS, cbE))
  }

  /** `device.deleteDataStream(id, name, cbS, cbE)`. */
  function DeleteDataStream(id: Value, name: Value, cbS: Value, cbE: Value): (r: Result<Call, Error>)
    ensures r.Success? <==> id.Str? && IsStreamName(name)
    ensures !id.Str? ==> r == Failure(Thrown(IdNotString))
    ensures id.Str? && r.Failure? ==> r.error == Thrown(BadStreamName)
    ensures r.Success? ==> r.value == Call(DELETE, "/devices/" + Encode(id.s) + "/streams/" + Encode(name.s), Undefined, Undefined, cbS, cbE)
    ensures r.Success? && Routable(id.s) && Routable(name.s) ==> ReadPath(r.value.path) == Some(["devices", id.s, "streams", name.s])
  {
    if !IsString(id) then Failure(Thrown(IdNotString))
    else if StreamNameRejected(name) then Failure(Thrown(BadStreamName))
    else
      var template := "/devices/" + "{1}" + "/streams/" + "{2}";
      TwoIdRoute(template, "/devices/", "devices", id.s, "/streams/", "streams", name, "", [], ["devices", id.s, "streams", name.s]);
      Success(Call(DELETE, FormatURL(template, [id, name]), Undefined, Undefined, cbS, cbE))
  }

  /** `device.postMultipleValues(id, values, cbS, cbE)`: only the id is
      checked; `values` is sent as it is. */
  function PostMultipleValues(id: Value, values: Value, cbS: Value, cbE: Value): (r: Result<Call, Error>)
    ensures r.Success? <==> id.Str?
    ensures r.Failure? ==> r.error == Thrown(IdNotString)
    ensures r.Success? ==> r.value == Call(POST, "/devices/" + Encode(id.s) + "/updates", Undefined, Singleton("values", values), cbS, cbE)
    ensures r.Success? && Routable(id.s) ==> ReadPath(r.value.path) == Some(["devices", id.s, "updates"])
  {
    if !IsString(id) then Failure(Thrown(IdNotString))
    else
      var template := "/devices/" + "{1}" + "/updates";
      OneIdRoute(template, "/devices/", "devices", id.s, "/updates", ["updates"], ["devices", id.s, "updates"]);
      Success(Call(POST, FormatURL(template, [id]), Undefined, Singleton("values", values), cbS, cbE))
  }

  // ---------------------------------------------------------------------
  // Triggers

  /** `device.getTriggers(id, options, cbS, cbE)`. */
  function GetTriggers(id: Value, options: Value, cbS: Value, cbE: Value): (r: Result<Call, Error>)
    ensures r.Success? <==> id.Str?
    ensures r.Failure? ==> r.error == Thrown(IdNotString)
    ensures r.Success? ==> r.value.verb == GET && r.value.body == Undefined
    ensures r.Success? ==> r.value.path == "/devices/" + Encode(id.s) + "/triggers"
    ensures r.Success? && Routable(id.s) ==> ReadPath(r.value.path) == Some(["devices", id.s, "triggers"])
    ensures r.Success? && IsFunc(options) ==> r.value.urlParams == EmptyObject && r.value.onSuccess == options && r.value.onError == cbS
    ensures r.Success? && !IsFunc(options) ==> r.value.urlParams == options && r.value.onSuccess == cbS && r.value.onError == cbE
  {
    var shifted := ShiftOptions(options, cbS, cbE);
    if !IsString(id) then Failure(Thrown(IdNotString))
    else
      var template := "/devices/" + "{1}" + "/triggers";
      OneIdRoute(template, "/devices/", "devices", id.s, "/triggers", ["triggers"], ["devices", id.s, "triggers"]);
      Success(Call(GET, FormatURL(template, [id]), shifted.urlParams, Undefined, shifted.onSuccess, shifted.onError))
  }

  /** `device.createTrigger(id, trigger, cbS, cbE)`. */
  function CreateTrigger(id: Value, trigger: Value, cbS: Value, cbE: Value): (r: Result<Call, Error>)
    ensures r.Success? <==> id.Str? && CheckObjectHasProperties(trigger, TriggerFields).Pass?
    ensures !id.Str? ==> r == Failure(Thrown(IdNotString))
    ensures id.Str? && r.Failure? ==> Fail(r.error) == CheckObjectHasProperties(trigger, TriggerFields)
    ensures r.Success? ==> r.value == Call(POST, "/devices/" + Encode(id.s) + "/triggers", Undefined, trigger, cbS, cbE)
    ensures r.Success? ==> trigger.Obj?
    ensures r.Success? && Routable(id.s) ==> ReadPath(r.value.path) == Some(["devices", id.s, "triggers"])
  {
    if !IsString(id) then Failure(Thrown(IdNotString))
    else
      var check := CheckObjectHasProperties(trigger, TriggerFields);
      if check.Fail? then Failure(check.error)
      else
        var template := "/devices/" + "{1}" + "/triggers";
        OneIdRoute(template, "/devices/", "devices", id.s, "/triggers", ["triggers"], ["devices", id.s, "triggers"]);
        Success(Call(POST, FormatURL(template, [id]), Undefined, trigger, cbS, cbE))
  }

  /** `device.getTriggerDetails(id, triggerId, cbS, cbE)`: the trigger id
      is not checked, so it is filled in however `formatURL` fills it. */
  function GetTriggerDetails(id: Value, triggerId: Value, cbS: Value, cbE: Value): (r: Result<Call, Error>)
    ensures r.Success? <==> id.Str?
    ensures r.Failure? ==> r.error == Thrown(IdNotString)
    ensures r.Success? ==> r.value == Call(GET, "/devices/" + Encode(id.s) + "/triggers/" + Filled(triggerId, "2"), Undefined, Undefined, cbS, cbE)
    ensures r.Success? && !triggerId.Undefined? && Routable(id.s) && Routable(ToStr(triggerId)) ==> ReadPath(r.value.path) == Some(["devices", id.s, "triggers", ToStr(triggerId)])
  {
    if !IsString(id) then Failure(Thrown(IdNotString))
    else
      var template := "/devices/" + "{1}" + "/triggers/" + "{2}";
      TwoIdRoute(template, "/devices/", "devices", id.s, "/triggers/", "triggers", triggerId, "", [], ["devices", id.s, "triggers", ToStr(triggerId)]);
      Success(Call(GET, FormatURL(template, [id, triggerId]), Undefined, Undefined, cbS, cbE))
  }

  /** `device.updateTrigger(id, triggerId, trigger, cbS, cbE)`: like
      `GetTriggerDetails`, the trigger id is not checked. */
  function UpdateTrigger(id: Value, triggerId: Value, trigger: Value, cbS: Value, cbE: Value): (r: Result<Call, Error>)
    ensures r.Success? <==> id.Str? && CheckObjectHasProperties(trigger, TriggerFields).Pass?
    ensures !id.Str? ==> r == Failure(Thrown(IdNotString))
    ensures id.Str? && r.Failure? ==> Fail(r.error) == CheckObjectHasProperties(trigger, TriggerFields)
    ensures r.Success? ==> r.value == Call(PUT, "/devices/" + Encode(id.s) + "/triggers/" + Filled(triggerId, "2"), Undefined, trigger, cbS, cbE)
    ensures r.Success? ==> trigger.Obj?
    ensures r.Success? && !triggerId.Undefined? && Routable(id.s) && Routable(ToStr(triggerId)) ==> ReadPath(r.value.path) == Some(["devices", id.s, "triggers", ToStr(triggerId)])
  {
    if !IsString(id) then Failure(Thrown(IdNotString))
    else
      var check := CheckObjectHasProperties(trigger, TriggerFields);
      if check.Fail? then Failure(check.error)
      else
        var template := "/devices/" + "{1}" + "/triggers/" + "{2}";
        TwoIdRoute(template, "/devices/", "devices", id.s, "/triggers/", "triggers", triggerId, "", [], ["devices", id.s, "triggers", ToStr(triggerId)]);
        Success(Call(PUT, FormatURL(template, [id, triggerId]), Undefined, trigger, cbS, cbE))
  }

  /** `device.testTrigger(id, triggerId, cbS, cbE)`. */
  function TestTrigger(id: Value, triggerId: Value, cbS: Value, cbE: Value): (r: Result<Call, Error>)
    ensures r.Success? <==> id.Str? && triggerId.Str?
    ensures !id.Str? ==> r == Failure(Thrown(IdNotString))
    ensures id.Str? && r.Failure? ==> r.error == Thrown(TriggerIdNotString)
    ensures r.Success? ==> r.value == Call(POST, "/devices/" + Encode(id.s) + "/triggers/" + Encode(triggerId.s) + "/test", Undefined, Undefined, cbS, cbE)
    ensures r.Success? && Routable(id.s) && Routable(triggerId.s) ==> ReadPath(r.value.path) == Some(["devices", id.s, "triggers", triggerId.s, "test"])
  {
    if !IsString(id) then Failure(Thrown(IdNotString))
    else if !IsString(triggerId) then Failure(Thrown(TriggerIdNotString))
    else
      var template := "/devices/" + "{1}" + "/triggers/" + "{2}" + "/test";
      TwoIdRoute(template, "/devices/", "devices", id.s, "/triggers/", "triggers", triggerId, "/test", ["test"], ["devices", id.s, "triggers", triggerId.s, "test"]);
      Success(Call(POST, FormatURL(template, [id, triggerId]), Undefined, Undefined, cbS, cbE))
  }

  /** `device.deleteTrigger(id, triggerId, cbS, cbE)`. */
  function DeleteTrigger(id: Value, triggerId: Value, cbS: Value, cbE: Value): (r: Result<Call, Error>)
    ensures r.Success? <==> id.Str? && triggerId.Str?
    ensures !id.Str? ==> r == Failure(Thrown(IdNotString))
    ensures id.Str? && r.Failure? ==> r.error == Thrown(TriggerIdNotString)
    ensures r.Success? ==> r.value == Call(DELETE, "/devices/" + Encode(id.s) + "/triggers/" + Encode(triggerId.s), Undefined, Undefined, cbS, cbE)
    ensures r.Success? && Routable(id.s) && Routable(triggerId.s) ==> ReadPath(r.value.path) == Some(["devices", id.s, "triggers", triggerId.s])
  {
    if !IsString(id) then Failure(Thrown(IdNotString))
    else if !IsString(triggerId) then Failure(Thrown(TriggerIdNotString))
    else
      var template := "/devices/" + "{1}" + "/triggers/" + "{2}";
      TwoIdRoute(template, "/devices/", "devices", id.s, "/triggers/", "triggers", triggerId, "", [], ["devices", id.s, "triggers", triggerId.s]);
      Success(Call(DELETE, FormatURL(template, [id, triggerId]), Undefined, Undefined, cbS, cbE))
  }

  // ---------------------------------------------------------------------
  // Omitted arguments

  /** Every operation that shifts a function in place of its options (or,
      for `UpdateStream`, of its stream object) makes the same request as
      a call passing `{}` there, with the continuations in their own
      places. */
  lemma OmittedOptionsAreEmpty(id: Value, name: Value, f: Value, cbS: Value, cbE: Value)
    requires IsFunc(f)
    ensures GetRequestsLog(id, f, cbS, cbE) == GetRequestsLog(id, EmptyObject, f, cbS)
    ensures GetDataStreamValues(id, name, f, cbS, cbE) == GetDataStreamValues(id, name, EmptyObject, f, cbS)
    ensures GetDataStreamStats(id, name, f, cbS, cbE) == GetDataStreamStats(id, name, EmptyObject, f, cbS)
    ensures GetTriggers(id, f, cbS, cbE) == GetTriggers(id, EmptyObject, f, cbS)
    ensures UpdateStream(id, name, f, cbS, cbE) == UpdateStream(id, name, EmptyObject, f, cbS)
  {
  }
}
