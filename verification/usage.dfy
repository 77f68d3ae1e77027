/** How the pieces compose when a client is used: a facade operation's
    argument object handed to `request` under a client's configuration. */
module Usage {
  import opened Wrappers
  import opened JsValue
  import opened Errors
  import opened UriEncoding
  import opened Utils
  import opened Http
  import Paths
  import Client
  import Device
  import Distribution

  /** A client built with `{key: k}` that creates a device sends one JSON
      `POST` to `/devices` with the device as body and `k` as API key, and
      a 201 answer reaches the success callback. */
  lemma CreateDeviceRequest(k: string, device: Value, onSuccess: Value, status: int, responseText: string)
    requires CheckObjectHasProperties(device, Device.DeviceFields).Pass?
    requires IsFunc(onSuccess)
    ensures var cfg := Client.New(Obj([Property("key", Str(k))]));
      cfg.Success? &&
      var r := Client.Dispatch(cfg.value, Device.Create(device, onSuccess, Undefined));
      r.Success? && r.value.verb == POST && r.value.key == k
      && r.value.url == Client.BaseEndPoint + "/devices"
      && r.value.contentType == JsonContentType && r.value.body == Some(device)
      && (Client.Respond(cfg.value, r.value, status, responseText).Some?
          <==> IsSuccessStatus(status))
  {
    var options := Obj([Property("key", Str(k))]);
    assert Get(options.props, "key") == Some(Str(k));
    var cfg := Client.New(options).value;
    var call := Device.Create(device, onSuccess, Undefined).value;
    assert call.urlParams == Undefined;
  }

  /** The client built with key `abc` creating device `d1`: one JSON
      `POST` to `/devices` carrying the device, and a 201 answer reaches
      the success callback. */
  lemma CreateDeviceD1(onSuccess: Value)
    requires IsFunc(onSuccess)
    ensures var device := Obj([Property("name", Str("d1")), Property("visibility", Str("private"))]);
      var cfg := Client.New(Obj([Property("key", Str("abc"))]));
      cfg.Success? &&
      var r := Client.Dispatch(cfg.value, Device.Create(device, onSuccess, Undefined));
      r.Success? && r.value.verb == POST && r.value.key == "abc"
      && r.value.url == Client.BaseEndPoint + "/devices" && r.value.body == Some(device)
      && var answer := Client.Respond(cfg.value, r.value, 201, "{\"id\":\"42\"}");
      answer.Some? && answer.value.slot == SuccessSlot && answer.value.callee == onSuccess
      && answer.value.envelope == Envelope(201, JsonText("{\"id\":\"42\"}"))
  {
    var device := Obj([Property("name", Str("d1")), Property("visibility", Str("private"))]);
    assert HasUsable(device.props, "name") && HasUsable(device.props, "visibility");
    assert forall i :: 0 <= i < |Device.DeviceFields| ==> HasUsable(device.props, Device.DeviceFields[i]);
    CreateDeviceRequest("abc", device, onSuccess, 201, "{\"id\":\"42\"}");
  }

  /** Leaving the options out, by passing the success callback in their
      place, never produces a query string: `device.search` hands the
      function itself to `request`, which is not an object, and the other
      listings shift it out and send `{}`, which yields no pairs. Either
      way the callback is the one the response reaches on success. */
  lemma OmittedOptionsSendNoQuery(cfg: Config, f: Value, cbS: Value, cbE: Value)
    requires IsFunc(f)
    ensures var r := Send(cfg, Device.Search(f, cbS, cbE));
      r.Success? && r.value.url == cfg.baseEndPoint + "/devices" && r.value.onSuccess == f
    ensures var r := Send(cfg, Distribution.Search(f, cbS, cbE));
      r.Success? && r.value.url == cfg.baseEndPoint + "/distributions" && r.value.onSuccess == f
  {
  }

  /** With options given as an object, both searches send them as the
      query, pair by pair. */
  lemma GivenOptionsSentAsQuery(cfg: Config, props: seq<Property>, cbS: Value, cbE: Value)
    requires |props| > 0
    ensures var r := Send(cfg, Device.Search(Obj(props), cbS, cbE));
      r.Success? && r.value.url == cfg.baseEndPoint + "/devices" + QueryPart(props)
      && ParseQuery(r.value.url[|cfg.baseEndPoint + "/devices"| + 1..]) == Some(Fields(props))
    ensures var r := Send(cfg, Distribution.Search(Obj(props), cbS, cbE));
      r.Success? && r.value.url == cfg.baseEndPoint + "/distributions" + QueryPart(props)
      && ParseQuery(r.value.url[|cfg.baseEndPoint + "/distributions"| + 1..]) == Some(Fields(props))
  {
    QueryAfterMark(cfg.baseEndPoint + "/devices", props);
    QueryAfterMark(cfg.baseEndPoint + "/distributions", props);
  }

  /** `updateStream` does not check its stream argument, so a string in
      its place passes the facade and is refused by `request`. */
  lemma StreamStringRefusedByRequest(cfg: Config, id: string, name: Value, stream: string, cbS: Value, cbE: Value)
    requires IsStreamName(name)
    ensures Device.UpdateStream(Str(id), name, Str(stream), cbS, cbE).Success?
    ensures Client.Dispatch(cfg, Device.UpdateStream(Str(id), name, Str(stream), cbS, cbE)) == Failure(Thrown(BodyNotObject))
  {
  }

  /** Without a trigger id, `getTriggerDetails` still passes its checks
      and its path keeps the `{2}` placeholder. */
  lemma UncheckedTriggerPath(id: string, cbS: Value, cbE: Value)
    ensures var r := Device.GetTriggerDetails(Str(id), Undefined, cbS, cbE);
      r.Success? && r.value.path == "/devices/" + Encode(id) + "/triggers/{2}"
      && r.value.urlParams.Undefined? && r.value.body.Undefined?
  {
    UnfilledSecond();
  }

  lemma UnfilledSecond()
    ensures Filled(Undefined, "2") == "{2}"
  {
  }

  /** `getTriggerDetails` does not check the trigger id: called without
      one, the request goes to a path with the placeholder left in it. */
  lemma MissingTriggerIdKeepsPlaceholder(cfg: Config, id: string, cbS: Value, cbE: Value)
    ensures var r := Client.Dispatch(cfg, Device.GetTriggerDetails(Str(id), Undefined, cbS, cbE));
      r.Success? && r.value.url == cfg.baseEndPoint + ("/devices/" + Encode(id) + "/triggers/{2}")
  {
    UncheckedTriggerPath(id, cbS, cbE);
    SendPlain(cfg, Device.GetTriggerDetails(Str(id), Undefined, cbS, cbE).value);
  }

  /** A stream named `..` passes the stream-name check, yet the path
      `deleteDataStream` builds for it reads back as the device's path
      with a trailing slash, not as one of its streams. */
  lemma DotDotStreamNameTargetsDevice(id: string, cbS: Value, cbE: Value)
    requires Paths.Routable(id)
    ensures var r := Device.DeleteDataStream(Str(id), Str(".."), cbS, cbE);
      r.Success? && r.value.verb == DELETE
      && Paths.ReadPath(r.value.path) == Some(["devices", id, ""])
  {
    Paths.DotDotClimbsToParent("/devices/", "devices", id, "/streams/", "streams");
  }

  /** A device id `..` passes the id check, and the path `remove` builds
      for it resolves to the root of the end point, above every
      collection. */
  lemma DotDotDeviceIdLeavesDevices(cbS: Value, cbE: Value)
    ensures var r := Device.Remove(Str(".."), cbS, cbE);
      r.Success? && r.value.verb == DELETE
      && Paths.ReadPath(r.value.path) == Some([""])
  {
    Paths.DotDotLeavesCollection("/devices/", "devices");
  }

  /** The empty string passes the id and stream-name checks. Its segment is
      empty, so `remove("")` goes to the devices collection's path with a
      trailing slash, and an empty stream name to the streams
      collection's. */
  lemma EmptyIdsTargetCollections(id: string, cbS: Value, cbE: Value)
    requires Paths.Routable(id)
    ensures var r := Device.Remove(Str(""), cbS, cbE);
      r.Success? && r.value.verb == DELETE && r.value.path == "/devices/"
      && Paths.ReadPath(r.value.path) == Some(["devices", ""])
    ensures var r := Device.DeleteDataStream(Str(id), Str(""), cbS, cbE);
      r.Success? && r.value.verb == DELETE
      && Paths.ReadPath(r.value.path) == Some(["devices", id, "streams", ""])
  {
    EmptyEncodes();
  }

  lemma EmptyEncodes()
    ensures Encode("") == "" && "/devices/" + "" == "/devices/"
  {
  }
}
