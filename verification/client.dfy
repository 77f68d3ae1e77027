/** The `M2X` constructor and the state it closes over: the `cfg` object
    with the end point, the API key and the `forward_errors` flag, the
    `setKey` operation that replaces the key, and the path from a facade
    operation to the continuation a response reaches. */
module Client {
  import opened Wrappers
  import opened JsValue
  import opened Errors
  import opened Http

  const BaseEndPoint := "https://api-m2x.att.com/v2"

  /** The `key` option the constructor accepts: a string held in own
      property `key` of an object. */
  predicate HasKeyOption(options: Value) {
    options.Obj? && Get(options.props, "key").Some? && Get(options.props, "key").value.Str?
  }

  /** `new M2X(options)`. `undefined` options, and options whose `key` is
      missing or not a string, throw the invalid-key error; `null` fails
      earlier, when its `key` is read. The configuration starts with the
      fixed end point and errors not forwarded: the constructor never
      copies a `forward_errors` option. */
  function New(options: Value): (r: Result<Config, Error>)
    ensures r.Success? <==> HasKeyOption(options)
    ensures options.Null? ==> r == Failure(TypeError)
    ensures !options.Null? && r.Failure? ==> r.error == Thrown(InvalidKey)
    ensures r.Success? ==> r.value.key == Get(options.props, "key").value.s
    ensures r.Success? ==> r.value.baseEndPoint == BaseEndPoint && !r.value.forwardErrors
  {
    if options.Undefined? then Failure(Thrown(InvalidKey))
    else if options.Null? then Failure(TypeError)
    else
      var key := if options.Obj? then Get(options.props, "key") else None;
      if key.None? || key.value.Undefined? || !IsString(key.value) then Failure(Thrown(InvalidKey))
      else Success(Config(BaseEndPoint, key.value.s, false))
  }

  /** `api.setKey(key)`: a string replaces the key and nothing else; any
      other value throws and leaves the configuration as it was. */
  function SetKey(cfg: Config, key: Value): (r: Result<Config, Error>)
    ensures r.Success? <==> key.Str?
    ensures r.Failure? ==> r.error == Thrown(SetKeyNotString)
    ensures r.Success? ==> r.value.key == key.s
    ensures r.Success? ==> r.value.baseEndPoint == cfg.baseEndPoint && r.value.forwardErrors == cfg.forwardErrors
  {
    if !IsString(key) then Failure(Thrown(SetKeyNotString))
    else Success(cfg.(key := key.s))
  }

  /** A client's lifetime: construction, then `setKey` with each of `keys`
      in turn, stopping at the first that throws. */
  function Session(options: Value, keys: seq<Value>): Result<Config, Error>
    decreases |keys|
  {
    if |keys| == 0 then New(options)
    else
      match Session(options, keys[..|keys| - 1])
      case Failure(e) => Failure(e)
      case Success(cfg) => SetKey(cfg, keys[|keys| - 1])
  }

  /** Whatever keys are set, a client keeps the end point it was built
      with, never forwards errors, and uses the last key it was given. */
  lemma {:induction false} SessionInvariant(options: Value, keys: seq<Value>)
    ensures var r := Session(options, keys);
      r.Success? ==> r.value.baseEndPoint == BaseEndPoint && !r.value.forwardErrors
    ensures var r := Session(options, keys);
      r.Success? && |keys| > 0 ==> r.value.key == keys[|keys| - 1].s
    ensures Session(options, keys).Success? <==>
      HasKeyOption(options) && forall i :: 0 <= i < |keys| ==> keys[i].Str?
    decreases |keys|
  {
    if |keys| > 0 {
      var prefix := keys[..|keys| - 1];
      SessionInvariant(options, prefix);
      if Session(options, keys).Success? {
        assert forall i :: 0 <= i < |keys| ==> keys[i].Str? by {
          forall i | 0 <= i < |keys| ensures keys[i].Str? {
            if i < |keys| - 1 { assert keys[i] == prefix[i]; }
          }
        }
      }
    }
  }

  /** A facade operation followed by `request`: the first failure, from
      argument validation or from the body check, is what the caller
      sees thrown. */
  function Dispatch(cfg: Config, op: Result<Call, Error>): (r: Result<Request, Error>)
    ensures r.Success? <==> op.Success? && (op.value.body.Undefined? || op.value.body.Obj?)
    ensures op.Failure? ==> r.error == op.error
    ensures op.Success? && r.Failure? ==> r.error == Thrown(BodyNotObject)
    ensures r.Success? ==> r.value.key == cfg.key && r.value.verb == op.value.verb
  {
    match op
    case Failure(e) => Failure(e)
    case Success(call) => Send(cfg, call)
  }

  /** The response of a sent request reaching its continuation. */
  function Respond(cfg: Config, request: Request, status: int, responseText: string): Option<Invocation> {
    Complete(cfg.forwardErrors, status, responseText, request.onSuccess, request.onError)
  }

  /** Since no client forwards errors, a response with a status outside
      200, 201, 202 and 204 never reaches the success continuation, and
      one inside never reaches the error continuation. */
  lemma StatusDecidesContinuation(options: Value, keys: seq<Value>, request: Request, status: int, responseText: string)
    requires Session(options, keys).Success?
    ensures var r := Respond(Session(options, keys).value, request, status, responseText);
      (r.Some? && r.value.slot == SuccessSlot <==> IsSuccessStatus(status) && IsFunc(request.onSuccess))
      && (r.Some? && r.value.slot == ErrorSlot <==> !IsSuccessStatus(status) && IsFunc(request.onError))
  {
    SessionInvariant(options, keys);
  }
}
