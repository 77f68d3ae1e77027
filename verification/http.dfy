/** The pure parts of the library's private `request(args)` function: how
    the URL, the headers and the payload of an `XMLHttpRequest` are built
    from the argument object a facade operation passes, and which
    continuation a completed request reaches. */
module Http {
  import opened Wrappers
  import opened JsValue
  import opened Errors
  import opened UriEncoding

  datatype Verb = GET | POST | PUT | DELETE {
    function Name(): string {
      match this
      case GET => "GET"
      case POST => "POST"
      case PUT => "PUT"
      case DELETE => "DELETE"
    }
  }

  /** The argument object of `request`; a property the operation leaves out
      reads as `Undefined`. */
  datatype Call = Call(verb: Verb, path: string, urlParams: Value, body: Value, onSuccess: Value, onError: Value)

  /** The client's `cfg` object. */
  datatype Config = Config(baseEndPoint: string, key: string, forwardErrors: bool)

  const JsonContentType := "application/json"
  const FormContentType := "application/x-www-form-urlencoded"

  /** What `request` opens and sends: verb and URL of `xhr.open`, the
      `X-M2X-KEY` and `Content-Type` headers, the value whose JSON text is
      the payload (`None` sends `''`), and the two continuations. */
  datatype Request = Request(
    verb: Verb,
    url: string,
    key: string,
    contentType: string,
    body: Option<Value>,
    onSuccess: Value,
    onError: Value)

  // ---------------------------------------------------------------------
  // Query string

  /** `encodeURIComponent(param) + "=" + encodeURIComponent(value)`. */
  function Pair(p: Property): string {
    Encode(p.name) + "=" + Encode(ToStr(p.value))
  }

  function Pairs(props: seq<Property>): (r: seq<string>)
    ensures |r| == |props|
    ensures forall i :: 0 <= i < |props| ==> r[i] == Pair(props[i])
  {
    if |props| == 0 then [] else [Pair(props[0])] + Pairs(props[1..])
  }

  /** `parts` joined with `sep` between neighbours. */
  function Join(parts: seq<string>, sep: char): string {
    if |parts| == 0 then ""
    else if |parts| == 1 then parts[0]
    else parts[0] + [sep] + Join(parts[1..], sep)
  }

  /** The query string a parameter object stands for: nothing for an
      empty object, otherwise `?` and the pairs joined by `&`. */
  function QueryPart(props: seq<Property>): string {
    if |props| == 0 then "" else "?" + Join(Pairs(props), '&')
  }

  /** The loop of `request` as written: every pair followed by `&`. */
  function PairsWithAmpersands(props: seq<Property>): string {
    if |props| == 0 then "" else Pair(props[0]) + "&" + PairsWithAmpersands(props[1..])
  }

  lemma {:induction false} PairsWithAmpersandsJoin(props: seq<Property>)
    requires |props| > 0
    ensures PairsWithAmpersands(props) == Join(Pairs(props), '&') + "&"
  {
    if |props| > 1 {
      PairsWithAmpersandsJoin(props[1..]);
      assert Pairs(props)[1..] == Pairs(props[1..]);
    }
  }

  /** Appending `urlparams` to `url` as `request` does: `?`, every pair
      followed by `&`, then `slice(0, -1)` to drop the last character.
      That leaves exactly the joined pairs, and for an object without
      properties it removes the `?` itself; a non-object adds nothing. */
  function AppendQuery(url: string, urlParams: Value): (r: string)
    ensures urlParams.Obj? ==> r == url + QueryPart(urlParams.props)
    ensures urlParams.Obj? && |urlParams.props| == 0 ==> r == url
    ensures !urlParams.Obj? ==> r == url
  {
    if IsObj(urlParams) then
      var u := url + "?" + PairsWithAmpersands(urlParams.props);
      DropLastAmpersand(url, urlParams.props);
      u[..|u| - 1]
    else url
  }

  lemma DropLastAmpersand(url: string, props: seq<Property>)
    ensures var u := url + "?" + PairsWithAmpersands(props);
      |u| > 0 && u[..|u| - 1] == url + QueryPart(props)
  {
    if |props| > 0 {
      DropLastNonEmpty(url, props);
    } else {
      assert QueryPart(props) == "";
      assert url + "?" + PairsWithAmpersands(props) == url + "?";
    }
  }

  lemma DropLastNonEmpty(url: string, props: seq<Property>)
    requires |props| > 0
    ensures var u := url + "?" + PairsWithAmpersands(props);
      |u| > 0 && u[..|u| - 1] == url + QueryPart(props)
  {
    PairsWithAmpersandsJoin(props);
    DropTrailing(url, PairsWithAmpersands(props), Join(Pairs(props), '&'));
  }

  lemma DropTrailing(url: string, w: string, j: string)
    requires w == j + "&"
    ensures var u := url + "?" + w; |u| > 0 && u[..|u| - 1] == url + ("?" + j)
  {
    assert url + "?" + w == (url + ("?" + j)) + "&";
  }

  // ---------------------------------------------------------------------
  // Reading a query string back

  /** `s.split(sep)`: always at least one piece. */
  function Split(s: string, sep: char): (r: seq<string>)
    ensures |r| > 0
    decreases |s|
  {
    if |s| == 0 then [""]
    else if s[0] == sep then [""] + Split(s[1..], sep)
    else
      var rest := Split(s[1..], sep);
      [[s[0]] + rest[0]] + rest[1..]
  }

  lemma {:induction false} SplitWithout(x: string, sep: char)
    requires sep !in x
    ensures Split(x, sep) == [x]
    decreases |x|
  {
    if |x| > 0 {
      SplitWithout(x[1..], sep);
      assert [x[0]] + x[1..] == x;
    }
  }

  lemma {:induction false} SplitFirst(x: string, sep: char, t: string)
    requires sep !in x
    ensures Split(x + [sep] + t, sep) == [x] + Split(t, sep)
    decreases |x|
  {
    var s := x + [sep] + t;
    if |x| == 0 {
      assert s[1..] == t;
    } else {
      assert s[1..] == x[1..] + [sep] + t;
      SplitFirst(x[1..], sep, t);
      assert [x[0]] + x[1..] == x;
    }
  }

  /** Splitting undoes joining when no part contains the separator. */
  lemma {:induction false} SplitJoin(parts: seq<string>, sep: char)
    requires |parts| > 0
    requires forall i :: 0 <= i < |parts| ==> sep !in parts[i]
    ensures Split(Join(parts, sep), sep) == parts
  {
    if |parts| == 1 {
      SplitWithout(parts[0], sep);
    } else {
      SplitJoin(parts[1..], sep);
      SplitFirst(parts[0], sep, Join(parts[1..], sep));
    }
  }

  /** A name and the text of its value, as a server reads them. */
  datatype Field = Field(name: string, text: string)

  /** Decodes `name=value` pieces; `None` for a malformed one. */
  function ReadFields(pieces: seq<string>): Option<seq<Field>> {
    if |pieces| == 0 then Some([])
    else
      var kv := Split(pieces[0], '=');
      if |kv| != 2 then None
      else
        match (Decode(kv[0]), Decode(kv[1]), ReadFields(pieces[1..]))
        case (Some(n), Some(v), Some(rest)) => Some([Field(n, v)] + rest)
        case _ => None
  }

  /** How a server reads the query text after `?`. */
  function ParseQuery(query: string): Option<seq<Field>> {
    ReadFields(Split(query, '&'))
  }

  function Fields(props: seq<Property>): (r: seq<Field>)
    ensures |r| == |props|
    ensures forall i :: 0 <= i < |props| ==> r[i] == Field(props[i].name, ToStr(props[i].value))
  {
    if |props| == 0 then [] else [Field(props[0].name, ToStr(props[0].value))] + Fields(props[1..])
  }

  /** A percent-encoded string holds no separator character. */
  lemma EncodedLacks(s: string, c: char)
    requires !IsEncodedChar(c)
    ensures c !in Encode(s)
  {
  }

  lemma SplitTwo(n: string, v: string)
    requires '=' !in n && '=' !in v
    ensures Split(n + "=" + v, '=') == [n, v]
  {
    SplitFirst(n, '=', v);
    SplitWithout(v, '=');
  }

  lemma PairSplits(p: Property)
    ensures '&' !in Pair(p)
    ensures Split(Pair(p), '=') == [Encode(p.name), Encode(ToStr(p.value))]
  {
    EncodedLacksSeparators(p.name);
    EncodedLacksSeparators(ToStr(p.value));
    SplitTwo(Encode(p.name), Encode(ToStr(p.value)));
  }

  lemma EncodedLacksSeparators(s: string)
    ensures '=' !in Encode(s) && '&' !in Encode(s)
  {
    EncodedLacks(s, '=');
    EncodedLacks(s, '&');
  }

  lemma {:induction false} ReadPairs(props: seq<Property>)
    ensures ReadFields(Pairs(props)) == Some(Fields(props))
  {
    if |props| > 0 {
      PairSplits(props[0]);
      DecodeEncode(props[0].name);
      DecodeEncode(ToStr(props[0].value));
      ReadPairs(props[1..]);
      assert Pairs(props)[1..] == Pairs(props[1..]);
    }
  }

  /** The query string `request` builds reads back as exactly the
      parameters it was given, in order, each value as its string form. */
  lemma QueryRoundTrip(props: seq<Property>)
    requires |props| > 0
    ensures QueryPart(props) == "?" + Join(Pairs(props), '&')
    ensures ParseQuery(Join(Pairs(props), '&')) == Some(Fields(props))
  {
    forall i | 0 <= i < |props| ensures '&' !in Pairs(props)[i] {
      PairSplits(props[i]);
    }
    SplitJoin(Pairs(props), '&');
    ReadPairs(props);
  }

  /** Behind whatever URL it is appended to, the query string reads back
      as the parameters, from the character after the `?`. */
  lemma QueryAfterMark(prefix: string, props: seq<Property>)
    requires |props| > 0
    ensures |prefix + QueryPart(props)| > |prefix| && (prefix + QueryPart(props))[|prefix|] == '?'
    ensures ParseQuery((prefix + QueryPart(props))[|prefix| + 1..]) == Some(Fields(props))
  {
    QueryRoundTrip(props);
    QueryText(prefix, Join(Pairs(props), '&'));
  }

  lemma QueryText(prefix: string, j: string)
    ensures (prefix + ("?" + j))[|prefix|] == '?' && (prefix + ("?" + j))[|prefix| + 1..] == j
  {
  }

  /** The pair text of a string parameter whose name needs no escaping. */
  lemma PlainNamePair(name: string, value: string)
    requires forall i :: 0 <= i < |name| ==> IsUnreserved(name[i])
    ensures Pair(Property(name, Str(value))) == name + "=" + Encode(value)
  {
    assert Encode(name) == name;
  }

  lemma SingleJoin(props: seq<Property>)
    requires |props| == 1
    ensures Join(Pairs(props), '&') == Pair(props[0])
  {
  }

  /** A query of one string parameter whose name needs no escaping. */
  lemma SingleParameterQuery(name: string, value: string)
    requires forall i :: 0 <= i < |name| ==> IsUnreserved(name[i])
    ensures QueryPart([Property(name, Str(value))]) == "?" + (name + "=" + Encode(value))
    ensures ParseQuery(name + "=" + Encode(value)) == Some([Field(name, value)])
  {
    var props := [Property(name, Str(value))];
    var text := name + "=" + Encode(value);
    QueryRoundTrip(props);
    SingleJoin(props);
    PlainNamePair(name, value);
    assert Join(Pairs(props), '&') == text;
    assert Fields(props) == [Field(name, value)];
  }

  // ---------------------------------------------------------------------
  // Building the request

  /** `request(args)` up to `xhr.send`: a defined body that is not a plain
      object throws before anything is opened; otherwise the URL is the
      base end point, the path and the query string, the key header is
      the configured key, and the content type says JSON exactly when a
      body is sent. */
  function Send(cfg: Config, call: Call): (r: Result<Request, Error>)
    ensures r.Failure? <==> !call.body.Undefined? && !call.body.Obj?
    ensures r.Failure? ==> r.error == Thrown(BodyNotObject)
    ensures r.Success? ==> r.value.verb == call.verb
    ensures r.Success? ==> r.value.url == cfg.baseEndPoint + call.path + (if call.urlParams.Obj? then QueryPart(call.urlParams.props) else "")
    ensures r.Success? ==> r.value.key == cfg.key
    ensures r.Success? ==> (r.value.contentType == JsonContentType <==> !call.body.Undefined?)
    ensures r.Success? ==> (r.value.contentType == FormContentType <==> call.body.Undefined?)
    ensures r.Success? ==> (r.value.body == None <==> call.body.Undefined?)
    ensures r.Success? && r.value.body.Some? ==> r.value.body.value == call.body
    ensures r.Success? ==> r.value.onSuccess == call.onSuccess && r.value.onError == call.onError
  {
    if !call.body.Undefined? && !IsObj(call.body) then Failure(Thrown(BodyNotObject))
    else
      var url := AppendQuery(cfg.baseEndPoint + call.path, call.urlParams);
      var contentType := if !call.body.Undefined? then JsonContentType else FormContentType;
      var body := if call.body.Undefined? then None else Some(call.body);
      Success(Request(call.verb, url, cfg.key, contentType, body, call.onSuccess, call.onError))
  }

  /** A call without parameters or body goes to the end point and path
      as given, form-encoded and empty. */
  lemma SendPlain(cfg: Config, call: Call)
    requires call.urlParams.Undefined? && call.body.Undefined?
    ensures Send(cfg, call).Success?
    ensures Send(cfg, call).value.url == cfg.baseEndPoint + call.path
    ensures Send(cfg, call).value.body.None? && Send(cfg, call).value.contentType == FormContentType
  {
    assert cfg.baseEndPoint + call.path + "" == cfg.baseEndPoint + call.path;
  }

  // ---------------------------------------------------------------------
  // Completion

  /** The statuses `request` treats as success. */
  predicate IsSuccessStatus(status: int) {
    status == 200 || status == 201 || status == 202 || status == 204
  }

  /** The `response` field of the envelope: `{}` for an empty response
      text, otherwise `JSON.parse` of it. */
  datatype Response = EmptyResponse | JsonText(text: string)

  /** The object `{status, response}` passed to a continuation. */
  datatype Envelope = Envelope(status: int, response: Response)

  datatype Slot = SuccessSlot | ErrorSlot

  /** One continuation invoked with one envelope. */
  datatype Invocation = Invocation(slot: Slot, callee: Value, envelope: Envelope)

  /** The `onreadystatechange` handler once `readyState` is 4. */
  function Complete(forwardErrors: bool, status: int, responseText: string, onSuccess: Value, onError: Value): (r: Option<Invocation>)
    ensures r.Some? ==> r.value.envelope.status == status
    ensures r.Some? ==> (r.value.envelope.response == EmptyResponse <==> responseText == "")
    ensures r.Some? && r.value.envelope.response.JsonText? ==> r.value.envelope.response.text == responseText
    ensures r.Some? ==> IsFunc(r.value.callee)
    ensures r.Some? && r.value.slot == SuccessSlot ==> r.value.callee == onSuccess
    ensures r.Some? && r.value.slot == ErrorSlot ==> r.value.callee == onError
    ensures (r.Some? && r.value.slot == SuccessSlot) <==> (forwardErrors || IsSuccessStatus(status)) && IsFunc(onSuccess)
    ensures (r.Some? && r.value.slot == ErrorSlot) <==> !forwardErrors && !IsSuccessStatus(status) && IsFunc(onError)
  {
    var envelope := Envelope(status, if responseText != "" then JsonText(responseText) else EmptyResponse);
    if !forwardErrors then
      if status == 200 || status == 201 || status == 202 || status == 204 then
        if IsFunc(onSuccess) then Some(Invocation(SuccessSlot, onSuccess, envelope)) else None
      else
        if IsFunc(onError) then Some(Invocation(ErrorSlot, onError, envelope)) else None
    else
      if IsFunc(onSuccess) then Some(Invocation(SuccessSlot, onSuccess, envelope)) else None
  }
}
