# M2X client library, modelled in Dafny

This project models the core of the AT&T M2X v2 JavaScript client, the
`M2X` object built by `new M2X(options)`. Each call on its three facades
(`api.device`, `api.distribution` and `api.key`) does three things:

- it validates its arguments and throws synchronously when they are wrong;
- it shifts the continuations left when an optional argument is left out;
- it hands the private `request` function an argument object of verb, path,
  query parameters, body and continuations.

`request` then builds an `XMLHttpRequest`:

- the URL is `cfg.base_end_point + path`, plus a query string;
- the `X-M2X-KEY` and `Content-Type` headers are set;
- the payload is the JSON text of the body.

Once the response arrives, `request` routes it to one continuation, decided
by the status code and `cfg.forward_errors`. The model also covers the
constructor's key check, `setKey` and the static `fromISO8601toDate` gate.

Everything here is pure. A thrown `Error` is the `Failure` of a `Result`,
and a facade call is a function from its arguments to the `Call` it passes
to `request`. `request` is a function from a `Call` and the client
configuration to a `Request` descriptor. The completion handler is a
function from status, response text and the flag to the continuation it
invokes, if any.

Modules, in dependency order:

| module | file | models |
|---|---|---|
| `Wrappers` | wrappers.dfy | `Option`, `Result` and `Outcome` |
| `JsValue` | jsvalue.dfy | JavaScript values and one-property object literals, `Utils.isObj`/`isFunc`/`isArray`/`isString`, `ToString` |
| `Errors` | errors.dfy | every message the library throws |
| `UriEncoding` | uri_encoding.dfy | `encodeURIComponent` (section 15.1.3.4 of ECMA-262 5.1) and its inverse `decodeURIComponent` |
| `Utils` | utils.dfy | `checkObjectHasProperties`, the stream-name guard, `formatURL` |
| `Http` | http.dfy | `request`: URL and query string, headers, payload, completion routing |
| `Paths` | paths.dfy | how a path is read back into decoded segments: dot segments resolved as the URL parser does, then split and decoded |
| `Facade` | facade.dfy | the optional-options shift |
| `Device`, `Distribution`, `Keys` | device.dfy, distribution.dfy, keys.dfy | every operation of the three facades |
| `Client` | client.dfy | the constructor, `setKey`, a client's lifetime, dispatch and response |
| `Iso8601` | iso8601.dfy | `M2X.fromISO8601toDate` |
| `Usage` | usage.dfy | facade, `request` and client composed |

Every facade operation states its contract in two ways:

- the path as the text `formatURL` produces (`"/devices/" + Encode(id) + "/streams"`);
- the segments the server reads back from that text (`["devices", id, "streams"]`).

The reading first resolves dot segments as the path state of the WHATWG URL
Standard does (`.` is dropped, `..` removes the segment before it, also when
spelled `%2e`), then splits at `/` and percent-decodes each segment. The
second form is proved through `UriEncoding.DecodeEncode`, for every
identifier other than `.` and `..`. Such an identifier is read back as
exactly one segment in its own place, even with a `/`, `?`, `&`, `=` or `{`
in it.

Three identifiers pass every check and still reach a path other than an
element of the collection:

- **`.` and `..` move the request.** `encodeURIComponent` leaves dots alone,
  so a device id `..` sends `remove` to the root of the end point, and a
  stream named `..` sends `deleteDataStream` to the device's path with a
  trailing slash. `Paths.DotDotLeavesCollection` and
  `Paths.DotDotClimbsToParent` state the general case, and `Usage` shows
  both calls.
- **The empty string leaves an empty last segment.** `""` is a string with
  no space in it, so `remove("")` sends DELETE `/devices/`, the
  collection's path with a trailing slash, and a stream named `""` gives
  `/devices/<id>/streams/`. `Usage.EmptyIdsTargetCollections` states both.
  Which resource the server serves for a trailing slash is not modelled.

Where a description of the library differs from its code, the model follows
the code:

- **The key may be empty.** The constructor and `setKey` accept any string,
  including `""`.
- **`forward_errors` is never set.** The constructor comment (line 63 and
  line 75) documents a `forward_errors` option, but the constructor never
  copies it. A client therefore always starts, and stays, with the flag
  false.
- **The stream-name guard rejects only spaces.** It looks for `' '` alone,
  not for other whitespace.
- **The pattern's dot is literal.** In `fromISO8601toDate` the dot before
  the milliseconds is escaped (`\.`), so only a literal dot matches there.

The source paths below are relative to the repository root.

## Model

| member | source | states |
|---|---|---|
| `JsValue.Singleton` | demo/M2XUVDemo/js/lib/m2x-2.0.0.js:519 | a literal such as `{values: values}`, `{serial: serial}` or `{device: device}` is an object with that one property, holding the given value |
| `UriEncoding.Encode` | demo/M2XUVDemo/js/lib/m2x-2.0.0.js:143 | `encodeURIComponent` output uses only unreserved characters, `%` and hex digits; a string of unreserved characters comes back unchanged |
| `UriEncoding.DecodeEncode` | demo/M2XUVDemo/js/lib/m2x-2.0.0.js:143 | decoding the encoded text of any string gives the string back |
| `UriEncoding.EncodeInjective` | demo/M2XUVDemo/js/lib/m2x-2.0.0.js:143 | two different identifiers never encode to the same URL text |
| `Utils.CheckObjectHasProperties` | demo/M2XUVDemo/js/lib/m2x-2.0.0.js:124-133 | passes exactly when the argument is a plain object in which every listed property is own and neither undefined nor null; a non-object fails with the "not an object" error; otherwise the error names a listed property that is missing |
| `Utils.CheckEach` | demo/M2XUVDemo/js/lib/m2x-2.0.0.js:512-515 | checking every element passes exactly when each element passes on its own; a failure is that of the first failing element, every earlier one passing |
| `Utils.IndexOf` | demo/M2XUVDemo/js/lib/m2x-2.0.0.js:391 | `indexOf` gives the first position of the character, or -1 exactly when it is absent |
| `Utils.StreamNameRejected` | demo/M2XUVDemo/js/lib/m2x-2.0.0.js:391-393 | the guard rejects exactly the non-strings and the strings that contain a space |
| `Utils.PlaceholderAtFindsMatch` | demo/M2XUVDemo/js/lib/m2x-2.0.0.js:141 | whenever `\{(\d+)\}` matches at the front of the text, the scanner finds that match with its full digit run |
| `Utils.SubstitutionOfArgument` | demo/M2XUVDemo/js/lib/m2x-2.0.0.js:141-145 | `{n}` for n from 1 to 9 names the n-th argument after the template |
| `Utils.FormatVerbatim` | demo/M2XUVDemo/js/lib/m2x-2.0.0.js:139-147 | a template without `{` comes back unchanged |
| `Utils.FormatOne` | demo/M2XUVDemo/js/lib/m2x-2.0.0.js:139-147 | in a template with one `{1}`, the placeholder becomes the encoded argument, or stays verbatim when the argument is undefined, and the text around it is kept |
| `Utils.FormatTwo` | demo/M2XUVDemo/js/lib/m2x-2.0.0.js:139-147 | in a template with `{1}` and `{2}`, each placeholder is filled by its own argument independently, and the literal text between and around them is kept |
| `Utils.PlaceholderZeroIsTemplate` | demo/M2XUVDemo/js/lib/m2x-2.0.0.js:141-145 | `{0}` names `arguments[0]`, the template itself, which is then spliced in encoded |
| `Utils.LeadingZeroPlaceholderKept` | demo/M2XUVDemo/js/lib/m2x-2.0.0.js:141-145 | `{01}` is not a canonical argument index, so it is left verbatim even when a first argument exists |
| `Utils.ReplaceKeepsStructure` | demo/M2XUVDemo/js/lib/m2x-2.0.0.js:141-146 | the global replace keeps the count of every character an encoded argument cannot contain (such as `/`, `?`, `&`, `=`, `#`; braces aside) exactly as in the template |
| `Utils.FormatKeepsStructure` | demo/M2XUVDemo/js/lib/m2x-2.0.0.js:139-147 | the path `formatURL` builds has exactly as many `/`, `?`, `&`, `=` and other such separators as its template, whatever the arguments |
| `Http.PairsWithAmpersandsJoin` | demo/M2XUVDemo/js/lib/m2x-2.0.0.js:176-178 | the loop that writes every pair followed by `&` gives the pairs joined by `&` plus one trailing `&` |
| `Http.DropLastAmpersand` | demo/M2XUVDemo/js/lib/m2x-2.0.0.js:173-180 | after `slice(0,-1)` the URL ends in `?` and the pairs joined by `&` with no trailing `&`, or ends with no `?` at all when there are no properties |
| `Http.AppendQuery` | demo/M2XUVDemo/js/lib/m2x-2.0.0.js:171-180 | an object adds its query part, an empty object adds nothing (no `?`), and a non-object adds nothing |
| `Http.QueryRoundTrip` | demo/M2XUVDemo/js/lib/m2x-2.0.0.js:173-179 | the query text of a non-empty parameter object reads back, split on `&` and `=` and decoded, as exactly its names and the string forms of its values, in order |
| `Http.QueryAfterMark` | demo/M2XUVDemo/js/lib/m2x-2.0.0.js:171-179 | after whatever base and path, the character following them is `?` and the rest reads back as the parameters |
| `Http.SingleParameterQuery` | demo/M2XUVDemo/js/lib/m2x-2.0.0.js:173-179 | one string parameter with a plain name gives `?name=<encoded value>`, which reads back as that one name and value |
| `Http.Send` | demo/M2XUVDemo/js/lib/m2x-2.0.0.js:160-225 | a defined non-object body throws before anything is opened; otherwise the URL is the end point, the path and the query part; the key header is the client's key; the content type is JSON exactly when a body is given, form-urlencoded otherwise; the payload is the body, or empty |
| `Http.SendPlain` | demo/M2XUVDemo/js/lib/m2x-2.0.0.js:171-190 | a call with neither parameters nor body goes to exactly end point plus path, with no payload and the form content type |
| `Http.Complete` | demo/M2XUVDemo/js/lib/m2x-2.0.0.js:192-223 | without forwarding, status 200/201/202/204 reaches only the success continuation and any other status only the error one; with forwarding only the success continuation; a missing or non-function continuation means nothing is invoked; the envelope carries the status, and `{}` exactly when the response text is empty |
| `Paths.DotSegmentDecodes` | demo/M2XUVDemo/js/lib/m2x-2.0.0.js:143 | every spelling the URL parser takes for `.` or `..` (`%2e` and `%2E` included) decodes to `.` or `..` |
| `Paths.PlainIsRead` | demo/M2XUVDemo/js/lib/m2x-2.0.0.js:171 | a path without dot segments resolves to itself, so reading it is splitting and decoding alone |
| `Paths.FixedRoute` | demo/M2XUVDemo/js/lib/m2x-2.0.0.js:253 | a route without placeholders reads back as its fixed segments |
| `Paths.OneIdRoute` | demo/M2XUVDemo/js/lib/m2x-2.0.0.js:139-147 | `formatURL` of a one-placeholder route with a string id is the encoded id spliced in, and for an id other than `.` and `..` the path reads back as the route's segments with the id decoded in its place |
| `Paths.TwoIdRoute` | demo/M2XUVDemo/js/lib/m2x-2.0.0.js:139-147 | the same for two placeholders; a defined second argument is read back as its string form, and an undefined one leaves `{2}` in the path |
| `Paths.ReadOneId` | demo/M2XUVDemo/js/lib/m2x-2.0.0.js:314-319 | `/a/<encoded id>` followed by a fixed tail splits and decodes as `a`, the id and the tail, for any id other than `.` and `..` |
| `Paths.ReadTwoIds` | demo/M2XUVDemo/js/lib/m2x-2.0.0.js:427-436 | `/a/<encoded id>/b/<encoded name>` followed by a fixed tail splits and decodes as `a`, the id, `b`, the name and the tail, when neither is `.` or `..` |
| `Paths.DotDotLeavesCollection` | demo/M2XUVDemo/js/lib/m2x-2.0.0.js:719-724 | `..` is left as it is by `encodeURIComponent`, and `/a/..` reads back as the root, not as an element of `a` |
| `Paths.DotDotClimbsToParent` | demo/M2XUVDemo/js/lib/m2x-2.0.0.js:550-558 | `/a/<encoded id>/b/..` reads back as the resource `a`, id itself (with a trailing empty segment), not as an element of `b` |
| `Facade.OmittedOptionsAreEmpty` | demo/M2XUVDemo/js/lib/m2x-2.0.0.js:447-456 | shifting a function out of the options position gives what passing `{}` with the continuations in their own places gives |
| `Device.Search` | demo/M2XUVDemo/js/lib/m2x-2.0.0.js:243-254 | GET `/devices` with the options themselves as parameters; a function in their place becomes the success continuation, and `cbS` becomes the error one only when it is a function |
| `Device.SearchDeviceGroups` | demo/M2XUVDemo/js/lib/m2x-2.0.0.js:263-274 | GET `/devices/groups`, shifting as `search` does |
| `Device.Create` | demo/M2XUVDemo/js/lib/m2x-2.0.0.js:283-287 | succeeds exactly when the device has a usable `name` and `visibility`, and otherwise throws the property check's error; POSTs the device to `/devices` |
| `Device.Update` | demo/M2XUVDemo/js/lib/m2x-2.0.0.js:297-305 | a non-string id throws first, then the property check; PUTs the device to `/devices/<id>`, which reads back as `devices`, id when the id is not `.` or `..` |
| `Device.GetDetails` | demo/M2XUVDemo/js/lib/m2x-2.0.0.js:314-319 | succeeds exactly for a string id; GET `/devices/<id>` |
| `Device.GetLocation` | demo/M2XUVDemo/js/lib/m2x-2.0.0.js:329-334 | succeeds exactly for a string id; GET `/devices/<id>/location` |
| `Device.UpdateLocation` | demo/M2XUVDemo/js/lib/m2x-2.0.0.js:344-351 | id check, then a usable `latitude` and `longitude`; PUTs the location |
| `Device.GetDataStreams` | demo/M2XUVDemo/js/lib/m2x-2.0.0.js:360-365 | succeeds exactly for a string id; GET `/devices/<id>/streams` |
| `Device.UpdateStream` | demo/M2XUVDemo/js/lib/m2x-2.0.0.js:376-396 | id check, then stream-name check; a function in place of the stream sends `{}` and shifts the continuations; PUT `/devices/<id>/streams/<name>` |
| `Device.UpdateDataStreamValue` | demo/M2XUVDemo/js/lib/m2x-2.0.0.js:407-417 | id, name, then a usable `value`, in that order; PUTs the value to `…/streams/<name>/value` |
| `Device.GetDataStreamDetails` | demo/M2XUVDemo/js/lib/m2x-2.0.0.js:427-436 | id then name checks; GET `/devices/<id>/streams/<name>` |
| `Device.GetDataStreamValues` | demo/M2XUVDemo/js/lib/m2x-2.0.0.js:447-465 | id then name checks, options shifted; GET `…/streams/<name>/values.json` with the options as parameters |
| `Device.GetDataStreamStats` | demo/M2XUVDemo/js/lib/m2x-2.0.0.js:476-494 | id then name checks, options shifted; GET `…/streams/<name>/stats` |
| `Device.PostDataStreamValues` | demo/M2XUVDemo/js/lib/m2x-2.0.0.js:505-520 | id, name, then an array every element of which has a usable `timestamp` and `value`; a bad element throws the property check's error for the first such element; POSTs `{values: values}` |
| `Device.DeleteDataStreamValues` | demo/M2XUVDemo/js/lib/m2x-2.0.0.js:531-540 | id, name, then a usable `from` and `end`; DELETE with the range as body |
| `Device.DeleteDataStream` | demo/M2XUVDemo/js/lib/m2x-2.0.0.js:550-558 | id then name checks; DELETE `/devices/<id>/streams/<name>` |
| `Device.PostMultipleValues` | demo/M2XUVDemo/js/lib/m2x-2.0.0.js:569-574 | only the id is checked; POSTs `{values: values}` to `/devices/<id>/updates` whatever the values are |
| `Device.GetTriggers` | demo/M2XUVDemo/js/lib/m2x-2.0.0.js:584-599 | id check, options shifted; GET `/devices/<id>/triggers` |
| `Device.CreateTrigger` | demo/M2XUVDemo/js/lib/m2x-2.0.0.js:609-616 | id check, then the five trigger properties; POSTs the trigger |
| `Device.GetTriggerDetails` | demo/M2XUVDemo/js/lib/m2x-2.0.0.js:626-631 | only the device id is checked; the trigger id fills `{2}` however `formatURL` fills it, and a defined one reads back as its string form |
| `Device.UpdateTrigger` | demo/M2XUVDemo/js/lib/m2x-2.0.0.js:642-648 | id and trigger-object checks only, with the trigger id unchecked as in `getTriggerDetails`; PUTs the trigger |
| `Device.TestTrigger` | demo/M2XUVDemo/js/lib/m2x-2.0.0.js:658-667 | both ids must be strings, the device id checked first; POST `…/triggers/<triggerId>/test` |
| `Device.DeleteTrigger` | demo/M2XUVDemo/js/lib/m2x-2.0.0.js:677-685 | both ids must be strings; DELETE `…/triggers/<triggerId>` |
| `Device.GetRequestsLog` | demo/M2XUVDemo/js/lib/m2x-2.0.0.js:695-710 | id check, options shifted; GET `/devices/<id>/log` |
| `Device.Remove` | demo/M2XUVDemo/js/lib/m2x-2.0.0.js:719-724 | succeeds exactly for a string id, with the device-id message otherwise; DELETE `/devices/<id>` |
| `Distribution.Search` | demo/M2XUVDemo/js/lib/m2x-2.0.0.js:741-753 | GET `/distributions`; a function in place of the options sends `{}` and shifts the continuations |
| `Distribution.Create` | demo/M2XUVDemo/js/lib/m2x-2.0.0.js:762-766 | succeeds exactly when `name` and `visibility` are usable; POST `/distributions` |
| `Distribution.GetDetails` | demo/M2XUVDemo/js/lib/m2x-2.0.0.js:775-780 | succeeds exactly for a string id, with this operation's own message otherwise; GET `/distributions/<id>` |
| `Distribution.Update` | demo/M2XUVDemo/js/lib/m2x-2.0.0.js:790-798 | id check, then the property check; PUTs the distribution |
| `Distribution.GetDevices` | demo/M2XUVDemo/js/lib/m2x-2.0.0.js:808-823 | id check, options shifted; GET `/distributions/<id>/devices` |
| `Distribution.SerialCheck` | demo/M2XUVDemo/js/lib/m2x-2.0.0.js:839-846 | a string or a number other than NaN passes; any other non-number is "not present", and NaN is a "type mismatch" |
| `Device.OmittedOptionsAreEmpty` | demo/M2XUVDemo/js/lib/m2x-2.0.0.js:447-456 | `getRequestsLog`, `getDataStreamValues`, `getDataStreamStats`, `getTriggers` and `updateStream` called with a function in place of the options (or stream) make exactly the call made with `{}` there and the continuations in place |
| `Distribution.AddDevice` | demo/M2XUVDemo/js/lib/m2x-2.0.0.js:833-849 | distribution id check, then the serial check; POSTs `{serial: serial}` to `/distributions/<id>/devices` |
| `Distribution.Remove` | demo/M2XUVDemo/js/lib/m2x-2.0.0.js:858-864 | succeeds exactly for a string id; DELETE `/distributions/<id>` |
| `Distribution.GetDataStreams` | demo/M2XUVDemo/js/lib/m2x-2.0.0.js:873-878 | succeeds exactly for a string id; GET `/distributions/<id>/streams` |
| `Distribution.UpdateStream` | demo/M2XUVDemo/js/lib/m2x-2.0.0.js:889-909 | id then name checks; a function in place of the stream sends `{}` and shifts the continuations |
| `Distribution.GetDataStreamDetails` | demo/M2XUVDemo/js/lib/m2x-2.0.0.js:919-928 | id then name checks; GET `/distributions/<id>/streams/<name>` |
| `Distribution.DeleteDataStream` | demo/M2XUVDemo/js/lib/m2x-2.0.0.js:938-946 | id then name checks; DELETE `/distributions/<id>/streams/<name>` |
| `Distribution.GetTriggers` | demo/M2XUVDemo/js/lib/m2x-2.0.0.js:956-971 | id check, options shifted; GET `/distributions/<id>/triggers` |
| `Distribution.CreateTrigger` | demo/M2XUVDemo/js/lib/m2x-2.0.0.js:981-988 | id check, then the five trigger properties; POSTs the trigger |
| `Distribution.GetTriggerDetails` | demo/M2XUVDemo/js/lib/m2x-2.0.0.js:998-1003 | only the distribution id is checked; the trigger id fills `{2}` however `formatURL` fills it, and a defined one reads back as its string form |
| `Distribution.UpdateTrigger` | demo/M2XUVDemo/js/lib/m2x-2.0.0.js:1014-1020 | id and trigger-object checks only, with the trigger id unchecked; PUTs the trigger |
| `Distribution.TestTrigger` | demo/M2XUVDemo/js/lib/m2x-2.0.0.js:1030-1039 | both ids must be strings; POST `…/triggers/<triggerId>/test` |
| `Distribution.DeleteTrigger` | demo/M2XUVDemo/js/lib/m2x-2.0.0.js:1049-1057 | both ids must be strings; DELETE `…/triggers/<triggerId>` |
| `Distribution.OmittedOptionsAreEmpty` | demo/M2XUVDemo/js/lib/m2x-2.0.0.js:741-753 | `search`, `getDevices`, `getTriggers` and `updateStream` called with a function in place of the options (or stream) make exactly the call made with `{}` there and the continuations in place |
| `Keys.Search` | demo/M2XUVDemo/js/lib/m2x-2.0.0.js:1074-1086 | GET `/keys` filtered by `{device: device}`; a function in place of the device lists all keys with `{}` and shifts the continuations |
| `Keys.SearchByDeviceQuery` | demo/M2XUVDemo/js/lib/m2x-2.0.0.js:1074-1085 | listing the keys of a named device sends `?device=<encoded name>`, which reads back as that one parameter |
| `Keys.Create` | demo/M2XUVDemo/js/lib/m2x-2.0.0.js:1095-1103 | a non-object throws the key's own message first; an object failing the `name`/`permissions` check throws that check's error; POST `/keys` |
| `Keys.GetDetails` | demo/M2XUVDemo/js/lib/m2x-2.0.0.js:1112-1118 | succeeds exactly for a string key; GET `/keys/<key>` |
| `Keys.Update` | demo/M2XUVDemo/js/lib/m2x-2.0.0.js:1131-1138 | id check, then `name` and `permissions`; PUTs the key |
| `Keys.Regenerate` | demo/M2XUVDemo/js/lib/m2x-2.0.0.js:1147-1153 | succeeds exactly for a string id; POST `/keys/<id>/regenerate` |
| `Keys.Remove` | demo/M2XUVDemo/js/lib/m2x-2.0.0.js:1162-1168 | succeeds exactly for a string id; DELETE `/keys/<id>` |
| `Client.New` | demo/M2XUVDemo/js/lib/m2x-2.0.0.js:151-155 | construction succeeds exactly when the options are an object with a string `key`; `null` fails with a TypeError and everything else with the key error; a client starts with the fixed end point, the given key and errors not forwarded |
| `Client.SetKey` | demo/M2XUVDemo/js/lib/m2x-2.0.0.js:1177-1183 | a string replaces the key and nothing else; anything else throws |
| `Client.SessionInvariant` | demo/M2XUVDemo/js/lib/m2x-2.0.0.js:79-83 | through any sequence of `setKey` calls a client keeps its end point, never forwards errors and uses the last key set; the sequence succeeds exactly when the options are valid and every key is a string |
| `Client.Dispatch` | demo/M2XUVDemo/js/lib/m2x-2.0.0.js:165-169 | the first thrown error, from the facade or from the body check, is the one the caller sees; a dispatched request carries the client's key and the operation's verb |
| `Client.StatusDecidesContinuation` | demo/M2XUVDemo/js/lib/m2x-2.0.0.js:195-212 | for any client, a success status reaches only the success continuation and any other status only the error one, each when it is a function |
| `Iso8601.Test` | demo/M2XUVDemo/js/lib/m2x-2.0.0.js:1197-1198 | the scan answers true exactly when the pattern matches at some position of the text |
| `Iso8601.FromIso8601ToDate` | demo/M2XUVDemo/js/lib/m2x-2.0.0.js:1196-1201 | a date is built from the timestamp exactly when its string form contains a match, and `undefined` is returned otherwise |
| `Iso8601.IsoStringAccepted` | demo/M2XUVDemo/js/lib/m2x-2.0.0.js:1197 | every `YYYY-MM-DDTHH:mm:ss.sssZ` timestamp is matched from its first character |
| `Iso8601.UnanchoredMatch` | demo/M2XUVDemo/js/lib/m2x-2.0.0.js:1197-1198 | text before and after a timestamp does not stop the match |
| `Iso8601.SecondsOnlyRejected` | demo/M2XUVDemo/js/lib/m2x-2.0.0.js:1197 | a timestamp without milliseconds is refused |
| `Iso8601.CommaSeparatorRejected` | demo/M2XUVDemo/js/lib/m2x-2.0.0.js:1197 | a comma before the milliseconds is refused, because the dot is escaped |
| `Usage.CreateDeviceRequest` | demo/M2XUVDemo/js/lib/m2x-2.0.0.js:283-287 | a client built with `{key: k}` creating a valid device sends a JSON POST to end point plus `/devices` with the device as body and `k` as key, and the success continuation is reached exactly on a success status |
| `Usage.CreateDeviceD1` | demo/M2XUVDemo/js/lib/m2x-2.0.0.js:283-287 | with key `abc` and device `{name: "d1", visibility: "private"}`, a 201 answer reaches the success continuation with envelope `{status: 201, response: …}` |
| `Usage.OmittedOptionsSendNoQuery` | demo/M2XUVDemo/js/lib/m2x-2.0.0.js:243-253 | passing the callback in the options position of either search sends no query string, and that callback is the success continuation |
| `Usage.GivenOptionsSentAsQuery` | demo/M2XUVDemo/js/lib/m2x-2.0.0.js:243-253 | given an options object, both searches send it as the query, and it reads back as the options |
| `Usage.StreamStringRefusedByRequest` | demo/M2XUVDemo/js/lib/m2x-2.0.0.js:376-396 | `updateStream` does not check its stream argument, so a string passes the facade and is refused by `request`'s body check |
| `Usage.UncheckedTriggerPath` | demo/M2XUVDemo/js/lib/m2x-2.0.0.js:626-631 | without a trigger id, `getTriggerDetails` still succeeds and its path keeps the literal `{2}` |
| `Usage.MissingTriggerIdKeepsPlaceholder` | demo/M2XUVDemo/js/lib/m2x-2.0.0.js:626-631 | the request sent without a trigger id goes to a URL that ends in `/triggers/{2}` |
| `Usage.DotDotStreamNameTargetsDevice` | demo/M2XUVDemo/js/lib/m2x-2.0.0.js:550-558 | a stream named `..` passes `deleteDataStream`'s checks, and the DELETE it builds reads back as the device's path with a trailing slash |
| `Usage.EmptyIdsTargetCollections` | demo/M2XUVDemo/js/lib/m2x-2.0.0.js:550-558 | an empty device id passes `remove`'s check and its DELETE goes to `/devices/`, read back as `devices` and an empty segment; an empty stream name passes `deleteDataStream`'s checks and reads back with an empty last segment |
| `Usage.DotDotDeviceIdLeavesDevices` | demo/M2XUVDemo/js/lib/m2x-2.0.0.js:719-724 | a device id `..` passes `remove`'s check, and the DELETE it builds reads back as the root of the end point |

## Left out

- The `XMLHttpRequest` object is not modelled, and neither are `readyState` or the asynchronous callback. `request` stops at a `Request` descriptor, and the completion handler is a function of status, response text and flag.
- `JSON.stringify` and `JSON.parse` are abstract. The descriptor carries the body value, and the envelope carries the raw response text. A malformed response, which would make the handler throw, is not modelled.
- `getISO8601Timestamp` depends on the clock, and as written it throws: `new Date.now()` is not a constructor.
- `Utils.isDate` reads an undefined variable `obj`, and nothing calls it.
- The UMD/AMD loader wrapper is module plumbing.
- The demo applications (main.js, locdata_map.js, both m2xclient.js) are not part of this model.
- Numbers are the safe integers (magnitude at most 2^53 - 1) and NaN. Fractions, infinities, `-0` and larger integers are left out, so the model cannot express a fractional or exponent-form number (from 10^21 on) printed in a path by `formatURL`, in a query string such as `limit=2.5`, or in the "Parameter mismatch" message of `checkObjectHasProperties`. Within the safe range `ToString` is the plain decimal digits, which is what `JsValue.IntToString` gives.
- Host objects are left out, as are objects with their own `toString` and inherited properties. `Date`, boxed primitives and `arguments` are examples. An object is its own enumerable properties in `for-in` order.
- UriEncoding.Encode: lone surrogates, for which `encodeURIComponent` throws `URIError`, cannot be represented. A Dafny `char` is a Unicode scalar value, so every string encodes.
- Client.New: only plain objects carry properties in the model. A function or array passed as options with a `key` property is treated as having no key.
- Iso8601.FromIso8601ToDate: the `Date` built from a matching timestamp is known only by the value it came from. How `new Date` parses it is not modelled.
- Device.GetTriggerDetails: the path of an undefined trigger id is stated as text (`{2}` stays). What the server makes of such a path is not.
- Device.UpdateTrigger: the path of an undefined trigger id is stated as text (`{2}` stays). What the server makes of such a path is not.
- Distribution.GetTriggerDetails: the path of an undefined trigger id is stated as text (`{2}` stays). What the server makes of such a path is not.
- Distribution.UpdateTrigger: the path of an undefined trigger id is stated as text (`{2}` stays). What the server makes of such a path is not.
- The `forward_errors` routing branch is modelled in `Http.Complete`, but no client reaches it, because the constructor never sets the flag.
- An object literal in the model may list a property name twice; a JavaScript object cannot hold two own properties of one name. Lookup (`JsValue.Get`) takes the first listed, while the query string writes every listed pair. A real object never has such duplicates, so the model speaks for JavaScript objects only when the names are distinct.
- A path is read relative to the end point (`/v2`), so the model says `..` in place of a device id reaches the root of the end point. The URL parser would in fact let `..` remove path segments of the end point as well; that is not modelled, because every placeholder the facades fill follows at least one fixed segment, and one `..` therefore never climbs above the end point.
