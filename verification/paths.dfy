/** How the M2X server reads the path of a request. The URL handed to
    `xhr.open` is parsed before it is sent, and the parser resolves dot
    segments the way the path state of the WHATWG URL Standard does: `.`
    is dropped and `..` removes the segment before it, whether written
    plainly or percent-encoded as `%2e`. The server then splits the path
    at `/` and percent-decodes each segment. An identifier other than `.`
    or `..` is read back as exactly one segment, whatever characters it
    contains; `.` and `..` pass every check of the library and move the
    request to another resource. */
module Paths {
  import opened Wrappers
  import opened UriEncoding
  import opened JsValue
  import opened Utils
  import opened Http

  // ---------------------------------------------------------------------
  // Dot segments

  /** `.` or its percent-encoded spelling, in either case. */
  predicate IsDotPart(x: string) {
    x == "." || x == "%2e" || x == "%2E"
  }

  /** A segment the URL parser reads as `.`. */
  predicate IsSingleDot(x: string) {
    IsDotPart(x)
  }

  /** A segment the URL parser reads as `..`. */
  predicate IsDoubleDot(x: string) {
    exists k :: 0 < k < |x| && IsDotPart(x[..k]) && IsDotPart(x[k..])
  }

  predicate IsDotSegment(x: string) {
    IsSingleDot(x) || IsDoubleDot(x)
  }

  /** An identifier the parser leaves where it is: neither `.` nor `..`. */
  predicate Routable(id: string) {
    id != "." && id != ".."
  }

  /** The path without its last segment (the parser's "shorten"). */
  function Shorten(out: seq<string>): (r: seq<string>)
    ensures |out| > 0 ==> r + [out[|out| - 1]] == out
  {
    if |out| == 0 then out else out[..|out| - 1]
  }

  /** The parser's path state over the pieces between slashes, appending
      to `out`: `..` shortens the path, `.` is dropped, and either one as
      the last piece leaves an empty last segment (a trailing `/`). Any
      other piece is kept as written. */
  function Resolve(out: seq<string>, pieces: seq<string>): seq<string>
    decreases |pieces|
  {
    if |pieces| == 0 then out
    else
      var trailing := if |pieces| == 1 then [""] else [];
      var next :=
        if IsDoubleDot(pieces[0]) then Shorten(out) + trailing
        else if IsSingleDot(pieces[0]) then out + trailing
        else out + [pieces[0]];
      Resolve(next, pieces[1..])
  }

  function DecodeAll(pieces: seq<string>): Option<seq<string>> {
    if |pieces| == 0 then Some([])
    else
      match (Decode(pieces[0]), DecodeAll(pieces[1..]))
      case (Some(x), Some(rest)) => Some([x] + rest)
      case _ => None
  }

  /** The segments the server reads from an absolute path: dot segments
      resolved, then each segment decoded; `None` when the path does not
      start with `/` or a segment is malformed. The path is read relative
      to the end point, whose own `/v2` is not part of it. */
  function ReadPath(path: string): Option<seq<string>> {
    if |path| > 0 && path[0] == '/' then DecodeAll(Resolve([], Split(path[1..], '/'))) else None
  }

  // ---------------------------------------------------------------------
  // Paths without dot segments

  /** The pieces decoded, provided none of them is a dot segment. */
  function DecodePlain(pieces: seq<string>): Option<seq<string>> {
    if |pieces| == 0 then Some([])
    else if IsDotSegment(pieces[0]) then None
    else
      match (Decode(pieces[0]), DecodePlain(pieces[1..]))
      case (Some(x), Some(rest)) => Some([x] + rest)
      case _ => None
  }

  /** `ReadPath` for a path without dot segments, where resolving them
      has nothing to do. */
  function ReadPlain(path: string): Option<seq<string>> {
    if |path| > 0 && path[0] == '/' then DecodePlain(Split(path[1..], '/')) else None
  }

  lemma {:induction false} PlainResolves(out: seq<string>, pieces: seq<string>, segs: seq<string>)
    requires DecodePlain(pieces) == Some(segs)
    ensures Resolve(out, pieces) == out + pieces
    ensures DecodeAll(pieces) == Some(segs)
    decreases |pieces|
  {
    if |pieces| > 0 {
      var rest := DecodePlain(pieces[1..]).value;
      PlainResolves(out + [pieces[0]], pieces[1..], rest);
      assert out + [pieces[0]] + pieces[1..] == out + pieces;
    }
  }

  /** A path the plain reading accepts is read the same way once dot
      segments are resolved. */
  lemma PlainIsRead(path: string, segs: seq<string>)
    requires ReadPlain(path) == Some(segs)
    ensures ReadPath(path) == Some(segs)
  {
    var pieces := Split(path[1..], '/');
    PlainResolves([], pieces, segs);
    assert [] + pieces == pieces;
  }

  lemma DecodeDotPart(p: string, rest: string)
    requires IsDotPart(p)
    ensures Decode(p + rest) == Prepend('.', Decode(rest))
  {
    var s := p + rest;
    if p == "." {
      assert s[0] == '.' && s[1..] == rest;
    } else {
      assert s[0] == '%' && s[1] == '2' && HexValue(s[2]) == Some(14);
      assert ReadOctet(s) == Some(0x2E);
      OneOctet(s, 0x2E);
      DotCodePoint();
      assert s[3..] == rest;
    }
  }

  lemma OneOctet(s: string, b: Octet)
    requires ReadOctet(s) == Some(b)
    ensures ReadOctets(s, 1) == Some([b])
  {
    var none: seq<Octet> := [];
    assert ReadOctets(s[3..], 0) == Some(none);
    assert [b] + none == [b];
  }

  lemma DotCodePoint()
    ensures OctetCount(0x2E) == Some(1)
    ensures CodePoint([0x2E]) == Some('.')
  {
  }

  lemma DotPartDecodes(p: string)
    requires IsDotPart(p)
    ensures Decode(p) == Some(".")
  {
    DecodeDotPart(p, "");
    assert p + "" == p;
    assert Decode("") == Some("");
    assert ['.'] + "" == ".";
  }

  /** Every spelling of a dot segment decodes to `.` or `..`. */
  lemma DotSegmentDecodes(x: string)
    ensures IsSingleDot(x) ==> Decode(x) == Some(".")
    ensures IsDoubleDot(x) ==> Decode(x) == Some("..")
  {
    if IsSingleDot(x) {
      DotPartDecodes(x);
    }
    if IsDoubleDot(x) {
      var k :| 0 < k < |x| && IsDotPart(x[..k]) && IsDotPart(x[k..]);
      DotPartDecodes(x[k..]);
      DecodeDotPart(x[..k], x[k..]);
      assert x[..k] + x[k..] == x;
      assert ['.'] + "." == "..";
    }
  }

  /** A piece that decodes to a routable identifier is no dot segment. */
  lemma NotDotSegment(x: string, m: string)
    requires Decode(x) == Some(m) && Routable(m)
    ensures !IsDotSegment(x)
  {
    DotSegmentDecodes(x);
  }

  // ---------------------------------------------------------------------
  // Reading routes

  /** A fixed segment of a route template: only unreserved characters, so
      encoding leaves it as it is, and not a dot segment. */
  predicate IsPlain(s: string) {
    Routable(s) && forall i :: 0 <= i < |s| ==> IsUnreserved(s[i])
  }

  /** `/s0/s1/…` for fixed segments. */
  function Literal(segs: seq<string>): string {
    if |segs| == 0 then "" else "/" + segs[0] + Literal(segs[1..])
  }

  predicate AllPlain(segs: seq<string>) {
    forall i :: 0 <= i < |segs| ==> IsPlain(segs[i])
  }

  /** Piece `x` of a path, read by the server as segment `m`. */
  predicate Reads(x: string, m: string) {
    '/' !in x && !IsDotSegment(x) && Decode(x) == Some(m)
  }

  lemma PlainReads(s: string)
    requires IsPlain(s)
    ensures Reads(s, s)
  {
    DecodeEncode(s);
    NotDotSegment(s, s);
  }

  lemma EncodedReads(s: string)
    requires Routable(s)
    ensures Reads(Encode(s), s)
  {
    DecodeEncode(s);
    EncodedLacks(s, '/');
    NotDotSegment(Encode(s), s);
  }

  lemma DecodeOne(x: string, m: string, rest: seq<string>, segs: seq<string>)
    requires !IsDotSegment(x) && Decode(x) == Some(m) && DecodePlain(rest) == Some(segs)
    ensures DecodePlain([x] + rest) == Some([m] + segs)
  {
    assert ([x] + rest)[1..] == rest;
  }

  lemma ReadLastSegment(x: string, m: string)
    requires Reads(x, m)
    ensures ReadPlain("/" + x) == Some([m])
  {
    var path := "/" + x;
    assert path[0] == '/' && path[1..] == x;
    SplitWithout(x, '/');
    DecodeOne(x, m, [], []);
    assert [x] + [] == [x] && [m] + [] == [m];
    assert ReadPlain(path) == DecodePlain([x]);
  }

  lemma ReadFirstSegment(x: string, m: string, rest: string, segs: seq<string>)
    requires Reads(x, m) && ReadPlain(rest) == Some(segs)
    ensures ReadPlain("/" + x + rest) == Some([m] + segs)
  {
    var path := "/" + x + rest;
    assert path[0] == '/';
    assert path[1..] == x + ['/'] + rest[1..];
    SplitFirst(x, '/', rest[1..]);
    DecodeOne(x, m, Split(rest[1..], '/'), segs);
  }

  lemma {:induction false} ReadLiteral(segs: seq<string>)
    requires |segs| > 0 && AllPlain(segs)
    ensures ReadPlain(Literal(segs)) == Some(segs)
  {
    PlainReads(segs[0]);
    if |segs| == 1 {
      ReadLastSegment(segs[0], segs[0]);
      assert segs[1..] == [] && Literal(segs) == "/" + segs[0] + "";
      assert "/" + segs[0] + "" == "/" + segs[0];
      assert [segs[0]] == segs;
    } else {
      ReadLiteral(segs[1..]);
      ReadFirstSegment(segs[0], segs[0], Literal(segs[1..]), segs[1..]);
      assert [segs[0]] + segs[1..] == segs;
    }
  }

  /** The fixed tail of a route reads back as its segments and holds no
      placeholder. */
  lemma ReadTail(post: string, tail: seq<string>)
    requires post == Literal(tail) && AllPlain(tail)
    ensures (post == "" && tail == []) || ReadPlain(post) == Some(tail)
    ensures '{' !in post
  {
    if |tail| > 0 {
      ReadLiteral(tail);
    }
    LiteralNoBrace(tail);
  }

  lemma {:induction false} LiteralNoBrace(segs: seq<string>)
    requires AllPlain(segs)
    ensures '{' !in Literal(segs)
  {
    if |segs| > 0 {
      LiteralNoBrace(segs[1..]);
      assert '{' !in segs[0];
    }
  }

  /** `/a/<id>` followed by `post`, for an identifier other than `.` and
      `..`. */
  lemma ReadOneId(a: string, id: string, post: string, tail: seq<string>)
    requires IsPlain(a) && Routable(id)
    requires (post == "" && tail == []) || ReadPlain(post) == Some(tail)
    ensures ReadPlain("/" + a + "/" + Encode(id) + post) == Some([a, id] + tail)
  {
    var rest := "/" + Encode(id) + post;
    ReadIdThenPost(id, post, tail);
    PlainReads(a);
    ReadFirstSegment(a, a, rest, [id] + tail);
    Associate(a, Encode(id), post);
    assert [a] + ([id] + tail) == [a, id] + tail;
  }

  /** `/<id>` followed by `post`. */
  lemma ReadIdThenPost(id: string, post: string, tail: seq<string>)
    requires Routable(id)
    requires (post == "" && tail == []) || ReadPlain(post) == Some(tail)
    ensures ReadPlain("/" + Encode(id) + post) == Some([id] + tail)
  {
    var e := Encode(id);
    EncodedReads(id);
    if post == "" {
      ReadLastSegment(e, id);
      assert "/" + e + post == "/" + e && [id] + tail == [id];
    } else {
      ReadFirstSegment(e, id, post, tail);
    }
  }

  lemma Associate(a: string, e: string, post: string)
    ensures "/" + a + "/" + e + post == "/" + a + ("/" + e + post)
  {
  }

  /** `/a/<id>/b/<name>` followed by `post`, for an identifier and a name
      other than `.` and `..`. */
  lemma ReadTwoIds(a: string, id: string, b: string, name: string, post: string, tail: seq<string>)
    requires IsPlain(a) && IsPlain(b) && Routable(id) && Routable(name)
    requires (post == "" && tail == []) || ReadPlain(post) == Some(tail)
    ensures ReadPlain("/" + a + "/" + Encode(id) + "/" + b + "/" + Encode(name) + post) == Some([a, id, b, name] + tail)
  {
    ReadTwoIdsNested(a, id, b, name, post, tail);
    AssociateTwo(a, Encode(id), b, Encode(name), post);
    assert [a, id] + ([b, name] + tail) == [a, id, b, name] + tail;
  }

  lemma ReadTwoIdsNested(a: string, id: string, b: string, name: string, post: string, tail: seq<string>)
    requires IsPlain(a) && IsPlain(b) && Routable(id) && Routable(name)
    requires (post == "" && tail == []) || ReadPlain(post) == Some(tail)
    ensures ReadPlain("/" + a + "/" + Encode(id) + ("/" + b + "/" + Encode(name) + post)) == Some([a, id] + ([b, name] + tail))
  {
    var rest := "/" + b + "/" + Encode(name) + post;
    ReadOneId(b, name, post, tail);
    assert rest[0] == '/';
    ReadOneId(a, id, rest, [b, name] + tail);
  }

  lemma AssociateTwo(a: string, e: string, b: string, f: string, post: string)
    ensures "/" + a + "/" + e + ("/" + b + "/" + f + post) == "/" + a + "/" + e + "/" + b + "/" + f + post
  {
  }

  // ---------------------------------------------------------------------
  // Route templates

  /** A route without placeholders, which the library passes as it is:
      the server reads its fixed segments. */
  lemma FixedRoute(path: string, segs: seq<string>)
    requires path == Literal(segs) && |segs| > 0 && AllPlain(segs)
    ensures ReadPath(path) == Some(segs)
  {
    ReadLiteral(segs);
    PlainIsRead(path, segs);
  }

  /** `formatURL(template, id)` for a template `/a/{1}` followed by a
      fixed tail and a string `id`: the id is encoded into the path, and
      unless it is `.` or `..` the server reads it back as one segment. */
  lemma OneIdRoute(template: string, pre: string, a: string, id: string, post: string, tail: seq<string>, segs: seq<string>)
    requires template == pre + "{1}" + post
    requires pre == "/" + a + "/" && IsPlain(a)
    requires post == Literal(tail) && AllPlain(tail)
    requires segs == [a, id] + tail
    ensures FormatURL(template, [Str(id)]) == pre + Encode(id) + post
    ensures Routable(id) ==> ReadPath(pre + Encode(id) + post) == Some(segs)
  {
    ReadTail(post, tail);
    OneIdFormat(pre, a, id, post);
    if Routable(id) {
      ReadOneId(a, id, post, tail);
      PlainIsRead(pre + Encode(id) + post, [a, id] + tail);
    }
  }

  lemma OneIdFormat(pre: string, a: string, id: string, post: string)
    requires pre == "/" + a + "/" && IsPlain(a) && '{' !in post
    ensures FormatURL(pre + "{1}" + post, [Str(id)]) == pre + Encode(id) + post
  {
    PlainSlashedNoBrace(a);
    FormatOne(pre, post, Str(id));
    FilledString(id, "1");
  }

  lemma PlainSlashedNoBrace(a: string)
    requires IsPlain(a)
    ensures '{' !in "/" + a + "/"
  {
    assert forall i :: 0 <= i < |a| ==> a[i] != '{';
  }

  /** `formatURL(template, id, second)` for a template `/a/{1}/b/{2}`
      followed by a fixed tail and a string `id`: `second` is filled in
      as `formatURL` fills it, and unless it is `undefined`, and neither
      it nor the id is `.` or `..`, the server reads its string form back
      as one segment. */
  lemma TwoIdRoute(template: string, pre: string, a: string, id: string, mid: string, b: string, second: Value, post: string, tail: seq<string>, segs: seq<string>)
    requires template == pre + "{1}" + mid + "{2}" + post
    requires pre == "/" + a + "/" && mid == "/" + b + "/" && IsPlain(a) && IsPlain(b)
    requires post == Literal(tail) && AllPlain(tail)
    requires !second.Undefined? ==> segs == [a, id, b, ToStr(second)] + tail
    ensures FormatURL(template, [Str(id), second]) == pre + Encode(id) + mid + Filled(second, "2") + post
    ensures second.Str? ==> Filled(second, "2") == Encode(second.s)
    ensures !second.Undefined? && Routable(id) && Routable(ToStr(second)) ==>
              ReadPath(pre + Encode(id) + mid + Filled(second, "2") + post) == Some(segs)
  {
    FilledIfString(second, "2");
    ReadTail(post, tail);
    TwoIdFormat(pre, a, id, mid, b, second, post);
    if !second.Undefined? && Routable(id) && Routable(ToStr(second)) {
      TwoIdRead(pre, a, id, mid, b, second, post, tail);
      PlainIsRead(pre + Encode(id) + mid + Filled(second, "2") + post, [a, id, b, ToStr(second)] + tail);
    }
  }

  lemma TwoIdFormat(pre: string, a: string, id: string, mid: string, b: string, second: Value, post: string)
    requires pre == "/" + a + "/" && mid == "/" + b + "/" && IsPlain(a) && IsPlain(b) && '{' !in post
    ensures FormatURL(pre + "{1}" + mid + "{2}" + post, [Str(id), second]) == pre + Encode(id) + mid + Filled(second, "2") + post
  {
    PlainSlashedNoBrace(a);
    PlainSlashedNoBrace(b);
    FormatTwo(pre, mid, post, Str(id), second);
    FilledString(id, "1");
  }

  lemma TwoIdRead(pre: string, a: string, id: string, mid: string, b: string, second: Value, post: string, tail: seq<string>)
    requires pre == "/" + a + "/" && mid == "/" + b + "/" && IsPlain(a) && IsPlain(b)
    requires !second.Undefined? && Routable(id) && Routable(ToStr(second))
    requires (post == "" && tail == []) || ReadPlain(post) == Some(tail)
    ensures ReadPlain(pre + Encode(id) + mid + Filled(second, "2") + post) == Some([a, id, b, ToStr(second)] + tail)
  {
    ReadTwoIds(a, id, b, ToStr(second), post, tail);
    AssociateMid(pre, Encode(id), b, Filled(second, "2"), post);
  }

  lemma AssociateMid(pre: string, e: string, b: string, f: string, post: string)
    ensures pre + e + ("/" + b + "/") + f + post == pre + e + "/" + b + "/" + f + post
  {
  }

  // ---------------------------------------------------------------------
  // Dot identifiers

  lemma IsDotDot()
    ensures IsDoubleDot("..") && !IsSingleDot("..")
  {
    assert IsDotPart(".."[..1]) && IsDotPart(".."[1..]);
  }

  lemma ResolveKeeps(out: seq<string>, x: string, rest: seq<string>)
    requires !IsDotSegment(x) && |rest| > 0
    ensures Resolve(out, [x] + rest) == Resolve(out + [x], rest)
  {
    assert ([x] + rest)[1..] == rest;
  }

  lemma ResolveLastDotDot(out: seq<string>)
    ensures Resolve(out, [".."]) == Shorten(out) + [""]
  {
    IsDotDot();
    assert [".."][1..] == [];
  }

  lemma DecodeCons(x: string, m: string, rest: seq<string>, segs: seq<string>)
    requires Decode(x) == Some(m) && DecodeAll(rest) == Some(segs)
    ensures DecodeAll([x] + rest) == Some([m] + segs)
  {
    assert ([x] + rest)[1..] == rest;
  }

  lemma SplitLastDotDot(x: string)
    requires '/' !in x
    ensures Split(x + "/..", '/') == [x, ".."]
  {
    assert x + "/.." == x + ['/'] + "..";
    SplitFirst(x, '/', "..");
    SplitWithout("..", '/');
  }

  /** `/a/..`: the identifier `..` climbs out of the collection `a`, and
      the request reaches the root of the API (`/`). */
  lemma DotDotLeavesCollection(pre: string, a: string)
    requires pre == "/" + a + "/" && IsPlain(a)
    ensures Encode("..") == ".."
    ensures ReadPath(pre + Encode("..")) == Some([""])
  {
    var rest := a + "/..";
    DotDotEncoded();
    AssociateLast(pre, a);
    DropSlash(rest);
    PlainReads(a);
    SplitLastDotDot(a);
    ResolveKeeps([], a, [".."]);
    ResolveLastDotDot([a]);
    Leaves(a);
    DecodeCons("", "", [], []);
    assert [""] + [] == [""];
  }

  lemma AssociateLast(pre: string, a: string)
    requires pre == "/" + a + "/"
    ensures pre + ".." == "/" + (a + "/..")
  {
  }

  lemma Leaves(a: string)
    ensures [] + [a] == [a] && Shorten([a]) + [""] == [""]
  {
  }

  lemma SplitThenDotDot(a: string, e: string, b: string)
    requires '/' !in a && '/' !in e && '/' !in b
    ensures Split(a + "/" + e + "/" + b + "/..", '/') == [a, e, b, ".."]
  {
    SplitLastDotDot(b);
    assert e + "/" + b + "/.." == e + ['/'] + (b + "/..");
    SplitFirst(e, '/', b + "/..");
    assert a + "/" + e + "/" + b + "/.." == a + ['/'] + (e + "/" + b + "/..");
    SplitFirst(a, '/', e + "/" + b + "/..");
  }

  /** `/a/<id>/b/..`: a `..` in place of the name climbs back to the
      resource `/a/<id>/` itself. */
  lemma DotDotClimbsToParent(pre: string, a: string, id: string, mid: string, b: string)
    requires pre == "/" + a + "/" && mid == "/" + b + "/"
    requires IsPlain(a) && IsPlain(b) && Routable(id)
    ensures ReadPath(pre + Encode(id) + mid + Encode("..")) == Some([a, id, ""])
  {
    var e := Encode(id);
    var rest := a + "/" + e + "/" + b + "/..";
    DotDotEncoded();
    AssociateDotDot(pre, a, e, mid, b);
    DropSlash(rest);
    PlainReads(a);
    PlainReads(b);
    EncodedReads(id);
    SplitThenDotDot(a, e, b);
    ResolveKeeps([], a, [e, b, ".."]);
    ResolveKeeps([a], e, [b, ".."]);
    ResolveKeeps([a, e], b, [".."]);
    ResolveLastDotDot([a, e, b]);
    Appended(a, e, b);
    DecodeCons("", "", [], []);
    assert [""] + [] == [""];
    Pair(e, "");
    Pair(id, "");
    DecodeCons(e, id, [""], [""]);
    Triple(a, e, "");
    Triple(a, id, "");
    DecodeCons(a, a, [e, ""], [id, ""]);
  }

  lemma Appended(a: string, e: string, b: string)
    ensures [] + [a] == [a] && [a] + [e] == [a, e] && [a, e] + [b] == [a, e, b]
    ensures Shorten([a, e, b]) + [""] == [a, e, ""]
  {
  }

  lemma Pair<T>(x: T, y: T)
    ensures [x] + [y] == [x, y]
  {
  }

  lemma Triple<T>(x: T, y: T, z: T)
    ensures [x] + [y, z] == [x, y, z]
  {
  }

  lemma DotDotEncoded()
    ensures Encode("..") == ".."
  {
  }

  lemma DropSlash(x: string)
    ensures ("/" + x)[0] == '/' && ("/" + x)[1..] == x
  {
  }

  lemma AssociateDotDot(pre: string, a: string, e: string, mid: string, b: string)
    requires pre == "/" + a + "/" && mid == "/" + b + "/"
    ensures pre + e + mid + ".." == "/" + (a + "/" + e + "/" + b + "/..")
  {
  }
}
