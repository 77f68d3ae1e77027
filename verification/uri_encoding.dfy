/** `encodeURIComponent` (section 15.1.3.4 of ECMA-262 5.1) and its inverse
    `decodeURIComponent` (section 15.1.3.2), over Dafny strings, whose
    characters are Unicode scalar values. */
module UriEncoding {
  import opened Wrappers

  type Octet = b: int | 0 <= b < 256

  /** The `uriUnescaped` set: letters, decimal digits and the marks
      `- _ . ! ~ * ' ( )`. These pass through the encoder unchanged. */
  predicate IsUnreserved(c: char) {
    || ('a' <= c <= 'z')
    || ('A' <= c <= 'Z')
    || ('0' <= c <= '9')
    || c in "-_.!~*'()"
  }

  /** The characters an encoded component can contain. */
  predicate IsEncodedChar(c: char) {
    IsUnreserved(c) || c == '%'
  }

  /** The UTF-8 octets of a code point, the six-bit groups peeled off by
      repeated division so that the decoder's Horner sum restores them. */
  function Utf8(c: char): (bs: seq<Octet>)
    ensures 1 <= |bs| <= 4
  {
    var cp := c as int;
    if cp < 0x80 then [cp]
    else if cp < 0x800 then [0xC0 + cp / 64, 0x80 + cp % 64]
    else if cp < 0x1_0000 then
      [0xE0 + cp / 64 / 64, 0x80 + cp / 64 % 64, 0x80 + cp % 64]
    else
      [0xF0 + cp / 64 / 64 / 64, 0x80 + cp / 64 / 64 % 64, 0x80 + cp / 64 % 64, 0x80 + cp % 64]
  }

  function HexDigit(d: nat): (c: char)
    requires d < 16
    ensures IsUnreserved(c)
  {
    "0123456789ABCDEF"[d]
  }

  /** `%XY`, the upper-case hexadecimal escape of one octet. */
  function PercentOctet(b: Octet): string {
    ['%', HexDigit(b / 16), HexDigit(b % 16)]
  }

  function PercentOctets(bs: seq<Octet>): (s: string)
    ensures |s| == 3 * |bs|
  {
    if |bs| == 0 then "" else PercentOctet(bs[0]) + PercentOctets(bs[1..])
  }

  /** One character of `encodeURIComponent`'s output. */
  function EncodeChar(c: char): string {
    if IsUnreserved(c) then [c] else PercentOctets(Utf8(c))
  }

  /** `encodeURIComponent(s)`. The output uses only unreserved characters
      and `%`, so it can never contain `/`, `?`, `&`, `=`, `#`, `{` or a
      space, and text that is already unreserved is left alone. */
  function Encode(s: string): (r: string)
    ensures forall i :: 0 <= i < |r| ==> IsEncodedChar(r[i])
    ensures (forall i :: 0 <= i < |s| ==> IsUnreserved(s[i])) ==> r == s
    ensures |r| >= |s|
  {
    if |s| == 0 then ""
    else
      var head := EncodeChar(s[0]);
      assert forall i :: 0 <= i < |head| ==> IsEncodedChar(head[i]) by {
        if !IsUnreserved(s[0]) {
          PercentOctetsAlphabet(Utf8(s[0]));
        }
      }
      head + Encode(s[1..])
  }

  lemma {:induction false} PercentOctetsAlphabet(bs: seq<Octet>)
    ensures forall i :: 0 <= i < |PercentOctets(bs)| ==> IsEncodedChar(PercentOctets(bs)[i])
  {
    if |bs| > 0 {
      PercentOctetsAlphabet(bs[1..]);
    }
  }

  // ---------------------------------------------------------------------
  // The decoder

  function HexValue(c: char): (r: Option<nat>)
    ensures r.Some? ==> r.value < 16
  {
    if '0' <= c <= '9' then Some(c as int - '0' as int)
    else if 'A' <= c <= 'F' then Some(c as int - 'A' as int + 10)
    else if 'a' <= c <= 'f' then Some(c as int - 'a' as int + 10)
    else None
  }

  /** The octet escaped as `%XY` at the front of `s`. */
  function ReadOctet(s: string): (r: Option<Octet>)
    ensures r.Some? ==> |s| >= 3
  {
    if |s| < 3 || s[0] != '%' then None
    else
      match (HexValue(s[1]), HexValue(s[2]))
      case (Some(h), Some(l)) => Some(h * 16 + l)
      case _ => None
  }

  /** The `n` octets escaped at the front of `s`. */
  function ReadOctets(s: string, n: nat): (r: Option<seq<Octet>>)
    ensures r.Some? ==> |s| >= 3 * n && |r.value| == n
    ensures r.Some? && n > 0 ==> ReadOctet(s) == Some(r.value[0])
    decreases n
  {
    if n == 0 then Some([])
    else
      match ReadOctet(s)
      case None => None
      case Some(b) =>
        match ReadOctets(s[3..], n - 1)
        case None => None
        case Some(bs) => Some([b] + bs)
  }

  /** How many octets a UTF-8 sequence starting with `b` has. */
  function OctetCount(b: Octet): (r: Option<nat>)
    ensures r.Some? ==> 1 <= r.value <= 4
  {
    if b < 0x80 then Some(1)
    else if 0xC0 <= b < 0xE0 then Some(2)
    else if 0xE0 <= b < 0xF0 then Some(3)
    else if 0xF0 <= b < 0xF8 then Some(4)
    else None
  }

  predicate IsContinuation(b: Octet) {
    0x80 <= b < 0xC0
  }

  /** The scalar value a UTF-8 sequence stands for; `None` for a bad
      continuation octet, an overlong form, a surrogate or a value past
      U+10FFFF, the cases where `decodeURIComponent` throws `URIError`. */
  function CodePoint(bs: seq<Octet>): Option<char>
    requires 1 <= |bs| <= 4
    requires OctetCount(bs[0]) == Some(|bs|)
  {
    if exists i :: 1 <= i < |bs| && !IsContinuation(bs[i]) then None
    else
      var b: seq<int> := bs;
      var v: int :=
        if |b| == 1 then b[0]
        else if |b| == 2 then (b[0] - 0xC0) * 64 + (b[1] - 0x80)
        else if |b| == 3 then ((b[0] - 0xE0) * 64 + (b[1] - 0x80)) * 64 + (b[2] - 0x80)
        else (((b[0] - 0xF0) * 64 + (b[1] - 0x80)) * 64 + (b[2] - 0x80)) * 64 + (b[3] - 0x80);
      var least: int := if |bs| == 1 then 0 else if |bs| == 2 then 0x80 else if |bs| == 3 then 0x800 else 0x1_0000;
      if v < least || v > 0x10_FFFF || 0xD800 <= v <= 0xDFFF then None
      else Some(v as char)
  }

  /** `decodeURIComponent(s)`; `None` where it throws `URIError`. */
  function Decode(s: string): Option<string>
    decreases |s|
  {
    if |s| == 0 then Some("")
    else if s[0] != '%' then
      match Decode(s[1..])
      case None => None
      case Some(t) => Some([s[0]] + t)
    else
      match ReadOctet(s)
      case None => None
      case Some(b) =>
        match OctetCount(b)
        case None => None
        case Some(n) =>
          match ReadOctets(s, n)
          case None => None
          case Some(bs) =>
            match CodePoint(bs)
            case None => None
            case Some(c) =>
              match Decode(s[3 * n..])
              case None => None
              case Some(t) => Some([c] + t)
  }

  // ---------------------------------------------------------------------
  // Round trip

  function Prepend(c: char, r: Option<string>): Option<string> {
    match r
    case None => None
    case Some(t) => Some([c] + t)
  }

  lemma HexDigitValue(d: nat)
    requires d < 16
    ensures HexValue(HexDigit(d)) == Some(d)
  {
  }

  lemma ReadPercentOctet(b: Octet, t: string)
    ensures ReadOctet(PercentOctet(b) + t) == Some(b)
  {
    var s := PercentOctet(b) + t;
    assert s[1] == HexDigit(b / 16) && s[2] == HexDigit(b % 16);
    HexDigitValue(b / 16);
    HexDigitValue(b % 16);
  }

  lemma ReadOctetsStep(b: Octet, rest: string, n: nat, bs: seq<Octet>)
    requires ReadOctets(rest, n) == Some(bs)
    ensures ReadOctets(PercentOctet(b) + rest, n + 1) == Some([b] + bs)
  {
    ReadPercentOctet(b, rest);
    assert (PercentOctet(b) + rest)[3..] == rest;
  }

  lemma {:induction false} ReadPercentOctets(bs: seq<Octet>, t: string)
    ensures ReadOctets(PercentOctets(bs) + t, |bs|) == Some(bs)
    ensures (PercentOctets(bs) + t)[3 * |bs|..] == t
  {
    if |bs| > 0 {
      var rest := PercentOctets(bs[1..]) + t;
      ReadPercentOctets(bs[1..], t);
      ReadOctetsStep(bs[0], rest, |bs| - 1, bs[1..]);
      PercentOctetsCons(bs, t);
      assert [bs[0]] + bs[1..] == bs;
    }
    DropPrefix(PercentOctets(bs), t);
  }

  lemma PercentOctetsCons(bs: seq<Octet>, t: string)
    requires |bs| > 0
    ensures PercentOctets(bs) + t == PercentOctet(bs[0]) + (PercentOctets(bs[1..]) + t)
  {
    assert PercentOctets(bs) == PercentOctet(bs[0]) + PercentOctets(bs[1..]);
    Associate(PercentOctet(bs[0]), PercentOctets(bs[1..]), t);
  }

  lemma Associate(a: string, b: string, c: string)
    ensures a + b + c == a + (b + c)
  {
  }

  lemma DropPrefix(a: string, t: string)
    ensures (a + t)[|a|..] == t
  {
  }

  lemma Utf8Decodes(c: char)
    ensures OctetCount(Utf8(c)[0]) == Some(|Utf8(c)|)
    ensures CodePoint(Utf8(c)) == Some(c)
  {
    var cp := c as int;
    var bs := Utf8(c);
    if cp >= 0x80 {
      assert cp == cp / 64 * 64 + cp % 64;
      assert cp / 64 == cp / 64 / 64 * 64 + cp / 64 % 64;
      assert cp / 64 / 64 == cp / 64 / 64 / 64 * 64 + cp / 64 / 64 % 64;
    }
  }

  lemma EncodeCharDecodes(c: char, t: string)
    ensures Decode(EncodeChar(c) + t) == Prepend(c, Decode(t))
  {
    var s := EncodeChar(c) + t;
    if IsUnreserved(c) {
      assert s[0] == c && s[1..] == t;
    } else {
      var bs := Utf8(c);
      ReadPercentOctets(bs, t);
      Utf8Decodes(c);
      assert s[0] == '%';
    }
  }

  /** Decoding undoes encoding: an identifier spliced into a URL by
      `encodeURIComponent` can be recovered from it exactly. */
  lemma {:induction false} DecodeEncode(s: string)
    ensures Decode(Encode(s)) == Some(s)
  {
    if |s| > 0 {
      DecodeEncode(s[1..]);
      EncodeCharDecodes(s[0], Encode(s[1..]));
      assert [s[0]] + s[1..] == s;
    }
  }

  /** Encoding is injective: distinct identifiers give distinct URL text. */
  lemma EncodeInjective(s: string, t: string)
    requires Encode(s) == Encode(t)
    ensures s == t
  {
    DecodeEncode(s);
    DecodeEncode(t);
  }
}
