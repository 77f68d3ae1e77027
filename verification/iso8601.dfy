/** `M2X.fromISO8601toDate(timestamp)`: a `Date` is built only when the
    string form of the timestamp contains, anywhere, a match of
    `\d{4}-\d{2}-\d{2}T\d{2}:\d{2}:\d{2}\.\d{3}Z` (the pattern is not
    anchored, and its `.` is escaped, so only a literal dot separates the
    milliseconds). */
module Iso8601 {
  import opened Wrappers
  import opened JsValue

  /** The pattern, one character class per position: `d` stands for `\d`,
      every other character for itself. */
  const Pattern := "dddd-dd-ddTdd:dd:dd.dddZ"

  /** `\d`: an ASCII decimal digit. */
  predicate IsAsciiDigit(c: char) {
    '0' <= c <= '9'
  }

  predicate Fits(c: char, p: char) {
    if p == 'd' then IsAsciiDigit(c) else c == p
  }

  /** The pattern matches `s` starting at position `i`. */
  predicate MatchesAt(s: string, i: nat)
    requires i + |Pattern| <= |s|
  {
    forall k :: 0 <= k < |Pattern| ==> Fits(s[i + k], Pattern[k])
  }

  /** `RegExp.prototype.test` of the unanchored pattern. */
  predicate Contains(s: string) {
    exists i: nat :: i + |Pattern| <= |s| && MatchesAt(s, i)
  }

  /** Scans `s` for a match, trying each start position in turn as the
      regular-expression engine does. */
  method Test(s: string) returns (found: bool)
    ensures found <==> Contains(s)
  {
    if |s| < |Pattern| {
      return false;
    }
    var i := 0;
    while i + |Pattern| <= |s|
      invariant 0 <= i <= |s| - |Pattern| + 1
      invariant forall j: nat :: j < i ==> !MatchesAt(s, j)
      decreases |s| - i
    {
      var k := 0;
      while k < |Pattern| && Fits(s[i + k], Pattern[k])
        invariant 0 <= k <= |Pattern|
        invariant forall m :: 0 <= m < k ==> Fits(s[i + m], Pattern[m])
      {
        k := k + 1;
      }
      if k == |Pattern| {
        assert MatchesAt(s, i);
        return true;
      }
      i := i + 1;
    }
    return false;
  }

  /** The `Date` built from a timestamp; parsing the date itself is not
      modelled, only which value it is built from. */
  datatype Date = DateOf(source: Value)

  /** `M2X.fromISO8601toDate(timestamp)`: a date built from the timestamp
      when its string form contains a match, otherwise `undefined`. */
  method FromIso8601ToDate(timestamp: Value) returns (r: Option<Date>)
    ensures r.Some? <==> Contains(ToStr(timestamp))
    ensures r.Some? ==> r.value == DateOf(timestamp)
  {
    var found := Test(ToStr(timestamp));
    if found {
      return Some(DateOf(timestamp));
    }
    return None;
  }

  // ---------------------------------------------------------------------
  // What the pattern accepts

  /** `s` fits the classes of `p` position by position. */
  predicate FitsAll(s: string, p: string) {
    |s| == |p| && forall k :: 0 <= k < |p| ==> Fits(s[k], p[k])
  }

  lemma FitsConcat(a: string, pa: string, b: string, pb: string)
    requires FitsAll(a, pa) && FitsAll(b, pb)
    ensures FitsAll(a + b, pa + pb)
  {
    forall k | 0 <= k < |pa + pb| ensures Fits((a + b)[k], (pa + pb)[k]) {
      if k >= |pa| {
        assert (a + b)[k] == b[k - |a|] && (pa + pb)[k] == pb[k - |pa|];
      }
    }
  }

  /** `n` in decimal, zero-padded (or cut) to `width` digits. */
  function Padded(n: nat, width: nat): (r: string)
    ensures |r| == width && forall k :: 0 <= k < |r| ==> IsAsciiDigit(r[k])
  {
    if width == 0 then "" else Padded(n / 10, width - 1) + [DigitChar(n % 10)]
  }

  lemma DigitsFit(r: string, p: string)
    requires |r| == |p| && forall k :: 0 <= k < |r| ==> IsAsciiDigit(r[k])
    requires forall k :: 0 <= k < |p| ==> p[k] == 'd'
    ensures FitsAll(r, p)
  {
  }

  lemma PaddedFits(n: nat, p: string)
    requires forall k :: 0 <= k < |p| ==> p[k] == 'd'
    ensures FitsAll(Padded(n, |p|), p)
  {
    DigitsFit(Padded(n, |p|), p);
  }

  lemma Literally(c: char)
    requires c != 'd'
    ensures FitsAll([c], [c])
  {
  }

  /** A point in time as `Date.prototype.toISOString` prints it. */
  datatype DateTime = DateTime(year: nat, month: nat, day: nat, hour: nat, minute: nat, second: nat, millisecond: nat)

  /** `YYYY-MM-DD`. */
  function DatePart(t: DateTime): string {
    Padded(t.year, 4) + "-" + Padded(t.month, 2) + "-" + Padded(t.day, 2)
  }

  /** `HH:mm:ss`. */
  function TimePart(t: DateTime): string {
    Padded(t.hour, 2) + ":" + Padded(t.minute, 2) + ":" + Padded(t.second, 2)
  }

  /** `toISOString()` for a year with four digits: `YYYY-MM-DDTHH:mm:ss.sssZ`. */
  function IsoString(t: DateTime): string {
    DatePart(t) + "T" + TimePart(t) + "." + Padded(t.millisecond, 3) + "Z"
  }

  lemma FitsFive(a: string, pa: string, b: string, pb: string, c: string, pc: string, d: string, pd: string, e: string, pe: string)
    requires FitsAll(a, pa) && FitsAll(b, pb) && FitsAll(c, pc) && FitsAll(d, pd) && FitsAll(e, pe)
    ensures FitsAll(a + b + c + d + e, pa + pb + pc + pd + pe)
  {
    FitsConcat(a, pa, b, pb);
    FitsConcat(a + b, pa + pb, c, pc);
    FitsConcat(a + b + c, pa + pb + pc, d, pd);
    FitsConcat(a + b + c + d, pa + pb + pc + pd, e, pe);
  }

  lemma DatePartFits(t: DateTime)
    ensures FitsAll(DatePart(t), "dddd-dd-dd")
  {
    PaddedFits(t.year, "dddd");
    PaddedFits(t.month, "dd");
    PaddedFits(t.day, "dd");
    Literally('-');
    FitsFive(Padded(t.year, 4), "dddd", "-", "-", Padded(t.month, 2), "dd", "-", "-", Padded(t.day, 2), "dd");
    assert "dddd" + "-" + "dd" + "-" + "dd" == "dddd-dd-dd";
  }

  lemma TimePartFits(t: DateTime)
    ensures FitsAll(TimePart(t), "dd:dd:dd")
  {
    PaddedFits(t.hour, "dd");
    PaddedFits(t.minute, "dd");
    PaddedFits(t.second, "dd");
    Literally(':');
    FitsFive(Padded(t.hour, 2), "dd", ":", ":", Padded(t.minute, 2), "dd", ":", ":", Padded(t.second, 2), "dd");
    assert "dd" + ":" + "dd" + ":" + "dd" == "dd:dd:dd";
  }

  lemma PatternPieces()
    ensures "dddd-dd-dd" + "T" + "dd:dd:dd" + "." + "ddd" + "Z" == Pattern
  {
  }

  lemma IsoStringFits(t: DateTime)
    ensures FitsAll(IsoString(t), Pattern)
  {
    DatePartFits(t);
    TimePartFits(t);
    Literally('T');
    Literally('.');
    Literally('Z');
    PaddedFits(t.millisecond, "ddd");
    FitsFive(DatePart(t), "dddd-dd-dd", "T", "T", TimePart(t), "dd:dd:dd", ".", ".", Padded(t.millisecond, 3), "ddd");
    FitsConcat(DatePart(t) + "T" + TimePart(t) + "." + Padded(t.millisecond, 3), "dddd-dd-dd" + "T" + "dd:dd:dd" + "." + "ddd", "Z", "Z");
    PatternPieces();
  }

  /** Every timestamp in the `toISOString` layout (a four-digit year, each
      other field printed in its fixed width) is accepted, and matched from
      its first character. */
  lemma IsoStringAccepted(t: DateTime)
    ensures |IsoString(t)| == |Pattern| && MatchesAt(IsoString(t), 0)
    ensures Contains(IsoString(t))
  {
    IsoStringFits(t);
    var s := IsoString(t);
    assert s[0..0 + |Pattern|] == s;
    assert MatchesAt(s, 0);
  }

  /** The match may sit anywhere: text around a timestamp does not matter. */
  lemma UnanchoredMatch(before: string, t: DateTime, after: string)
    ensures Contains(before + IsoString(t) + after)
  {
    IsoStringAccepted(t);
    var s := before + IsoString(t) + after;
    var i := |before|;
    forall k | 0 <= k < |Pattern| ensures Fits(s[i + k], Pattern[k]) {
      assert s[i + k] == IsoString(t)[k];
    }
    assert MatchesAt(s, i);
  }

  /** A timestamp without milliseconds is too short to match. */
  lemma SecondsOnlyRejected()
    ensures !Contains("2014-10-02T15:30:00Z")
  {
  }

  /** The separator before the milliseconds must be a dot. */
  lemma CommaSeparatorRejected()
    ensures !Contains("2014-10-02T15:30:00,250Z")
  {
    var s := "2014-10-02T15:30:00,250Z";
    forall i: nat | i + |Pattern| <= |s| ensures !MatchesAt(s, i) {
      assert i == 0;
      assert !Fits(s[19], Pattern[19]);
    }
  }
}
