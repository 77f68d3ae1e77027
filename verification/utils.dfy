/** The `Utils` helpers of the client: the property check every facade
    operation runs on its object arguments, the stream-name check, and
    `formatURL`, which splices percent-encoded arguments into a path
    template. */
module Utils {
  import opened Wrappers
  import opened JsValue
  import opened Errors
  import opened UriEncoding

  // ---------------------------------------------------------------------
  // checkObjectHasProperties

  /** Own property `name` is present and holds neither `undefined` nor `null`. */
  predicate HasUsable(props: seq<Property>, name: string) {
    match Get(props, name)
    case None => false
    case Some(v) => !v.Undefined? && !v.Null?
  }

  /** The first name of `required` that `props` lacks, as a failure. */
  function FirstMissing(props: seq<Property>, required: seq<string>): (r: Outcome<Error>)
    ensures r.Pass? <==> forall i :: 0 <= i < |required| ==> HasUsable(props, required[i])
    ensures r.Fail? ==> exists i :: 0 <= i < |required| && r.error == MissingProperty(required[i])
                                    && !HasUsable(props, required[i])
                                    && forall j :: 0 <= j < i ==> HasUsable(props, required[j])
  {
    if |required| == 0 then Pass
    else if !HasUsable(props, required[0]) then Fail(MissingProperty(required[0]))
    else
      var r := FirstMissing(props, required[1..]);
      assert r.Fail? ==> exists i :: 0 <= i < |required| && r.error == MissingProperty(required[i])
                                     && !HasUsable(props, required[i])
                                     && forall j :: 0 <= j < i ==> HasUsable(props, required[j]) by {
        if r.Fail? {
          var i :| 0 <= i < |required[1..]| && r.error == MissingProperty(required[1..][i])
                   && !HasUsable(props, required[1..][i])
                   && forall j :: 0 <= j < i ==> HasUsable(props, required[1..][j]);
          assert forall j :: 0 <= j < i + 1 ==> HasUsable(props, required[j]) by {
            forall j | 0 <= j < i + 1 ensures HasUsable(props, required[j]) {
              if j > 0 { assert required[j] == required[1..][j - 1]; }
            }
          }
        }
      }
      assert (forall i :: 0 <= i < |required| ==> HasUsable(props, required[i])) <==> r.Pass? by {
        if r.Pass? {
          forall i | 0 <= i < |required| ensures HasUsable(props, required[i]) {
            if i > 0 { assert required[i] == required[1..][i - 1]; }
          }
        }
      }
      r
  }

  /** `Utils.checkObjectHasProperties(obj, required)`: passes exactly when
      `obj` is a plain object holding a usable value under every required
      name; otherwise it fails on the first thing wrong, in order. */
  function CheckObjectHasProperties(obj: Value, required: seq<string>): (r: Outcome<Error>)
    ensures r.Pass? <==> obj.Obj? && forall i :: 0 <= i < |required| ==> HasUsable(obj.props, required[i])
    ensures !obj.Obj? ==> r == Fail(NotAnObject(obj))
    ensures obj.Obj? && r.Fail? ==>
              exists i :: 0 <= i < |required| && r.error == MissingProperty(required[i])
                          && !HasUsable(obj.props, required[i])
                          && forall j :: 0 <= j < i ==> HasUsable(obj.props, required[j])
  {
    if !IsObj(obj) then Fail(NotAnObject(obj)) else FirstMissing(obj.props, required)
  }

  /** `values.forEach(v => checkObjectHasProperties(v, required))`: the
      first element that fails decides the error. */
  function CheckEach(values: seq<Value>, required: seq<string>): (r: Outcome<Error>)
    ensures r.Pass? <==> forall i :: 0 <= i < |values| ==> CheckObjectHasProperties(values[i], required).Pass?
    ensures r.Fail? ==> exists i :: 0 <= i < |values| && r == CheckObjectHasProperties(values[i], required)
                                    && forall j :: 0 <= j < i ==> CheckObjectHasProperties(values[j], required).Pass?
  {
    if |values| == 0 then Pass
    else
      var first := CheckObjectHasProperties(values[0], required);
      if first.Fail? then first
      else
        var r := CheckEach(values[1..], required);
        assert r.Fail? ==> exists i :: 0 <= i < |values| && r == CheckObjectHasProperties(values[i], required)
                                       && forall j :: 0 <= j < i ==> CheckObjectHasProperties(values[j], required).Pass? by {
          if r.Fail? {
            var i :| 0 <= i < |values[1..]| && r == CheckObjectHasProperties(values[1..][i], required)
                     && forall j :: 0 <= j < i ==> CheckObjectHasProperties(values[1..][j], required).Pass?;
            forall j | 0 <= j < i + 1 ensures CheckObjectHasProperties(values[j], required).Pass? {
              if j > 0 { assert values[j] == values[1..][j - 1]; }
            }
          }
        }
        assert r.Pass? ==> forall i :: 0 <= i < |values| ==> CheckObjectHasProperties(values[i], required).Pass? by {
          if r.Pass? {
            forall i | 0 <= i < |values| ensures CheckObjectHasProperties(values[i], required).Pass? {
              if i > 0 { assert values[i] == values[1..][i - 1]; }
            }
          }
        }
        r
  }

  // ---------------------------------------------------------------------
  // Stream names

  /** `s.indexOf(c)`: the first position of `c` in `s`, or -1. */
  function IndexOf(s: string, c: char): (r: int)
    ensures -1 <= r < |s|
    ensures r >= 0 ==> s[r] == c && c !in s[..r]
    ensures r < 0 <==> c !in s
  {
    if |s| == 0 then -1
    else if s[0] == c then 0
    else
      var k := IndexOf(s[1..], c);
      assert s[1..] == s[..|s|][1..];
      if k < 0 then (assert s == [s[0]] + s[1..]; -1)
      else (assert s[..k + 1] == [s[0]] + s[1..][..k]; k + 1)
  }

  /** A stream name the facades accept: a string without a space. */
  predicate IsStreamName(name: Value) {
    name.Str? && ' ' !in name.s
  }

  /** The stream-name guard `!isString(name) || name.indexOf(' ') >= 0`:
      rejects exactly the non-strings and the strings containing a space. */
  function StreamNameRejected(name: Value): (r: bool)
    ensures r <==> !IsStreamName(name)
  {
    !IsString(name) || IndexOf(name.s, ' ') >= 0
  }

  // ---------------------------------------------------------------------
  // formatURL

  predicate IsDigit(c: char) {
    '0' <= c <= '9'
  }

  predicate AllDigits(d: string) {
    forall i :: 0 <= i < |d| ==> IsDigit(d[i])
  }

  /** Length of the run of decimal digits at the front of `s`. */
  function DigitRun(s: string): (k: nat)
    ensures k <= |s| && AllDigits(s[..k])
    ensures k < |s| ==> !IsDigit(s[k])
  {
    if |s| == 0 || !IsDigit(s[0]) then 0
    else
      var k := DigitRun(s[1..]);
      assert s[..k + 1] == [s[0]] + s[1..][..k];
      k + 1
  }

  lemma {:induction false} DigitRunOf(d: string, rest: string)
    requires AllDigits(d)
    requires |rest| > 0 && !IsDigit(rest[0])
    ensures DigitRun(d + rest) == |d|
  {
    if |d| > 0 {
      assert (d + rest)[1..] == d[1..] + rest;
      DigitRunOf(d[1..], rest);
    }
  }

  /** `t` starts with `{`, `k` decimal digits and `}`: a match of the
      regular expression `\{(\d+)\}`. */
  predicate PlaceholderOfLength(t: string, k: nat) {
    && k > 0
    && k + 2 <= |t|
    && t[0] == '{'
    && AllDigits(t[1..k + 1])
    && t[k + 1] == '}'
  }

  /** The number of digits of the placeholder at the front of `t`, or 0
      when the regular expression does not match there. */
  function PlaceholderAt(t: string): (k: nat)
    ensures k > 0 ==> PlaceholderOfLength(t, k)
  {
    if |t| == 0 || t[0] != '{' then 0
    else
      var k := DigitRun(t[1..]);
      assert t[1..k + 1] == t[1..][..k];
      if k > 0 && k + 1 < |t| && t[k + 1] == '}' then k else 0
  }

  /** Whenever the regular expression matches at the front of `t`, the
      scanner finds exactly that match. */
  lemma PlaceholderAtFindsMatch(t: string, k: nat)
    requires PlaceholderOfLength(t, k)
    ensures PlaceholderAt(t) == k
  {
    assert t[1..] == t[1..k + 1] + t[k + 1..];
    DigitRunOf(t[1..k + 1], t[k + 1..]);
  }

  /** Numeric value of a string of decimal digits. */
  function DigitsValue(d: string): nat
    requires AllDigits(d)
  {
    if |d| == 0 then 0 else DigitsValue(d[..|d| - 1]) * 10 + (d[|d| - 1] as int - '0' as int)
  }

  /** `args[d]` on the `arguments` object: only a canonical index (no
      leading zero) below the argument count names an argument. */
  function Argument(arguments: seq<Value>, d: string): Value {
    if |d| == 0 || !AllDigits(d) || (|d| > 1 && d[0] == '0') then Undefined
    else if DigitsValue(d) < |arguments| then arguments[DigitsValue(d)]
    else Undefined
  }

  /** The text that replaces the match `{d}`: the encoded argument when it
      is defined, the match itself otherwise. */
  function Substitution(arguments: seq<Value>, d: string): string {
    Filled(Argument(arguments, d), d)
  }

  /** The replacement function `formatURL` hands to `replace`. */
  function Substitutions(arguments: seq<Value>): string -> string {
    d => Substitution(arguments, d)
  }

  /** What placeholder `{d}` becomes when argument `a` fills it. */
  function Filled(a: Value, d: string): string {
    if a.Undefined? then "{" + d + "}" else Encode(ToStr(a))
  }

  lemma FilledString(s: string, d: string)
    ensures Filled(Str(s), d) == Encode(s)
  {
  }

  lemma FilledIfString(a: Value, d: string)
    ensures a.Str? ==> Filled(a, d) == Encode(a.s)
  {
  }

  /** A character that neither the encoder nor a placeholder can produce:
      path separators, query delimiters, spaces and the like. */
  predicate IsStructural(c: char) {
    !IsEncodedChar(c) && c != '{' && c != '}'
  }

  /** The global `replace` of `\{(\d+)\}` over `t`, scanning left to
      right: each match `{d}` becomes `subst(d)`, every other character is
      copied. */
  function Replace(t: string, subst: string -> string): string
    decreases |t|
  {
    if |t| == 0 then ""
    else
      var k := PlaceholderAt(t);
      if k > 0 then subst(t[1..k + 1]) + Replace(t[k + 2..], subst)
      else [t[0]] + Replace(t[1..], subst)
  }

  /** `s` holds no structural character. */
  predicate NoStructural(s: string) {
    forall i :: 0 <= i < |s| ==> !IsStructural(s[i])
  }

  lemma NoStructuralCount(s: string, c: char)
    requires NoStructural(s) && IsStructural(c)
    ensures multiset(s)[c] == 0
  {
    assert c !in s;
  }

  /** The matched text `{digits}` holds no structural character. */
  lemma PlaceholderNotStructural(t: string, k: nat)
    requires PlaceholderOfLength(t, k)
    ensures NoStructural(t[..k + 2])
  {
    var m := t[..k + 2];
    forall i | 0 <= i < |m| ensures !IsStructural(m[i]) {
      if 0 < i < k + 1 {
        assert m[i] == t[1..k + 1][i - 1];
      }
    }
  }

  /** One placeholder step of `ReplaceKeepsStructure`. */
  lemma PlaceholderKeepsStructure(t: string, arguments: seq<Value>, c: char, k: nat)
    requires IsStructural(c) && |t| > 0 && k == PlaceholderAt(t) && k > 0
    requires multiset(Replace(t[k + 2..], Substitutions(arguments)))[c] == multiset(t[k + 2..])[c]
    ensures multiset(Replace(t, Substitutions(arguments)))[c] == multiset(t)[c]
  {
    var subst := Substitutions(arguments);
    ReplaceAtPlaceholder(t, subst, k);
    var d := t[1..k + 1];
    SubstitutionNotStructural(arguments, d);
    NoStructuralCount(subst(d), c);
    PlaceholderNotStructural(t, k);
    NoStructuralCount(t[..k + 2], c);
    SplitAt(t, k + 2);
    CountsAdd(subst(d), Replace(t[k + 2..], subst), t[..k + 2], t[k + 2..], c);
  }

  /** `Replace` on a text that starts with a placeholder. */
  lemma ReplaceAtPlaceholder(t: string, subst: string -> string, k: nat)
    requires |t| > 0 && k == PlaceholderAt(t) && k > 0
    ensures Replace(t, subst) == subst(t[1..k + 1]) + Replace(t[k + 2..], subst)
  {
  }

  lemma SplitAt(t: string, n: nat)
    requires n <= |t|
    ensures t == t[..n] + t[n..]
  {
  }

  /** Prefixes without `c` in front of suffixes with equally many. */
  lemma CountsAdd(x: string, y: string, p: string, q: string, c: char)
    requires multiset(x)[c] == 0 && multiset(p)[c] == 0 && multiset(y)[c] == multiset(q)[c]
    ensures multiset(x + y)[c] == multiset(p + q)[c]
  {
    assert multiset(x + y) == multiset(x) + multiset(y);
    assert multiset(p + q) == multiset(p) + multiset(q);
  }

  /** With a safe replacement function, every structural character occurs
      as often in the result as in the template. */
  lemma {:induction false} ReplaceKeepsStructure(t: string, arguments: seq<Value>, c: char)
    requires IsStructural(c)
    ensures multiset(Replace(t, Substitutions(arguments)))[c] == multiset(t)[c]
    decreases |t|
  {
    if |t| > 0 {
      var k := PlaceholderAt(t);
      if k > 0 {
        ReplaceKeepsStructure(t[k + 2..], arguments, c);
        PlaceholderKeepsStructure(t, arguments, c, k);
      } else {
        ReplaceKeepsStructure(t[1..], arguments, c);
        assert Replace(t, Substitutions(arguments)) == [t[0]] + Replace(t[1..], Substitutions(arguments));
        assert t == [t[0]] + t[1..];
      }
    }
  }

  /** `Utils.formatURL(template, args...)`: `arguments[0]` is the template
      itself, so `{0}` stands for the template and `{1}`, `{2}`, ... for
      the arguments after it. */
  function FormatURL(template: string, args: seq<Value>): string {
    Replace(template, Substitutions([Str(template)] + args))
  }

  /** A template without placeholders is returned unchanged. */
  lemma FormatVerbatim(template: string, args: seq<Value>)
    requires '{' !in template
    ensures FormatURL(template, args) == template
  {
    ReplaceVerbatim(template, Substitutions([Str(template)] + args));
  }

  /** The substitution of `formatURL` is safe: an encoded argument holds
      only unreserved characters and `%`, an unfilled one is `{digits}`. */
  lemma SubstitutionNotStructural(arguments: seq<Value>, d: string)
    requires AllDigits(d)
    ensures NoStructural(Substitutions(arguments)(d))
  {
    var r := Substitution(arguments, d);
    if Argument(arguments, d).Undefined? {
      assert r == "{" + d + "}";
      forall i | 0 < i < |d| + 1 ensures !IsStructural(r[i]) {
        assert r[i] == d[i - 1];
      }
    }
  }

  /** The path `formatURL` builds has exactly the separators and delimiters
      of its template, whatever the arguments. */
  lemma FormatKeepsStructure(template: string, args: seq<Value>, c: char)
    requires IsStructural(c)
    ensures multiset(FormatURL(template, args))[c] == multiset(template)[c]
  {
    ReplaceKeepsStructure(template, [Str(template)] + args, c);
  }

  // ---------------------------------------------------------------------
  // Lemmas about formatURL

  /** Text before the first `{` is copied to the output as it stands. */
  lemma {:induction false} ReplaceLiteralPrefix(p: string, t: string, subst: string -> string)
    requires '{' !in p
    ensures Replace(p + t, subst) == p + Replace(t, subst)
  {
    if |p| == 0 {
      assert p + t == t;
    } else {
      var s := p + t;
      assert s[0] == p[0] && p[0] != '{';
      assert PlaceholderAt(s) == 0;
      assert Replace(s, subst) == [s[0]] + Replace(s[1..], subst);
      assert s[1..] == p[1..] + t;
      assert '{' !in p[1..];
      ReplaceLiteralPrefix(p[1..], t, subst);
      assert p == [p[0]] + p[1..];
    }
  }

  /** Text without a `{` comes back unchanged. */
  lemma ReplaceVerbatim(t: string, subst: string -> string)
    requires '{' !in t
    ensures Replace(t, subst) == t
  {
    ReplaceLiteralPrefix(t, "", subst);
    assert t + "" == t;
  }

  /** A placeholder `{d}` at the front is replaced by `subst(d)`. */
  lemma ReplacePlaceholder(d: string, t: string, subst: string -> string)
    requires |d| > 0 && AllDigits(d)
    ensures Replace("{" + d + "}" + t, subst) == subst(d) + Replace(t, subst)
  {
    var s := "{" + d + "}" + t;
    assert s[1..] == d + ("}" + t);
    DigitRunOf(d, "}" + t);
    assert s[1..|d| + 1] == d;
    assert s[|d| + 2..] == t;
  }

  /** A one-digit placeholder `{n}` names argument `n`. */
  lemma SubstitutionOfDigit(arguments: seq<Value>, n: nat, d: string)
    requires n < 10 && n < |arguments| && d == [DigitChar(n)]
    ensures Substitutions(arguments)(d) == Filled(arguments[n], d)
  {
    assert d[..0] == "";
    assert DigitsValue(d) == n;
  }

  /** `{d}` followed by literal text `post` renders as `subst(d)` and `post`. */
  lemma ReplaceTail(d: string, post: string, subst: string -> string)
    requires |d| > 0 && AllDigits(d) && '{' !in post
    ensures Replace("{" + d + "}" + post, subst) == subst(d) + post
  {
    ReplacePlaceholder(d, post, subst);
    ReplaceVerbatim(post, subst);
  }

  /** `formatURL` on a template with one placeholder `{1}`, before the
      substitution is worked out. */
  lemma FormatOneRaw(pre: string, post: string, a: Value)
    requires '{' !in pre && '{' !in post
    ensures FormatURL(pre + "{1}" + post, [a]) == pre + Substitutions([Str(pre + "{1}" + post)] + [a])("1") + post
  {
    var subst := Substitutions([Str(pre + "{1}" + post)] + [a]);
    TemplateOneShape(pre, post);
    ReplaceLiteralThenTail(pre, "1", post, subst);
    AssociateStrings(pre, subst("1"), post);
  }

  lemma TemplateOneShape(pre: string, post: string)
    ensures pre + "{1}" + post == pre + ("{" + "1" + "}" + post)
  {
  }

  lemma AssociateStrings(a: string, b: string, c: string)
    ensures a + (b + c) == a + b + c
  {
  }

  /** Literal text, one placeholder, literal text. */
  lemma ReplaceLiteralThenTail(pre: string, d: string, post: string, subst: string -> string)
    requires |d| > 0 && AllDigits(d) && '{' !in pre && '{' !in post
    ensures Replace(pre + ("{" + d + "}" + post), subst) == pre + (subst(d) + post)
  {
    ReplaceTail(d, post, subst);
    ReplaceLiteralPrefix(pre, "{" + d + "}" + post, subst);
  }

  /** A template with one placeholder `{1}`: the path is the literal text
      around the placeholder with the encoded argument in between. */
  lemma FormatOne(pre: string, post: string, a: Value)
    requires '{' !in pre && '{' !in post
    ensures FormatURL(pre + "{1}" + post, [a]) == pre + Filled(a, "1") + post
  {
    FormatOneRaw(pre, post, a);
    SubstitutionOfFirst(pre + "{1}" + post, [a]);
  }

  /** `formatURL` on a template with placeholders `{1}` and `{2}`, before
      the substitutions are worked out. */
  lemma FormatTwoRaw(pre: string, mid: string, post: string, a: Value, b: Value)
    requires '{' !in pre && '{' !in mid && '{' !in post
    ensures var subst := Substitutions([Str(pre + "{1}" + mid + "{2}" + post)] + [a, b]);
            FormatURL(pre + "{1}" + mid + "{2}" + post, [a, b]) == pre + subst("1") + mid + subst("2") + post
  {
    var subst := Substitutions([Str(pre + "{1}" + mid + "{2}" + post)] + [a, b]);
    TemplateTwoShape(pre, mid, post);
    ReplaceTwo(pre, "1", mid, "2", post, subst);
  }

  lemma TemplateTwoShape(pre: string, mid: string, post: string)
    ensures pre + "{1}" + mid + "{2}" + post == pre + ("{" + "1" + "}" + (mid + ("{" + "2" + "}" + post)))
  {
  }

  /** Literal text, placeholder `{d1}`, literal text, placeholder `{d2}`,
      literal text. */
  lemma ReplaceTwo(pre: string, d1: string, mid: string, d2: string, post: string, subst: string -> string)
    requires |d1| > 0 && AllDigits(d1) && |d2| > 0 && AllDigits(d2)
    requires '{' !in pre && '{' !in mid && '{' !in post
    ensures Replace(pre + ("{" + d1 + "}" + (mid + ("{" + d2 + "}" + post))), subst) == pre + subst(d1) + mid + subst(d2) + post
  {
    var tail2 := mid + ("{" + d2 + "}" + post);
    ReplaceLiteralThenTail(mid, d2, post, subst);
    ReplacePlaceholder(d1, tail2, subst);
    ReplaceLiteralPrefix(pre, "{" + d1 + "}" + tail2, subst);
    ConcatFive(pre, subst(d1), mid, subst(d2), post);
  }

  lemma ConcatFive(a: string, b: string, c: string, d: string, e: string)
    ensures a + (b + (c + (d + e))) == a + b + c + d + e
  {
  }

  /** A template with placeholders `{1}` and `{2}`: each is filled by its
      own argument, encoded, or left verbatim when that argument is
      `undefined`. */
  lemma FormatTwo(pre: string, mid: string, post: string, a: Value, b: Value)
    requires '{' !in pre && '{' !in mid && '{' !in post
    ensures FormatURL(pre + "{1}" + mid + "{2}" + post, [a, b]) == pre + Filled(a, "1") + mid + Filled(b, "2") + post
  {
    FormatTwoRaw(pre, mid, post, a, b);
    SubstitutionOfFirst(pre + "{1}" + mid + "{2}" + post, [a, b]);
    SubstitutionOfSecond(pre + "{1}" + mid + "{2}" + post, [a, b]);
  }

  /** `{n}` for a one-digit `n` other than 0 names the `n`-th argument
      after the template. */
  lemma SubstitutionOfArgument(template: string, args: seq<Value>, n: nat, d: string)
    requires 1 <= n < 10 && n <= |args| && d == [DigitChar(n)]
    ensures Substitutions([Str(template)] + args)(d) == Filled(args[n - 1], d)
  {
    var arguments := [Str(template)] + args;
    assert arguments[n] == args[n - 1];
    SubstitutionOfDigit(arguments, n, d);
  }

  lemma SubstitutionOfFirst(template: string, args: seq<Value>)
    requires |args| >= 1
    ensures Substitutions([Str(template)] + args)("1") == Filled(args[0], "1")
  {
    SubstitutionOfArgument(template, args, 1, "1");
  }

  lemma SubstitutionOfSecond(template: string, args: seq<Value>)
    requires |args| >= 2
    ensures Substitutions([Str(template)] + args)("2") == Filled(args[1], "2")
  {
    SubstitutionOfArgument(template, args, 2, "2");
  }

  /** `{0}` names the template itself, which is then encoded into the result. */
  lemma PlaceholderZeroIsTemplate(pre: string, post: string)
    requires '{' !in pre && '{' !in post
    ensures FormatURL(pre + "{0}" + post, []) == pre + Encode(pre + "{0}" + post) + post
  {
    FormatZeroRaw(pre, post);
    SubstitutionOfTemplate(pre + "{0}" + post, []);
  }

  lemma FormatZeroRaw(pre: string, post: string)
    requires '{' !in pre && '{' !in post
    ensures FormatURL(pre + "{0}" + post, []) == pre + (Substitutions([Str(pre + "{0}" + post)] + [])("0") + post)
  {
    var template := pre + "{0}" + post;
    assert template == pre + ("{" + "0" + "}" + post);
    ReplaceLiteralThenTail(pre, "0", post, Substitutions([Str(template)] + []));
  }

  lemma SubstitutionOfTemplate(template: string, args: seq<Value>)
    ensures Substitutions([Str(template)] + args)("0") == Encode(template)
  {
    var arguments := [Str(template)] + args;
    DigitZero();
    SubstitutionOfDigit(arguments, 0, "0");
    assert arguments[0] == Str(template);
    FilledString(template, "0");
  }

  lemma DigitZero()
    ensures [DigitChar(0)] == "0"
  {
  }

  /** A placeholder with a leading zero is not an argument index and stays verbatim. */
  lemma LeadingZeroPlaceholderKept(pre: string, post: string, a: Value)
    requires '{' !in pre && '{' !in post
    ensures FormatURL(pre + "{01}" + post, [a]) == pre + "{01}" + post
  {
    var template := pre + "{01}" + post;
    var arguments := [Str(template)] + [a];
    assert template == pre + ("{" + "01" + "}" + post);
    ReplaceLiteralThenTail(pre, "01", post, Substitutions(arguments));
  }
}
