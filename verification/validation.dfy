/**
 * The validation gate at the start of `APIClient.__init__`: the url and the
 * key must be non-empty strings, the url must match `^(https?)://.+` and the
 * key `^[A-Za-z0-9-_=]+\.[A-Za-z0-9-_=]+\.?[A-Za-z0-9-_.+/=]*$` (Python `re`
 * semantics). The two patterns are written as character predicates, and each
 * is proved equal to a reference predicate that follows the pattern's shape.
 */
module Validation {
  import opened Wrappers
  import opened PyValues

  datatype ConfigurationError = ConfigurationError(message: string)

  const UrlRequired: string := "supabase url is required"
  const KeyRequired: string := "supabase key is required"
  const InvalidUrl: string := "Invalid URL"
  const InvalidKey: string := "Invalid API key"

  // ------------------------------------------------------------ alphabets

  /** `[A-Za-z0-9-_=]`: the `-` after the range `0-9` is a literal. */
  predicate IsSegmentChar(c: char) {
    ('A' <= c <= 'Z') || ('a' <= c <= 'z') || ('0' <= c <= '9') || c == '-' || c == '_' || c == '='
  }

  /** `[A-Za-z0-9-_.+/=]`. */
  predicate IsTailChar(c: char) {
    IsSegmentChar(c) || c == '.' || c == '+' || c == '/'
  }

  predicate AllSegmentChars(s: string) {
    forall i :: 0 <= i < |s| ==> IsSegmentChar(s[i])
  }

  predicate AllTailChars(s: string) {
    forall i :: 0 <= i < |s| ==> IsTailChar(s[i])
  }

  // ----------------------------------------------------------------- URL

  /**
   * `re.match(r"^(https?)://.+", u)`: `http`, an optional `s`, `://`, and one
   * more character that is not a newline (`.`); the match is anchored only at
   * the start, so anything may follow.
   */
  predicate UrlMatches(u: string) {
    |u| >= 4 && u[..4] == "http" &&
    var rest := if |u| > 4 && u[4] == 's' then u[5..] else u[4..];
    |rest| > 3 && rest[..3] == "://" && rest[3] != '\n'
  }

  /** `u` reads as `scheme://rest` with an http(s) scheme and a `rest` that starts with a non-newline. */
  ghost predicate IsUrlSplit(u: string, scheme: string, rest: string) {
    && (scheme == "http" || scheme == "https")
    && rest != [] && rest[0] != '\n'
    && u == scheme + "://" + rest
  }

  ghost predicate UrlPattern(u: string) {
    exists scheme, rest :: IsUrlSplit(u, scheme, rest)
  }

  lemma UrlMatchesIff(u: string)
    ensures UrlMatches(u) <==> UrlPattern(u)
  {
    if UrlMatches(u) {
      var scheme := if u[4] == 's' then "https" else "http";
      var rest := u[|scheme| + 3..];
      assert u[..|scheme|] == scheme;
      assert u[|scheme|..|scheme| + 3] == "://";
      assert u == u[..|scheme|] + u[|scheme|..|scheme| + 3] + rest;
      assert IsUrlSplit(u, scheme, rest);
    }
    if UrlPattern(u) {
      var scheme, rest :| IsUrlSplit(u, scheme, rest);
      assert u[..4] == "http";
      if scheme == "https" {
        assert u[4] == 's' && u[5..] == "://" + rest;
      } else {
        assert u[4] == ':' && u[4..] == "://" + rest;
      }
    }
  }

  // ----------------------------------------------------------------- key

  /** Length of the longest prefix of `s` made of segment characters. */
  function SegmentSpan(s: string): (n: nat)
    ensures n <= |s| && AllSegmentChars(s[..n])
    ensures n < |s| ==> !IsSegmentChar(s[n])
  {
    if s != [] && IsSegmentChar(s[0]) then
      var m := SegmentSpan(s[1..]);
      assert s[..1 + m] == [s[0]] + s[1..][..m];
      1 + m
    else 0
  }

  /**
   * The key pattern, read left to right: the first segment runs up to the
   * first dot (a dot is not a segment character), a segment character must
   * follow that dot, and the rest may be any tail characters. The pattern's
   * optional second dot and tail are absorbed by the tail alphabet, which
   * contains the segment alphabet and the dot.
   */
  predicate KeyMatches(k: string) {
    var n := SegmentSpan(k);
    0 < n && n + 1 < |k| && k[n] == '.' && IsSegmentChar(k[n + 1]) && AllTailChars(k[n + 2..])
  }

  /** `k` reads as `first.second` + an optional dot + `tail`, as the pattern spells it. */
  ghost predicate IsKeySplit(k: string, first: string, second: string, dot: string, tail: string) {
    && first != [] && AllSegmentChars(first)
    && second != [] && AllSegmentChars(second)
    && (dot == "" || dot == ".")
    && AllTailChars(tail)
    && k == first + "." + second + dot + tail
  }

  ghost predicate KeyPattern(k: string) {
    exists first, second, dot, tail :: IsKeySplit(k, first, second, dot, tail)
  }

  lemma {:induction false} SegmentSpanStopsAt(p: string, rest: string)
    requires AllSegmentChars(p)
    requires rest != [] && !IsSegmentChar(rest[0])
    ensures SegmentSpan(p + rest) == |p|
  {
    if p != [] {
      assert (p + rest)[1..] == p[1..] + rest;
      SegmentSpanStopsAt(p[1..], rest);
    } else {
      assert p + rest == rest;
    }
  }

  /** Segment characters, the dot and tail characters together form a tail. */
  lemma TailCharsConcat(s: string, dot: string, t: string)
    requires AllSegmentChars(s) && (dot == "" || dot == ".") && AllTailChars(t)
    ensures AllTailChars(s + dot + t)
  {
    var u := s + dot + t;
    forall i | 0 <= i < |u| ensures IsTailChar(u[i]) {
      if i < |s| {
        assert u[i] == s[i];
      } else if i < |s| + |dot| {
        assert u[i] == '.';
      } else {
        assert u[i] == t[i - |s| - |dot|];
      }
    }
  }

  lemma KeyMatchesSplits(k: string)
    requires KeyMatches(k)
    ensures KeyPattern(k)
  {
    var n := SegmentSpan(k);
    var first, second, tail := k[..n], [k[n + 1]], k[n + 2..];
    assert k == first + "." + second + "" + tail;
    assert IsKeySplit(k, first, second, "", tail);
  }

  lemma KeySplitMatches(k: string, first: string, second: string, dot: string, tail: string)
    requires IsKeySplit(k, first, second, dot, tail)
    ensures KeyMatches(k)
  {
    var n := |first|;
    var after := dot + tail;
    var rest := "." + (second + after);
    assert k == first + rest;
    SegmentSpanStopsAt(first, rest);
    assert k[n..] == rest;
    DotThenSegment(k, n, rest, second, after);
    assert AllTailChars(k[n + 2..]) by {
      TailCharsConcat(second[1..], dot, tail);
      assert second[1..] + after == second[1..] + dot + tail;
    }
    KeyMatchesAt(k, n);
  }

  /** The conditions of `KeyMatches`, at the end `n` of the first segment. */
  lemma KeyMatchesAt(k: string, n: nat)
    requires SegmentSpan(k) == n && 0 < n && n + 1 < |k|
    requires k[n] == '.' && IsSegmentChar(k[n + 1]) && AllTailChars(k[n + 2..])
    ensures KeyMatches(k)
  {
  }

  /** Where `k` continues with `.` and a non-empty `second`, the character after the dot is `second`'s first. */
  lemma DotThenSegment(k: string, n: nat, rest: string, second: string, after: string)
    requires n <= |k| && k[n..] == rest && rest == "." + (second + after) && second != []
    ensures n + 1 < |k| && k[n] == '.' && k[n + 1] == second[0]
    ensures k[n + 2..] == second[1..] + after
  {
    assert k[n] == rest[0];
    assert k[n + 1] == rest[1];
    assert k[n + 2..] == rest[2..];
  }

  lemma KeyMatchesIff(k: string)
    ensures KeyMatches(k) <==> KeyPattern(k)
  {
    if KeyMatches(k) {
      KeyMatchesSplits(k);
    }
    if KeyPattern(k) {
      var first, second, dot, tail :| IsKeySplit(k, first, second, dot, tail);
      KeySplitMatches(k, first, second, dot, tail);
    }
  }

  /**
   * `re.match` with the trailing `$`: in Python `$` also matches right
   * before a newline that ends the string, so a well-formed key followed by
   * one "\n" is accepted too.
   */
  predicate KeyAccepted(k: string) {
    KeyMatches(k) || (k != [] && k[|k| - 1] == '\n' && KeyMatches(k[..|k| - 1]))
  }

  ghost predicate KeyAcceptedPattern(k: string) {
    KeyPattern(k) || (k != [] && k[|k| - 1] == '\n' && KeyPattern(k[..|k| - 1]))
  }

  lemma KeyAcceptedIff(k: string)
    ensures KeyAccepted(k) <==> KeyAcceptedPattern(k)
  {
    KeyMatchesIff(k);
    if k != [] {
      KeyMatchesIff(k[..|k| - 1]);
    }
  }

  // ----------------------------------------------------------- the gate

  /** The url and key that passed the gate. */
  datatype Credentials = Credentials(url: string, key: string)

  /**
   * The checks of `APIClient.__init__`, in their order: url present and a
   * string, key present and a string, url well formed, key well formed.
   */
  function Validate(url: PyValue, key: PyValue): (r: Result<Credentials, ConfigurationError>)
    ensures r.Success? <==> url.PyStr? && key.PyStr? && UrlPattern(url.s) && KeyAcceptedPattern(key.s)
    ensures r.Success? ==> r.value == Credentials(url.s, key.s)
    ensures !(url.PyStr? && url.s != "") ==> r == Failure(ConfigurationError(UrlRequired))
    ensures url.PyStr? && url.s != "" && !(key.PyStr? && key.s != "") ==>
              r == Failure(ConfigurationError(KeyRequired))
    ensures url.PyStr? && url.s != "" && key.PyStr? && key.s != "" && !UrlPattern(url.s) ==>
              r == Failure(ConfigurationError(InvalidUrl))
    ensures url.PyStr? && key.PyStr? && key.s != "" && UrlPattern(url.s) && !KeyAcceptedPattern(key.s) ==>
              r == Failure(ConfigurationError(InvalidKey))
  {
    if !(Truthy(url) && url.PyStr?) then Failure(ConfigurationError(UrlRequired))
    else if !(Truthy(key) && key.PyStr?) then Failure(ConfigurationError(KeyRequired))
    else
      UrlMatchesIff(url.s);
      KeyAcceptedIff(key.s);
      if !UrlMatches(url.s) then Failure(ConfigurationError(InvalidUrl))
      else if !KeyAccepted(key.s) then Failure(ConfigurationError(InvalidKey))
      else Success(Credentials(url.s, key.s))
  }

  // ------------------------------------------------------------ examples

  /** Every url of the invalid-construction test is refused, whatever the key. */
  lemma InvalidTestUrlsRefused(key: PyValue)
    ensures Validate(PyStr(""), key) == Failure(ConfigurationError(UrlRequired))
    ensures Validate(PyNone, key) == Failure(ConfigurationError(UrlRequired))
    ensures Validate(PyInt(139), key) == Failure(ConfigurationError(UrlRequired))
    ensures Validate(PyInt(-1), key) == Failure(ConfigurationError(UrlRequired))
    ensures Validate(PyCollection(0), key) == Failure(ConfigurationError(UrlRequired))
  {
  }

  /** The bare word of the invalid-construction test is no url either. */
  lemma BareWordUrlRefused(key: PyValue)
    ensures Validate(PyStr("valeefgpoqwjgpj"), key).Failure?
  {
    assert !UrlMatches("valeefgpoqwjgpj") by {
      assert "valeefgpoqwjgpj"[0] == 'v';
    }
  }

  /** Both schemes are accepted, with anything after `://`. */
  lemma UrlAcceptedExamples(host: string)
    requires host != [] && host[0] != '\n'
    ensures UrlMatches("https://" + host) && UrlMatches("http://" + host)
  {
    UrlMatchesIff("https://" + host);
    assert IsUrlSplit("https://" + host, "https", host);
    UrlMatchesIff("http://" + host);
    assert IsUrlSplit("http://" + host, "http", host);
  }

  /** Nothing after `://`, a newline right after it, or another scheme is refused. */
  lemma UrlRefusedExamples()
    ensures !UrlMatches("https://") && !UrlMatches("https://\nhost") && !UrlMatches("ftp://host")
  {
    assert "ftp://host"[..4] != "http" by {
      assert "ftp://host"[0] == 'f';
    }
  }

  /** Three segments split by dots, as a JWT is, make an accepted key. */
  lemma JwtShapedKeyAccepted(header: string, payload: string, signature: string)
    requires header != [] && payload != [] && AllSegmentChars(header) && AllSegmentChars(payload)
    requires AllSegmentChars(signature)
    ensures KeyAccepted(header + "." + payload + "." + signature)
  {
    TailCharsConcat(signature, "", "");
    assert signature + "" + "" == signature;
    KeySplitMatches(header + "." + payload + "." + signature, header, payload, ".", signature);
  }

  /** `n` copies of `x`. */
  function Xs(n: nat): (s: string)
    ensures |s| == n && AllSegmentChars(s)
  {
    seq(n, _ => 'x')
  }

  /** The sample key of the functions-configuration test: 14, 15 and 15 `x`s split by dots. */
  lemma SampleKeyAccepted()
    ensures KeyAccepted(Xs(14) + "." + Xs(15) + "." + Xs(15))
  {
    JwtShapedKeyAccepted(Xs(14), Xs(15), Xs(15));
  }

  /** Two segments suffice. */
  lemma TwoSegmentKeyAccepted()
    ensures KeyAccepted("ab.cd")
  {
    assert "ab" + "." + "cd" + "" + "" == "ab.cd";
    KeySplitMatches("ab.cd", "ab", "cd", "", "");
  }

  /** Dots, `+` and `/` may recur in the tail. */
  lemma DottedTailKeyAccepted()
    ensures KeyAccepted("a.b.c/d+e.f")
  {
    var tail := "c/d+e.f";
    assert AllTailChars(tail) by {
      assert tail == ['c', '/', 'd', '+', 'e', '.', 'f'];
    }
    assert "a" + "." + "b" + "." + tail == "a.b.c/d+e.f";
    KeySplitMatches("a.b.c/d+e.f", "a", "b", ".", tail);
  }

  /** One final newline is tolerated. */
  lemma NewlineKeyAccepted()
    ensures KeyAccepted("ab.cd\n")
  {
    TwoSegmentKeyAccepted();
    assert "ab.cd\n"[..5] == "ab.cd";
  }

  /** A key without a dot is refused. */
  lemma OneSegmentKeyRefused()
    ensures !KeyAccepted("abcd")
  {
    var n := SegmentSpan("abcd");
    assert n < 4 ==> "abcd"[n] != '.' by {
      assert "abcd" == ['a', 'b', 'c', 'd'];
    }
  }

  /** A key must not start with its dot. */
  lemma EmptyFirstSegmentRefused()
    ensures !KeyAccepted(".ab.cd")
  {
    assert SegmentSpan(".ab.cd") == 0;
  }

  /** A segment character must follow the first dot. */
  lemma EmptySecondSegmentRefused()
    ensures !KeyAccepted("ab..cd")
  {
    assert "ab..cd" == "ab" + "..cd";
    SegmentSpanStopsAt("ab", "..cd");
  }

  /** A character outside the alphabets is refused. */
  lemma ForeignCharacterKeyRefused()
    ensures !KeyAccepted("ab.c d")
  {
    assert "ab.c d" == "ab" + ".c d";
    SegmentSpanStopsAt("ab", ".c d");
    assert "ab.c d"[4..][0] == ' ';
  }

  /** Only one final newline is tolerated. */
  lemma TwoNewlinesKeyRefused()
    ensures !KeyAccepted("ab.cd\n\n")
  {
    assert "ab.cd\n\n" == "ab" + ".cd\n\n";
    SegmentSpanStopsAt("ab", ".cd\n\n");
    assert "ab.cd\n\n"[4..][1] == '\n';
    assert "ab.cd\n\n"[..6] == "ab" + ".cd\n";
    SegmentSpanStopsAt("ab", ".cd\n");
    assert ("ab" + ".cd\n")[4..][1] == '\n';
  }
}
