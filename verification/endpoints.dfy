/**
 * The five service endpoints `APIClient.__init__` derives from the base url
 * by appending fixed suffixes; the realtime one is then passed through
 * `str.replace("http", "ws")`, which rewrites every occurrence of `http`,
 * not only the scheme.
 */
module Endpoints {
  import opened Wrappers

  const RestSuffix: string := "/rest/v1"
  const RealtimeSuffix: string := "/realtime/v1"
  const AuthSuffix: string := "/auth/v1"
  const StorageSuffix: string := "/storage/v1"
  const FunctionsSuffix: string := "/functions/v1"

  datatype EndpointSet = EndpointSet(
    rest: string, realtime: string, auth: string, storage: string, functions: string)

  /**
   * `s.replace(pat, sub)` for a non-empty `pat`: scans left to right and
   * replaces non-overlapping occurrences.
   */
  function ReplaceAll(s: string, pat: string, sub: string): (r: string)
    requires pat != []
    decreases |s|
  {
    if |s| < |pat| then s
    else if s[..|pat|] == pat then sub + ReplaceAll(s[|pat|..], pat, sub)
    else [s[0]] + ReplaceAll(s[1..], pat, sub)
  }

  function DeriveEndpoints(url: string): EndpointSet {
    EndpointSet(
      url + RestSuffix,
      ReplaceAll(url + RealtimeSuffix, "http", "ws"),
      url + AuthSuffix,
      url + StorageSuffix,
      url + FunctionsSuffix)
  }

  /** The base url an endpoint was built from, if it ends with `suffix`. */
  function BaseOf(endpoint: string, suffix: string): (base: Option<string>)
    ensures base.Some? ==> base.value + suffix == endpoint
  {
    if |suffix| <= |endpoint| && endpoint[|endpoint| - |suffix|..] == suffix then
      Some(endpoint[..|endpoint| - |suffix|])
    else None
  }

  // ------------------------------------------------------------- ReplaceAll

  /** A string in which the first character of `pat` never appears is left as it is. */
  lemma {:induction false} ReplaceAllWithout(s: string, pat: string, sub: string)
    requires pat != [] && pat[0] !in s
    ensures ReplaceAll(s, pat, sub) == s
  {
    if |s| >= |pat| {
      assert s[0] != pat[0];
      ReplaceAllWithout(s[1..], pat, sub);
    }
  }

  /** Under the seam condition of `ReplaceAllAppend`, no occurrence of `pat` starts inside `a` and ends inside `b`. */
  lemma NoStraddle(a: string, b: string, pat: string)
    requires 0 < |a| < |pat| <= |a + b|
    requires a[|a| - 1] !in pat || (b != [] && b[0] !in pat)
    ensures (a + b)[..|pat|] != pat
  {
    var c := (a + b)[..|pat|];
    if a[|a| - 1] !in pat {
      assert c[|a| - 1] == a[|a| - 1] && c[|a| - 1] in c;
    } else {
      assert c[|a|] == b[0] && c[|a|] in c;
    }
  }

  /**
   * Replacing commutes with concatenation when no occurrence can straddle
   * the seam: the last character of `a` or the first of `b` is not in `pat`.
   */
  lemma {:induction false} ReplaceAllAppend(a: string, b: string, pat: string, sub: string)
    requires pat != []
    requires a == [] || a[|a| - 1] !in pat || (b != [] && b[0] !in pat)
    ensures ReplaceAll(a + b, pat, sub) == ReplaceAll(a, pat, sub) + ReplaceAll(b, pat, sub)
    decreases |a|, 1
  {
    if a == [] {
      assert a + b == b;
    } else if |a + b| < |pat| {
      assert ReplaceAll(a, pat, sub) == a && ReplaceAll(b, pat, sub) == b;
    } else if |a| >= |pat| && a[..|pat|] == pat {
      ReplaceAllAppendAtMatch(a, b, pat, sub);
    } else {
      ReplaceAllAppendPastChar(a, b, pat, sub);
    }
  }

  /** `ReplaceAllAppend` when `a` starts with an occurrence. */
  lemma {:induction false} ReplaceAllAppendAtMatch(a: string, b: string, pat: string, sub: string)
    requires pat != [] && |a| >= |pat| && a[..|pat|] == pat
    requires a[|a| - 1] !in pat || (b != [] && b[0] !in pat)
    ensures ReplaceAll(a + b, pat, sub) == ReplaceAll(a, pat, sub) + ReplaceAll(b, pat, sub)
    decreases |a|, 0
  {
    var n := |pat|;
    var rest := a[n..];
    assert ReplaceAll(a + b, pat, sub) == sub + ReplaceAll(rest + b, pat, sub) by {
      assert (a + b)[..n] == pat;
      assert (a + b)[n..] == rest + b;
    }
    assert rest == [] || rest[|rest| - 1] == a[|a| - 1];
    ReplaceAllAppend(rest, b, pat, sub);
  }

  /** A string that does not start with an occurrence keeps its first character. */
  lemma ReplaceAllKeepsFirst(s: string, pat: string, sub: string)
    requires pat != [] && s != [] && !(|s| >= |pat| && s[..|pat|] == pat)
    ensures ReplaceAll(s, pat, sub) == [s[0]] + ReplaceAll(s[1..], pat, sub)
  {
    if |s| < |pat| {
      assert ReplaceAll(s[1..], pat, sub) == s[1..];
    }
  }

  /** Under the seam condition, `a + b` starts with an occurrence only if `a` does. */
  lemma NoMatchAtStartOfAppend(a: string, b: string, pat: string)
    requires pat != [] && a != [] && !(|a| >= |pat| && a[..|pat|] == pat)
    requires a[|a| - 1] !in pat || (b != [] && b[0] !in pat)
    ensures !(|a + b| >= |pat| && (a + b)[..|pat|] == pat)
  {
    if |a + b| >= |pat| {
      if |a| < |pat| {
        NoStraddle(a, b, pat);
      } else {
        assert (a + b)[..|pat|] == a[..|pat|];
      }
    }
  }

  /** `ReplaceAllAppend` when `a` does not start with an occurrence. */
  lemma {:induction false} ReplaceAllAppendPastChar(a: string, b: string, pat: string, sub: string)
    requires pat != [] && a != [] && !(|a| >= |pat| && a[..|pat|] == pat)
    requires a[|a| - 1] !in pat || (b != [] && b[0] !in pat)
    ensures ReplaceAll(a + b, pat, sub) == ReplaceAll(a, pat, sub) + ReplaceAll(b, pat, sub)
    decreases |a|, 0
  {
    var tail := a[1..];
    NoMatchAtStartOfAppend(a, b, pat);
    assert (a + b)[0] == a[0] && (a + b)[1..] == tail + b;
    assert tail == [] || tail[|tail| - 1] == a[|a| - 1];
    calc {
      ReplaceAll(a + b, pat, sub);
      { ReplaceAllKeepsFirst(a + b, pat, sub); }
      [a[0]] + ReplaceAll(tail + b, pat, sub);
      { ReplaceAllAppend(tail, b, pat, sub); }
      [a[0]] + (ReplaceAll(tail, pat, sub) + ReplaceAll(b, pat, sub));
      { ReplaceAllKeepsFirst(a, pat, sub); }
      ReplaceAll(a, pat, sub) + ReplaceAll(b, pat, sub);
    }
  }

  // ------------------------------------------------------------ properties

  /** Stripping its fixed suffix from each plain endpoint gives back the base url. */
  lemma EndpointsRecoverBase(url: string)
    ensures BaseOf(DeriveEndpoints(url).rest, RestSuffix) == Some(url)
    ensures BaseOf(DeriveEndpoints(url).auth, AuthSuffix) == Some(url)
    ensures BaseOf(DeriveEndpoints(url).storage, StorageSuffix) == Some(url)
    ensures BaseOf(DeriveEndpoints(url).functions, FunctionsSuffix) == Some(url)
  {
    var e := DeriveEndpoints(url);
    assert e.rest[..|url|] == url && e.rest[|url|..] == RestSuffix;
    assert e.auth[..|url|] == url && e.auth[|url|..] == AuthSuffix;
    assert e.storage[..|url|] == url && e.storage[|url|..] == StorageSuffix;
    assert e.functions[..|url|] == url && e.functions[|url|..] == FunctionsSuffix;
  }

  /** The plain endpoints of one base url are pairwise different. */
  lemma EndpointsDistinct(url: string)
    ensures var e := DeriveEndpoints(url);
            e.rest != e.auth && e.rest != e.storage && e.rest != e.functions &&
            e.auth != e.storage && e.auth != e.functions && e.storage != e.functions
  {
    var e := DeriveEndpoints(url);
    var i := |url| + 1;
    assert e.rest[i] == 'r' && e.auth[i] == 'a' && e.storage[i] == 's' && e.functions[i] == 'f';
  }

  /** An occurrence at the start is replaced and the scan resumes after it. */
  lemma ReplaceAllAtStart(s: string, pat: string, sub: string)
    requires pat != []
    ensures ReplaceAll(pat + s, pat, sub) == sub + ReplaceAll(s, pat, sub)
  {
    assert (pat + s)[..|pat|] == pat && (pat + s)[|pat|..] == s;
  }

  /**
   * Replacing in `pat + sep + host + suffix`, where `sep` and `suffix` cannot
   * touch an occurrence, rewrites the leading `pat` and the host only.
   */
  lemma ReplaceAllAround(pat: string, sub: string, sep: string, host: string, suffix: string)
    requires pat != [] && sep != [] && suffix != []
    requires pat[0] !in sep && sep[|sep| - 1] !in pat
    requires pat[0] !in suffix && suffix[0] !in pat
    ensures ReplaceAll(pat + sep + host + suffix, pat, sub)
         == sub + sep + ReplaceAll(host, pat, sub) + suffix
  {
    var after := host + suffix;
    calc {
      ReplaceAll(pat + sep + host + suffix, pat, sub);
      { assert pat + sep + host + suffix == pat + (sep + after); }
      ReplaceAll(pat + (sep + after), pat, sub);
      { ReplaceAllAtStart(sep + after, pat, sub); }
      sub + ReplaceAll(sep + after, pat, sub);
      { ReplaceAllAppend(sep, after, pat, sub);
        ReplaceAllWithout(sep, pat, sub); }
      sub + (sep + ReplaceAll(after, pat, sub));
      { ReplaceAllAppend(host, suffix, pat, sub);
        ReplaceAllWithout(suffix, pat, sub); }
      sub + (sep + (ReplaceAll(host, pat, sub) + suffix));
      sub + sep + ReplaceAll(host, pat, sub) + suffix;
    }
  }

  /**
   * The realtime endpoint of `scheme://host` is `ws://` or `wss://`, then
   * the host with every `http` in it turned into `ws`, then the suffix.
   */
  lemma RealtimeEndpoint(scheme: string, host: string)
    requires scheme == "http" || scheme == "https"
    ensures DeriveEndpoints(scheme + "://" + host).realtime
         == (if scheme == "https" then "wss://" else "ws://") + ReplaceAll(host, "http", "ws") + RealtimeSuffix
  {
    var sep := if scheme == "https" then "s://" else "://";
    assert scheme + "://" + host + RealtimeSuffix == "http" + sep + host + RealtimeSuffix;
    ReplaceAllAround("http", "ws", sep, host, RealtimeSuffix);
  }

  /** Only the scheme changes for a host without an `h` in it. */
  lemma RealtimeOfPlainHost(host: string)
    requires 'h' !in host
    ensures DeriveEndpoints("https://" + host).realtime == "wss://" + host + RealtimeSuffix
    ensures DeriveEndpoints("http://" + host).realtime == "ws://" + host + RealtimeSuffix
  {
    ReplaceAllWithout(host, "http", "ws");
    assert "https" + "://" + host == "https://" + host;
    RealtimeEndpoint("https", host);
    assert "http" + "://" + host == "http://" + host;
    RealtimeEndpoint("http", host);
  }

  /**
   * The replacement is global: an `http` inside the host is rewritten as
   * well, so `https://httpbin.org` gets `wss://wsbin.org/realtime/v1`.
   */
  lemma RealtimeRewritesHost(rest: string)
    requires 'h' !in rest
    ensures DeriveEndpoints("https://http" + rest).realtime == "wss://ws" + rest + RealtimeSuffix
  {
    var host := "http" + rest;
    ReplaceAllAtStart(rest, "http", "ws");
    ReplaceAllWithout(rest, "http", "ws");
    assert "https" + "://" + host == "https://http" + rest;
    RealtimeEndpoint("https", host);
  }
}
