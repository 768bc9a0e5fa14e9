/** The cookie configuration: its constants, the cookie-mode header test and the
    per-origin cookie name that isolates the frontends sharing this backend. */
module CookieConfig {
  import opened Common
  import opened Js

  const AccessTokenName: string := "access_token"
  const RefreshTokenName: string := "refresh_token"
  /** Header that switches a client into cookie mode. */
  const UseCookiesHeader: string := "x-use-cookies"
  /** Cookie signing is switched off: the JWT inside is already signed. */
  const EnableCookieSigning: bool := false
  /** Lifetimes in milliseconds: 15 minutes and 7 days. */
  const AccessTokenMaxAge: int := 15 * 60 * 1000
  const RefreshTokenMaxAge: int := 7 * 24 * 60 * 60 * 1000
  /** The apex domain, whose frontend is the masters' one. */
  const ApexDomain: string := "lead-schem.ru"

  /** `shouldUseCookies(headers)`: `headers?.['x-use-cookies'] === 'true'`. */
  predicate ShouldUseCookies(headers: Option<map<string, string>>)
  {
    headers.Some? && UseCookiesHeader in headers.value && headers.value[UseCookiesHeader] == "true"
  }

  /** Cookie mode is requested only by the exact, case-sensitive value `true`;
      missing headers, a missing header entry and any other value give false. */
  lemma ShouldUseCookiesExact(headers: Option<map<string, string>>, value: string)
    requires headers.Some? && UseCookiesHeader in headers.value && headers.value[UseCookiesHeader] == value
    ensures ShouldUseCookies(headers) <==> value == "true"
    ensures ShouldUseCookies(None) == false
    ensures ShouldUseCookies(Some(headers.value - {UseCookiesHeader})) == false
  {
  }

  /** `s.split(sep)` for a one-character separator. */
  function Split(s: string, sep: char): (parts: seq<string>)
    ensures |parts| >= 1
    decreases |s|
  {
    if s == [] then [""]
    else if s[0] == sep then [""] + Split(s[1..], sep)
    else
      var rest := Split(s[1..], sep);
      [[s[0]] + rest[0]] + rest[1..]
  }

  /** `parts.join(sep)` for a one-character separator. */
  function JoinWith(parts: seq<string>, sep: char): string
    requires |parts| >= 1
  {
    if |parts| == 1 then parts[0] else parts[0] + [sep] + JoinWith(parts[1..], sep)
  }

  /** The part of `s` before the first `sep` (all of `s` when there is none). */
  function Before(s: string, sep: char): (r: string)
    ensures |r| <= |s| && s[..|r|] == r && sep !in r
    ensures |r| < |s| ==> s[|r|] == sep
    decreases |s|
  {
    if s == [] || s[0] == sep then "" else [s[0]] + Before(s[1..], sep)
  }

  /** Splitting loses nothing: joining the parts gives the string back, and no
      part contains the separator. */
  lemma {:induction false} SplitJoin(s: string, sep: char)
    ensures JoinWith(Split(s, sep), sep) == s
    ensures forall i :: 0 <= i < |Split(s, sep)| ==> sep !in Split(s, sep)[i]
    decreases |s|
  {
    if s != [] {
      SplitJoin(s[1..], sep);
      var rest := Split(s[1..], sep);
      if s[0] == sep {
        assert Split(s, sep)[1..] == rest;
      } else {
        var parts := Split(s, sep);
        assert parts[1..] == rest[1..];
        if |rest| > 1 {
          assert JoinWith(rest, sep) == rest[0] + [sep] + JoinWith(rest[1..], sep);
          assert JoinWith(parts, sep) == ([s[0]] + rest[0]) + [sep] + JoinWith(rest[1..], sep);
        }
        assert s == [s[0]] + s[1..];
        assert forall i :: 1 <= i < |parts| ==> parts[i] == rest[i];
      }
    }
  }

  /** There are at least two parts exactly when the separator occurs, and the
      first part is what precedes its first occurrence. */
  lemma {:induction false} SplitShape(s: string, sep: char)
    ensures |Split(s, sep)| >= 2 <==> sep in s
    ensures Split(s, sep)[0] == Before(s, sep)
    decreases |s|
  {
    if s != [] {
      SplitShape(s[1..], sep);
      assert s == [s[0]] + s[1..];
    }
  }

  /** `getCookieName(baseName, origin)`. `hostnameOf` stands for `new URL(origin).hostname`,
      answering None where the URL constructor throws. */
  function GetCookieName(baseName: string, origin: Option<string>, hostnameOf: string -> Option<string>): (r: string)
    ensures StartsWith(r, baseName)
    ensures origin.None? || origin == Some("") ==> r == baseName
  {
    if origin.None? || origin.value == "" then baseName
    else match hostnameOf(origin.value)
      case None => baseName
      case Some(hostname) =>
        if hostname == ApexDomain then baseName + "_masters"
        else
          var parts := Split(hostname, '.');
          if |parts| >= 2 then baseName + "_" + parts[0] else baseName
  }

  /** The cases of the cookie name: no origin, an unparsable origin or a single-label
      host give the base name; the apex domain gives `_masters`; any other dotted
      host gives `_` and its first label. */
  lemma GetCookieNameCases(baseName: string, origin: Option<string>, hostnameOf: string -> Option<string>)
    ensures origin.None? || origin == Some("") ==> GetCookieName(baseName, origin, hostnameOf) == baseName
    ensures origin.Some? && origin.value != "" && hostnameOf(origin.value).None? ==>
      GetCookieName(baseName, origin, hostnameOf) == baseName
    ensures origin.Some? && origin.value != "" && hostnameOf(origin.value) == Some(ApexDomain) ==>
      GetCookieName(baseName, origin, hostnameOf) == baseName + "_masters"
    ensures origin.Some? && origin.value != "" && hostnameOf(origin.value).Some? ==>
      var h := hostnameOf(origin.value).value;
      h != ApexDomain ==>
        GetCookieName(baseName, origin, hostnameOf) ==
          if '.' in h then baseName + "_" + Before(h, '.') else baseName
  {
    if origin.Some? && origin.value != "" && hostnameOf(origin.value).Some? {
      SplitShape(hostnameOf(origin.value).value, '.');
    }
  }

  /** The first part of `p + [sep] + q` is `p` when `p` has no separator. */
  lemma {:induction false} BeforeFirstSeparator(p: string, q: string, sep: char)
    requires sep !in p
    ensures Before(p + [sep] + q, sep) == p
    decreases |p|
  {
    if p != [] {
      BeforeFirstSeparator(p[1..], q, sep);
      assert (p + [sep] + q)[1..] == p[1..] + [sep] + q;
    }
  }

  /** A host `p.q` whose first label `p` has no dot, other than the apex domain,
      gets the cookie `baseName_p`. */
  lemma {:induction false} SubdomainCookieName(baseName: string, origin: string, hostnameOf: string -> Option<string>, p: string, q: string)
    requires origin != "" && '.' !in p
    requires hostnameOf(origin) == Some(p + ['.'] + q) && p + ['.'] + q != ApexDomain
    ensures GetCookieName(baseName, Some(origin), hostnameOf) == baseName + "_" + p
  {
    var h := p + ['.'] + q;
    BeforeFirstSeparator(p, q, '.');
    SplitShape(h, '.');
    assert h[|p|] == '.';
  }
}
