/**
 * URL splitting in the manner of Python's `urllib.parse.urlparse` /
 * `urlunparse`, following the generic syntax of section 3 of RFC 3986
 * (scheme ":" ["//" authority] path ["?" query] ["#" fragment]), and the
 * program's `normalize_url` built on it.
 */
module Urls {
  import opened Strings

  /** The six components `urlparse` returns. */
  datatype UrlParts = UrlParts(
    scheme: string, netloc: string, path: string,
    params: string, query: string, fragment: string)

  /** Schemes for which `urlunparse` writes "//" even with an empty network location. */
  const UsesNetloc: set<string> := {
    "", "ftp", "http", "gopher", "nntp", "telnet", "imap", "wais", "file", "mms",
    "https", "shttp", "snews", "prospero", "rtsp", "rtspu", "rsync", "svn",
    "svn+ssh", "sftp", "nfs", "git", "git+ssh", "ws", "wss"}

  /** Schemes whose last path segment may carry ";params". */
  const UsesParams: set<string> := {
    "", "ftp", "hdl", "prospero", "http", "imap", "https", "shttp", "rtsp",
    "rtspu", "sip", "sips", "mms", "sftp", "tel"}

  /** Section 3.1 of RFC 3986: ALPHA / DIGIT / "+" / "-" / ".". */
  predicate IsSchemeChar(c: char)
  {
    IsAlpha(c) || IsDigit(c) || c == '+' || c == '-' || c == '.'
  }

  /** A lower-case scheme as `urlparse` returns one. */
  predicate ValidScheme(s: string)
  {
    s != [] && IsAlpha(s[0])
    && (forall k :: 0 <= k < |s| ==> IsSchemeChar(s[k]))
    && LowerAscii(s) == s
  }

  /** Index of the first character of `s` at or after `from` that is in `stops`, else `|s|`. */
  function FindAny(s: string, stops: set<char>, from: nat): (i: nat)
    requires from <= |s|
    ensures from <= i <= |s|
    ensures forall k :: from <= k < i ==> s[k] !in stops
    ensures i < |s| ==> s[i] in stops
    decreases |s| - from
  {
    if from == |s| || s[from] in stops then from else FindAny(s, stops, from + 1)
  }

  /** Python's `s.rfind(c)`: the last index holding `c`, or -1. */
  function LastIndex(s: string, c: char): (i: int)
    ensures -1 <= i < |s|
    ensures forall k :: i < k < |s| ==> s[k] != c
    ensures 0 <= i ==> s[i] == c
  {
    if s == [] then -1
    else if s[|s| - 1] == c then |s| - 1
    else LastIndex(s[..|s| - 1], c)
  }

  /** `url` opens with a scheme: a non-empty run of scheme characters, starting with a letter, then ':'. */
  predicate HasScheme(url: string)
  {
    var i := FindAny(url, {':'}, 0);
    0 < i < |url| && IsAlpha(url[0]) && forall k :: 0 <= k < i ==> IsSchemeChar(url[k])
  }

  /** Every ';' of `path` is followed by a '/' later on: no ";params" are left. */
  predicate ParamFree(path: string)
  {
    forall k :: 0 <= k < |path| && path[k] == ';' ==> exists j :: k < j < |path| && path[j] == '/'
  }

  /** Python's `_splitparams`: cut at the first ';' of the last path segment. */
  function SplitParams(path: string): (r: (string, string))
    ensures ParamFree(r.0)
    ensures ParamFree(path) ==> r == (path, "")
  {
    var slash := LastIndex(path, '/');
    var semi := FindAny(path, {';'}, if slash < 0 then 0 else slash);
    if semi == |path| then
      assert forall k :: 0 <= k < |path| && path[k] == ';' ==> k < slash && path[slash] == '/';
      (path, "")
    else
      assert ParamFree(path[..semi]) by {
        forall k | 0 <= k < semi && path[k] == ';'
          ensures exists j :: k < j < semi && path[..semi][j] == '/'
        {
          assert k < slash && path[..semi][slash] == '/';
        }
      }
      (path[..semi], path[semi + 1..])
  }

  /** `urlsplit`'s scheme step: the scheme found, lower-cased, or `default`, and what follows it. */
  function SplitScheme(url: string, default: string): (string, string)
  {
    if HasScheme(url) then
      var i := FindAny(url, {':'}, 0);
      (LowerAscii(url[..i]), url[i + 1..])
    else (default, url)
  }

  /** `urlsplit`'s authority step: after "//", everything up to the first '/', '?' or '#'. */
  function SplitNetloc(rest: string): (r: (string, string))
    ensures '/' !in r.0 && '?' !in r.0 && '#' !in r.0
    ensures r.0 != [] ==> r.1 == [] || r.1[0] in {'/', '?', '#'}
  {
    if StartsWith(rest, "//") then
      var e := FindAny(rest, {'/', '?', '#'}, 2);
      assert forall k :: 0 <= k < e - 2 ==> rest[2..e][k] == rest[k + 2];
      (rest[2..e], rest[e..])
    else ("", rest)
  }

  /**
   * The rest of `urlparse` once the authority is gone: fragment after the
   * first '#', query after the first '?', then ";params" for the schemes
   * that have them.  Gives (path, params, query, fragment).
   */
  function SplitPath(rest: string, scheme: string): (r: (string, string, string, string))
    ensures '?' !in r.0 && '#' !in r.0
    ensures r.0 != [] ==> rest != [] && r.0[0] == rest[0]
    ensures scheme in UsesParams ==> ParamFree(r.0)
  {
    var hash := FindAny(rest, {'#'}, 0);
    var fragment := if hash < |rest| then rest[hash + 1..] else "";
    var beforeHash := rest[..hash];
    var question := FindAny(beforeHash, {'?'}, 0);
    var query := if question < |beforeHash| then beforeHash[question + 1..] else "";
    var path := beforeHash[..question];
    assert forall k :: 0 <= k < |path| ==> path[k] == rest[k];
    var params := PathParams(path, scheme);
    (params.0, params.1, query, fragment)
  }

  /** `urlparse`'s last step: ";params" are cut off only for the schemes that have them. */
  function PathParams(path: string, scheme: string): (r: (string, string))
    ensures r.0 != [] ==> path != [] && r.0[0] == path[0]
    ensures scheme in UsesParams ==> ParamFree(r.0)
  {
    if scheme in UsesParams && ';' in path then SplitParams(path) else (path, "")
  }

  /** `urlparse(url, default)`. */
  function Split(url: string, default: string): (p: UrlParts)
    ensures p.scheme == if HasScheme(url) then LowerAscii(url[..FindAny(url, {':'}, 0)]) else default
    ensures '/' !in p.netloc && '?' !in p.netloc && '#' !in p.netloc
    ensures '?' !in p.path && '#' !in p.path
    ensures p.netloc != [] ==> p.path == [] || p.path[0] == '/'
    ensures p.scheme in UsesParams ==> ParamFree(p.path)
  {
    var scheme := SplitScheme(url, default);
    var netloc := SplitNetloc(scheme.1);
    var path := SplitPath(netloc.1, scheme.0);
    UrlParts(scheme.0, netloc.0, path.0, path.1, path.2, path.3)
  }

  /** `urlunparse((scheme, netloc, path, "", "", ""))`. */
  function Unsplit(scheme: string, netloc: string, path: string): string
  {
    var rest :=
      if netloc != "" || (scheme != "" && scheme in UsesNetloc && !StartsWith(path, "//")) then
        "//" + netloc + (if path != "" && path[0] != '/' then "/" + path else path)
      else path;
    if scheme != "" then scheme + ":" + rest else rest
  }

  /**
   * `normalize_url`: parse with "http" as the default scheme, drop params,
   * query and fragment, and move a host-less path into the host slot.
   */
  function Normalize(url: string): string
  {
    Rebuild(Split(url, "http"))
  }

  /** The `urlunparse` half of `normalize_url`: params, query and fragment are not passed on. */
  function Rebuild(p: UrlParts): string
  {
    if p.netloc == "" && p.path != "" then Unsplit(p.scheme, p.path, "")
    else Unsplit(p.scheme, p.netloc, p.path)
  }

  /** `_splitparams` either leaves the path whole or cuts it at a ';' with no '/' after it. */
  lemma SplitParamsCuts(path: string) returns (cut: bool)
    ensures !cut ==> SplitParams(path) == (path, "")
    ensures cut ==> path == SplitParams(path).0 + ";" + SplitParams(path).1 && '/' !in SplitParams(path).1
  {
    var slash := LastIndex(path, '/');
    var semi := FindAny(path, {';'}, if slash < 0 then 0 else slash);
    cut := semi < |path|;
    if cut {
      assert path == path[..semi] + ";" + path[semi + 1..];
      assert forall k :: semi < k < |path| ==> path[k] != '/';
    }
  }

  /** The authority step only cuts: "//", the host and what follows give back its input. */
  lemma SplitNetlocCuts(rest: string)
    ensures var r := SplitNetloc(rest);
      rest == (if StartsWith(rest, "//") then "//" + r.0 else "") + r.1
  {
    if StartsWith(rest, "//") {
      var e := FindAny(rest, {'/', '?', '#'}, 2);
      assert rest == rest[..2] + rest[2..e] + rest[e..];
    }
  }

  /**
   * The path part is cut, not rewritten: it reads back as the path, then
   * ";params", "?query" and "#fragment", each where its separator was found.
   */
  lemma SplitPathParts(rest: string, scheme: string) returns (semi: bool, question: bool, hash: bool)
    ensures var r := SplitPath(rest, scheme);
      rest == r.0 + (if semi then ";" + r.1 else "") + (if question then "?" + r.2 else "") + (if hash then "#" + r.3 else "")
      && (!semi ==> r.1 == []) && (!question ==> r.2 == []) && (!hash ==> r.3 == [])
  {
    var r := SplitPath(rest, scheme);
    var h := FindAny(rest, {'#'}, 0);
    var beforeHash := rest[..h];
    var q := FindAny(beforeHash, {'?'}, 0);
    hash := h < |rest|;
    assert r.3 == (if hash then rest[h + 1..] else "");
    assert r.2 == (if q < |beforeHash| then beforeHash[q + 1..] else "");
    assert (r.0, r.1) == PathParams(beforeHash[..q], scheme);
    semi, question := QueryParts(beforeHash, scheme);
    CutAt(rest, h, '#');
    JoinTail(rest, beforeHash, r.0 + (if semi then ";" + r.1 else "") + (if question then "?" + r.2 else ""), if hash then "#" + r.3 else "");
  }

  /** The part before '#' reads back as the path, then ";params" and "?query" where they were cut. */
  lemma QueryParts(beforeHash: string, scheme: string) returns (semi: bool, question: bool)
    ensures var q := FindAny(beforeHash, {'?'}, 0);
      var p := PathParams(beforeHash[..q], scheme);
      var query := if q < |beforeHash| then beforeHash[q + 1..] else "";
      beforeHash == p.0 + (if semi then ";" + p.1 else "") + (if question then "?" + query else "")
      && (!semi ==> p.1 == []) && question == (q < |beforeHash|)
  {
    var q := FindAny(beforeHash, {'?'}, 0);
    var path := beforeHash[..q];
    question := q < |beforeHash|;
    semi := PathParamsCuts(path, scheme);
    CutAt(beforeHash, q, '?');
  }

  /** The params step only cuts: the bare path and ";params", when cut, give back the path. */
  lemma PathParamsCuts(path: string, scheme: string) returns (cut: bool)
    ensures !cut ==> PathParams(path, scheme) == (path, "")
    ensures cut ==> path == PathParams(path, scheme).0 + ";" + PathParams(path, scheme).1 && '/' !in PathParams(path, scheme).1
  {
    if scheme in UsesParams && ';' in path {
      cut := SplitParamsCuts(path);
    } else {
      cut := false;
    }
  }

  /** Regrouping a string cut in two whose first piece reads back as `u`. */
  lemma JoinTail(s: string, t: string, u: string, d: string)
    requires s == t + d && t == u
    ensures s == u + d
  {
  }

  /** Cutting `s` at index `i`, where `c` sits when `i` is in range, loses nothing. */
  lemma CutAt(s: string, i: nat, c: char)
    requires i <= |s| && (i < |s| ==> s[i] == c)
    ensures s == s[..i] + (if i < |s| then [c] + s[i + 1..] else [])
  {
    if i < |s| {
      assert s == s[..i] + [s[i]] + s[i + 1..];
    }
  }

  /**
   * `urlparse` only cuts the URL: the scheme as written (lower-cased in the
   * result), then "//" and the host, the path, ";params", "?query" and
   * "#fragment", each where its separator was found, give back the URL.
   */
  lemma SplitReassembles(url: string, default: string) returns (head: string, slashes: bool, semi: bool, question: bool, hash: bool)
    ensures var p := Split(url, default);
      url == head + (if slashes then "//" + p.netloc else "") + p.path
        + (if semi then ";" + p.params else "") + (if question then "?" + p.query else "") + (if hash then "#" + p.fragment else "")
      && (HasScheme(url) ==> head == url[..|p.scheme|] + ":" && LowerAscii(url[..|p.scheme|]) == p.scheme)
      && (!HasScheme(url) ==> head == [])
      && (!slashes ==> p.netloc == []) && (!semi ==> p.params == [])
      && (!question ==> p.query == []) && (!hash ==> p.fragment == [])
  {
    var p := Split(url, default);
    var scheme := SplitScheme(url, default);
    head := SchemeCuts(url, default);
    var netloc := SplitNetloc(scheme.1);
    SplitNetlocCuts(scheme.1);
    slashes := StartsWith(scheme.1, "//");
    semi, question, hash := SplitPathParts(netloc.1, scheme.0);
    var r := SplitPath(netloc.1, scheme.0);
    assert p == UrlParts(scheme.0, netloc.0, r.0, r.1, r.2, r.3);
    JoinUrl(url, head, scheme.1, if slashes then "//" + p.netloc else "", netloc.1, p.path,
      if semi then ";" + p.params else "", if question then "?" + p.query else "", if hash then "#" + p.fragment else "");
  }

  /** The scheme step only cuts: the scheme as written and ':' come before the rest. */
  lemma SchemeCuts(url: string, default: string) returns (head: string)
    ensures var r := SplitScheme(url, default);
      url == head + r.1
      && (HasScheme(url) ==> head == url[..|r.0|] + ":" && LowerAscii(url[..|r.0|]) == r.0)
      && (!HasScheme(url) ==> head == [])
  {
    if HasScheme(url) {
      var i := FindAny(url, {':'}, 0);
      head := url[..i] + ":";
      assert url == url[..i] + [url[i]] + url[i + 1..];
    } else {
      head := [];
    }
  }

  /** Regrouping the pieces of a cut URL. */
  lemma JoinUrl(url: string, head: string, rest: string, netloc: string, after: string, path: string, a: string, b: string, c: string)
    requires url == head + rest && rest == netloc + after && after == path + a + b + c
    ensures url == head + netloc + path + a + b + c
  {
  }

  // ---------------------------------------------------------------------
  // Facts about `normalize_url`.
  // ---------------------------------------------------------------------

  lemma LowerAsciiIdempotent(s: string)
    ensures LowerAscii(LowerAscii(s)) == LowerAscii(s)
  {
  }

  /** The scheme `urlparse` reports is a lower-case scheme whenever the default is one. */
  lemma SplitScheme_Valid(url: string, default: string)
    requires ValidScheme(default)
    ensures ValidScheme(Split(url, default).scheme)
  {
    if HasScheme(url) {
      var i := FindAny(url, {':'}, 0);
      LowerAsciiIdempotent(url[..i]);
    }
  }

  /** A URL written as `s:rest` with a valid scheme `s` is split at that ':'. */
  lemma SplitAtScheme(s: string, rest: string, default: string)
    requires ValidScheme(s)
    ensures SplitScheme(s + ":" + rest, default) == (s, rest)
  {
    var url := s + ":" + rest;
    assert url[|s|] == ':';
    assert forall k :: 0 <= k < |s| ==> url[k] == s[k];
    assert FindAny(url, {':'}, 0) == |s|;
    assert url[..|s|] == s;
    assert url[|s| + 1..] == rest;
  }

  /** An authority free of '/', '?' and '#' followed by an empty or absolute path is cut off whole. */
  lemma SplitNetlocRendered(n: string, p: string)
    requires '/' !in n && '?' !in n && '#' !in n
    requires p == [] || p[0] == '/'
    ensures SplitNetloc("//" + n + p) == (n, p)
  {
    var rest := "//" + n + p;
    assert forall k :: 2 <= k < 2 + |n| ==> rest[k] == n[k - 2];
    assert 2 + |n| < |rest| ==> rest[2 + |n|] == p[0];
    assert FindAny(rest, {'/', '?', '#'}, 2) == 2 + |n|;
    assert rest[2..2 + |n|] == n && rest[2 + |n|..] == p;
  }

  /** A path with nothing to split off comes through unchanged. */
  lemma SplitPathClean(p: string, scheme: string)
    requires '?' !in p && '#' !in p
    requires scheme in UsesParams ==> ParamFree(p)
    ensures SplitPath(p, scheme) == (p, "", "", "")
  {
    assert FindAny(p, {'#'}, 0) == |p|;
    assert p[..|p|] == p;
    assert FindAny(p, {'?'}, 0) == |p|;
  }

  /**
   * Splitting `s://n p` (a scheme, an authority free of '/', '?' and '#', and a
   * path that is empty or absolute with no query, fragment or stray params)
   * gives back exactly those parts.
   */
  lemma SplitRendered(s: string, n: string, p: string, default: string)
    requires ValidScheme(s)
    requires '/' !in n && '?' !in n && '#' !in n
    requires '?' !in p && '#' !in p && (p == [] || p[0] == '/')
    requires s in UsesParams ==> ParamFree(p)
    ensures Split(s + "://" + n + p, default) == UrlParts(s, n, p, "", "", "")
  {
    var rest := "//" + n + p;
    assert s + "://" + n + p == s + ":" + rest;
    SplitAtScheme(s, rest, default);
    SplitNetlocRendered(n, p);
    SplitPathClean(p, s);
  }

  /** Splitting `s:` alone gives the scheme and nothing else. */
  lemma SplitBare(s: string, default: string)
    requires ValidScheme(s)
    ensures Split(s + ":", default) == UrlParts(s, "", "", "", "", "")
  {
    assert s + ":" == s + ":" + "";
    SplitAtScheme(s, "", default);
  }

  /** A ParamFree path keeps that property in every suffix. */
  lemma ParamFreeSuffix(p: string, e: nat)
    requires e <= |p| && ParamFree(p)
    ensures ParamFree(p[e..])
  {
    forall k | 0 <= k < |p[e..]| && p[e..][k] == ';'
      ensures exists j :: k < j < |p[e..]| && p[e..][j] == '/'
    {
      var j :| e + k < j < |p| && p[j] == '/';
      assert p[e..][j - e] == '/';
    }
  }

  /** `urlunparse` of parts free of '?' and '#' is free of them too. */
  lemma UnsplitClean(scheme: string, netloc: string, path: string)
    requires '?' !in scheme && '#' !in scheme
    requires '?' !in netloc && '#' !in netloc && '?' !in path && '#' !in path
    ensures '?' !in Unsplit(scheme, netloc, path) && '#' !in Unsplit(scheme, netloc, path)
  {
  }

  /** The result of `normalize_url` carries no query and no fragment. */
  lemma NormalizeDropsQueryAndFragment(url: string)
    ensures '?' !in Normalize(url) && '#' !in Normalize(url)
  {
    var p := Split(url, "http");
    SplitScheme_Valid(url, "http");
    assert forall k :: 0 <= k < |p.scheme| ==> IsSchemeChar(p.scheme[k]);
    if p.netloc == [] && p.path != [] {
      UnsplitClean(p.scheme, p.path, []);
    } else {
      UnsplitClean(p.scheme, p.netloc, p.path);
    }
  }

  /** Without a scheme of its own, a URL is normalised to an "http://" one. */
  lemma NormalizeDefaultScheme(url: string)
    requires !HasScheme(url)
    ensures StartsWith(Normalize(url), "http://")
  {
  }

  /** A host-less, non-empty path becomes the host: "example.com/a" gives "http://example.com/a". */
  lemma NormalizeMovesPathToHost(url: string)
    requires Split(url, "http").netloc == [] && Split(url, "http").path != []
    ensures Normalize(url) == Split(url, "http").scheme + "://" + Split(url, "http").path
  {
  }

  /** The three shapes `normalize_url` produces, by what `urlparse` found. */
  lemma RebuildShape(p: UrlParts)
    requires p.scheme != []
    requires p.netloc != [] ==> p.path == [] || p.path[0] == '/'
    ensures p.netloc != [] ==> Rebuild(p) == p.scheme + "://" + p.netloc + p.path
    ensures p.netloc == [] && p.path != [] ==> Rebuild(p) == p.scheme + "://" + p.path
    ensures p.netloc == [] && p.path == [] ==> Rebuild(p) == Unsplit(p.scheme, [], [])
  {
  }

  lemma RebuildRendered(s: string, n: string, q: string)
    requires s != [] && (q == [] || q[0] == '/')
    requires n == [] && q == [] ==> s in UsesNetloc
    ensures Rebuild(UrlParts(s, n, q, "", "", "")) == s + "://" + n + q
  {
    if n == [] && q != [] {
      assert s + "://" + n + q == s + "://" + q;
    }
  }

  /** A URL already in the form `s://n p` is left as it is. */
  lemma NormalizeRendered(s: string, n: string, q: string)
    requires ValidScheme(s)
    requires '/' !in n && '?' !in n && '#' !in n
    requires '?' !in q && '#' !in q && (q == [] || q[0] == '/')
    requires s in UsesParams ==> ParamFree(q)
    requires n == [] && q == [] ==> s in UsesNetloc
    ensures Normalize(s + "://" + n + q) == s + "://" + n + q
  {
    SplitRendered(s, n, q, "http");
    RebuildRendered(s, n, q);
  }

  /** A URL of the form `s://path` whose path came from the host slot is left as it is. */
  lemma NormalizeHostPath(s: string, path: string)
    requires ValidScheme(s) && path != []
    requires '?' !in path && '#' !in path
    requires s in UsesParams ==> ParamFree(path)
    ensures Normalize(s + "://" + path) == s + "://" + path
  {
    var e := FindAny(path, {'/'}, 0);
    var n, q := path[..e], path[e..];
    assert path == n + q;
    assert s + "://" + path == s + "://" + n + q;
    if s in UsesParams {
      ParamFreeSuffix(path, e);
    }
    NormalizeRendered(s, n, q);
  }

  /** `s:` alone, for a scheme written without "//", is left as it is. */
  lemma NormalizeBare(s: string)
    requires ValidScheme(s) && s !in UsesNetloc
    ensures Normalize(s + ":") == s + ":"
  {
    SplitBare(s, "http");
  }

  /** Normalising a normalised URL changes nothing. */
  lemma NormalizeIdempotent(url: string)
    ensures Normalize(Normalize(url)) == Normalize(url)
  {
    var p := Split(url, "http");
    var s := p.scheme;
    SplitScheme_Valid(url, "http");
    RebuildShape(p);
    if p.netloc != [] {
      NormalizeRendered(s, p.netloc, p.path);
    } else if p.path != [] {
      NormalizeHostPath(s, p.path);
    } else if s in UsesNetloc {
      assert Normalize(url) == s + "://" + [] + [];
      NormalizeRendered(s, [], []);
    } else {
      assert Normalize(url) == s + ":";
      NormalizeBare(s);
    }
  }
}
