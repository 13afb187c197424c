/** The locale redirects of the two Next.js front ends: which request paths pass
    through, which are redirected, and to which path. The request is reduced to its
    path and its Accept-Language header. */
module Locale {
  import opened Wrappers
  import opened Text

  /** The locales of the current front end, and its default. */
  const Locales: seq<string> := ["en", "zh", "es", "fr", "th"]
  const DefaultLocale: string := "en"

  /** The locales of the older front end. */
  const RootLocales: seq<string> := ["en", "zh"]

  /** Where a redirect target resolved against the request URL points: a path on the
      request's own site, or a site the target names itself (its authority text, then
      the rest of the target). */
  datatype Location = SameSite(path: string) | NamedHost(authority: string, rest: string)

  /** What a middleware does with a request: hand it on, return nothing, redirect it,
      or throw because the redirect target is not a valid URL. */
  datatype Decision = Next | Silent | Redirect(location: Location) | Thrown

  /** The characters an `http` or `https` URL reads as a slash. */
  predicate IsSlash(c: char) {
    c == '/' || c == '\\'
  }

  /** The characters that end the authority of an `http` or `https` URL. */
  predicate EndsAuthority(c: char) {
    IsSlash(c) || c == '?' || c == '#'
  }

  /** The first index from `i` on that holds no slash. */
  function SkipSlashes(s: string, i: nat): (j: nat)
    requires i <= |s|
    ensures i <= j <= |s| && (j == |s| || !IsSlash(s[j]))
    ensures forall k :: i <= k < j ==> IsSlash(s[k])
    decreases |s| - i
  {
    if i == |s| || !IsSlash(s[i]) then i else SkipSlashes(s, i + 1)
  }

  /** The first index from `i` on that ends an authority. */
  function AuthorityEnd(s: string, i: nat): (j: nat)
    requires i <= |s|
    ensures i <= j <= |s| && (j == |s| || EndsAuthority(s[j]))
    ensures forall k :: i <= k < j ==> !EndsAuthority(s[k])
    decreases |s| - i
  {
    if i == |s| || EndsAuthority(s[i]) then i else AuthorityEnd(s, i + 1)
  }

  /** `new URL(target, request.url)` for a target starting with `/` and a request URL
      with the `http` or `https` scheme, after the URL standard's parser: a second
      slash or backslash starts an authority, taken after all further slashes and up to
      the next slash, `?` or `#`; an empty authority is a failure (`None`, a thrown
      `TypeError`). Any other target is a path on the request's own site. */
  function Resolve(target: string): (r: Option<Location>)
    requires target != [] && target[0] == '/'
    ensures r == Some(SameSite(target)) <==> !(|target| >= 2 && IsSlash(target[1]))
    ensures r.Some? && r.value.NamedHost? ==>
      && r.value.authority != []
      && (forall k :: 0 <= k < |r.value.authority| ==> !EndsAuthority(r.value.authority[k]))
      && (r.value.rest == [] || EndsAuthority(r.value.rest[0]))
  {
    if |target| >= 2 && IsSlash(target[1]) then
      var start := SkipSlashes(target, 1);
      var end := AuthorityEnd(target, start);
      if start == end then None else Some(NamedHost(target[start..end], target[end..]))
    else Some(SameSite(target))
  }

  /** A target that names a host is a run of at least two slashes, the authority and
      the rest: nothing of the target is lost. */
  lemma ResolveNamedHost(target: string)
    requires target != [] && target[0] == '/'
    requires Resolve(target).Some? && Resolve(target).value.NamedHost?
    ensures var loc := Resolve(target).value;
      exists n :: 2 <= n <= |target| && (forall k :: 0 <= k < n ==> IsSlash(target[k]))
                  && target == target[..n] + loc.authority + loc.rest
  {
    var start := SkipSlashes(target, 1);
    var end := AuthorityEnd(target, start);
    assert target == target[..start] + target[start..end] + target[end..];
  }

  /** The target opens with `n` slashes, at least two. */
  predicate SlashRun(target: string, n: nat) {
    2 <= n <= |target| && forall k :: 0 <= k < n ==> IsSlash(target[k])
  }

  /** The URL is refused exactly when the slashes after the first are followed by the
      end, a `?` or a `#`. */
  lemma ResolveFails(target: string)
    requires target != [] && target[0] == '/'
    ensures Resolve(target).None? <==>
      exists n: nat :: SlashRun(target, n) && (n == |target| || target[n] == '?' || target[n] == '#')
  {
    if |target| >= 2 && IsSlash(target[1]) {
      var start := SkipSlashes(target, 1);
      assert SlashRun(target, start);
      if Resolve(target).None? {
        assert start == AuthorityEnd(target, start);
      } else {
        forall n: nat | SlashRun(target, n)
          ensures n != |target| && target[n] != '?' && target[n] != '#'
        {
          if n == start {
            assert start < AuthorityEnd(target, start);
          }
        }
      }
    } else {
      forall n: nat | SlashRun(target, n)
        ensures false
      {
      }
    }
  }

  /** The slash scanner stops at the first index that holds no slash. */
  lemma {:induction false} SkipSlashesAt(s: string, i: nat, j: nat)
    requires i <= j <= |s| && (j == |s| || !IsSlash(s[j]))
    requires forall k :: i <= k < j ==> IsSlash(s[k])
    ensures SkipSlashes(s, i) == j
    decreases j - i
  {
    if i < j {
      SkipSlashesAt(s, i + 1, j);
    }
  }

  /** The authority scanner stops at the first index that ends an authority. */
  lemma {:induction false} AuthorityEndAt(s: string, i: nat, j: nat)
    requires i <= j <= |s| && (j == |s| || EndsAuthority(s[j]))
    requires forall k :: i <= k < j ==> !EndsAuthority(s[k])
    ensures AuthorityEnd(s, i) == j
    decreases j - i
  {
    if i < j {
      AuthorityEndAt(s, i + 1, j);
    }
  }

  /** The decision for a redirect to the given target. */
  function RedirectTo(target: string): (d: Decision)
    requires target != [] && target[0] == '/'
    ensures d.Redirect? || d == Thrown
    ensures d == Thrown <==> Resolve(target).None?
  {
    match Resolve(target)
    case None => Thrown
    case Some(loc) => Redirect(loc)
  }

  /** The static-file test: some `.` is followed by nothing but characters other than
      line terminators up to the end of the path. Scanned from the end: the last `.` or
      line terminator decides. */
  function PublicFile(path: string): bool
    decreases |path|
  {
    if path == [] then false
    else if path[|path| - 1] == '.' then true
    else if IsLineTerminator(path[|path| - 1]) then false
    else PublicFile(path[..|path| - 1])
  }

  /** The scanner agrees with the pattern: a `.` with no line terminator after it. */
  lemma {:induction false} PublicFileIff(path: string)
    ensures PublicFile(path) <==> exists i :: 0 <= i < |path| && path[i] == '.' && NoBreakFrom(path, i + 1)
    decreases |path|
  {
    if path != [] {
      var n := |path|;
      var front := path[..n - 1];
      if path[n - 1] == '.' {
        assert NoBreakFrom(path, n);
      } else if IsLineTerminator(path[n - 1]) {
        assert forall j :: 1 <= j < n ==> !NoBreakFrom(path, j);
      } else {
        PublicFileIff(front);
        assert forall j :: 1 <= j < n ==> (NoBreakFrom(path, j) <==> NoBreakFrom(front, j));
        if PublicFile(front) {
          var i :| 0 <= i < |front| && front[i] == '.' && NoBreakFrom(front, i + 1);
          assert path[i] == '.' && NoBreakFrom(path, i + 1);
        }
      }
    }
  }

  /** Paths the current middleware hands on untouched: framework, API and well-known
      paths, and anything that looks like a static file. */
  predicate Excluded(path: string) {
    || StartsWith(path, "/api")
    || StartsWith(path, "/_next")
    || StartsWith(path, "/favicon.ico")
    || StartsWith(path, "/manifest.json")
    || StartsWith(path, "/robots.txt")
    || StartsWith(path, "/sitemap.xml")
    || PublicFile(path)
  }

  /** The path is exactly `/{l}` for one of the locales. */
  predicate DirectLocale(path: string, locales: seq<string>) {
    exists k :: 0 <= k < |locales| && path == "/" + locales[k]
  }

  /** For every locale, the path neither is `/{l}` nor starts with `/{l}/`. */
  predicate MissingLocale(path: string, locales: seq<string>) {
    forall k :: 0 <= k < |locales| ==> !StartsWith(path, "/" + locales[k] + "/") && path != "/" + locales[k]
  }

  /** The primary subtag of the first entry of an Accept-Language header: the text
      before the first `,`, then before the first `-`. Quality values are not read. */
  function PrimarySubtag(header: string): string {
    Split(Split(header, ',')[0], '-')[0]
  }

  /** The primary subtag is a prefix of the header free of `,` and `-`. */
  lemma PrimarySubtagShape(header: string)
    ensures var t := PrimarySubtag(header);
      StartsWith(header, t) && ',' !in t && '-' !in t
  {
    var first := Split(header, ',')[0];
    SplitHead(header, ',');
    SplitHead(first, '-');
    var t := Split(first, '-')[0];
    assert header[..|t|] == first[..|t|];
  }

  /** The language the current middleware redirects to: the primary subtag of the
      header, or the default when the header is missing or the subtag is empty. It is
      not checked against the locales. */
  function Language(acceptLanguage: Option<string>): string {
    match acceptLanguage
    case None => DefaultLocale
    case Some(h) => if PrimarySubtag(h) == "" then DefaultLocale else PrimarySubtag(h)
  }

  /** The chosen language is never empty; it is the default or a `,`- and `-`-free
      prefix of the header. */
  lemma LanguageShape(acceptLanguage: Option<string>)
    ensures Language(acceptLanguage) != ""
    ensures Language(acceptLanguage) == DefaultLocale
         || (acceptLanguage.Some? && StartsWith(acceptLanguage.value, Language(acceptLanguage))
             && ',' !in Language(acceptLanguage) && '-' !in Language(acceptLanguage))
  {
    if acceptLanguage.Some? {
      PrimarySubtagShape(acceptLanguage.value);
    }
  }

  /** The path the current middleware redirects to: the language alone for `/`, the
      language before the path otherwise. */
  function TargetPath(path: string, acceptLanguage: Option<string>): (t: string)
    ensures t != [] && t[0] == '/'
    ensures StartsWith(t, "/" + Language(acceptLanguage))
  {
    if path == "/" then "/" + Language(acceptLanguage) else "/" + Language(acceptLanguage) + path
  }

  /** The current middleware: excluded paths are handed on, a bare locale path returns
      nothing, a path missing a locale is redirected under the chosen language (the
      target resolved against the request URL), and any other path is handed on. */
  function Middleware(path: string, acceptLanguage: Option<string>): Decision {
    if Excluded(path) then Next
    else if DirectLocale(path, Locales) then Silent
    else if MissingLocale(path, Locales) then RedirectTo(TargetPath(path, acceptLanguage))
    else Next
  }

  /** A path that misses no locale is never redirected. */
  lemma MiddlewareKeeps(path: string, acceptLanguage: Option<string>)
    requires !MissingLocale(path, Locales)
    ensures !Middleware(path, acceptLanguage).Redirect? && Middleware(path, acceptLanguage) != Thrown
  {
  }

  /** A path that is not excluded and misses every locale is redirected to its target. */
  lemma MiddlewareMisses(path: string, acceptLanguage: Option<string>)
    requires !Excluded(path) && MissingLocale(path, Locales)
    ensures Middleware(path, acceptLanguage) == RedirectTo(TargetPath(path, acceptLanguage))
  {
  }

  /** A non-empty header free of `,` and `-` is its own language, for both middlewares. */
  lemma PlainHeader(h: string)
    requires h != [] && ',' !in h && '-' !in h
    ensures Language(Some(h)) == h && RootLocale(Some(h)) == h
  {
    SplitNoSep(h, ',');
    SplitNoSep(h, '-');
  }

  /** The site root is redirected under the language alone. */
  lemma MiddlewareRoot(acceptLanguage: Option<string>)
    ensures Middleware("/", acceptLanguage) == RedirectTo("/" + Language(acceptLanguage))
  {
    PublicFileIff("/");
    assert MissingLocale("/", Locales);
    MiddlewareMisses("/", acceptLanguage);
  }

  /** A request is redirected, or fails while its target is resolved, exactly when its
      path is not excluded and misses a locale. The target is `/` and the language,
      followed by the path unless it is `/`; it stays on the site exactly when the
      language starts with neither `/` nor `\`, and otherwise names another host or
      throws. */
  lemma MiddlewareRedirects(path: string, acceptLanguage: Option<string>)
    ensures (Middleware(path, acceptLanguage).Redirect? || Middleware(path, acceptLanguage) == Thrown)
        <==> !Excluded(path) && MissingLocale(path, Locales)
    ensures Middleware(path, acceptLanguage) == Silent <==> !Excluded(path) && DirectLocale(path, Locales)
    ensures var l := Language(acceptLanguage);
      !Excluded(path) && MissingLocale(path, Locales) && !IsSlash(l[0]) ==>
        Middleware(path, acceptLanguage) == Redirect(SameSite("/" + l + (if path == "/" then "" else path)))
    ensures IsSlash(Language(acceptLanguage)[0]) ==> !Middleware(path, acceptLanguage).Redirect?
                                                      || Middleware(path, acceptLanguage).location.NamedHost?
  {
    LanguageShape(acceptLanguage);
    var l := Language(acceptLanguage);
    if DirectLocale(path, Locales) {
      var k :| 0 <= k < |Locales| && path == "/" + Locales[k];
      assert !MissingLocale(path, Locales);
    }
    var t := TargetPath(path, acceptLanguage);
    assert t[1] == l[0];
    if path == "/" {
      assert "/" + l + "" == "/" + l;
    }
  }

  /** A header whose first tag starts with `/` sends an unlocalised page to the host it
      names. */
  lemma HeaderNamesHost()
    ensures Middleware("/", Some("/evil")) == Redirect(NamedHost("evil", ""))
  {
    PlainHeader("/evil");
    MiddlewareRoot(Some("/evil"));
    ResolvesToEvil();
    assert RedirectTo("/" + "/evil") == Redirect(NamedHost("evil", ""));
  }

  /** A header whose first tag is a lone `\\` makes the middleware throw. */
  lemma HeaderThrows()
    ensures Middleware("/", Some("\\")) == Thrown
  {
    PlainHeader("\\");
    MiddlewareRoot(Some("\\"));
    assert "/" + "\\" == "/\\";
    SkipSlashesAt("/\\", 1, 2);
  }

  /** `//evil` names the host `evil`. */
  lemma ResolvesToEvil()
    ensures Resolve("/" + "/evil") == Some(NamedHost("evil", ""))
  {
    var t := "/" + "/evil";
    SkipSlashesAt(t, 1, 2);
    AuthorityEndAt(t, 2, 6);
    assert t[2..6] == "evil" && t[6..] == "";
  }

  /** When the chosen language is one of the locales, the request is sent to a path on
      its own site, and that path is not redirected again, whatever header the next
      request carries. */
  lemma RedirectSettles(path: string, acceptLanguage: Option<string>, nextHeader: Option<string>)
    requires StartsWith(path, "/")
    requires !Excluded(path) && MissingLocale(path, Locales)
    requires Language(acceptLanguage) in Locales
    ensures Middleware(path, acceptLanguage) == Redirect(SameSite(TargetPath(path, acceptLanguage)))
    ensures var next := Middleware(TargetPath(path, acceptLanguage), nextHeader);
      !next.Redirect? && next != Thrown
  {
    var l := Language(acceptLanguage);
    var k :| 0 <= k < |Locales| && Locales[k] == l;
    var target := TargetPath(path, acceptLanguage);
    assert target[1] == l[0] && !IsSlash(l[0]);
    MiddlewareMisses(path, acceptLanguage);
    if path == "/" {
      assert DirectLocale(target, Locales);
      assert !MissingLocale(target, Locales);
    } else {
      assert target == "/" + l + path;
      assert target[..|l| + 2] == "/" + l + "/";
      assert !MissingLocale(target, Locales);
    }
    MiddlewareKeeps(target, nextHeader);
  }

  /** The path `/de` is neither excluded nor a locale path. */
  lemma UnknownLocalePath()
    ensures !Excluded("/de") && !DirectLocale("/de", Locales) && MissingLocale("/de", Locales)
  {
    PublicFileIff("/de");
  }

  /** A language outside the locales is not recognised on the way back: `/` with the
      header `de` goes to `/de`, and `/de` again to `/de/de`, all on the same site. */
  lemma UnsupportedLanguageRedirectsAgain()
    ensures Middleware("/", Some("de")) == Redirect(SameSite("/de"))
    ensures Middleware("/de", Some("de")) == Redirect(SameSite("/de/de"))
  {
    PlainHeader("de");
    MiddlewareRoot(Some("de"));
    assert "/" + "de" == "/de";
    UnknownLocalePath();
    MiddlewareMisses("/de", Some("de"));
    assert TargetPath("/de", Some("de")) == "/de/de";
  }

  /** The older front end's language: the primary subtag of the header, and `en` only
      when the header is missing; an empty header gives an empty language. */
  function RootLocale(acceptLanguage: Option<string>): string {
    match acceptLanguage
    case None => "en"
    case Some(h) => PrimarySubtag(h)
  }

  /** The older middleware: a path missing both locales is redirected to the language
      before the whole path, resolved against the request URL; otherwise nothing is
      returned. */
  function RootMiddleware(path: string, acceptLanguage: Option<string>): Decision {
    if MissingLocale(path, RootLocales) then RedirectTo("/" + RootLocale(acceptLanguage) + path) else Silent
  }

  /** The older middleware redirects, or throws, exactly for the paths missing both
      locales. With a language that starts with neither `/` nor `\` the target is the
      language followed by the full path on the same site, so `/` becomes `/en/`
      without a header; otherwise the target never stays on the site. */
  lemma RootRedirects(path: string, acceptLanguage: Option<string>)
    ensures RootMiddleware(path, acceptLanguage) != Silent <==> MissingLocale(path, RootLocales)
    ensures RootMiddleware(path, acceptLanguage) == Silent || RootMiddleware(path, acceptLanguage).Redirect?
         || RootMiddleware(path, acceptLanguage) == Thrown
    ensures var l := RootLocale(acceptLanguage);
      MissingLocale(path, RootLocales) && l != [] && !IsSlash(l[0]) ==>
        RootMiddleware(path, acceptLanguage) == Redirect(SameSite("/" + l + path))
    ensures var l := RootLocale(acceptLanguage);
      StartsWith(path, "/") && (l == [] || IsSlash(l[0])) ==>
        !RootMiddleware(path, acceptLanguage).Redirect? || RootMiddleware(path, acceptLanguage).location.NamedHost?
    ensures RootMiddleware("/", None) == Redirect(SameSite("/en/"))
  {
    var l := RootLocale(acceptLanguage);
    var t := "/" + l + path;
    if l != [] {
      assert t[1] == l[0];
    } else if StartsWith(path, "/") {
      assert t[1] == path[0];
    }
    assert MissingLocale("/", RootLocales);
    assert "/" + "en" + "/" == "/en/";
  }

  /** With either locale chosen, the older middleware sends the request to a path on its
      own site, and that path is not redirected again. */
  lemma RootRedirectSettles(path: string, acceptLanguage: Option<string>, nextHeader: Option<string>)
    requires StartsWith(path, "/")
    requires MissingLocale(path, RootLocales)
    requires RootLocale(acceptLanguage) in RootLocales
    ensures var target := "/" + RootLocale(acceptLanguage) + path;
      RootMiddleware(path, acceptLanguage) == Redirect(SameSite(target))
      && RootMiddleware(target, nextHeader) == Silent
  {
    var l := RootLocale(acceptLanguage);
    var k :| 0 <= k < |RootLocales| && RootLocales[k] == l;
    var target := "/" + l + path;
    assert target[1] == l[0];
    assert target[..|l| + 2] == "/" + l + "/";
    assert !MissingLocale(target, RootLocales);
  }

  /** An empty header is not replaced by the default: the language is empty, so `/`
      makes the older middleware throw, and any other unlocalised page is sent to the
      host its path begins with. */
  lemma RootEmptyHeader()
    ensures RootLocale(Some("")) == ""
    ensures RootMiddleware("/", Some("")) == Thrown
    ensures RootMiddleware("/en-US/page", Some("")) == Redirect(NamedHost("en-US", "/page"))
  {
    assert Split("", ',') == [""];
    assert MissingLocale("/", RootLocales);
    assert "/" + "" + "/" == "//";
    SkipSlashesAt("//", 1, 2);
    var p := "/en-US/page";
    assert !StartsWith(p, "/en/") by { assert p[3] == '-'; }
    assert !StartsWith(p, "/zh/") by { assert p[1] == 'e'; }
    assert MissingLocale(p, RootLocales);
    assert "/" + "" + p == "//en-US/page";
    ResolvesToEnUs();
  }

  /** `//en-US/page` names the host `en-US`, with `/page` after it. */
  lemma ResolvesToEnUs()
    ensures Resolve("//en-US/page") == Some(NamedHost("en-US", "/page"))
  {
    var t := "//en-US/page";
    SkipSlashesAt(t, 1, 2);
    AuthorityEndAt(t, 2, 7);
    assert t[2..7] == "en-US" && t[7..] == "/page";
  }
}
