/** The route guard that runs in front of every page (src/middleware.ts). It
    lets assets through, sends visitors without the right session cookies
    from the admin and seller zones to the login page, sends a signed-in
    visitor from the root to their zone, and marks zone pages as not
    cacheable. */
module Middleware {
  import opened Types
  import opened JsText

  /** The characters of the regular-expression class `\w`. */
  predicate IsWordChar(c: char) {
    ('a' <= c <= 'z') || ('A' <= c <= 'Z') || ('0' <= c <= '9') || c == '_'
  }

  /** The length of the longest run of word characters that ends `s`. */
  function TrailingWordLength(s: string): (n: nat)
    ensures n <= |s|
    ensures forall j :: |s| - n <= j < |s| ==> IsWordChar(s[j])
    ensures n < |s| ==> !IsWordChar(s[|s| - n - 1])
  {
    if s != [] && IsWordChar(s[|s| - 1]) then TrailingWordLength(s[..|s| - 1]) + 1 else 0
  }

  /** `/\.[\w]+$/.test(s)`, read from the end: a non-empty run of word
      characters ends the string and a dot stands right before it. */
  predicate HasExtension(s: string) {
    var n := TrailingWordLength(s);
    0 < n < |s| && s[|s| - n - 1] == '.'
  }

  /** The regular expression's own reading: some dot is followed, up to the
      end, by one or more word characters and nothing else. */
  ghost predicate MatchesExtensionPattern(s: string) {
    exists k | 0 <= k < |s| - 1 :: s[k] == '.' && forall j | k < j < |s| :: IsWordChar(s[j])
  }

  /** The scan from the end decides exactly the regular expression. */
  lemma ExtensionScanIsPattern(s: string)
    ensures HasExtension(s) <==> MatchesExtensionPattern(s)
  {
    var n := TrailingWordLength(s);
    if HasExtension(s) {
      assert s[|s| - n - 1] == '.' && forall j | |s| - n - 1 < j < |s| :: IsWordChar(s[j]);
    }
    if MatchesExtensionPattern(s) {
      var k :| 0 <= k < |s| - 1 && s[k] == '.' && forall j | k < j < |s| :: IsWordChar(s[j]);
      assert !IsWordChar(s[k]);
      assert IsWordChar(s[|s| - 1]);
      assert |s| - n - 1 <= k;
      assert |s| - n - 1 == k;
    }
  }

  /** `isAssetPath`. */
  predicate IsAssetPath(pathname: string) {
    || StartsWith(pathname, "/_next")
    || StartsWith(pathname, "/static")
    || StartsWith(pathname, "/images")
    || StartsWith(pathname, "/favicon")
    || StartsWith(pathname, "/api")
    || HasExtension(pathname)
  }

  /** What the guard reads from a request: the path, the query string (with
      its `?`, or empty) and the two session cookies. */
  datatype Request = Request(pathname: string, search: string, wAuth: Option<string>, wRole: Option<string>)

  /** What the guard answers: let the request through (with `Cache-Control:
      no-store` or not), or redirect it. A redirect keeps the request's other
      query parameters; `next` is the one it sets, if any. */
  datatype Decision = Pass(noStore: bool) | Redirect(to: string, next: Option<string>)

  const LoginPath: string := "/auth/login"

  /** `redirectWithNext(req, to)`: to `to`, remembering where the visitor was going. */
  function RedirectWithNext(req: Request, to: string): (d: Decision)
    ensures d.Redirect? && d.to == to && d.next.Some?
    ensures StartsWith(d.next.value, req.pathname) && d.next.value[|req.pathname|..] == req.search
  {
    Redirect(to, Some(req.pathname + req.search))
  }

  predicate IsAuthed(req: Request) {
    req.wAuth == Some("1")
  }

  predicate InAdminZone(req: Request) { StartsWith(req.pathname, "/admin") }

  predicate InBoutiqueZone(req: Request) { StartsWith(req.pathname, "/dashboard") }

  /** The session may enter the admin zone. */
  predicate AdminAllowed(req: Request) { IsAuthed(req) && req.wRole == Some("admin") }

  /** The session may enter the seller zone. */
  predicate BoutiqueAllowed(req: Request) { IsAuthed(req) && req.wRole == Some("boutique") }

  /** `middleware`: assets pass untouched; a redirect either sends the
      visitor to the login page, remembering where they were going, or sends
      a signed-in visitor from the root to a zone. */
  function Route(req: Request): (d: Decision)
    ensures IsAssetPath(req.pathname) ==> d == Pass(false)
    ensures d.Redirect? ==>
      || (d.to == LoginPath && d.next == Some(req.pathname + req.search))
      || (req.pathname == "/" && IsAuthed(req) && (d.to == "/admin" || d.to == "/dashboard") && d.next.None?)
    ensures d == Pass(true) ==> InAdminZone(req) || InBoutiqueZone(req)
  {
    if IsAssetPath(req.pathname) then Pass(false)
    else if InAdminZone(req) && !AdminAllowed(req) then RedirectWithNext(req, LoginPath)
    else if InBoutiqueZone(req) && !BoutiqueAllowed(req) then RedirectWithNext(req, LoginPath)
    else if req.pathname == "/" && IsAuthed(req) then
      Redirect(if req.wRole == Some("admin") then "/admin" else "/dashboard", None)
    else Pass(InAdminZone(req) || InBoutiqueZone(req))
  }

  /** Assets always pass, and are never marked as not cacheable. */
  lemma AssetsPass(req: Request)
    requires IsAssetPath(req.pathname)
    ensures Route(req) == Pass(false)
  {
  }

  /** A non-asset admin page without an admin session goes to the login page,
      which is told where to come back to. */
  lemma AdminZoneGuarded(req: Request)
    requires !IsAssetPath(req.pathname) && InAdminZone(req) && !AdminAllowed(req)
    ensures Route(req) == Redirect(LoginPath, Some(req.pathname + req.search))
  {
  }

  /** A non-asset seller page without a seller session goes to the login page. */
  lemma BoutiqueZoneGuarded(req: Request)
    requires !IsAssetPath(req.pathname) && InBoutiqueZone(req) && !BoutiqueAllowed(req)
    ensures Route(req) == Redirect(LoginPath, Some(req.pathname + req.search))
  {
  }

  /** A signed-in visitor at the root goes to the admin zone with the admin
      role and to the seller zone with any other role, or none. */
  lemma SignedInRootRedirects(req: Request)
    requires req.pathname == "/" && IsAuthed(req)
    ensures req.wRole == Some("admin") ==> Route(req) == Redirect("/admin", None)
    ensures req.wRole != Some("admin") ==> Route(req) == Redirect("/dashboard", None)
  {
    assert !StartsWith(req.pathname, "/admin") && !StartsWith(req.pathname, "/dashboard");
    assert !HasExtension(req.pathname);
  }

  /** A path cannot start with two prefixes that differ at a position both have. */
  lemma PrefixesExclude(s: string, p: string, q: string, k: nat)
    requires k < |p| && k < |q| && p[k] != q[k]
    ensures !(StartsWith(s, p) && StartsWith(s, q))
  {
    if StartsWith(s, p) {
      assert s[k] == s[..|p|][k] == p[k];
    }
  }

  /** The guard redirects exactly the zone pages the session may not enter
      and the root of a signed-in visitor; it lets everything else through,
      and marks a page as not cacheable exactly when it is a zone page that
      passes. */
  lemma RouteDecision(req: Request)
    ensures Route(req).Redirect? <==>
      && !IsAssetPath(req.pathname)
      && ((InAdminZone(req) && !AdminAllowed(req)) || (InBoutiqueZone(req) && !BoutiqueAllowed(req))
          || (req.pathname == "/" && IsAuthed(req)))
    ensures Route(req) == Pass(true) <==>
      && !IsAssetPath(req.pathname)
      && ((InAdminZone(req) && AdminAllowed(req)) || (InBoutiqueZone(req) && BoutiqueAllowed(req)))
  {
    PrefixesExclude(req.pathname, "/admin", "/dashboard", 1);
    if InAdminZone(req) || InBoutiqueZone(req) {
      assert req.pathname != "/";
    }
  }

  /** The login page is never redirected, signed in or not. */
  lemma LoginPageReachable(req: Request)
    requires StartsWith(req.pathname, LoginPath)
    ensures Route(req).Pass?
  {
    PrefixesExclude(req.pathname, LoginPath, "/admin", 2);
    PrefixesExclude(req.pathname, LoginPath, "/dashboard", 1);
    assert req.pathname != "/";
  }
}
