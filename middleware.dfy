/** The request middleware (src/middleware/index.ts): a Supabase client for every request, then
    the routing decision from the session's user and the path. */
module Middleware {
  import opened Wrappers
  import opened Strings
  import Cookies
  import FlashcardsRoute

  const PublicPaths := [
    "/auth/login", "/auth/register", "/auth/reset-password/request", "/auth/reset-password/reset",
    "/api/auth/login", "/api/auth/register", "/api/auth/reset-password/request", "/api/auth/reset-password/reset"]

  const AuthPages := ["/auth/login", "/auth/register", "/auth/reset-password/request", "/auth/reset-password/reset"]

  /** The user auth.getUser() reports for the request's session. */
  datatype AuthUser = AuthUser(id: string, email: Option<string>)

  /** The server client of a request, standing for the cookies it reads. */
  datatype SupabaseClient = SupabaseClient(cookies: seq<Cookies.Cookie>)

  /** createSupabaseServerInstance: getAll reads the Cookie header, or "" when there is none. */
  function ServerInstance(cookieHeader: Option<string>): (c: SupabaseClient)
    ensures c.cookies == Cookies.ParseCookieHeader(cookieHeader.GetOr(""))
  {
    SupabaseClient(Cookies.ParseCookieHeader(cookieHeader.GetOr("")))
  }

  /** A redirect, or next() with the user put in locals (None when locals.user is left unset). */
  datatype Decision = Redirect(location: string) | Proceed(user: Option<FlashcardsRoute.User>)

  predicate IsAuthPage(pathname: string) {
    pathname in AuthPages
  }

  /** `PUBLIC_PATHS.some((path) => pathname.startsWith(path))`. */
  predicate IsPublic(pathname: string) {
    exists i :: 0 <= i < |PublicPaths| && StartsWith(pathname, PublicPaths[i])
  }

  function LoginRedirect(pathname: string, search: string, encode: string -> string): string {
    "/auth/login?returnUrl=" + encode(pathname + search)
  }

  /** The decision chain; `encode` is encodeURIComponent. */
  function Route(user: Option<AuthUser>, pathname: string, search: string, encode: string -> string): (d: Decision)
    ensures user.Some? && IsAuthPage(pathname) ==> d == Redirect("/learn")
    ensures !(user.Some? && IsAuthPage(pathname)) && IsPublic(pathname) ==> d == Proceed(None)
    ensures user.None? && !IsPublic(pathname) ==> d == Redirect(LoginRedirect(pathname, search, encode))
    ensures user.Some? && !IsAuthPage(pathname) && !IsPublic(pathname) ==>
              d == Proceed(Some(FlashcardsRoute.User(user.value.id, user.value.email)))
  {
    if user.Some? && IsAuthPage(pathname) then Redirect("/learn")
    else if IsPublic(pathname) then Proceed(None)
    else if user.None? then Redirect(LoginRedirect(pathname, search, encode))
    else Proceed(Some(FlashcardsRoute.User(user.value.id, user.value.email)))
  }

  /** Every auth page is also public, so the order of the first two checks matters: a signed-in
      user asking for one is sent to /learn instead of passing through. */
  lemma AuthRedirectPrecedes(u: AuthUser, pathname: string, search: string, encode: string -> string)
    requires IsAuthPage(pathname)
    ensures IsPublic(pathname)
    ensures Route(Some(u), pathname, search, encode) == Redirect("/learn")
    ensures Route(None, pathname, search, encode) == Proceed(None)
  {
    AuthPagesArePublic(pathname);
  }

  /** The public check is a prefix match: anything under or after a public path passes. */
  lemma PublicByPrefix(suffix: string, user: Option<AuthUser>, search: string, encode: string -> string)
    requires suffix != ""
    ensures Route(user, "/api/auth/login" + suffix, search, encode) == Proceed(None)
  {
    var p := "/api/auth/login" + suffix;
    assert StartsWith(p, PublicPaths[4]) by {
      assert p[..|PublicPaths[4]|] == PublicPaths[4];
    }
    assert p[2] == 'p';
    forall i | 0 <= i < |AuthPages| ensures AuthPages[i] != p {
      assert AuthPages[i][2] == 'u';
    }
  }

  /** A protected path is reached only with the user in locals. */
  lemma ProtectedNeedsUser(user: Option<AuthUser>, pathname: string, search: string, encode: string -> string)
    requires !IsPublic(pathname)
    ensures Route(user, pathname, search, encode).Proceed? <==> user.Some?
    ensures Route(user, pathname, search, encode).Proceed? ==> Route(user, pathname, search, encode).user.Some?
  {
    AuthPagesArePublic(pathname);
  }

  lemma AuthPagesArePublic(pathname: string)
    ensures IsAuthPage(pathname) ==> IsPublic(pathname)
  {
    forall i | 0 <= i < |AuthPages| ensures AuthPages[i] == PublicPaths[i] {
    }
  }

  /** Astro's locals, as far as the middleware writes them. */
  class Locals {
    var supabase: Option<SupabaseClient>
    var user: Option<FlashcardsRoute.User>

    constructor()
      ensures supabase.None? && user.None?
    {
      supabase, user := None, None;
    }
  }

  /** onRequest: locals.supabase is set first; locals.user only on the last branch. */
  method OnRequest(locals: Locals, cookieHeader: Option<string>, user: Option<AuthUser>, pathname: string,
                   search: string, encode: string -> string) returns (d: Decision)
    modifies locals
    ensures locals.supabase == Some(ServerInstance(cookieHeader))
    ensures d == Route(user, pathname, search, encode)
    ensures d.Proceed? && d.user.Some? ==> locals.user == d.user
    ensures !(d.Proceed? && d.user.Some?) ==> locals.user == old(locals.user)
  {
    locals.supabase := Some(ServerInstance(cookieHeader));
    if user.Some? && IsAuthPage(pathname) {
      return Redirect("/learn");
    }
    if IsPublic(pathname) {
      return Proceed(None);
    }
    if user.None? {
      return Redirect(LoginRedirect(pathname, search, encode));
    }
    locals.user := Some(FlashcardsRoute.User(user.value.id, user.value.email));
    d := Proceed(locals.user);
  }
}
