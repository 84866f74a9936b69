/** backend/src/utils/cookies.ts: which auth cookie a login sets, and with which options. */
module Cookies {

  datatype Role = USER | ADMIN | SUPER_ADMIN

  datatype SameSite = Strict

  datatype CookieOptions = CookieOptions(
    httpOnly: bool,
    secure: bool,
    sameSite: SameSite,
    path: string,
    maxAge: int)

  /** What a reply says about one cookie name: set to a value, or cleared (an expired Set-Cookie). */
  datatype CookieEntry = SetTo(value: string, options: CookieOptions) | Cleared

  const SecondsPerDay := 24 * 60 * 60

  /** The three names an auth cookie can have, one per role. */
  const AuthCookieNames: set<string> := {"user_token", "admin_token", "super_admin_token"}

  /** The cookie name for a role; unknown roles cannot occur because `Role` is closed. */
  function CookieName(role: Role): (name: string)
    ensures name in AuthCookieNames
    ensures name == "user_token" <==> role == USER
    ensures name == "admin_token" <==> role == ADMIN
    ensures name == "super_admin_token" <==> role == SUPER_ADMIN
  {
    match role
    case ADMIN => "admin_token"
    case SUPER_ADMIN => "super_admin_token"
    case USER => "user_token"
  }

  /** Cookie lifetime in seconds: 30 days with "remember me", 7 days otherwise. */
  function MaxAge(rememberMe: bool): (seconds: int)
    ensures seconds > 0 && seconds % SecondsPerDay == 0
    ensures seconds / SecondsPerDay == if rememberMe then 30 else 7
  {
    if rememberMe then 30 * SecondsPerDay else 7 * SecondsPerDay
  }

  /** The options of the auth cookie; `nodeEnv` is the NODE_ENV configuration value. */
  function AuthCookieOptions(rememberMe: bool, nodeEnv: string): (o: CookieOptions)
    ensures o.httpOnly && o.sameSite == Strict && o.path == "/"
    ensures o.secure <==> nodeEnv == "production"
    ensures o.maxAge == MaxAge(rememberMe)
  {
    CookieOptions(true, nodeEnv == "production", Strict, "/", MaxAge(rememberMe))
  }

  /** Distinct roles use distinct cookies. */
  lemma CookieNameInjective(a: Role, b: Role)
    requires CookieName(a) == CookieName(b)
    ensures a == b
  {
  }

  /** The cookie part of a Fastify reply. */
  class Reply {
    var cookies: map<string, CookieEntry>

    constructor (initial: map<string, CookieEntry>)
      ensures cookies == initial
    {
      cookies := initial;
    }

    /** `reply.clearCookie(name)`. */
    method ClearCookie(name: string)
      modifies this
      ensures cookies == old(cookies)[name := Cleared]
    {
      cookies := cookies[name := Cleared];
    }

    /** `reply.setCookie(name, value, options)`. */
    method SetCookie(name: string, value: string, options: CookieOptions)
      modifies this
      ensures cookies == old(cookies)[name := SetTo(value, options)]
    {
      cookies := cookies[name := SetTo(value, options)];
    }
  }

  /** `removeAuthCookie`: all three auth cookies are cleared, whatever the reply held. */
  method RemoveAuthCookie(reply: Reply)
    modifies reply
    ensures forall n :: n in AuthCookieNames ==> n in reply.cookies && reply.cookies[n] == Cleared
    ensures forall n :: n !in AuthCookieNames ==>
      (n in reply.cookies <==> n in old(reply.cookies)) &&
      (n in reply.cookies ==> reply.cookies[n] == old(reply.cookies)[n])
  {
    reply.ClearCookie("user_token");
    reply.ClearCookie("admin_token");
    reply.ClearCookie("super_admin_token");
  }

  /** `setAuthCookie`: after it exactly one auth cookie is set, the one for the role,
      carrying the token; the other auth names are cleared; other cookies are untouched. */
  method SetAuthCookie(reply: Reply, token: string, role: Role, rememberMe: bool := false, nodeEnv: string := "")
    modifies reply
    ensures forall n :: n in AuthCookieNames ==> n in reply.cookies
    ensures forall n :: n in AuthCookieNames ==> (reply.cookies[n].SetTo? <==> n == CookieName(role))
    ensures reply.cookies[CookieName(role)] == SetTo(token, AuthCookieOptions(rememberMe, nodeEnv))
    ensures forall n :: n in AuthCookieNames && n != CookieName(role) ==> reply.cookies[n] == Cleared
    ensures forall n :: n !in AuthCookieNames ==>
      (n in reply.cookies <==> n in old(reply.cookies)) &&
      (n in reply.cookies ==> reply.cookies[n] == old(reply.cookies)[n])
  {
    var cookieName := CookieName(role);
    RemoveAuthCookie(reply);
    reply.SetCookie(cookieName, token, AuthCookieOptions(rememberMe, nodeEnv));
  }

  /** A login after another login, with any roles, still leaves one auth cookie: the newest. */
  method SwitchRole(reply: Reply, first: string, second: string, r1: Role, r2: Role)
    modifies reply
    ensures forall n :: n in AuthCookieNames ==>
      n in reply.cookies && (reply.cookies[n].SetTo? <==> n == CookieName(r2))
    ensures CookieName(r2) in reply.cookies && reply.cookies[CookieName(r2)].value == second
  {
    SetAuthCookie(reply, first, r1);
    SetAuthCookie(reply, second, r2);
  }
}
