/**
 * The middleware as the source runs it: one pass over a request object whose
 * `nextUrl` and `cookies` it changes in place, with a local copy of the
 * headers that the rules update, and an early return at each decisive rule.
 * Its contract ties the result and the new state of the request to the rule
 * chain of module Routing, whose properties module RoutingProperties proves.
 */
module Middleware {
  import opened Strings
  import opened SlugPath
  import opened Routing

  /** The incoming request: `req.nextUrl` and `req.cookies` can be updated, `req.headers` cannot. */
  class NextRequest {
    var nextUrl: Url
    const headers: Headers
    var cookies: Cookies

    constructor (url: Url, headers: Headers, cookies: Cookies)
      ensures nextUrl == url && this.headers == headers && this.cookies == cookies
    {
      this.nextUrl := url;
      this.headers := headers;
      this.cookies := cookies;
    }

    /** The request as a value. */
    function Snapshot(): Request
      reads this
    {
      Request(nextUrl, headers, cookies)
    }
  }

  /** Lines 13-31: copy the headers and apply the two new-booker toggles to them and to the cookies. */
  method ApplyNewBookerToggles(req: NextRequest, env: Env) returns (requestHeaders: Headers)
    modifies req`cookies
    ensures requestHeaders == ToggledHeaders(old(req.Snapshot()), env)
    ensures req.cookies == ToggledCookies(old(req.Snapshot()), env)
  {
    requestHeaders := req.headers;
    var isEmbedRequest := EmbedParam in req.nextUrl.searchParams;

    if env.newBookerForNonEmbed == Some("1") && !isEmbedRequest {
      req.cookies := req.cookies[NewBookerName := "1"];
      requestHeaders := requestHeaders[NewBookerName := "1"];
    }
    if env.newBookerForEmbed == Some("1") && isEmbedRequest {
      req.cookies := req.cookies[NewBookerName := "1"];
      requestHeaders := requestHeaders[NewBookerName := "1"];
    }
  }

  /**
   * Lines 33-88: the organization-root, banlist, maintenance and abuse-guard rules.
   * A decision points at `req.nextUrl` as updated; `None` leaves it alone.
   */
  method ApplyGuardRules(req: NextRequest, facts: Facts, env: Env) returns (d: Option<Decision>)
    modifies req`nextUrl
    ensures d == GuardDecision(old(req.nextUrl), facts, env)
    ensures d.Some? ==> req.nextUrl == d.value.url
    ensures d.None? ==> req.nextUrl == old(req.nextUrl)
  {
    if facts.org.isValidOrgDomain && req.nextUrl.pathname == "/" {
      req.nextUrl := req.nextUrl.(pathname := "/org/" + facts.org.currentOrgDomain);
      return Some(Rewrite(req.nextUrl));
    }

    if facts.ipInBanlist && req.nextUrl.pathname != NopePath {
      req.nextUrl := req.nextUrl.(pathname := NopePath);
      return Some(Redirect(req.nextUrl));
    }

    // Lines 47-51 repeat the banlist check with the same condition and the same redirect;
    // the first check has already returned whenever it holds.
    if facts.ipInBanlist && req.nextUrl.pathname != NopePath {
      assert false;
    }

    if !StartsWith(req.nextUrl.pathname, ApiPrefix) {
      match facts.maintenance
      case MaintenanceFlag(isInMaintenanceMode) =>
        if isInMaintenanceMode {
          req.nextUrl := req.nextUrl.(pathname := MaintenancePath);
          return Some(Rewrite(req.nextUrl));
        }
      case MaintenanceThrew =>
    }

    if SomeStartsWith(req.nextUrl.pathname, AbusePrefixes) {
      var callbackUrl := if CallbackParam in req.nextUrl.searchParams then req.nextUrl.searchParams[CallbackParam] else "";
      if facts.isBot
        || (callbackUrl != "" && !SomeStartsWith(callbackUrl, [env.consoleUrl, env.webappUrl, env.websiteUrl]))
        || facts.ipInBanlist
      {
        req.nextUrl := req.nextUrl.(pathname := NopePath);
        return Some(Redirect(req.nextUrl));
      }
    }
    return None;
  }

  /** Lines 90-101: the embed-parameter and routing_forms rules. */
  method ApplyUrlRules(req: NextRequest) returns (d: Option<Decision>)
    modifies req`nextUrl
    ensures d == UrlDecision(old(req.nextUrl))
    ensures d.Some? ==> req.nextUrl == d.value.url
    ensures d.None? ==> req.nextUrl == old(req.nextUrl)
  {
    if EndsWith(req.nextUrl.pathname, EmbedSuffix) && EmbedParam !in req.nextUrl.searchParams {
      req.nextUrl := req.nextUrl.(searchParams := req.nextUrl.searchParams[EmbedParam := ""]);
      return Some(Redirect(req.nextUrl));
    }

    if StartsWith(req.nextUrl.pathname, RoutingFormsOld) {
      req.nextUrl := req.nextUrl.(pathname := ReplaceFirst(req.nextUrl.pathname, RoutingFormsOld, RoutingFormsNew));
      return Some(Rewrite(req.nextUrl));
    }
    return None;
  }

  /** Lines 103-110: the timezone and CSP headers. */
  method ApplyHeaderRules(url: Url, incoming: Headers, headers: Headers) returns (requestHeaders: Headers)
    ensures requestHeaders == HeaderRules(url, incoming, headers)
  {
    requestHeaders := headers;
    if StartsWith(url.pathname, TrpcPrefix) {
      requestHeaders := requestHeaders[TimezoneHeader := HeaderOr(incoming, VercelTimezoneHeader, "")];
    }
    if StartsWith(url.pathname, LoginPrefix) {
      requestHeaders := requestHeaders[CspHeader := "true"];
    }
  }

  /** Lines 112-136: the organization subteam rule, then the pass-through. */
  method ApplySubteamRule(req: NextRequest, facts: Facts, requestHeaders: Headers) returns (d: Decision)
    modifies req`nextUrl
    ensures d == SubteamRule(old(req.nextUrl), facts, requestHeaders)
    ensures d.Rewrite? ==> req.nextUrl == d.url
    ensures !d.Rewrite? ==> req.nextUrl == old(req.nextUrl)
  {
    if facts.org.isValidOrgDomain {
      var slugs := MatchSlugs(req.nextUrl.pathname);
      if slugs.Some? {
        var teamName := slugs.value.teamName;
        match facts.subteams
        case SubteamsThrew =>
          return Rejected;
        case SubteamsNotOk =>
        case SubteamsOk(subteamSlugs) =>
          if teamName in subteamSlugs {
            req.nextUrl := req.nextUrl.(pathname := "/team/" + teamName + EventTypeOrEmpty(slugs.value));
            return Rewrite(req.nextUrl);
          }
      }
    }
    return Next(requestHeaders);
  }

  /**
   * The middleware on one request, with the collaborators' answers in `facts`.
   * The URL in a rewrite or redirect is `req.nextUrl` itself, updated in place;
   * a pass-through or a rejection leaves it as it was.
   */
  method HandleRequest(req: NextRequest, facts: Facts, env: Env) returns (d: Decision)
    modifies req
    ensures d == Route(old(req.Snapshot()), facts, env).decision
    ensures req.cookies == Route(old(req.Snapshot()), facts, env).cookies
    ensures d.Rewrite? || d.Redirect? ==> req.nextUrl == d.url
    ensures d.Next? || d.Rejected? ==> req.nextUrl == old(req.nextUrl)
  {
    var requestHeaders := ApplyNewBookerToggles(req, env);

    var guard := ApplyGuardRules(req, facts, env);
    if guard.Some? {
      return guard.value;
    }

    var rename := ApplyUrlRules(req);
    if rename.Some? {
      return rename.value;
    }

    requestHeaders := ApplyHeaderRules(req.nextUrl, req.headers, requestHeaders);
    d := ApplySubteamRule(req, facts, requestHeaders);
  }
}
