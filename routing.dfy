/**
 * The request-routing rule chain of the web app's edge middleware, as a pure
 * function of the request and of the already-resolved answers of its
 * collaborators (organization-domain resolution, banlist, edge-config
 * maintenance flag, user-agent parsing, subteams fetch) and environment.
 *
 * The chain runs in a fixed order and the first decisive rule wins:
 *   new-booker toggles (never decisive), organization root, banlist (twice),
 *   maintenance, abuse guard, embed parameter, routing_forms rename,
 *   timezone and CSP headers (never decisive), organization subteam, pass-through.
 */
module Routing {
  import opened Strings
  import opened SlugPath

  type Headers = map<string, string>
  type Cookies = map<string, string>

  /** `req.nextUrl`: its pathname and its query parameters (first value per name). */
  datatype Url = Url(pathname: string, searchParams: map<string, string>)

  datatype Request = Request(nextUrl: Url, headers: Headers, cookies: Cookies)

  /** The result of `orgDomainConfig(host)`. */
  datatype OrgDomain = OrgDomain(isValidOrgDomain: bool, currentOrgDomain: string)

  /** `await get<boolean>("isInMaintenanceMode")`: a value (absent reads as false), or a throw. */
  datatype MaintenanceLookup = MaintenanceFlag(isInMaintenanceMode: bool) | MaintenanceThrew

  /**
   * The subteams fetch: a response that is not ok, an ok response whose
   * `data.slugs` is the list, or a throw from `fetch`, `.json()` or `data.slugs`.
   */
  datatype SubteamsLookup = SubteamsNotOk | SubteamsOk(slugs: seq<string>) | SubteamsThrew

  /** The answers of the collaborators for this one request. */
  datatype Facts = Facts(
    org: OrgDomain,
    ipInBanlist: bool,
    maintenance: MaintenanceLookup,
    isBot: bool,
    subteams: SubteamsLookup)

  /** The environment toggles (`None` when unset) and the three known application origins. */
  datatype Env = Env(
    newBookerForNonEmbed: Option<string>,
    newBookerForEmbed: Option<string>,
    consoleUrl: string,
    webappUrl: string,
    websiteUrl: string)

  /**
   * What the middleware returns: `NextResponse.rewrite(url)`,
   * `NextResponse.redirect(url)`, `NextResponse.next` with the outgoing request
   * headers, or a rejected promise (an exception the middleware does not catch).
   */
  datatype Decision = Rewrite(url: Url) | Redirect(url: Url) | Next(requestHeaders: Headers) | Rejected

  /** The decision together with the request cookies as the middleware leaves them. */
  datatype Outcome = Outcome(decision: Decision, cookies: Cookies)

  const NewBookerName := "new-booker-enabled"
  const NopePath := "/api/nope"
  const MaintenancePath := "/maintenance"
  const ApiPrefix := "/api"
  const AbusePrefixes := ["/api/collect-events", "/api/auth"]
  const EmbedSuffix := "/embed"
  const EmbedParam := "embed"
  const CallbackParam := "callbackUrl"
  const RoutingFormsOld := "/apps/routing_forms"
  const RoutingFormsNew := "/apps/routing-forms"
  const TrpcPrefix := "/api/trpc/"
  const LoginPrefix := "/auth/login"
  const TimezoneHeader := "x-cal-timezone"
  const VercelTimezoneHeader := "x-vercel-ip-timezone"
  const CspHeader := "x-csp-enforce"

  /** `headers.get(name) ?? fallback`. */
  function HeaderOr(h: Headers, name: string, fallback: string): (v: string) {
    if name in h then h[name] else fallback
  }

  /** `typeof url.searchParams.get("embed") === "string"`. */
  predicate IsEmbedRequest(url: Url) {
    EmbedParam in url.searchParams
  }

  predicate NonEmbedToggleApplies(url: Url, env: Env) {
    env.newBookerForNonEmbed == Some("1") && !IsEmbedRequest(url)
  }

  predicate EmbedToggleApplies(url: Url, env: Env) {
    env.newBookerForEmbed == Some("1") && IsEmbedRequest(url)
  }

  /** `requestHeaders` after the two new-booker toggles. */
  function ToggledHeaders(req: Request, env: Env): (r: Headers) {
    var h := if NonEmbedToggleApplies(req.nextUrl, env) then req.headers[NewBookerName := "1"] else req.headers;
    if EmbedToggleApplies(req.nextUrl, env) then h[NewBookerName := "1"] else h
  }

  /** `req.cookies` after the two new-booker toggles. */
  function ToggledCookies(req: Request, env: Env): (r: Cookies) {
    var c := if NonEmbedToggleApplies(req.nextUrl, env) then req.cookies[NewBookerName := "1"] else req.cookies;
    if EmbedToggleApplies(req.nextUrl, env) then c[NewBookerName := "1"] else c
  }

  predicate OrgRootApplies(url: Url, facts: Facts) {
    facts.org.isValidOrgDomain && url.pathname == "/"
  }

  predicate BanlistApplies(url: Url, facts: Facts) {
    facts.ipInBanlist && url.pathname != NopePath
  }

  predicate MaintenanceApplies(url: Url, facts: Facts) {
    !StartsWith(url.pathname, ApiPrefix) && facts.maintenance == MaintenanceFlag(true)
  }

  /** A `callbackUrl` that is present, non-empty and under none of the known origins. */
  predicate CallbackRejected(url: Url, env: Env) {
    && CallbackParam in url.searchParams
    && url.searchParams[CallbackParam] != ""
    && !SomeStartsWith(url.searchParams[CallbackParam], [env.consoleUrl, env.webappUrl, env.websiteUrl])
  }

  predicate UnderAbusePrefix(url: Url) {
    SomeStartsWith(url.pathname, AbusePrefixes)
  }

  predicate AbuseGuardApplies(url: Url, facts: Facts, env: Env) {
    UnderAbusePrefix(url) && (facts.isBot || CallbackRejected(url, env) || facts.ipInBanlist)
  }

  predicate EmbedParamApplies(url: Url) {
    EndsWith(url.pathname, EmbedSuffix) && !IsEmbedRequest(url)
  }

  predicate RoutingFormsApplies(url: Url) {
    StartsWith(url.pathname, RoutingFormsOld)
  }

  /**
   * The organization-root, banlist, maintenance and abuse-guard rules: a decision, or
   * `None` to go on. The banlist check is written twice, as the source has it.
   */
  function GuardDecision(url: Url, facts: Facts, env: Env): (d: Option<Decision>) {
    if OrgRootApplies(url, facts) then Some(Rewrite(url.(pathname := "/org/" + facts.org.currentOrgDomain)))
    else if BanlistApplies(url, facts) then Some(Redirect(url.(pathname := NopePath)))
    else if BanlistApplies(url, facts) then Some(Redirect(url.(pathname := NopePath)))
    else if MaintenanceApplies(url, facts) then Some(Rewrite(url.(pathname := MaintenancePath)))
    else if AbuseGuardApplies(url, facts, env) then Some(Redirect(url.(pathname := NopePath)))
    else None
  }

  /** The embed-parameter and routing_forms rules: a decision, or `None` to go on. */
  function UrlDecision(url: Url): (d: Option<Decision>) {
    if EmbedParamApplies(url) then Some(Redirect(url.(searchParams := url.searchParams[EmbedParam := ""])))
    else if RoutingFormsApplies(url)
    then Some(Rewrite(url.(pathname := ReplaceFirst(url.pathname, RoutingFormsOld, RoutingFormsNew))))
    else None
  }

  /** `requestHeaders` after the timezone and CSP rules; `incoming` is `req.headers`. */
  function HeaderRules(url: Url, incoming: Headers, headers: Headers): (r: Headers) {
    var h := if StartsWith(url.pathname, TrpcPrefix)
             then headers[TimezoneHeader := HeaderOr(incoming, VercelTimezoneHeader, "")]
             else headers;
    if StartsWith(url.pathname, LoginPrefix) then h[CspHeader := "true"] else h
  }

  /** The organization subteam rule, ending in the pass-through with `headers`. */
  function SubteamRule(url: Url, facts: Facts, headers: Headers): (d: Decision) {
    if !facts.org.isValidOrgDomain then Next(headers)
    else match MatchSlugs(url.pathname)
      case None => Next(headers)
      case Some(m) =>
        match facts.subteams
        case SubteamsThrew => Rejected
        case SubteamsNotOk => Next(headers)
        case SubteamsOk(slugs) =>
          if m.teamName in slugs
          then Rewrite(url.(pathname := "/team/" + m.teamName + EventTypeOrEmpty(m)))
          else Next(headers)
  }

  /** The rule chain after the toggles; `headers` is `requestHeaders` as the toggles left it. */
  function Decide(url: Url, incoming: Headers, headers: Headers, facts: Facts, env: Env): (r: Decision) {
    match GuardDecision(url, facts, env)
    case Some(d) => d
    case None =>
      match UrlDecision(url)
      case Some(d) => d
      case None => SubteamRule(url, facts, HeaderRules(url, incoming, headers))
  }

  /** The whole middleware for one request. */
  function Route(req: Request, facts: Facts, env: Env): (o: Outcome) {
    Outcome(Decide(req.nextUrl, req.headers, ToggledHeaders(req, env), facts, env), ToggledCookies(req, env))
  }
}
