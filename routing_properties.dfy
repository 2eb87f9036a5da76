/**
 * What the rule chain of module Routing promises, one lemma (or a few) per rule:
 * which rule decides for given inputs, what the decision is, and what each
 * rule leaves alone.
 */
module RoutingProperties {
  import opened Strings
  import opened SlugPath
  import opened Routing

  /** Neither the guard rules nor the URL rules decide: the request reaches the header and subteam rules. */
  predicate EarlyRulesPass(req: Request, facts: Facts, env: Env) {
    GuardDecision(req.nextUrl, facts, env).None? && UrlDecision(req.nextUrl).None?
  }

  /** The guard rules with one banlist check and without the banlist clause of the abuse guard. */
  function GuardDecisionWithoutDeadChecks(url: Url, facts: Facts, env: Env): (d: Option<Decision>) {
    if OrgRootApplies(url, facts) then Some(Rewrite(url.(pathname := "/org/" + facts.org.currentOrgDomain)))
    else if BanlistApplies(url, facts) then Some(Redirect(url.(pathname := NopePath)))
    else if MaintenanceApplies(url, facts) then Some(Rewrite(url.(pathname := MaintenancePath)))
    else if UnderAbusePrefix(url) && (facts.isBot || CallbackRejected(url, env)) then Some(Redirect(url.(pathname := NopePath)))
    else None
  }

  /** What a path under one of the abuse-guard prefixes is not. */
  lemma AbusePrefixFacts(p: string)
    requires SomeStartsWith(p, AbusePrefixes)
    ensures StartsWith(p, ApiPrefix) && p != NopePath && !StartsWith(p, RoutingFormsOld)
  {
    var i :| 0 <= i < |AbusePrefixes| && StartsWith(p, AbusePrefixes[i]);
    var q := AbusePrefixes[i];
    assert p[..|q|] == q;
    assert p[..4] == q[..4] == ApiPrefix;
    assert p[5] == q[5] && (q[5] == 'c' || q[5] == 'a');
    assert p[3] == 'i';
  }

  /** An old routing_forms path is neither an API path nor under an abuse-guard prefix. */
  lemma RoutingFormsNotApi(p: string)
    requires StartsWith(p, RoutingFormsOld)
    ensures !StartsWith(p, ApiPrefix) && !SomeStartsWith(p, AbusePrefixes)
  {
    assert p[3] == 'p';
    forall i | 0 <= i < |AbusePrefixes| ensures !StartsWith(p, AbusePrefixes[i]) {
      assert AbusePrefixes[i][3] == 'i';
    }
  }

  /** The no-op endpoint is an API path outside the abuse-guard prefixes. */
  lemma NopeNotUnderAbusePrefix()
    ensures StartsWith(NopePath, ApiPrefix) && !SomeStartsWith(NopePath, AbusePrefixes)
  {
    forall i | 0 <= i < |AbusePrefixes| ensures !StartsWith(NopePath, AbusePrefixes[i]) {
      assert AbusePrefixes[i][5] != NopePath[5];
    }
  }

  // ---------------------------------------------------------------- org root

  /** On an organization domain, `/` is rewritten to the organization's page whatever else holds. */
  lemma OrgRootRewrites(req: Request, facts: Facts, env: Env)
    requires facts.org.isValidOrgDomain && req.nextUrl.pathname == "/"
    ensures Route(req, facts, env).decision == Rewrite(Url("/org/" + facts.org.currentOrgDomain, req.nextUrl.searchParams))
  {
  }

  // ---------------------------------------------------------------- banlist

  /** A banned client is redirected to the no-op endpoint, query kept, unless it is already there. */
  lemma BannedRedirectsToNope(req: Request, facts: Facts, env: Env)
    requires facts.ipInBanlist && req.nextUrl.pathname != NopePath
    requires !(facts.org.isValidOrgDomain && req.nextUrl.pathname == "/")
    ensures Route(req, facts, env).decision == Redirect(Url(NopePath, req.nextUrl.searchParams))
  {
  }

  /** At the no-op endpoint the banlist answer changes nothing. */
  lemma NopeIgnoresBanlist(req: Request, facts: Facts, env: Env)
    requires req.nextUrl.pathname == NopePath
    ensures Route(req, facts, env) == Route(req, facts.(ipInBanlist := false), env)
  {
    NopeNotUnderAbusePrefix();
  }

  /** The repeated banlist check and the banlist clause of the abuse guard never decide on their own. */
  lemma DeadBanlistChecks(url: Url, facts: Facts, env: Env)
    ensures GuardDecision(url, facts, env) == GuardDecisionWithoutDeadChecks(url, facts, env)
  {
    NopeNotUnderAbusePrefix();
  }

  // ---------------------------------------------------------------- maintenance

  /** Outside `/api`, maintenance mode rewrites to the maintenance page, query kept. */
  lemma MaintenanceRewrites(req: Request, facts: Facts, env: Env)
    requires !StartsWith(req.nextUrl.pathname, ApiPrefix)
    requires facts.maintenance == MaintenanceFlag(true)
    requires !facts.ipInBanlist
    requires !(facts.org.isValidOrgDomain && req.nextUrl.pathname == "/")
    ensures Route(req, facts, env).decision == Rewrite(Url(MaintenancePath, req.nextUrl.searchParams))
  {
  }

  /**
   * A maintenance lookup that answers false or throws is treated alike (fail-open): the
   * request goes on to the abuse guard and the later rules as if maintenance were off.
   */
  lemma MaintenanceFailOpen(req: Request, facts: Facts, env: Env)
    requires facts.maintenance != MaintenanceFlag(true)
    ensures !MaintenanceApplies(req.nextUrl, facts)
    ensures Route(req, facts, env) == Route(req, facts.(maintenance := MaintenanceFlag(false)), env)
  {
  }

  /** Under `/api` the maintenance lookup never affects the result. */
  lemma ApiIgnoresMaintenance(req: Request, facts: Facts, env: Env, other: MaintenanceLookup)
    requires StartsWith(req.nextUrl.pathname, ApiPrefix)
    ensures Route(req, facts, env) == Route(req, facts.(maintenance := other), env)
  {
  }

  // ---------------------------------------------------------------- abuse guard

  /** A callback URL is refused exactly when it is present, non-empty and under none of the three origins. */
  lemma CallbackRejectedIff(url: Url, env: Env)
    ensures CallbackRejected(url, env) <==>
      && CallbackParam in url.searchParams
      && url.searchParams[CallbackParam] != ""
      && !StartsWith(url.searchParams[CallbackParam], env.consoleUrl)
      && !StartsWith(url.searchParams[CallbackParam], env.webappUrl)
      && !StartsWith(url.searchParams[CallbackParam], env.websiteUrl)
  {
    if CallbackParam in url.searchParams {
      var origins := [env.consoleUrl, env.webappUrl, env.websiteUrl];
      assert origins[0] == env.consoleUrl && origins[1] == env.webappUrl && origins[2] == env.websiteUrl;
    }
  }

  /**
   * Under `/api/collect-events` and `/api/auth`: a bot, a refused callback URL or a
   * banned client is redirected to the no-op endpoint; any other request is not.
   */
  lemma AbuseGuard(req: Request, facts: Facts, env: Env)
    requires UnderAbusePrefix(req.nextUrl)
    ensures facts.isBot || CallbackRejected(req.nextUrl, env) || facts.ipInBanlist ==>
      Route(req, facts, env).decision == Redirect(Url(NopePath, req.nextUrl.searchParams))
    ensures !(facts.isBot || CallbackRejected(req.nextUrl, env) || facts.ipInBanlist) ==>
      var d := Route(req, facts, env).decision;
      d.Redirect? ==> d.url.pathname == req.nextUrl.pathname && d.url.pathname != NopePath
    ensures !(facts.isBot || CallbackRejected(req.nextUrl, env) || facts.ipInBanlist) ==>
      GuardDecision(req.nextUrl, facts, env).None?
  {
    AbusePrefixFacts(req.nextUrl.pathname);
  }

  // ---------------------------------------------------------------- embed parameter

  /**
   * A path ending in `/embed` without an `embed` parameter is redirected to the same
   * URL with `embed=""` added; the redirect target is an embed request and, replayed
   * with the same facts, is not redirected again.
   */
  lemma EmbedParamRedirect(req: Request, facts: Facts, env: Env)
    requires EmbedParamApplies(req.nextUrl)
    requires !facts.ipInBanlist
    requires !MaintenanceApplies(req.nextUrl, facts)
    requires !(UnderAbusePrefix(req.nextUrl) && (facts.isBot || CallbackRejected(req.nextUrl, env)))
    ensures var u := Url(req.nextUrl.pathname, req.nextUrl.searchParams[EmbedParam := ""]);
      && Route(req, facts, env).decision == Redirect(u)
      && u.searchParams.Keys == req.nextUrl.searchParams.Keys + {EmbedParam}
      && IsEmbedRequest(u)
      && !Route(req.(nextUrl := u), facts, env).decision.Redirect?
  {
    var u := Url(req.nextUrl.pathname, req.nextUrl.searchParams[EmbedParam := ""]);
    assert req.nextUrl.pathname != "/";
    assert CallbackRejected(u, env) == CallbackRejected(req.nextUrl, env);
  }

  /** With an `embed` parameter present, whatever its value, the embed rule does not fire. */
  lemma EmbedParamPresentSkips(req: Request, facts: Facts, env: Env)
    requires IsEmbedRequest(req.nextUrl)
    requires GuardDecision(req.nextUrl, facts, env).None?
    ensures !Route(req, facts, env).decision.Redirect?
  {
  }

  // ---------------------------------------------------------------- routing_forms

  /** Old `routing_forms` links are rewritten to `routing-forms`, the rest of the path untouched. */
  lemma RoutingFormsRewrite(req: Request, facts: Facts, env: Env)
    requires RoutingFormsApplies(req.nextUrl)
    requires !facts.ipInBanlist && facts.maintenance != MaintenanceFlag(true)
    requires !EmbedParamApplies(req.nextUrl)
    ensures Route(req, facts, env).decision ==
      Rewrite(Url(RoutingFormsNew + req.nextUrl.pathname[|RoutingFormsOld|..], req.nextUrl.searchParams))
  {
    var p := req.nextUrl.pathname;
    ReplaceFirstAtStart(p, RoutingFormsOld, RoutingFormsNew);
    RoutingFormsNotApi(p);
  }

  // ---------------------------------------------------------------- subteams

  /** On an organization domain, `/team/path` shapes naming a known subteam are rewritten to the team page. */
  lemma SubteamRewrite(req: Request, facts: Facts, env: Env, m: SlugMatch)
    requires EarlyRulesPass(req, facts, env)
    requires facts.org.isValidOrgDomain
    requires Matches(req.nextUrl.pathname, m)
    requires facts.subteams.SubteamsOk? && m.teamName in facts.subteams.slugs
    ensures Route(req, facts, env).decision ==
      Rewrite(Url("/team/" + m.teamName + EventTypeOrEmpty(m), req.nextUrl.searchParams))
  {
    MatchSlugsComplete(req.nextUrl.pathname, m);
  }

  /**
   * Once the early rules have passed, the decision is the subteam rewrite only when all of
   * its conditions hold, `Rejected` exactly when the subteams lookup threw for a matching
   * path, and otherwise the pass-through with the header rules applied.
   */
  lemma SubteamOnlyIf(req: Request, facts: Facts, env: Env)
    requires EarlyRulesPass(req, facts, env)
    ensures var d := Route(req, facts, env).decision;
      var p := req.nextUrl.pathname;
      && (d.Rewrite? ==>
            && facts.org.isValidOrgDomain
            && MatchSlugs(p).Some? && Matches(p, MatchSlugs(p).value)
            && facts.subteams.SubteamsOk?
            && MatchSlugs(p).value.teamName in facts.subteams.slugs
            && d.url == Url("/team/" + MatchSlugs(p).value.teamName + EventTypeOrEmpty(MatchSlugs(p).value),
                            req.nextUrl.searchParams))
      && (d == Rejected <==>
            facts.org.isValidOrgDomain && !(forall m :: !Matches(p, m)) && facts.subteams.SubteamsThrew?)
      && (d.Rewrite? || d == Rejected || d == Next(HeaderRules(req.nextUrl, req.headers, ToggledHeaders(req, env))))
  {
    MatchSlugsSound(req.nextUrl.pathname);
    MatchSlugsNone(req.nextUrl.pathname);
  }

  // ---------------------------------------------------------------- headers and cookies

  /** At most one of the two new-booker toggles applies to a request. */
  lemma TogglesExclusive(url: Url, env: Env)
    ensures !(NonEmbedToggleApplies(url, env) && EmbedToggleApplies(url, env))
  {
  }

  /**
   * The pass-through carries the incoming headers with exactly three possible changes:
   * the new-booker flag, the timezone copied for tRPC calls, and CSP enforcement on login.
   */
  lemma NextHeaders(req: Request, facts: Facts, env: Env)
    requires Route(req, facts, env).decision.Next?
    ensures var h := Route(req, facts, env).decision.requestHeaders;
      var p := req.nextUrl.pathname;
      && (forall k :: k != NewBookerName && k != TimezoneHeader && k != CspHeader ==>
            (k in h <==> k in req.headers) && (k in h ==> h[k] == req.headers[k]))
      && (NonEmbedToggleApplies(req.nextUrl, env) || EmbedToggleApplies(req.nextUrl, env) ==>
            NewBookerName in h && h[NewBookerName] == "1")
      && (!NonEmbedToggleApplies(req.nextUrl, env) && !EmbedToggleApplies(req.nextUrl, env) ==>
            (NewBookerName in h <==> NewBookerName in req.headers)
            && (NewBookerName in h ==> h[NewBookerName] == req.headers[NewBookerName]))
      && (StartsWith(p, TrpcPrefix) ==>
            TimezoneHeader in h && h[TimezoneHeader] == HeaderOr(req.headers, VercelTimezoneHeader, ""))
      && (!StartsWith(p, TrpcPrefix) ==>
            (TimezoneHeader in h <==> TimezoneHeader in req.headers)
            && (TimezoneHeader in h ==> h[TimezoneHeader] == req.headers[TimezoneHeader]))
      && (StartsWith(p, LoginPrefix) ==> CspHeader in h && h[CspHeader] == "true")
      && (!StartsWith(p, LoginPrefix) ==>
            (CspHeader in h <==> CspHeader in req.headers)
            && (CspHeader in h ==> h[CspHeader] == req.headers[CspHeader]))
  {
  }

  /** The only cookie the middleware sets is the new-booker one, and only when a toggle applies. */
  lemma CookiesChanged(req: Request, facts: Facts, env: Env)
    ensures var c := Route(req, facts, env).cookies;
      && (forall k :: k != NewBookerName ==> (k in c <==> k in req.cookies) && (k in c ==> c[k] == req.cookies[k]))
      && (NonEmbedToggleApplies(req.nextUrl, env) || EmbedToggleApplies(req.nextUrl, env) ==>
            NewBookerName in c && c[NewBookerName] == "1")
      && (!NonEmbedToggleApplies(req.nextUrl, env) && !EmbedToggleApplies(req.nextUrl, env) ==> c == req.cookies)
  {
  }
}
