# Edge middleware rule chain of the scheduling web app

This project models the request-routing middleware of the web application
(`apps/web/middleware.ts`, the `middleware` function). For each incoming
request it makes exactly one decision:

- rewrite the URL (`NextResponse.rewrite`);
- redirect (`NextResponse.redirect`);
- pass the request through with extra headers (`NextResponse.next`).

Along the way it may set the `new-booker-enabled` request cookie. It uses a
fixed order of rules, and the first decisive rule wins:

1. the two new-booker toggles, which set the cookie and a header and never decide;
2. the organization root `/` rewrite;
3. the IP banlist redirect to `/api/nope`, written twice in the source;
4. the maintenance-mode rewrite for non-API paths, which fails open when the lookup throws;
5. the abuse guard for `/api/collect-events` and `/api/auth`: bot, foreign `callbackUrl`, or banned IP;
6. the `embed` query-parameter redirect;
7. the `routing_forms` to `routing-forms` rewrite;
8. the tRPC timezone header and the login CSP header, which never decide;
9. the organization subteam rewrite;
10. the pass-through.

The collaborators whose code is not part of this model arrive as plain input
values in `Routing.Facts`:

- `orgDomainConfig`;
- `isIpInBanlist`;
- `userAgent`;
- edge-config `get`;
- the subteams `fetch`.

The environment toggles and the `CONSOLE_URL`, `WEBAPP_URL` and `WEBSITE_URL`
constants arrive in `Routing.Env`.

Files:

- `strings.dfy` (module `Strings`): the JavaScript string operations used by the rules. These are `startsWith`, `endsWith`, `replace` with a string pattern (with the first-occurrence search it performs), and the `[...].some(startsWith)` idiom.
- `slug_path.dfy` (module `SlugPath`): the regular expression `/^\/([^/]+)(\/[^/]+)?$/`. `MatchSlugs` is a scanner. `Matches` is a declarative statement of what the expression accepts, with lemmas proving the two agree on every path.
- `routing.dfy` (module `Routing`): the rule chain as a pure function `Route`. It is built from the source's sections: `ToggledHeaders`/`ToggledCookies` (lines 13-31), then `GuardDecision` (33-88), `UrlDecision` (90-101), `HeaderRules` (103-110) and `SubteamRule` (112-136).
- `routing_properties.dfy` (module `RoutingProperties`): lemmas, one or more per rule. They say which rule decides for given inputs, what it decides, and what it leaves alone.
- `middleware.dfy` (module `Middleware`): the middleware as the source runs it. `NextRequest` is a request object whose `nextUrl` and `cookies` are updated in place. A local `requestHeaders` map is threaded through one method per source section, with an early return at each decisive rule. `HandleRequest` is proved to return `Route`'s decision. It is also proved to leave `req.cookies` as `Route` says, and `req.nextUrl` equal to the URL of the rewrite or redirect. The redirects at lines 43, 49 and 85 and the rewrite at line 65 therefore keep the original query.

The pure chain keeps the second banlist check (lines 47-51) and the banlist
clause at line 82 exactly as written. `RoutingProperties.DeadBanlistChecks`
proves that removing both changes no decision. In the imperative
`Middleware.ApplyGuardRules`, the body of the repeated check is `assert false`,
which proves that branch unreachable.

Three behaviours of the code that a quick reading might miss, and that the model follows:

- A subteams lookup that throws (`fetch`, `.json()` or a missing `data.slugs`) is not caught at lines 119-123. The middleware's promise then rejects (`Decision.Rejected`); this is not treated as "no match". Only a response that is not ok falls through.
- The CSP header is set for every path that starts with `/auth/login`, not only for that exact path.
- A `callbackUrl` is accepted when it is absent or empty, or when it merely starts with one of the three origins. No origin comparison is made.

## Model

| member | source | states |
|---|---|---|
| `Strings.IndexOfFrom` | apps/web/middleware.ts:99 | the index found is an occurrence of the pattern with no earlier occurrence from `from` on; `None` means there is no occurrence at or after `from` |
| `Strings.ReplaceFirst` | apps/web/middleware.ts:99 | with no occurrence the string is returned unchanged; otherwise the result is the string before the first occurrence, then the replacement, then the string after that occurrence (so the length changes by exactly the pattern/replacement difference) |
| `Strings.ReplaceFirstAtStart` | apps/web/middleware.ts:98-99 | on a string that starts with the pattern, `replace` gives the replacement followed by the untouched rest |
| `Strings.SomeStartsWith` | apps/web/middleware.ts:75-81 | true exactly when some listed prefix (path prefixes, callback origins) starts the string |
| `SlugPath.MatchSlugsSound` | apps/web/middleware.ts:114-117 | every match reported is one or two non-empty slash-free segments making up the whole path; the groups are the first segment and the slash-led second one |
| `SlugPath.MatchSlugsComplete` | apps/web/middleware.ts:114-117 | every path the regular expression accepts is matched, with exactly those groups |
| `SlugPath.MatchSlugsNone` | apps/web/middleware.ts:114-116 | `exec` gives null exactly when no split of the path is accepted |
| `RoutingProperties.OrgRootRewrites` | apps/web/middleware.ts:34-39 | on a valid org domain, `/` always gives `Rewrite` to `/org/{currentOrgDomain}` with the query kept, whatever the banlist, maintenance and other inputs |
| `RoutingProperties.BannedRedirectsToNope` | apps/web/middleware.ts:41-45 | a banned IP not at `/api/nope` (and not the org-root case) gets `Redirect` to `/api/nope` with the query unchanged |
| `RoutingProperties.NopeIgnoresBanlist` | apps/web/middleware.ts:41-51 | at `/api/nope` the result (decision and cookies) is the same whether or not the IP is banned |
| `RoutingProperties.DeadBanlistChecks` | apps/web/middleware.ts:41-88 | the guard rules equal the same rules without the repeated banlist check and without the banlist clause of line 82, for all inputs |
| `RoutingProperties.MaintenanceRewrites` | apps/web/middleware.ts:53-67 | outside `/api`, maintenance true gives `Rewrite` to `/maintenance` with the query kept, for an unbanned request that is not the org root |
| `RoutingProperties.MaintenanceFailOpen` | apps/web/middleware.ts:60-72 | a lookup that answers false or throws never triggers the rewrite, and the whole result equals the one for "false" |
| `RoutingProperties.ApiIgnoresMaintenance` | apps/web/middleware.ts:53-73 | under `/api` the result is the same for every maintenance lookup outcome |
| `RoutingProperties.CallbackRejectedIff` | apps/web/middleware.ts:76-81 | a `callbackUrl` is refused exactly when it is present, non-empty, and starts with none of `CONSOLE_URL`, `WEBAPP_URL`, `WEBSITE_URL` |
| `RoutingProperties.AbuseGuard` | apps/web/middleware.ts:75-88 | under the two prefixes, a bot, a refused callback or a banned IP gets `Redirect` to `/api/nope` with the query kept; otherwise the guard rules do not decide at all, no redirect to `/api/nope` happens, and only the embed redirect to the same path can follow |
| `RoutingProperties.EmbedParamRedirect` | apps/web/middleware.ts:92-95 | a `…/embed` path without `embed` (and no earlier rule firing) gets `Redirect` to the same path with exactly the key `embed=""` added; that target is an embed request and, replayed with the same facts, is not redirected again; this holds for `/apps/routing_forms…` paths too, so the embed rule comes first |
| `RoutingProperties.EmbedParamPresentSkips` | apps/web/middleware.ts:92-95 | with `embed` present (any value) and no guard rule firing, the result is never a redirect |
| `RoutingProperties.RoutingFormsRewrite` | apps/web/middleware.ts:98-101 | a `/apps/routing_forms…` path (unbanned, no maintenance, embed rule not firing) gets `Rewrite` to `/apps/routing-forms` followed by the untouched rest of the path |
| `RoutingProperties.SubteamRewrite` | apps/web/middleware.ts:112-127 | on a valid org domain, a one- or two-segment path whose first segment is among the fetched slugs gets `Rewrite` to `/team/{first}{/second or empty}` |
| `RoutingProperties.SubteamOnlyIf` | apps/web/middleware.ts:112-136 | past the early rules, a rewrite happens only when all subteam conditions hold; `Rejected` exactly when the lookup threw for a matching path on a valid org domain; otherwise `Next` with the header rules applied |
| `RoutingProperties.TogglesExclusive` | apps/web/middleware.ts:22-31 | at most one of the two new-booker toggle branches applies to a request |
| `RoutingProperties.NextHeaders` | apps/web/middleware.ts:13-136 | in `Next`, every header other than the three managed ones is unchanged; `new-booker-enabled="1"` iff a toggle applies (else as incoming); `x-cal-timezone` is the incoming `x-vercel-ip-timezone` or `""` under `/api/trpc/`; `x-csp-enforce="true"` under `/auth/login` |
| `RoutingProperties.CookiesChanged` | apps/web/middleware.ts:22-31 | only the `new-booker-enabled` cookie can change, to `"1"`, and only when a toggle applies; with the toggles unset the cookies are untouched |
| `Middleware.ApplyNewBookerToggles` | apps/web/middleware.ts:13-31 | the headers copy and the request cookies after the toggles are those of `ToggledHeaders` and `ToggledCookies` |
| `Middleware.ApplyGuardRules` | apps/web/middleware.ts:33-88 | returns the guard decision; a decision's URL is `req.nextUrl` as updated in place, and falling through leaves `req.nextUrl` alone |
| `Middleware.ApplyUrlRules` | apps/web/middleware.ts:90-101 | returns the embed/routing_forms decision, with the same in-place URL discipline |
| `Middleware.ApplyHeaderRules` | apps/web/middleware.ts:103-110 | the headers after the timezone and CSP rules are those of `HeaderRules` |
| `Middleware.ApplySubteamRule` | apps/web/middleware.ts:112-136 | returns the subteam rule's decision; only a rewrite changes `req.nextUrl` |
| `Middleware.HandleRequest` | apps/web/middleware.ts:11-137 | the decision and the new cookies are `Route`'s; a rewrite or redirect points at the updated `req.nextUrl`, and a pass-through or rejection leaves it unchanged |

## Left out

- `packages/features/webhooks/lib/getWebhooks.ts` is not part of this model. It is a single ORM `findMany`, and its meaning depends on the ORM's handling of `OR`, `undefined` filters and `has`.
- The collaborators `orgDomainConfig`, `isIpInBanlist`, `userAgent`, the edge-config `get` and the subteams `fetch` are not part of this model. Their answers are inputs (`Facts`). `isIpInBanlist(req)` is called three times in the source and is modelled as one answer for the request.
- The URL of the subteams request is not modelled, only its outcome. That URL is built from `WEBAPP_URL` and the organization at line 119.
- Asynchrony, latency and timeouts are not modelled. Every awaited value is already resolved.
- The `collectEvents` telemetry wrapper (lines 151-156) is I/O.
- The `config.matcher` patterns (lines 139-149) are framework semantics. The model applies the chain to any request.
- How the framework turns a decision and the request cookies into an HTTP response is not modelled.
- Query parameters are a map from name to first value. Repeated parameters and their order are not modelled, so "added" for `embed=""` means a new key, not a position at the end.
- Header names are assumed to be lower-case already. The case-insensitive lookup of `Headers` is not modelled.
- Percent-encoding when `pathname` is assigned is not modelled, nor URL scheme and host (the middleware never changes them).
- Replacement patterns such as `$&` in `String.prototype.replace` are not interpreted. The one replacement string used has none.
- The edge-config value is modelled as a boolean. A truthy non-boolean value is outside the model.
