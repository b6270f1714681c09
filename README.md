# Brave website server: request-decision logic

A model of the decision logic in the marketing-site web server `server.js`.
The server itself is a Hapi application. Almost all of it wires up
off-the-shelf plugins. The logic that is its own is modelled here:

- **Cache-header policy** (`CachePolicy`). The `onPreResponse` extension sees every outgoing
  response. It sets `cache-control` and `Surrogate-Control` to `private` for errors and
  non-GET responses, and to `public` with a 30-day edge age for a non-error GET with status
  200. Every other GET, a redirect for one, keeps its headers as they were. A 404 error is
  swapped for the static not-found page. The response is a `class` whose header
  map the method `OnPreResponse` updates in place. The method is tied to the pure
  function `PolicyHeaders`, and the properties are proved about that function.
- **Download-link classifier** (`Download`). This serves `/api/download`. The client's
  operating-system family string selects the iTunes page, the Play Store page or the
  desktop releases page. The source tests with the anchored regular expressions `/^iOS/`
  and `/^Android/`. `AnchoredMatch` models them as a character-by-character matcher and
  proves that matcher equal to the prefix relation.
- **`/bo/{path*}` redirect target** (`BoRedirect`). This is the external base URL
  followed by the wildcard path, or followed by nothing when the path is missing.
- **Purge key check** (`Purge`). This serves `POST /api/purge`. The CDN's purge-all runs only
  when the query key strictly equals the configured key. Both keys are `Option<string>`,
  because two absent JavaScript values are strictly equal. What the CDN answers is a
  parameter, and the reply is `'sucess'` (sic), the CDN's error, or `'bad api key'`.
- **CSRF skip predicate** (`Crumb`). The crumb plugin checks only `/api/mailchimp` and
  `/api/crumb`.

The configured values (`FASTLY_API_KEY`, `FASTLY_SERVICE_ID`) and the request's
method, query and route parameters are parameters. The OS string is the
user-agent parser's output, and it is a parameter too.

## Model

| member | source | states |
|---|---|---|
| `AnchoredMatch.MatchesAtStartIff` | server.js:118-121 | the anchored literal regex `/^lit/` matches a string exactly when `lit` is a prefix of it (proved by induction on the literal) |
| `Download.DownloadRedirect` | server.js:115-125 | the iTunes URL iff the OS string starts with `iOS`; the Play Store URL iff it does not start with `iOS` but starts with `Android`; the releases URL iff it starts with neither (the empty string included) |
| `Download.TestOrderIrrelevant` | server.js:118-123 | no OS string starts with both `iOS` and `Android`, so testing Android first would choose the same URL for every input |
| `BoRedirect.BoRedirectTarget` | server.js:156 | the target always starts with `http://bravecombo.com/`; stripping that prefix gives back the path (empty when absent); the target is the bare prefix exactly when the path is absent or empty |
| `BoRedirect.TargetDeterminesPath` | server.js:156 | two requests redirect to the same target exactly when their paths read the same |
| `Purge.PurgeHandler` | server.js:53-66 | the CDN purge is issued iff the query key equals the configured key (two absent keys are equal), with the configured key and service id; otherwise the reply is `bad api key`; after a call the reply is `sucess` on success and the CDN's error on failure |
| `Purge.BadKeyIffNotCalled` | server.js:54-65 | the reply is `bad api key` exactly when the keys differ, whatever the CDN answers |
| `Purge.MismatchRevealsNothing` | server.js:63-65 | every wrong key gets the same result, so the reply reveals nothing about the configured key |
| `Purge.AbsentKeysPass` | server.js:54-55 | with no key configured, a request without a key passes the check and reaches the CDN with no API key |
| `Crumb.SkipCrumb` | server.js:24-26 | the crumb check is skipped for a route iff its path is neither `/api/mailchimp` nor `/api/crumb` |
| `Crumb.CheckedRoutes` | server.js:24-26 | of the registered route paths, exactly `/api/mailchimp` and `/api/crumb` are crumb-checked; `/api/purge` is not |
| `CachePolicy.WithCacheHeaders` | server.js:220-221 | both cache headers get the given values, and every other header keeps its presence and its value |
| `CachePolicy.PolicyHeaders` | server.js:217-245 | an error gets `private` for both headers, whatever the method; a non-error non-GET gets `private` for both; a non-error GET with status 200 gets `public` and `max-age=2592000`; a non-error GET with any other status keeps its header map unchanged; headers other than the two cache keys never change |
| `CachePolicy.SurrogateSetUnlessOtherGet` | server.js:219-241 | on a response without a `Surrogate-Control` header, the policy sets one unless the response is a non-error GET with a status other than 200; the value it sets is `max-age=2592000` exactly for a non-error GET with status 200 |
| `CachePolicy.OnPreResponse` | server.js:217-245 | the response's header map becomes `PolicyHeaders` of its old state, and its status, error flag and body are unchanged; a 404 error is replaced by a fresh non-error response with status 404, body `public/404.html`, and both cache headers `private`; every other response is passed on itself |

## Left out

- The Hapi server, its connection and port, route registration and route-matching precedence. These are framework behaviour. `Crumb.RoutePaths` lists only the registered path templates.
- Plugin registration (crumb, inert, Scooter, Blankie) and the console logging of its failures. These are foreign libraries and I/O.
- The HSTS, X-Frame and content-security-policy settings. They are static data read by libraries.
- `useragent.parse`: the classifier starts from the OS string the parser reports.
- The logging of a failed purge to the console (`console.dir`). It is I/O.
- The Fastly client and the mailing-list client. They are network calls. Fastly is reduced to the outcome `CdnOk` or `CdnErr(e)`. The mailing-list route forwards to a file that is not part of this model.
- Static file and directory serving, including the four fixed file routes. This is file I/O. The headers that the file handler gives the not-found page are the parameter `notFoundHeaders` of `OnPreResponse`.
- The `/api/crumb` handler, which only echoes the cookie header.
- The `/api/download` route's 302 reply. Only its target, `DownloadRedirect`, is modelled.
- `CachePolicy.OnPreResponse`: a missing response (`request.response` unset) is not modelled, because Hapi always supplies one to this extension. An error response keeps its status and headers under `output`, other responses keep them on the response itself. The model gives both one `status` and one `headers` field.
- `Purge.PurgeHandler`: a query parameter repeated in the URL arrives as an array, which never strictly equals the configured string. The model takes the key as a single optional string.
