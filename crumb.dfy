/** The CSRF (crumb) plugin's `skip` option: which routes are exempt from the crumb check. */
module Crumb {

  const MailchimpPath := "/api/mailchimp"
  const CrumbPath := "/api/crumb"

  /** Route paths the server registers, in registration order. */
  const RoutePaths: seq<string> := [
    "/api/purge", MailchimpPath, CrumbPath, "/api/download", "/bo/{path*}",
    "/privacy_android", "/privacy_ios", "/terms_of_use", "/downloads", "/{path*}"
  ]

  /** True when the crumb check is skipped for the route with this path. */
  function SkipCrumb(routePath: string): (skip: bool)
    ensures !skip <==> routePath in {MailchimpPath, CrumbPath}
  {
    routePath != MailchimpPath && routePath != CrumbPath
  }

  /**
   * Of the registered routes, exactly the mailing-list and crumb endpoints are
   * checked; the purge endpoint in particular is not.
   */
  lemma CheckedRoutes()
    ensures (set p | p in RoutePaths && !SkipCrumb(p)) == {MailchimpPath, CrumbPath}
    ensures SkipCrumb(RoutePaths[0])
  {
  }
}
