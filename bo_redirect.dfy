/** The `/bo/{path*}` route: a redirect to an external site, keeping the path. */
module BoRedirect {
  import opened Wrappers

  const BraveComboBase := "http://bravecombo.com/"

  /**
   * The wildcard parameter as the handler reads it: a missing parameter is
   * falsy in JavaScript and becomes the empty string.
   */
  function PathText(path: Option<string>): string {
    match path
    case Some(p) => p
    case None => ""
  }

  /** The redirect location: the base URL followed by the requested path. */
  function BoRedirectTarget(path: Option<string>): (target: string)
    ensures BraveComboBase <= target
    ensures target[|BraveComboBase|..] == PathText(path)
    ensures path == None || path == Some("") <==> target == BraveComboBase
  {
    BraveComboBase + PathText(path)
  }

  /** Two requests redirect to the same place exactly when their paths read the same. */
  lemma TargetDeterminesPath(p: Option<string>, q: Option<string>)
    ensures BoRedirectTarget(p) == BoRedirectTarget(q) <==> PathText(p) == PathText(q)
  {
  }
}
