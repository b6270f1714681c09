/**
 * The `/api/download` redirect: the operating-system family of the client
 * (the string the user-agent parser reports) selects one of three fixed
 * download pages.
 */
module Download {
  import opened AnchoredMatch

  const ItunesUrl := "https://itunes.apple.com/ca/app/brave-web-browser/id1052879175?mt=8#"
  const PlayStoreUrl := "https://play.google.com/store/apps/details?id=com.linkbubble.playstore"
  const ReleasesUrl := "https://github.com/brave/browser-laptop/releases"

  /**
   * `downloadRedirects`: the iOS test first, then the Android test, then the
   * desktop releases page. Total: every string, the empty one included, gets
   * one of the three URLs.
   */
  function DownloadRedirect(os: string): (url: string)
    ensures url == ItunesUrl <==> "iOS" <= os
    ensures url == PlayStoreUrl <==> !("iOS" <= os) && "Android" <= os
    ensures url == ReleasesUrl <==> !("iOS" <= os) && !("Android" <= os)
  {
    MatchesAtStartIff(os, "iOS");
    MatchesAtStartIff(os, "Android");
    if MatchesAtStart(os, "iOS") then ItunesUrl
    else if MatchesAtStart(os, "Android") then PlayStoreUrl
    else ReleasesUrl
  }

  /**
   * The order of the two tests never matters: no OS string starts with both
   * `iOS` and `Android`, so testing Android first would choose the same URL.
   */
  lemma TestOrderIrrelevant(os: string)
    ensures !("iOS" <= os && "Android" <= os)
    ensures DownloadRedirect(os) ==
      (if "Android" <= os then PlayStoreUrl
       else if "iOS" <= os then ItunesUrl
       else ReleasesUrl)
  {
    if "iOS" <= os {
      assert os[0] == 'i';
    }
  }
}
