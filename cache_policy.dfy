/**
 * The `onPreResponse` extension: every outgoing response passes through it,
 * and it rewrites the browser-facing `cache-control` and the CDN-facing
 * `Surrogate-Control` headers: `private` for errors and non-GET responses,
 * `public` with a 30-day edge age for a non-error GET with status 200, and
 * every other GET keeps its headers as they were.
 */
module CachePolicy {

  const CacheControl := "cache-control"
  const SurrogateControl := "Surrogate-Control"
  const Private := "private"
  const Public := "public"
  const EdgeMaxAge := "max-age=2592000"
  const NotFoundPage := "public/404.html"
  const Get := "get"

  /** A response body: a file sent from disk, or any other payload. */
  datatype Body = File(path: string) | Payload(content: string)

  /** A response under construction; the extension updates its header map in place. */
  class Response {
    var isError: bool
    var status: int
    var headers: map<string, string>
    var body: Body

    constructor (isError: bool, status: int, headers: map<string, string>, body: Body)
      ensures this.isError == isError && this.status == status
      ensures this.headers == headers && this.body == body
    {
      this.isError := isError;
      this.status := status;
      this.headers := headers;
      this.body := body;
    }
  }

  /** `h` with both cache headers set. */
  function WithCacheHeaders(h: map<string, string>, cacheControl: string, surrogate: string): (r: map<string, string>)
    ensures CacheControl in r && r[CacheControl] == cacheControl
    ensures SurrogateControl in r && r[SurrogateControl] == surrogate
    ensures forall k :: k != CacheControl && k != SurrogateControl ==> (k in r <==> k in h)
    ensures forall k :: k in h && k != CacheControl && k != SurrogateControl ==> r[k] == h[k]
  {
    h[CacheControl := cacheControl][SurrogateControl := surrogate]
  }

  /**
   * The header map the policy leaves on a response that was an error or not,
   * had status `status`, answered a request with (lower-case) method `verb`
   * and carried headers `h`.
   */
  function PolicyHeaders(isError: bool, status: int, verb: string, h: map<string, string>): (r: map<string, string>)
    ensures isError ==>
              CacheControl in r && r[CacheControl] == Private
              && SurrogateControl in r && r[SurrogateControl] == Private
    ensures !isError && verb != Get ==>
              CacheControl in r && r[CacheControl] == Private
              && SurrogateControl in r && r[SurrogateControl] == Private
    ensures !isError && verb == Get && status == 200 ==>
              CacheControl in r && r[CacheControl] == Public
              && SurrogateControl in r && r[SurrogateControl] == EdgeMaxAge
    ensures !isError && verb == Get && status != 200 ==> r == h
    ensures forall k :: k != CacheControl && k != SurrogateControl ==> (k in r <==> k in h)
    ensures forall k :: k in h && k != CacheControl && k != SurrogateControl ==> r[k] == h[k]
  {
    if isError then WithCacheHeaders(h, Private, Private)
    else if verb != Get then WithCacheHeaders(h, Private, Private)
    else if status == 200 then WithCacheHeaders(h, Public, EdgeMaxAge)
    else h
  }

  /**
   * On a response that arrives without `Surrogate-Control`, the policy sets
   * one unless the response is a non-error GET with a status other than 200
   * (such a GET keeps whatever the framework gave it); the value it sets is
   * the 30-day edge age exactly for a non-error GET with status 200, and
   * `private` otherwise.
   */
  lemma SurrogateSetUnlessOtherGet(isError: bool, status: int, verb: string, h: map<string, string>)
    requires SurrogateControl !in h
    ensures SurrogateControl in PolicyHeaders(isError, status, verb, h)
        <==> isError || verb != Get || status == 200
    ensures SurrogateControl in PolicyHeaders(isError, status, verb, h) ==>
              (PolicyHeaders(isError, status, verb, h)[SurrogateControl] == EdgeMaxAge
               <==> !isError && verb == Get && status == 200)
  {
  }

  /**
   * The extension. On an error response it sets both cache headers to
   * `private`; a 404 error is then replaced by a fresh response serving the
   * not-found page with status 404, carrying the headers the file handler
   * gives it (`notFoundHeaders`) with both cache headers `private`. Otherwise
   * the response itself goes on, its headers rewritten by the policy.
   */
  method OnPreResponse(verb: string, res: Response, notFoundHeaders: map<string, string>) returns (out: Response)
    modifies res
    ensures res.isError == old(res.isError) && res.status == old(res.status) && res.body == old(res.body)
    ensures res.headers == PolicyHeaders(old(res.isError), old(res.status), verb, old(res.headers))
    ensures old(res.isError) && old(res.status) == 404 ==>
              fresh(out) && !out.isError && out.status == 404 && out.body == File(NotFoundPage)
              && out.headers == WithCacheHeaders(notFoundHeaders, Private, Private)
    ensures !(old(res.isError) && old(res.status) == 404) ==> out == res
  {
    if res.isError {
      res.headers := res.headers[CacheControl := Private];
      res.headers := res.headers[SurrogateControl := Private];
      if res.status == 404 {
        out := new Response(false, 404, notFoundHeaders, File(NotFoundPage));
        out.headers := out.headers[CacheControl := Private];
        out.headers := out.headers[SurrogateControl := Private];
        return;
      }
    } else {
      if verb != Get {
        res.headers := res.headers[CacheControl := Private];
        res.headers := res.headers[SurrogateControl := Private];
      } else {
        if res.status == 200 {
          res.headers := res.headers[CacheControl := Public];
          res.headers := res.headers[SurrogateControl := EdgeMaxAge];
        }
      }
    }
    out := res;
  }
}
