/**
 * The `POST /api/purge` handler: a shared-secret check in front of the CDN's
 * purge-all operation.
 */
module Purge {
  import opened Wrappers

  const BadKeyReply := "bad api key"
  const SuccessReply := "sucess"

  /** What the CDN client's purge-all call reports back. */
  datatype CdnOutcome = CdnOk | CdnErr(error: string)

  /** The purge-all call the handler issues: the client's API key and the service purged. */
  datatype PurgeCall = PurgeCall(apiKey: Option<string>, serviceId: Option<string>)

  /** The handler's reply: a plain text body, or the CDN's error passed through. */
  datatype Reply = Text(text: string) | ErrorReply(error: string)

  /** Whether the CDN was called (and how), and what the client was told. */
  datatype PurgeResult = PurgeResult(call: Option<PurgeCall>, reply: Reply)

  /**
   * The handler. `queryKey` is the `fastly_api_key` query parameter and
   * `envKey`, `envServiceId` the configured key and service, each `None` when
   * absent; strict equality in JavaScript holds between two absent values.
   * `cdn` is what the CDN answers if it is called.
   */
  function PurgeHandler(queryKey: Option<string>, envKey: Option<string>,
                        envServiceId: Option<string>, cdn: CdnOutcome): (r: PurgeResult)
    ensures r.call.Some? <==> queryKey == envKey
    ensures r.call.Some? ==> r.call.value == PurgeCall(envKey, envServiceId)
    ensures r.call.None? ==> r.reply == Text(BadKeyReply)
    ensures r.call.Some? && cdn.CdnOk? ==> r.reply == Text(SuccessReply)
    ensures r.call.Some? && cdn.CdnErr? ==> r.reply == ErrorReply(cdn.error)
  {
    if queryKey == envKey then
      PurgeResult(Some(PurgeCall(envKey, envServiceId)),
                  match cdn
                  case CdnOk => Text(SuccessReply)
                  case CdnErr(e) => ErrorReply(e))
    else
      PurgeResult(None, Text(BadKeyReply))
  }

  /**
   * The rejection text is given exactly when the CDN was not called: no CDN
   * outcome can be mistaken for a key mismatch.
   */
  lemma BadKeyIffNotCalled(queryKey: Option<string>, envKey: Option<string>,
                           envServiceId: Option<string>, cdn: CdnOutcome)
    ensures PurgeHandler(queryKey, envKey, envServiceId, cdn).reply == Text(BadKeyReply)
        <==> queryKey != envKey
  {
  }

  /**
   * A wrong key tells the caller nothing about the configured key: every
   * mismatching key gets the same result, whatever the CDN would have said.
   */
  lemma MismatchRevealsNothing(k1: Option<string>, k2: Option<string>, envKey: Option<string>,
                               envServiceId: Option<string>, cdn1: CdnOutcome, cdn2: CdnOutcome)
    requires k1 != envKey && k2 != envKey
    ensures PurgeHandler(k1, envKey, envServiceId, cdn1) == PurgeHandler(k2, envKey, envServiceId, cdn2)
  {
  }

  /**
   * With no key configured, a request that supplies no key passes the check
   * and reaches the CDN (with no API key).
   */
  lemma AbsentKeysPass(envServiceId: Option<string>, cdn: CdnOutcome)
    ensures PurgeHandler(None, None, envServiceId, cdn).call == Some(PurgeCall(None, envServiceId))
  {
  }
}
