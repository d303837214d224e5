/**
 * The decision of `post_to_discord` (bot_service.py:356-373): the webhook
 * request itself is an outcome supplied from outside.
 */
module Delivery {
  import opened Text

  /** What the webhook request came back with: an HTTP status, or a transport failure (timeout, refused connection). */
  datatype Response = Status(code: int) | TransportError

  /**
   * The result of one call: whether it reported success, whether a request
   * was sent, and whether it slept `COOLDOWN_DELAY` for a rate limit.
   */
  datatype Outcome = Outcome(delivered: bool, requested: bool, cooledDown: bool)

  /** `raise_for_status()` raises for client and server errors. */
  predicate IsHttpError(code: int) {
    400 <= code < 600
  }

  /** `post_to_discord(text)`, given the response its request would receive. */
  function PostToDiscord(text: string, response: Response): Outcome {
    if Strip(text) == [] then Outcome(false, false, false)
    else match response
      case TransportError => Outcome(false, true, false)
      case Status(code) =>
        if code == 429 then Outcome(false, true, true)
        else Outcome(!IsHttpError(code), true, false)
  }

  /**
   * Blank text is refused without a request; otherwise the call succeeds
   * exactly for a status outside 400-599, and cools down exactly on 429.
   */
  lemma PostToDiscordMeaning(text: string, response: Response)
    ensures var o := PostToDiscord(text, response);
      && (o.requested <==> !AllSpace(text))
      && (o.delivered <==> !AllSpace(text) && response.Status? && !IsHttpError(response.code))
      && (o.cooledDown <==> !AllSpace(text) && response == Status(429))
      && (o.delivered ==> !o.cooledDown)
  {
    StripEmptyIff(text);
  }

  /** A redirect or informational status counts as success, not only 2xx. */
  lemma NonErrorStatusesSucceed(text: string)
    requires !AllSpace(text)
    ensures PostToDiscord(text, Status(200)).delivered
    ensures PostToDiscord(text, Status(302)).delivered
    ensures !PostToDiscord(text, Status(404)).delivered
    ensures !PostToDiscord(text, Status(503)).delivered
  {
    StripEmptyIff(text);
  }
}
