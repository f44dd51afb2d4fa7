/**
 * Feedback records, as the "Feedback" section of the HL7 CDS Hooks
 * specification shapes them, and the request envelope they are posted in.
 * An absent JSON key is `None`.
 */
module Feedback {
  import opened Wrappers
  import opened Text
  import opened Cards

  datatype Outcome = Accepted | Overridden

  datatype AcceptedSuggestion = AcceptedSuggestion(id: string)

  /** The `reason` coding of an override: a code and, optionally, its code system. */
  datatype Coding = Coding(code: string, system: Option<string>)

  /** The `overrideReason` object, which nests the coding under `reason`. */
  datatype OverrideReasonEntry = OverrideReasonEntry(reason: Coding)

  datatype FeedbackRecord = FeedbackRecord(
    card: Option<string>,
    outcome: Outcome,
    outcomeTimestamp: string,
    acceptedSuggestions: Option<seq<AcceptedSuggestion>>,
    overrideReason: Option<OverrideReasonEntry>)

  /** The request body: the records under the key `feedback`. */
  datatype FeedbackBody = FeedbackBody(feedback: seq<FeedbackRecord>)

  /** A POST to a feedback endpoint, with its two headers and its body. */
  datatype FeedbackRequest = FeedbackRequest(
    url: string,
    contentType: string,
    authorization: string,
    body: FeedbackBody)

  /**
   * The outcome-dependent shape CDS Hooks asks of a feedback record: an
   * accepted record lists at least one accepted suggestion and no override
   * reason; an overridden record lists no accepted suggestion.
   */
  predicate WellFormed(r: FeedbackRecord)
  {
    match r.outcome
    case Accepted => r.acceptedSuggestions.Some? && |r.acceptedSuggestions.value| >= 1 && r.overrideReason.None?
    case Overridden => r.acceptedSuggestions.None?
  }

  const FeedbackPath := "/feedback"

  const JsonContentType := "application/json"

  /** The feedback endpoint of a service: its URL followed by `/feedback`. */
  function FeedbackEndpoint(serviceUrl: string): (endpoint: string)
    ensures StripSuffix(endpoint, FeedbackPath) == Some(serviceUrl)
  {
    StripAppendedSuffix(serviceUrl, FeedbackPath);
    serviceUrl + FeedbackPath
  }

  /** Two services never share a feedback endpoint. */
  lemma FeedbackEndpointInjective(serviceUrl1: string, serviceUrl2: string)
    requires FeedbackEndpoint(serviceUrl1) == FeedbackEndpoint(serviceUrl2)
    ensures serviceUrl1 == serviceUrl2
  {
  }

  /**
   * The request `sendFeedback` posts: to the service's feedback endpoint,
   * JSON, with a bearer token signed for that endpoint, and exactly the one
   * record under `feedback`.
   */
  function FeedbackRequestFor(sign: string -> string, serviceUrl: string, record: FeedbackRecord): (req: FeedbackRequest)
    ensures StripSuffix(req.url, FeedbackPath) == Some(serviceUrl)
    ensures req.body.feedback == [record]
    ensures req.contentType == JsonContentType
    ensures req.authorization == "Bearer " + sign(req.url)
  {
    var endpoint := FeedbackEndpoint(serviceUrl);
    FeedbackRequest(endpoint, JsonContentType, "Bearer " + sign(endpoint), FeedbackBody([record]))
  }

  /**
   * The record for accepting a suggestion at time `now`; there is one exactly
   * when both the suggestion's and the card's uuid are present, and it names
   * the card and exactly that one suggestion.
   */
  function AcceptedRecord(suggestion: Suggestion, cardUUID: Option<string>, now: string): (r: Option<FeedbackRecord>)
    ensures r.Some? <==> Present(suggestion.uuid) && Present(cardUUID)
    ensures r.Some? ==> WellFormed(r.value)
    ensures r.Some? ==> r.value.outcome == Accepted && r.value.card == cardUUID && r.value.outcomeTimestamp == now
    ensures r.Some? ==> r.value.acceptedSuggestions == Some([AcceptedSuggestion(suggestion.uuid.value)])
  {
    if Present(suggestion.uuid) && Present(cardUUID) then
      Some(FeedbackRecord(cardUUID, Accepted, now, Some([AcceptedSuggestion(suggestion.uuid.value)]), None))
    else
      None
  }

  /**
   * The `overrideReason` a dismissal attaches: only when the reason has a
   * code, and with the code system only when that is present too.
   */
  function OverrideEntry(reason: Option<OverrideReason>): (entry: Option<OverrideReasonEntry>)
    ensures entry.Some? <==> reason.Some? && Present(reason.value.code)
    ensures entry.Some? ==> entry.value.reason.code == reason.value.code.value
    ensures entry.Some? ==> (entry.value.reason.system.Some? <==> Present(reason.value.system))
    ensures entry.Some? && entry.value.reason.system.Some? ==> entry.value.reason.system == reason.value.system
  {
    match reason
    case Some(OverrideReason(code, system, _)) =>
      if Present(code) then
        Some(OverrideReasonEntry(Coding(code.value, if Present(system) then system else None)))
      else
        None
    case None => None
  }

  /** The record for dismissing a card at time `now`, with an optional reason. */
  function OverriddenRecord(cardUUID: Option<string>, reason: Option<OverrideReason>, now: string): (r: FeedbackRecord)
    ensures WellFormed(r) && r.acceptedSuggestions.None?
    ensures r.outcome == Overridden && r.card == cardUUID && r.outcomeTimestamp == now
    ensures r.overrideReason == OverrideEntry(reason)
  {
    FeedbackRecord(cardUUID, Overridden, now, None, OverrideEntry(reason))
  }

  /**
   * Builds the overridden record as `dismissCard` does: first the bare record,
   * then `overrideReason` added when the reason has a code, then the code
   * system filled in when it is present.
   */
  method ComposeOverridden(cardUUID: Option<string>, reason: Option<OverrideReason>, now: string)
    returns (cardFeedback: FeedbackRecord)
    ensures cardFeedback == OverriddenRecord(cardUUID, reason, now)
    ensures cardFeedback.outcome == Overridden && cardFeedback.acceptedSuggestions.None?
    ensures cardFeedback.overrideReason.Some? <==> reason.Some? && Present(reason.value.code)
    ensures cardFeedback.overrideReason.Some? ==>
        (cardFeedback.overrideReason.value.reason.system.Some? <==> Present(reason.value.system))
  {
    cardFeedback := FeedbackRecord(cardUUID, Overridden, now, None, None);
    if reason.Some? && Present(reason.value.code) {
      cardFeedback := cardFeedback.(overrideReason := Some(OverrideReasonEntry(Coding(reason.value.code.value, None))));
      if Present(reason.value.system) {
        var entry := cardFeedback.overrideReason.value;
        cardFeedback := cardFeedback.(overrideReason := Some(entry.(reason := entry.reason.(system := reason.value.system))));
      }
    }
  }
}
