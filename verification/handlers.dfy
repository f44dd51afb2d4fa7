/**
 * The user-action handlers of the card list as specifications over an effect
 * log: every action yields the sequence of outward effects it performs, in
 * order. Feedback posts, the caller's callbacks, store removals, window
 * opening and error logging are the effects; nothing else leaves the component.
 */
module Handlers {
  import opened Wrappers
  import opened Text
  import opened Cards
  import opened Links
  import opened Feedback

  /**
   * The component's configuration: the demo flag, the token signer for a
   * target endpoint (an opaque collaborator), and whether an `onAppLaunch`
   * callback was supplied.
   */
  datatype Config = Config(mode: Mode, sign: string -> string, hasOnAppLaunch: bool)

  /** The key by which the store removes a dismissed card. */
  datatype CardKey = CardKey(serviceUrl: string, cardUUID: Option<string>)

  datatype Effect =
    | PostFeedback(request: FeedbackRequest)
    | SuggestionCallback(suggestion: Suggestion)
    | RemoveCard(key: CardKey)
    | LogError(message: string, suggestion: Suggestion)
    | OpenWindow(url: Option<string>, target: string)
    | AppLaunchCallback(link: Link, launched: Launch)

  const NoLabelMessage := "There was no label on this suggestion"

  /** The user actions the rendered cards offer. */
  datatype UserAction =
    | AcceptSuggestion(suggestion: Suggestion, cardUUID: Option<string>, serviceUrl: string)
    | DismissCard(serviceUrl: string, cardUUID: Option<string>, reason: Option<OverrideReason>)
    | ClickLink(link: Link)

  /** A user action together with the wall-clock time (ISO-8601 text) at which it happens. */
  datatype Event = Event(action: UserAction, now: string)

  // ---------- Observers of an effect log ----------

  /** The concatenation of what `pick` extracts from each effect, in order. */
  function Collect<T>(effects: seq<Effect>, pick: Effect -> seq<T>): seq<T>
  {
    if effects == [] then [] else pick(effects[0]) + Collect(effects[1..], pick)
  }

  lemma {:induction false} CollectAppend<T>(a: seq<Effect>, b: seq<Effect>, pick: Effect -> seq<T>)
    ensures Collect(a + b, pick) == Collect(a, pick) + Collect(b, pick)
  {
    if a == [] {
      assert a + b == b;
    } else {
      assert (a + b)[1..] == a[1..] + b;
      CollectAppend(a[1..], b, pick);
    }
  }

  function RequestsOf(e: Effect): seq<FeedbackRequest>
  {
    if e.PostFeedback? then [e.request] else []
  }

  function RecordsOf(e: Effect): seq<FeedbackRecord>
  {
    if e.PostFeedback? then e.request.body.feedback else []
  }

  function CallbacksOf(e: Effect): seq<Suggestion>
  {
    if e.SuggestionCallback? then [e.suggestion] else []
  }

  function RemovalsOf(e: Effect): seq<CardKey>
  {
    if e.RemoveCard? then [e.key] else []
  }

  function WindowsOf(e: Effect): seq<Option<string>>
  {
    if e.OpenWindow? then [e.url] else []
  }

  /** Every feedback request posted. */
  function Requests(effects: seq<Effect>): seq<FeedbackRequest> { Collect(effects, RequestsOf) }

  /** Every feedback record sent, across all requests. */
  function SentRecords(effects: seq<Effect>): seq<FeedbackRecord> { Collect(effects, RecordsOf) }

  /** Every invocation of the caller's `takeSuggestion` callback. */
  function Callbacks(effects: seq<Effect>): seq<Suggestion> { Collect(effects, CallbacksOf) }

  /** Every card removal requested of the store. */
  function Removals(effects: seq<Effect>): seq<CardKey> { Collect(effects, RemovalsOf) }

  /** Every window opened. */
  function Windows(effects: seq<Effect>): seq<Option<string>> { Collect(effects, WindowsOf) }

  /** The effects a demo-mode component may still have: an `onAppLaunch` call reporting no launch. */
  predicate DemoVisible(e: Effect)
  {
    e.AppLaunchCallback? && e.launched == NotLaunched
  }

  // ---------- The handlers ----------

  /** `sendFeedback`: one POST of the record to the service's feedback endpoint. */
  function FeedbackEffect(config: Config, serviceUrl: string, record: FeedbackRecord): (e: Effect)
    ensures e.PostFeedback?
    ensures StripSuffix(e.request.url, FeedbackPath) == Some(serviceUrl)
    ensures e.request.body.feedback == [record]
    ensures e.request.authorization == "Bearer " + config.sign(e.request.url)
  {
    PostFeedback(FeedbackRequestFor(config.sign, serviceUrl, record))
  }

  /** `takeSuggestion`: the effects of accepting a suggestion of a card. */
  function AcceptEffects(config: Config, suggestion: Suggestion, cardUUID: Option<string>, serviceUrl: string, now: string): (effects: seq<Effect>)
    ensures config.mode.Demo? ==> effects == []
    ensures config.mode.Live? ==> 1 <= |effects| <= 2
    ensures config.mode.Live? && Present(suggestion.labelText) ==>
      effects[|effects| - 1] == SuggestionCallback(suggestion)
    ensures |effects| == 2 <==>
      config.mode.Live? && Present(suggestion.labelText) && Present(suggestion.uuid) && Present(cardUUID)
    ensures |effects| == 2 ==> effects[0].PostFeedback?
  {
    match config.mode
    case Demo => []
    case Live =>
      if !Present(suggestion.labelText) then
        [LogError(NoLabelMessage, suggestion)]
      else
        var feedback := match AcceptedRecord(suggestion, cardUUID, now)
          case Some(record) => [FeedbackEffect(config, serviceUrl, record)]
          case None => [];
        feedback + [SuggestionCallback(suggestion)]
  }

  /** `dismissCard`: the effects of dismissing a card, with an optional override reason. */
  function DismissEffects(config: Config, serviceUrl: string, cardUUID: Option<string>, reason: Option<OverrideReason>, now: string): (effects: seq<Effect>)
    ensures config.mode.Demo? ==> effects == []
    ensures config.mode.Live? ==> |effects| == 2 && effects[0].PostFeedback?
    ensures config.mode.Live? ==> effects[0].request.body.feedback == [OverriddenRecord(cardUUID, reason, now)]
    ensures config.mode.Live? ==> effects[1] == RemoveCard(CardKey(serviceUrl, cardUUID))
  {
    match config.mode
    case Demo => []
    case Live =>
      [FeedbackEffect(config, serviceUrl, OverriddenRecord(cardUUID, reason, now)), RemoveCard(CardKey(serviceUrl, cardUUID))]
  }

  /** `launchLink`: the window it opens, if any. */
  function LaunchEffects(launched: Launch): (effects: seq<Effect>)
    ensures |effects| <= 1
    ensures effects != [] <==> launched.Opened?
    ensures effects != [] ==> effects[0] == OpenWindow(launched.url, BlankTarget)
  {
    match launched
    case Opened(url) => [OpenWindow(url, BlankTarget)]
    case NotLaunched => []
  }

  /** A click on a link button: `launchLink`, then `onAppLaunch` with its result when supplied. */
  function ClickEffects(config: Config, link: Link): (effects: seq<Effect>)
    ensures |effects| <= 2
    ensures config.hasOnAppLaunch <==> effects != [] && effects[|effects| - 1].AppLaunchCallback?
    ensures config.hasOnAppLaunch ==> effects[|effects| - 1] == AppLaunchCallback(link, LaunchDecision(config.mode, link))
    ensures config.mode.Live? && !link.error ==> |effects| >= 1 && effects[0] == OpenWindow(RemapUrl(link), BlankTarget)
    ensures !(config.mode.Live? && !link.error) ==> forall k :: 0 <= k < |effects| ==> !effects[k].OpenWindow?
  {
    var launched := LaunchDecision(config.mode, link);
    LaunchEffects(launched) + if config.hasOnAppLaunch then [AppLaunchCallback(link, launched)] else []
  }

  /** The effects of handling one user action. */
  function StepEffects(config: Config, event: Event): (effects: seq<Effect>)
    ensures |effects| <= 2
    ensures config.mode.Demo? && !event.action.ClickLink? ==> effects == []
  {
    match event.action
    case AcceptSuggestion(suggestion, cardUUID, serviceUrl) => AcceptEffects(config, suggestion, cardUUID, serviceUrl, event.now)
    case DismissCard(serviceUrl, cardUUID, reason) => DismissEffects(config, serviceUrl, cardUUID, reason, event.now)
    case ClickLink(link) => ClickEffects(config, link)
  }

  /** The effects of a sequence of user actions handled one after the other. */
  function SessionEffects(config: Config, events: seq<Event>): (effects: seq<Effect>)
    ensures |effects| <= 2 * |events|
    ensures config.mode.Demo? && (forall k :: 0 <= k < |events| ==> !events[k].action.ClickLink?) ==> effects == []
  {
    if events == [] then [] else StepEffects(config, events[0]) + SessionEffects(config, events[1..])
  }
}
