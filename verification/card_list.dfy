/**
 * The card list component: its handlers change the world step by step, here
 * an effect log that each handler appends to, and `Render` sorts the card
 * array in place before rendering it.
 */
module CardListComponent {
  import opened Wrappers
  import opened Cards
  import opened Severity
  import opened Links
  import opened Feedback
  import opened Handlers
  import opened CardView

  class CardList {
    /** The component's props: the demo flag, the token signer and whether `onAppLaunch` was given. */
    const config: Config

    /** Everything the component has done to the outside world, oldest first. */
    var effects: seq<Effect>

    constructor (config: Config)
      ensures this.config == config && effects == []
    {
      this.config := config;
      effects := [];
    }

    /** `takeSuggestion(suggestion, cardUUID, serviceUrl)`, at wall-clock time `now`. */
    method TakeSuggestion(suggestion: Suggestion, cardUUID: Option<string>, serviceUrl: string, now: string)
      modifies this
      ensures effects == old(effects) + AcceptEffects(config, suggestion, cardUUID, serviceUrl, now)
    {
      if config.mode.Live? {
        if Present(suggestion.labelText) {
          if Present(suggestion.uuid) && Present(cardUUID) {
            var cardFeedback := FeedbackRecord(cardUUID, Accepted, now, Some([AcceptedSuggestion(suggestion.uuid.value)]), None);
            SendFeedback(serviceUrl, cardFeedback);
          }
          effects := effects + [SuggestionCallback(suggestion)];
        } else {
          effects := effects + [LogError(NoLabelMessage, suggestion)];
        }
      }
    }

    /** `dismissCard(serviceUrl, cardUUID, reason)`, at wall-clock time `now`. */
    method DismissCard(serviceUrl: string, cardUUID: Option<string>, reason: Option<OverrideReason>, now: string)
      modifies this
      ensures effects == old(effects) + DismissEffects(config, serviceUrl, cardUUID, reason, now)
    {
      if config.mode.Demo? {
        return;
      }
      var cardFeedback := ComposeOverridden(cardUUID, reason, now);
      SendFeedback(serviceUrl, cardFeedback);
      effects := effects + [RemoveCard(CardKey(serviceUrl, cardUUID))];
    }

    /** `sendFeedback(serviceUrl, cardFeedback)`: one signed POST to the feedback endpoint. */
    method SendFeedback(serviceUrl: string, cardFeedback: FeedbackRecord)
      modifies this
      ensures effects == old(effects) + [PostFeedback(FeedbackRequestFor(config.sign, serviceUrl, cardFeedback))]
    {
      var feedbackEndpoint := FeedbackEndpoint(serviceUrl);
      var signedPrivateJwt := config.sign(feedbackEndpoint);
      var request := FeedbackRequest(feedbackEndpoint, JsonContentType, "Bearer " + signedPrivateJwt, FeedbackBody([cardFeedback]));
      effects := effects + [PostFeedback(request)];
    }

    /** `launchLink(e, link)`: opens a window, or does nothing and returns `null`. */
    method LaunchLink(link: Link) returns (launched: Launch)
      modifies this
      ensures launched == LaunchDecision(config.mode, link)
      ensures effects == old(effects) + LaunchEffects(launched)
    {
      if config.mode.Live? {
        if link.error {
          return NotLaunched;
        }
        var url := RemapUrl(link);
        effects := effects + [OpenWindow(url, BlankTarget)];
        return Opened(url);
      }
      return NotLaunched;
    }

    /** The click handler of a link button: `launchLink`, then `onAppLaunch` when given. */
    method ClickLink(link: Link)
      modifies this
      ensures effects == old(effects) + ClickEffects(config, link)
    {
      var launchedWindow := LaunchLink(link);
      if config.hasOnAppLaunch {
        effects := effects + [AppLaunchCallback(link, launchedWindow)];
      }
    }

    /** Handles one user action, as the affordance that offers it would. */
    method Handle(event: Event)
      modifies this
      ensures effects == old(effects) + StepEffects(config, event)
    {
      match event.action
      case AcceptSuggestion(suggestion, cardUUID, serviceUrl) =>
        TakeSuggestion(suggestion, cardUUID, serviceUrl, event.now);
      case DismissCard(serviceUrl, cardUUID, reason) =>
        DismissCard(serviceUrl, cardUUID, reason, event.now);
      case ClickLink(link) =>
        ClickLink(link);
    }

    /**
     * `render`: sorts the cards in place, highest severity first, then renders
     * each of them; an empty list gives "No Cards". Rendering has no effect.
     */
    method Render(cards: array<Card>) returns (view: View)
      modifies cards
      ensures SortedBySeverity(cards[..])
      ensures multiset(cards[..]) == multiset(old(cards[..]))
      ensures view.NoCards? <==> cards.Length == 0
      ensures view.Rendered? ==> |view.cards| == cards.Length
      ensures view.Rendered? ==> forall k :: 0 <= k < cards.Length ==> view.cards[k] == RenderCard(cards[k])
      ensures effects == old(effects)
    {
      SortBySeverity(cards);
      view := BuildView(cards[..]);
    }
  }
}
