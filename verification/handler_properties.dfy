/**
 * What the handlers promise: the mode gate, the accept rule, the dismiss rule
 * and the link rule for one action, and the same facts for a whole session of
 * actions handled one after the other.
 */
module HandlerProperties {
  import opened Wrappers
  import opened Text
  import opened Cards
  import opened Links
  import opened Feedback
  import opened Handlers

  // ---------- Observers on short logs ----------

  lemma CollectSingle<T>(a: Effect, pick: Effect -> seq<T>)
    ensures Collect([a], pick) == pick(a)
  {
  }

  lemma CollectPair<T>(a: Effect, b: Effect, pick: Effect -> seq<T>)
    ensures Collect([a, b], pick) == pick(a) + pick(b)
  {
    assert [a, b][1..] == [b];
    CollectSingle(b, pick);
  }

  // ---------- One action ----------

  /**
   * Accepting a suggestion in live mode when it has no label: only the
   * diagnostic is logged; no feedback is sent and the callback does not fire.
   */
  lemma AcceptWithoutLabelOnlyLogs(config: Config, suggestion: Suggestion, cardUUID: Option<string>, serviceUrl: string, now: string)
    requires config.mode.Live? && !Present(suggestion.labelText)
    ensures AcceptEffects(config, suggestion, cardUUID, serviceUrl, now) == [LogError(NoLabelMessage, suggestion)]
    ensures Requests(AcceptEffects(config, suggestion, cardUUID, serviceUrl, now)) == []
    ensures Callbacks(AcceptEffects(config, suggestion, cardUUID, serviceUrl, now)) == []
  {
    var e := LogError(NoLabelMessage, suggestion);
    CollectSingle(e, RequestsOf);
    CollectSingle(e, CallbacksOf);
  }

  /**
   * Accepting a labelled suggestion in live mode: the callback fires exactly
   * once, last. When both uuids are present exactly one request is posted
   * first, to the service's feedback endpoint, carrying exactly the accepted
   * record; otherwise nothing is posted.
   */
  lemma AcceptWithLabel(config: Config, suggestion: Suggestion, cardUUID: Option<string>, serviceUrl: string, now: string)
    requires config.mode.Live? && Present(suggestion.labelText)
    ensures var effects := AcceptEffects(config, suggestion, cardUUID, serviceUrl, now);
      && Callbacks(effects) == [suggestion]
      && effects[|effects| - 1] == SuggestionCallback(suggestion)
      && Removals(effects) == [] && Windows(effects) == []
    ensures var effects := AcceptEffects(config, suggestion, cardUUID, serviceUrl, now);
      Present(suggestion.uuid) && Present(cardUUID) ==>
        var record := FeedbackRecord(cardUUID, Accepted, now, Some([AcceptedSuggestion(suggestion.uuid.value)]), None);
        && |effects| == 2
        && Requests(effects) == [FeedbackRequestFor(config.sign, serviceUrl, record)]
        && SentRecords(effects) == [record]
    ensures var effects := AcceptEffects(config, suggestion, cardUUID, serviceUrl, now);
      !(Present(suggestion.uuid) && Present(cardUUID)) ==>
        effects == [SuggestionCallback(suggestion)] && Requests(effects) == [] && SentRecords(effects) == []
  {
    var callback := SuggestionCallback(suggestion);
    match AcceptedRecord(suggestion, cardUUID, now)
    case Some(record) =>
      var post := FeedbackEffect(config, serviceUrl, record);
      assert AcceptEffects(config, suggestion, cardUUID, serviceUrl, now) == [post, callback];
      CollectPair(post, callback, RequestsOf);
      CollectPair(post, callback, RecordsOf);
      CollectPair(post, callback, CallbacksOf);
      CollectPair(post, callback, RemovalsOf);
      CollectPair(post, callback, WindowsOf);
    case None =>
      assert AcceptEffects(config, suggestion, cardUUID, serviceUrl, now) == [callback];
      CollectSingle(callback, RequestsOf);
      CollectSingle(callback, RecordsOf);
      CollectSingle(callback, CallbacksOf);
      CollectSingle(callback, RemovalsOf);
      CollectSingle(callback, WindowsOf);
  }

  /**
   * Dismissing a card in live mode: exactly one overridden record is posted,
   * then exactly one removal keyed by the service URL and the card's uuid is
   * requested; no callback fires and no window opens.
   */
  lemma DismissPostsThenRemoves(config: Config, serviceUrl: string, cardUUID: Option<string>, reason: Option<OverrideReason>, now: string)
    requires config.mode.Live?
    ensures var effects := DismissEffects(config, serviceUrl, cardUUID, reason, now);
      && |effects| == 2 && effects[0].PostFeedback? && effects[1] == RemoveCard(CardKey(serviceUrl, cardUUID))
      && Requests(effects) == [FeedbackRequestFor(config.sign, serviceUrl, OverriddenRecord(cardUUID, reason, now))]
      && SentRecords(effects) == [OverriddenRecord(cardUUID, reason, now)]
      && Removals(effects) == [CardKey(serviceUrl, cardUUID)]
      && Callbacks(effects) == [] && Windows(effects) == []
  {
    var post := FeedbackEffect(config, serviceUrl, OverriddenRecord(cardUUID, reason, now));
    var remove := RemoveCard(CardKey(serviceUrl, cardUUID));
    CollectPair(post, remove, RequestsOf);
    CollectPair(post, remove, RecordsOf);
    CollectPair(post, remove, CallbacksOf);
    CollectPair(post, remove, RemovalsOf);
    CollectPair(post, remove, WindowsOf);
  }

  /** The removal a dismissal requests does not depend on the override reason or the time. */
  lemma DismissRemovalIgnoresReason(config: Config, serviceUrl: string, cardUUID: Option<string>,
                                    reason1: Option<OverrideReason>, now1: string,
                                    reason2: Option<OverrideReason>, now2: string)
    ensures Removals(DismissEffects(config, serviceUrl, cardUUID, reason1, now1))
         == Removals(DismissEffects(config, serviceUrl, cardUUID, reason2, now2))
  {
  }

  /**
   * Clicking a link: a window opens on the remapped URL exactly in live mode
   * for a link without an error, and `onAppLaunch` is called last with the
   * launch result exactly when it was supplied; no feedback, removal or
   * suggestion callback ever follows.
   */
  lemma ClickOpensAtMostOneWindow(config: Config, link: Link)
    ensures var effects := ClickEffects(config, link);
      && Windows(effects) == (if config.mode.Live? && !link.error then [RemapUrl(link)] else [])
      && Requests(effects) == [] && Removals(effects) == [] && Callbacks(effects) == []
      && (config.hasOnAppLaunch <==> effects != [] && effects[|effects| - 1] == AppLaunchCallback(link, LaunchDecision(config.mode, link)))
  {
    var launched := LaunchDecision(config.mode, link);
    var appLaunch := AppLaunchCallback(link, launched);
    match launched
    case Opened(url) =>
      var open := OpenWindow(url, BlankTarget);
      if config.hasOnAppLaunch {
        assert ClickEffects(config, link) == [open, appLaunch];
        CollectPair(open, appLaunch, WindowsOf);
        CollectPair(open, appLaunch, RequestsOf);
        CollectPair(open, appLaunch, RemovalsOf);
        CollectPair(open, appLaunch, CallbacksOf);
      } else {
        assert ClickEffects(config, link) == [open];
        CollectSingle(open, WindowsOf);
        CollectSingle(open, RequestsOf);
        CollectSingle(open, RemovalsOf);
        CollectSingle(open, CallbacksOf);
      }
    case NotLaunched =>
      if config.hasOnAppLaunch {
        assert ClickEffects(config, link) == [appLaunch];
        CollectSingle(appLaunch, WindowsOf);
        CollectSingle(appLaunch, RequestsOf);
        CollectSingle(appLaunch, RemovalsOf);
        CollectSingle(appLaunch, CallbacksOf);
      }
  }

  // ---------- Sessions ----------

  /** Whether handling the event posts feedback: every live dismissal, and a live, feedback-eligible accept. */
  predicate PostsFeedback(config: Config, event: Event)
  {
    config.mode.Live? &&
    match event.action
    case AcceptSuggestion(suggestion, cardUUID, _) =>
      Present(suggestion.labelText) && Present(suggestion.uuid) && Present(cardUUID)
    case DismissCard(_, _, _) => true
    case ClickLink(_) => false
  }

  /** The number of events of a session that post feedback. */
  function CountPostingEvents(config: Config, events: seq<Event>): nat
  {
    if events == [] then 0
    else (if PostsFeedback(config, events[0]) then 1 else 0) + CountPostingEvents(config, events[1..])
  }

  /** The removal keys of the live dismissals of a session, in order. */
  function DismissedKeys(config: Config, events: seq<Event>): seq<CardKey>
  {
    if events == [] then []
    else
      (if config.mode.Live? && events[0].action.DismissCard?
       then [CardKey(events[0].action.serviceUrl, events[0].action.cardUUID)] else [])
      + DismissedKeys(config, events[1..])
  }

  /**
   * Whether a posted request is a proper feedback envelope: addressed to a
   * feedback endpoint, JSON, carrying a bearer token signed for that endpoint,
   * and holding one well-formed record.
   */
  predicate ProperEnvelope(config: Config, request: FeedbackRequest)
  {
    && StripSuffix(request.url, FeedbackPath).Some?
    && request.authorization == "Bearer " + config.sign(request.url)
    && request.contentType == JsonContentType
    && |request.body.feedback| == 1
    && WellFormed(request.body.feedback[0])
  }

  /** The facts about one event that the session lemmas add up. */
  lemma StepFacts(config: Config, event: Event)
    ensures var effects := StepEffects(config, event);
      && |Requests(effects)| == (if PostsFeedback(config, event) then 1 else 0)
      && |SentRecords(effects)| == |Requests(effects)|
      && (forall k :: 0 <= k < |Requests(effects)| ==> ProperEnvelope(config, Requests(effects)[k]))
      && (forall k :: 0 <= k < |SentRecords(effects)| ==> WellFormed(SentRecords(effects)[k]))
      && Removals(effects) == DismissedKeys(config, [event])
      && (config.mode.Demo? ==> forall k :: 0 <= k < |effects| ==> DemoVisible(effects[k]))
  {
    assert [event][1..] == [];
    match event.action
    case AcceptSuggestion(suggestion, cardUUID, serviceUrl) =>
      if config.mode.Live? {
        if Present(suggestion.labelText) {
          AcceptWithLabel(config, suggestion, cardUUID, serviceUrl, event.now);
        } else {
          AcceptWithoutLabelOnlyLogs(config, suggestion, cardUUID, serviceUrl, event.now);
          CollectSingle(LogError(NoLabelMessage, suggestion), RecordsOf);
          CollectSingle(LogError(NoLabelMessage, suggestion), RemovalsOf);
        }
      }
    case DismissCard(serviceUrl, cardUUID, reason) =>
      if config.mode.Live? {
        DismissPostsThenRemoves(config, serviceUrl, cardUUID, reason, event.now);
      }
    case ClickLink(link) =>
      ClickOpensAtMostOneWindow(config, link);
      var effects := ClickEffects(config, link);
      assert SentRecords(effects) == [] by {
        var launched := LaunchDecision(config.mode, link);
        var appLaunch := AppLaunchCallback(link, launched);
        match launched
        case Opened(url) =>
          if config.hasOnAppLaunch {
            assert effects == [OpenWindow(url, BlankTarget), appLaunch];
            CollectPair(OpenWindow(url, BlankTarget), appLaunch, RecordsOf);
          } else {
            assert effects == [OpenWindow(url, BlankTarget)];
            CollectSingle(OpenWindow(url, BlankTarget), RecordsOf);
          }
        case NotLaunched =>
          if config.hasOnAppLaunch {
            assert effects == [appLaunch];
            CollectSingle(appLaunch, RecordsOf);
          } else {
            assert effects == [];
          }
      }
  }

  /**
   * In demo mode a whole session posts no feedback, fires no suggestion
   * callback, requests no removal and opens no window: the only effect left
   * is `onAppLaunch` reporting that nothing was launched.
   */
  lemma {:induction false} DemoSessionPerformsNothing(config: Config, events: seq<Event>)
    requires config.mode.Demo?
    ensures forall k :: 0 <= k < |SessionEffects(config, events)| ==> DemoVisible(SessionEffects(config, events)[k])
    ensures Requests(SessionEffects(config, events)) == []
    ensures Callbacks(SessionEffects(config, events)) == []
    ensures Removals(SessionEffects(config, events)) == []
    ensures Windows(SessionEffects(config, events)) == []
  {
    if events != [] {
      var head := StepEffects(config, events[0]);
      var tail := SessionEffects(config, events[1..]);
      StepFacts(config, events[0]);
      DemoSessionPerformsNothing(config, events[1..]);
      DemoVisibleObservesNothing(head);
      CollectAppend(head, tail, RequestsOf);
      CollectAppend(head, tail, CallbacksOf);
      CollectAppend(head, tail, RemovalsOf);
      CollectAppend(head, tail, WindowsOf);
      assert SessionEffects(config, events) == head + tail;
    }
  }

  /** A log of demo-visible effects shows no request, callback, removal or window. */
  lemma {:induction false} DemoVisibleObservesNothing(effects: seq<Effect>)
    requires forall k :: 0 <= k < |effects| ==> DemoVisible(effects[k])
    ensures Requests(effects) == [] && Callbacks(effects) == [] && Removals(effects) == [] && Windows(effects) == []
  {
    if effects != [] {
      assert DemoVisible(effects[0]);
      DemoVisibleObservesNothing(effects[1..]);
    }
  }

  /**
   * Exactly one feedback record, in exactly one proper envelope, is sent per
   * live dismissal and per live feedback-eligible accept; every record sent
   * is well-formed.
   */
  lemma {:induction false} OneRecordPerPostingEvent(config: Config, events: seq<Event>)
    ensures |Requests(SessionEffects(config, events))| == CountPostingEvents(config, events)
    ensures |SentRecords(SessionEffects(config, events))| == CountPostingEvents(config, events)
    ensures forall k :: 0 <= k < |Requests(SessionEffects(config, events))| ==> ProperEnvelope(config, Requests(SessionEffects(config, events))[k])
    ensures forall k :: 0 <= k < |SentRecords(SessionEffects(config, events))| ==> WellFormed(SentRecords(SessionEffects(config, events))[k])
  {
    if events != [] {
      var head := StepEffects(config, events[0]);
      var tail := SessionEffects(config, events[1..]);
      StepFacts(config, events[0]);
      OneRecordPerPostingEvent(config, events[1..]);
      CollectAppend(head, tail, RequestsOf);
      CollectAppend(head, tail, RecordsOf);
      assert SessionEffects(config, events) == head + tail;
      var requests := Requests(head + tail);
      assert requests == Requests(head) + Requests(tail);
      forall k | 0 <= k < |requests| ensures ProperEnvelope(config, requests[k]) {
        if k >= |Requests(head)| {
          assert requests[k] == Requests(tail)[k - |Requests(head)|];
        }
      }
      var records := SentRecords(head + tail);
      assert records == SentRecords(head) + SentRecords(tail);
      forall k | 0 <= k < |records| ensures WellFormed(records[k]) {
        if k >= |SentRecords(head)| {
          assert records[k] == SentRecords(tail)[k - |SentRecords(head)|];
        }
      }
    }
  }

  /** The store is asked to remove exactly the cards dismissed in live mode, in the order of the dismissals. */
  lemma {:induction false} RemovalsAreLiveDismissals(config: Config, events: seq<Event>)
    ensures Removals(SessionEffects(config, events)) == DismissedKeys(config, events)
  {
    if events != [] {
      var head := StepEffects(config, events[0]);
      var tail := SessionEffects(config, events[1..]);
      StepFacts(config, events[0]);
      RemovalsAreLiveDismissals(config, events[1..]);
      CollectAppend(head, tail, RemovalsOf);
      assert SessionEffects(config, events) == head + tail;
      assert [events[0]][1..] == [];
      assert DismissedKeys(config, [events[0]]) ==
        (if config.mode.Live? && events[0].action.DismissCard?
         then [CardKey(events[0].action.serviceUrl, events[0].action.cardUUID)] else []);
    }
  }
}
