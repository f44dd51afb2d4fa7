/**
 * The render-level facts of the card list: what each rendered card offers
 * (suggestion buttons, link buttons, a dismiss control) and which user action
 * each affordance triggers, and the "No Cards" result for an empty list.
 * Layout, styling and markdown are not modelled.
 */
module CardView {
  import opened Wrappers
  import opened Cards
  import opened Links
  import opened Feedback
  import opened Handlers
  import opened HandlerProperties

  datatype SuggestionButton = SuggestionButton(text: Option<string>, onClick: UserAction)

  datatype LinkButton = LinkButton(text: string, isDisabled: bool, title: string, notice: string, onClick: UserAction)

  datatype OverrideItem = OverrideItem(itemLabel: string, onSelect: UserAction)

  /** A plain "Dismiss" button, or a split button whose items dismiss with a reason. */
  datatype DismissControl =
    | DismissButton(onClick: UserAction)
    | DismissSplitButton(onSelect: UserAction, items: seq<OverrideItem>)

  datatype RenderedCard = RenderedCard(
    indicator: string,
    summary: string,
    suggestions: Option<seq<SuggestionButton>>,
    links: Option<seq<LinkButton>>,
    dismiss: Option<DismissControl>)

  /** The result of rendering: the distinct "No Cards" notice, or the rendered cards. */
  datatype View = NoCards | Rendered(cards: seq<RenderedCard>)

  function SuggestionButtons(card: Card, suggestions: seq<Suggestion>): (buttons: seq<SuggestionButton>)
    ensures |buttons| == |suggestions|
    ensures forall k :: 0 <= k < |buttons| ==>
      buttons[k].onClick == AcceptSuggestion(suggestions[k], card.uuid, card.serviceUrl)
  {
    seq(|suggestions|, k requires 0 <= k < |suggestions| =>
      SuggestionButton(suggestions[k].labelText, AcceptSuggestion(suggestions[k], card.uuid, card.serviceUrl)))
  }

  function LinkButtons(links: seq<Link>): (buttons: seq<LinkButton>)
    ensures |buttons| == |links|
    ensures forall k :: 0 <= k < |buttons| ==> buttons[k].onClick == ClickLink(links[k])
    ensures forall k :: 0 <= k < |buttons| ==> !buttons[k].isDisabled && buttons[k].notice == ""
  {
    seq(|links|, k requires 0 <= k < |links| =>
      NoLinkIsUnlaunchable(links[k]);
      LinkButton(links[k].labelText, Unlaunchable(links[k]), LinkNotice(links[k]), LinkNotice(links[k]), ClickLink(links[k])))
  }

  function OverrideItems(card: Card, reasons: seq<OverrideReason>): (items: seq<OverrideItem>)
    ensures |items| == |reasons|
    ensures forall k :: 0 <= k < |items| ==>
      items[k].onSelect == DismissCard(card.serviceUrl, card.uuid, Some(reasons[k]))
  {
    seq(|reasons|, k requires 0 <= k < |reasons| =>
      OverrideItem("Override: " + reasons[k].display, DismissCard(card.serviceUrl, card.uuid, Some(reasons[k]))))
  }

  /** The action of a dismiss control's button, or of a split button's primary option. */
  function PrimaryDismissal(control: DismissControl): UserAction
  {
    match control
    case DismissButton(a) => a
    case DismissSplitButton(a, _) => a
  }

  /** The dismiss control: there is one exactly when the card has a uuid. */
  function DismissSection(card: Card): (control: Option<DismissControl>)
    ensures control.Some? <==> Present(card.uuid)
    ensures control.Some? && card.overrideReasons.Some? ==> control.value.DismissSplitButton?
    ensures control.Some? && card.overrideReasons.None? ==> control.value.DismissButton?
    ensures control.Some? ==> PrimaryDismissal(control.value) == DismissCard(card.serviceUrl, card.uuid, None)
    ensures control.Some? && card.overrideReasons.Some? ==>
      control.value.items == OverrideItems(card, card.overrideReasons.value)
  {
    if !Present(card.uuid) then None
    else match card.overrideReasons
      case Some(reasons) =>
        Some(DismissSplitButton(DismissCard(card.serviceUrl, card.uuid, None), OverrideItems(card, reasons)))
      case None =>
        Some(DismissButton(DismissCard(card.serviceUrl, card.uuid, None)))
  }

  /** The `forEach` body: one rendered card, with the affordances the card's fields call for. */
  function RenderCard(card: Card): (rendered: RenderedCard)
    ensures rendered.indicator == card.indicator && rendered.summary == card.summary
    ensures rendered.suggestions.Some? <==> card.suggestions.Some?
    ensures rendered.suggestions.Some? ==> rendered.suggestions.value == SuggestionButtons(card, card.suggestions.value)
    ensures rendered.links.Some? <==> card.links.Some?
    ensures rendered.links.Some? ==> rendered.links.value == LinkButtons(card.links.value)
    ensures rendered.dismiss.Some? <==> Present(card.uuid)
  {
    RenderedCard(
      card.indicator,
      card.summary,
      match card.suggestions case Some(s) => Some(SuggestionButtons(card, s)) case None => None,
      match card.links case Some(l) => Some(LinkButtons(l)) case None => None,
      DismissSection(card))
  }

  /** The actions of a list of suggestion buttons, in order. */
  function SuggestionActions(buttons: Option<seq<SuggestionButton>>): (actions: seq<UserAction>)
    ensures buttons.None? ==> actions == []
    ensures buttons.Some? ==> |actions| == |buttons.value|
    ensures buttons.Some? ==> forall k :: 0 <= k < |actions| ==> actions[k] == buttons.value[k].onClick
  {
    match buttons
    case Some(b) => seq(|b|, k requires 0 <= k < |b| => b[k].onClick)
    case None => []
  }

  /** The actions of a list of link buttons, in order. */
  function LinkActions(buttons: Option<seq<LinkButton>>): (actions: seq<UserAction>)
    ensures buttons.None? ==> actions == []
    ensures buttons.Some? ==> |actions| == |buttons.value|
    ensures buttons.Some? ==> forall k :: 0 <= k < |actions| ==> actions[k] == buttons.value[k].onClick
  {
    match buttons
    case Some(b) => seq(|b|, k requires 0 <= k < |b| => b[k].onClick)
    case None => []
  }

  /** The actions of a dismiss control: its primary dismissal, then those of its override items. */
  function DismissActions(control: Option<DismissControl>): (actions: seq<UserAction>)
    ensures control.None? ==> actions == []
    ensures control.Some? ==> |actions| >= 1 && actions[0] == PrimaryDismissal(control.value)
    ensures control.Some? && control.value.DismissSplitButton? ==>
      |actions| == 1 + |control.value.items| &&
      forall k :: 0 <= k < |control.value.items| ==> actions[k + 1] == control.value.items[k].onSelect
  {
    match control
    case Some(DismissButton(a)) => [a]
    case Some(DismissSplitButton(a, items)) => [a] + seq(|items|, k requires 0 <= k < |items| => items[k].onSelect)
    case None => []
  }

  /** Every user action a rendered card's affordances trigger. */
  function OfferedActions(rendered: RenderedCard): (actions: seq<UserAction>)
    ensures rendered.suggestions.Some? ==>
      forall k :: 0 <= k < |rendered.suggestions.value| ==> rendered.suggestions.value[k].onClick in actions
    ensures rendered.links.Some? ==>
      forall k :: 0 <= k < |rendered.links.value| ==> rendered.links.value[k].onClick in actions
    ensures rendered.dismiss.Some? ==> PrimaryDismissal(rendered.dismiss.value) in actions
    ensures rendered.dismiss.Some? && rendered.dismiss.value.DismissSplitButton? ==>
      forall k :: 0 <= k < |rendered.dismiss.value.items| ==> rendered.dismiss.value.items[k].onSelect in actions
  {
    var fromSuggestions := SuggestionActions(rendered.suggestions);
    var fromLinks := LinkActions(rendered.links);
    var fromDismiss := DismissActions(rendered.dismiss);
    var all := fromSuggestions + fromLinks + fromDismiss;
    assert forall k :: 0 <= k < |fromSuggestions| ==> all[k] == fromSuggestions[k];
    assert forall k :: 0 <= k < |fromLinks| ==> all[|fromSuggestions| + k] == fromLinks[k];
    assert forall k :: 0 <= k < |fromDismiss| ==> all[|fromSuggestions| + |fromLinks| + k] == fromDismiss[k];
    all
  }

  /**
   * A rendered card offers a dismissal exactly when it has a uuid, and every
   * dismissal and every accept it offers names that card's service and uuid.
   */
  lemma OfferedActionsNameTheCard(card: Card)
    ensures (exists a :: a in OfferedActions(RenderCard(card)) && a.DismissCard?) <==> Present(card.uuid)
    ensures forall a :: a in OfferedActions(RenderCard(card)) && a.DismissCard? ==>
      a.serviceUrl == card.serviceUrl && a.cardUUID == card.uuid
    ensures forall a :: a in OfferedActions(RenderCard(card)) && a.AcceptSuggestion? ==>
      a.serviceUrl == card.serviceUrl && a.cardUUID == card.uuid
  {
    var rendered := RenderCard(card);
    var s := SuggestionActions(rendered.suggestions);
    var l := LinkActions(rendered.links);
    var d := DismissActions(rendered.dismiss);
    assert OfferedActions(rendered) == s + l + d;
    assert forall a :: a in s ==> a.AcceptSuggestion? && a.serviceUrl == card.serviceUrl && a.cardUUID == card.uuid;
    assert forall a :: a in l ==> a.ClickLink?;
    assert forall a :: a in d ==> a.DismissCard? && a.serviceUrl == card.serviceUrl && a.cardUUID == card.uuid;
    if Present(card.uuid) {
      assert d != [] && d[0] in OfferedActions(rendered);
    } else {
      assert d == [];
    }
  }

  /**
   * Every feedback record and every removal that an action offered by a
   * rendered card produces names that card: a card without a uuid is never
   * the subject of feedback.
   */
  lemma OfferedFeedbackNamesTheCard(config: Config, card: Card, action: UserAction, now: string)
    requires action in OfferedActions(RenderCard(card))
    ensures forall r :: r in SentRecords(StepEffects(config, Event(action, now))) ==>
      r.card == card.uuid && Present(r.card)
    ensures forall key :: key in Removals(StepEffects(config, Event(action, now))) ==>
      key == CardKey(card.serviceUrl, card.uuid) && Present(key.cardUUID)
  {
    OfferedActionsNameTheCard(card);
    var event := Event(action, now);
    StepFacts(config, event);
    match action
    case AcceptSuggestion(suggestion, cardUUID, serviceUrl) =>
      if config.mode.Live? && Present(suggestion.labelText) {
        AcceptWithLabel(config, suggestion, cardUUID, serviceUrl, now);
      } else if config.mode.Live? {
        AcceptWithoutLabelOnlyLogs(config, suggestion, cardUUID, serviceUrl, now);
        CollectSingle(LogError(NoLabelMessage, suggestion), RecordsOf);
      }
    case DismissCard(serviceUrl, cardUUID, reason) =>
      assert Present(card.uuid);
      if config.mode.Live? {
        DismissPostsThenRemoves(config, serviceUrl, cardUUID, reason, now);
      }
    case ClickLink(link) =>
      assert PostsFeedback(config, event) == false;
      assert [event][1..] == [];
  }

  /**
   * Renders the sorted cards one by one, as the card list's `forEach` pushes
   * them, and reports "No Cards" when nothing was rendered.
   */
  method BuildView(cards: seq<Card>) returns (view: View)
    ensures view.NoCards? <==> |cards| == 0
    ensures view.Rendered? ==> |view.cards| == |cards|
    ensures view.Rendered? ==> forall k :: 0 <= k < |cards| ==> view.cards[k] == RenderCard(cards[k])
  {
    var renderedCards: seq<RenderedCard> := [];
    var i := 0;
    while i < |cards|
      invariant 0 <= i <= |cards|
      invariant |renderedCards| == i
      invariant forall k :: 0 <= k < i ==> renderedCards[k] == RenderCard(cards[k])
    {
      renderedCards := renderedCards + [RenderCard(cards[i])];
      i := i + 1;
    }
    if |renderedCards| == 0 {
      return NoCards;
    }
    return Rendered(renderedCards);
  }
}
