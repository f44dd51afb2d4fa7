# CDS Hooks card list: a verified model of its interaction engine

The card list of the CDS Hooks sandbox shows the cards a Clinical Decision
Support service returns and turns the user's actions on them into feedback
sent back to that service. This project models that engine in Dafny:

- the **severity order** the cards are sorted into before rendering (the rank
  table info 0, warning 1, critical 2, error 3, and the comparator handed to
  the in-place sort);
- the **accept rule** (`takeSuggestion`): whether accepting a suggestion posts
  an `accepted` feedback record and whether the caller's callback fires,
  depending on demo mode, the suggestion's `label` and `uuid` and the card's
  `uuid`;
- the **dismiss rule** (`dismissCard`): the `overridden` record, its optional
  `overrideReason` with the nested optional code `system`, and the removal of
  the card from the store;
- the **feedback envelope** (`sendFeedback`): a POST to `serviceUrl +
  "/feedback"` with a bearer token signed for that endpoint and the record as
  the single element of `feedback`, in the shape of the "Feedback" section of
  the HL7 CDS Hooks specification;
- the **link rules**: `remapUrl` appends the fixed `iss` and `launch`
  parameters of the EHR launch of the SMART App Launch framework to `smart`
  links and maps every other link type to `null`; the "unlaunchable" flag;
  the decision of `launchLink`;
- the **render-level facts**: which affordances each card offers and which
  action each triggers, a dismiss control exactly when the card has a `uuid`,
  and the distinct "No Cards" result for an empty list.

The world outside the component is an effect log. Each handler of the class
`CardListComponent.CardList` appends to `effects` exactly the sequence a
specification function of module `Handlers` gives: `PostFeedback`,
`SuggestionCallback`, `RemoveCard`, `LogError`, `OpenWindow` and
`AppLaunchCallback`. Module `HandlerProperties` proves what the handlers
promise about that log, for one action and for a whole session of actions.

Modelling choices:

- An absent field is `None`. A field whose truth the source checks is checked
  with `Cards.Present`: present and not the empty string, as JavaScript's
  truthiness of a string.
- `label` is a Dafny keyword, so the `label` fields are called `labelText`;
  the link's `type` field is `linkType`.
- `isDemoCard` is `Mode = Live | Demo`. The time of `new Date().toISOString()`
  is the parameter `now`. `generateJWT` is the opaque function `sign` of the
  configuration. Whether an `onAppLaunch` callback was supplied is
  `hasOnAppLaunch`.
- A template literal of an absent `url` reads `"undefined"`, so a `smart` link
  without a URL remaps to `"undefined?iss=…"` (`Links.UrlText`).
- A link that is not `smart` and has no error still opens a window, on the
  `null` URL (`Opened(None)`), because `launchLink` calls `window.open` with
  whatever `remapUrl` returns.
- `onAppLaunch` is called after every click on a link when it is supplied, also
  in demo mode (with `null`). So demo mode suppresses feedback, suggestion
  callbacks, store removals and window opening, but not that call.
- Every `smart` link remaps to a non-empty URL, so the "unlaunchable" flag is
  never set and its notice never shows (`Links.NoLinkIsUnlaunchable`). The
  comment on `launchLink` (card-list.jsx:163-165) and the notice text
  (card-list.jsx:313) describe a SMART link without launch context as
  unlaunchable; the code has no such case, and the model follows the code.
- The comparator yields `NaN` for an indicator outside the rank table, which
  leaves the order up to the JavaScript engine. The model gives such cards
  the rank `Severity.UnknownRank` (-1), below every known severity.
- The engine's sort algorithm cannot be seen, so `Severity.SortBySeverity` is a
  selection sort. It is specified by what any correct sort gives: ranks that
  never increase, and a permutation of the input. The order of cards of equal
  rank is left unspecified.

## Model

| member | source | states |
|---|---|---|
| Severity.IndicatorRank | src/components/CardList/card-list.jsx:242-247 | the rank table has an entry exactly for info, warning, critical and error, every rank is at most 3, info is 0 and error is 3 |
| Severity.RankTableRoundTrip | src/components/CardList/card-list.jsx:242-247 | the rank table maps info, warning, critical and error to 0, 1, 2 and 3 and nothing else; it is a bijection with its inverse |
| Severity.Comparator | src/components/CardList/card-list.jsx:258 | the comparator is defined (not `NaN`) exactly when both indicators are in the table; it puts the first card first exactly when its rank is higher, and calls two cards equal exactly when they have the same indicator |
| Severity.SortKey | src/components/CardList/card-list.jsx:242-247 | the sort key of a known indicator is its rank in the table; it is the fallback rank, below every known rank, exactly for an indicator outside the table |
| Severity.SortKeyAgreesWithComparator | src/components/CardList/card-list.jsx:258 | wherever the comparator is defined, the sort key orders two cards as the comparator does |
| Severity.HigherSeverityComesFirst | src/components/CardList/card-list.jsx:257-258 | in a sorted list a card of higher severity always comes before one of lower severity |
| Severity.SortBySeverity | src/components/CardList/card-list.jsx:257-258 | after the in-place sort the ranks never increase along the array, and the array is a permutation of what it held before |
| Links.UrlText | src/components/CardList/card-list.jsx:156 | a present URL is interpolated as itself, an absent one as `"undefined"` |
| Links.RemapUrl | src/components/CardList/card-list.jsx:152-161 | a link has a remapped URL exactly when its type is `smart`; that URL is the link's URL followed by the fixed `iss`/`launch` query, so stripping that query gives the URL back, and it is never empty |
| Links.Unlaunchable | src/components/CardList/card-list.jsx:308-311 | only a `smart` link can be flagged unlaunchable |
| Links.NoLinkIsUnlaunchable | src/components/CardList/card-list.jsx:308-311 | the flag "a `smart` link whose remapped URL is falsy" is false for every link |
| Links.LinkNotice | src/components/CardList/card-list.jsx:311-314 | the notice under a link is non-empty exactly when the link is flagged unlaunchable |
| Links.LaunchDecision | src/components/CardList/card-list.jsx:169-181 | a window is opened exactly in live mode for a link without an error, and it is opened on the remapped URL |
| Links.LaunchTargetsSmartLinksOnly | src/components/CardList/card-list.jsx:152-181 | a window is opened on an actual URL exactly for a `smart` link without an error in live mode, on the link's URL plus the launch query; an absolute link without an error opens a window on `null` |
| Feedback.FeedbackEndpoint | src/components/CardList/card-list.jsx:122 | the endpoint is the service URL followed by `/feedback`: stripping `/feedback` from it gives the service URL back |
| Feedback.FeedbackEndpointInjective | src/components/CardList/card-list.jsx:122 | two different services never share a feedback endpoint |
| Feedback.FeedbackRequestFor | src/components/CardList/card-list.jsx:121-138 | the request goes to the service's feedback endpoint, as JSON, with a bearer token signed for that endpoint, and its body holds exactly the one record under `feedback` |
| Feedback.AcceptedRecord | src/components/CardList/card-list.jsx:71-81 | an accepted record exists exactly when both the suggestion's and the card's uuid are present; it names the card, has outcome `accepted` and the given timestamp, lists exactly that one suggestion, and has the CDS Hooks shape |
| Feedback.OverrideEntry | src/components/CardList/card-list.jsx:104-114 | `overrideReason` is attached exactly when a reason with a code is given; it carries that code, and carries a `system` exactly when the reason's system is present too, and then that system |
| Feedback.OverriddenRecord | src/components/CardList/card-list.jsx:98-114 | the overridden record names the card, has outcome `overridden` and the given timestamp, never lists accepted suggestions, has the outcome-dependent shape CDS Hooks asks for, and its override reason is the one the reason rule gives |
| Feedback.ComposeOverridden | src/components/CardList/card-list.jsx:98-114 | building the record step by step, adding `overrideReason` and then its `system` in place, yields the overridden record: no accepted suggestions, a reason exactly when a code is given, a system exactly when it is present as well |
| Handlers.FeedbackEffect | src/components/CardList/card-list.jsx:121-138 | the effect of `sendFeedback` is one POST to the service's feedback endpoint, with a bearer token signed for that endpoint, holding exactly the record |
| Handlers.AcceptEffects | src/components/CardList/card-list.jsx:68-91 | demo mode does nothing; in live mode there are one or two effects, the last being the callback when the suggestion has a label; there are two, a POST first, exactly when label and both uuids are present |
| Handlers.DismissEffects | src/components/CardList/card-list.jsx:93-119 | demo mode does nothing; in live mode a POST of exactly the overridden record, then the removal keyed by the service URL and the card uuid |
| Handlers.LaunchEffects | src/components/CardList/card-list.jsx:169-181 | at most one effect: a window opened in a new tab on the decided URL, exactly when the decision is to open one |
| Handlers.ClickEffects | src/components/CardList/card-list.jsx:321-326 | at most two effects; a window opens first on the remapped URL in live mode for a link without an error and never otherwise; the last is `onAppLaunch` with the launch decision exactly when it was supplied |
| Handlers.StepEffects | src/components/CardList/card-list.jsx:297-371 | one action has at most two effects, and none in demo mode unless it is a link click |
| Handlers.SessionEffects | src/components/CardList/card-list.jsx:68-181 | a sequence of actions has at most two effects per action, and none in demo mode when no link is clicked |
| HandlerProperties.AcceptWithoutLabelOnlyLogs | src/components/CardList/card-list.jsx:87-88 | in live mode a suggestion without a label only logs the diagnostic: no feedback request, no callback |
| HandlerProperties.AcceptWithLabel | src/components/CardList/card-list.jsx:70-86 | in live mode a labelled suggestion fires the callback exactly once, as the last effect; with both uuids present exactly one request to the feedback endpoint comes first, carrying exactly the accepted record with one accepted suggestion; otherwise nothing is posted |
| HandlerProperties.DismissPostsThenRemoves | src/components/CardList/card-list.jsx:98-118 | in live mode a dismissal posts exactly one overridden record and then requests exactly one removal keyed by the service URL and the card uuid; no callback, no window |
| HandlerProperties.DismissRemovalIgnoresReason | src/components/CardList/card-list.jsx:104-118 | the removal a dismissal requests is the same whatever override reason is given |
| HandlerProperties.ClickOpensAtMostOneWindow | src/components/CardList/card-list.jsx:321-326 | a click opens the remapped URL exactly in live mode for a link without an error, never posts feedback, removes a card or fires the suggestion callback, and ends with `onAppLaunch` exactly when it was supplied |
| HandlerProperties.StepFacts | src/components/CardList/card-list.jsx:68-138 | one action posts one request exactly when it is a live dismissal or a live accept with label and both uuids, and none otherwise; every posted request is a proper envelope (feedback endpoint, JSON, bearer token signed for that endpoint) with one well-formed record; the removals are those of a live dismissal |
| HandlerProperties.DemoSessionPerformsNothing | src/components/CardList/card-list.jsx:68-119 | in demo mode any sequence of actions posts no feedback, fires no suggestion callback, requests no removal and opens no window; the only effect left is `onAppLaunch` reporting no launch |
| HandlerProperties.OneRecordPerPostingEvent | src/components/CardList/card-list.jsx:68-138 | over any sequence of actions exactly one request, holding exactly one record, is posted per live dismissal and per live accept with label and both uuids; every request is a proper envelope and every record sent is well-formed |
| HandlerProperties.RemovalsAreLiveDismissals | src/components/CardList/card-list.jsx:93-118 | over any sequence of actions the store is asked to remove exactly the cards dismissed in live mode, in order |
| CardView.SuggestionButtons | src/components/CardList/card-list.jsx:293-302 | one button per suggestion, each accepting that suggestion for the card's uuid and service |
| CardView.LinkButtons | src/components/CardList/card-list.jsx:305-333 | one button per link, each clicking that link; none is disabled and none shows the unlaunchable notice |
| CardView.OverrideItems | src/components/CardList/card-list.jsx:339-347 | one item per override reason, each dismissing the card with that reason |
| CardView.DismissSection | src/components/CardList/card-list.jsx:336-378 | a dismiss control exists exactly when the card has a uuid; a split button when the card lists override reasons, a plain button otherwise; its button or primary option dismisses this card with no reason, and the split button lists one item per override reason, each dismissing with that reason |
| CardView.RenderCard | src/components/CardList/card-list.jsx:259-416 | a rendered card keeps the card's indicator and summary, has suggestion buttons exactly when the card has suggestions, link buttons exactly when it has links, each list built from the card's own entries, and a dismiss control exactly when it has a uuid |
| CardView.OfferedActions | src/components/CardList/card-list.jsx:293-378 | the action of every suggestion button, every link button, the dismiss button or primary option and every override item is among the actions the card offers |
| CardView.OfferedActionsNameTheCard | src/components/CardList/card-list.jsx:336-378 | a rendered card offers a dismissal exactly when it has a uuid, and every dismissal and accept it offers names that card's service and uuid |
| CardView.OfferedFeedbackNamesTheCard | src/components/CardList/card-list.jsx:297-371 | every feedback record and every removal produced by an action a rendered card offers names that card by a present uuid: a card without a uuid is never the subject of feedback |
| CardView.BuildView | src/components/CardList/card-list.jsx:259-420 | an empty list gives "No Cards"; otherwise the result renders each card, in the sorted order, one rendered card per card |
| CardListComponent.CardList.constructor | src/components/CardList/card-list.jsx:54-59 | a new component has the given props and has done nothing yet |
| CardListComponent.CardList.TakeSuggestion | src/components/CardList/card-list.jsx:68-91 | appends exactly the effects of the accept rule to the log |
| CardListComponent.CardList.DismissCard | src/components/CardList/card-list.jsx:93-119 | appends exactly the effects of the dismiss rule to the log |
| CardListComponent.CardList.SendFeedback | src/components/CardList/card-list.jsx:121-138 | appends exactly one POST of the record in its feedback envelope |
| CardListComponent.CardList.LaunchLink | src/components/CardList/card-list.jsx:169-181 | returns the launch decision and appends the window it opens, if any, and nothing else |
| CardListComponent.CardList.ClickLink | src/components/CardList/card-list.jsx:321-326 | appends the launch's effects and then, when supplied, the `onAppLaunch` call with the launch result |
| CardListComponent.CardList.Handle | src/components/CardList/card-list.jsx:297-371 | invoking the handler an affordance names appends exactly that action's effects |
| CardListComponent.CardList.Render | src/components/CardList/card-list.jsx:241-428 | sorts the cards in place by non-increasing rank as a permutation, renders each of them in that order, gives "No Cards" exactly for an empty list, and performs no effect |

## Left out

- Severity.SortBySeverity: orders cards whose indicator is outside the rank table last, where the source's comparator yields `NaN` and leaves their place to the JavaScript engine.
- JSX and Terra component construction, styling (`cx`, `styles`, `summaryColors`), `ReactMarkdown` and the source section (`renderSource`, `launchSource`): presentation only. The rendered card keeps only its indicator and summary text, not their markup.
- The HTTP POST itself: it is fire-and-forget and its outcome is never observed, so it is the `PostFeedback` effect. Network failure, asynchrony and the absence of retries are not modelled.
- `generateJWT`: a foreign signing library, modelled as the opaque function `sign` from endpoint to token.
- `store.dispatch`, the `dismissCard` action creator, redux `connect` and `mapStateToProps`: store plumbing, modelled only as the `RemoveCard` effect.
- `window.open` and the window handle it returns (which may be `null` when the browser blocks it), and `e.preventDefault`: browser side effects. The model records the URL and target opened and returns the launch decision instead of a handle.
- `new Date().toISOString()`: the wall clock, taken as the `now` parameter.
- The deep copy `JSON.parse(JSON.stringify(c))`: cards are values here, so the copy changes nothing.
- The `launchLinks` prop: it is declared but never read by the code modelled.
- Field values of other JSON types than the model's (a numeric `label`, say), whose JavaScript truthiness the model does not follow.
