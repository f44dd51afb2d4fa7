/**
 * The inbound data model: the cards a CDS service returns, with their
 * suggestions, links and override reasons, as the card list reads them.
 * Optional fields are `Option`s; `None` stands for an absent (`undefined`) field.
 */
module Cards {
  import opened Wrappers

  /**
   * Whether an optional string field is truthy in JavaScript: it is there
   * and it is not the empty string.
   */
  predicate Present(field: Option<string>)
  {
    field.Some? && field.value != ""
  }

  /** The `isDemoCard` flag: in `Demo` the card list renders but performs no action. */
  datatype Mode = Live | Demo

  /** A suggestion; `labelText` is its `label` field (`label` is a Dafny keyword). */
  datatype Suggestion = Suggestion(labelText: Option<string>, uuid: Option<string>)

  /** A card link; `labelText` and `linkType` are its `label` and `type` fields. */
  datatype Link = Link(labelText: string, url: Option<string>, linkType: string, error: bool)

  datatype OverrideReason = OverrideReason(code: Option<string>, system: Option<string>, display: string)

  datatype Card = Card(
    uuid: Option<string>,
    indicator: string,
    summary: string,
    suggestions: Option<seq<Suggestion>>,
    links: Option<seq<Link>>,
    overrideReasons: Option<seq<OverrideReason>>,
    serviceUrl: string)
}
