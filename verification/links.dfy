/**
 * Link rules: the remapping of SMART links to an EHR launch URL (the `iss`
 * and `launch` parameters of the EHR launch sequence of the SMART App Launch
 * framework), the "unlaunchable" flag, and the launch decision.
 */
module Links {
  import opened Wrappers
  import opened Text
  import opened Cards

  /** The fixed `iss` value: the URL-encoded FHIR base URL of the SMART launcher. */
  const IssParameter := "https%3A%2F%2Flaunch.smarthealthit.org%2Fv%2Fr4%2Ffhir"

  /** The fixed, pre-provisioned `launch` context token. */
  const LaunchParameter := "WzAsIiIsImZkN2E3MzdlLTFhYzUtNGM0ZS04OWNkLTFjMDdkYTRjYTFjMiIsIkFVVE8iLDAsMCwwLCIiLCIiLCIiLCIiLCIiLCIiLCIiLDAsMV0"

  /** The query string appended to every SMART link. */
  const SmartLaunchQuery := "?iss=" + IssParameter + "&launch=" + LaunchParameter

  /** The target window name passed to `window.open`. */
  const BlankTarget := "_blank"

  /** The advisory shown under a link that is flagged unlaunchable. */
  const UnlaunchableNotice := "Cannot launch SMART link without a SMART-enabled FHIR server"

  /** A possibly absent URL as a template literal renders it: an absent one reads "undefined". */
  function UrlText(url: Option<string>): (text: string)
    ensures url.Some? ==> text == url.value
    ensures url.None? ==> text == "undefined"
  {
    match url
    case Some(u) => u
    case None => "undefined"
  }

  /**
   * `remapUrl`: a SMART link's URL with the launch query appended; `None`
   * (JavaScript `null`) for every other link type, the "absolute" type included.
   */
  function RemapUrl(link: Link): (url: Option<string>)
    ensures url.Some? <==> link.linkType == "smart"
    ensures url.Some? ==> StripSuffix(url.value, SmartLaunchQuery) == Some(UrlText(link.url))
    ensures url.Some? ==> Present(url)
  {
    if link.linkType == "smart" then
      StripAppendedSuffix(UrlText(link.url), SmartLaunchQuery);
      Some(UrlText(link.url) + SmartLaunchQuery)
    else
      None
  }

  /** The `unlaunchable` flag of a rendered link: a SMART link whose remapped URL is falsy. */
  predicate Unlaunchable(link: Link)
    ensures Unlaunchable(link) ==> link.linkType == "smart"
  {
    link.linkType == "smart" && !Present(RemapUrl(link))
  }

  /** Since every SMART link remaps to a non-empty URL, no link is ever flagged unlaunchable. */
  lemma NoLinkIsUnlaunchable(link: Link)
    ensures !Unlaunchable(link)
  {
  }

  /** The notice rendered under a link: the advisory when it is unlaunchable, otherwise empty. */
  function LinkNotice(link: Link): (notice: string)
    ensures notice == "" <==> !Unlaunchable(link)
  {
    if Unlaunchable(link) then UnlaunchableNotice else ""
  }

  /** What `launchLink` does: nothing (it returns `null`), or open a window on a URL, possibly `null`. */
  datatype Launch = NotLaunched | Opened(url: Option<string>)

  /**
   * The decision of `launchLink`: in demo mode, or for a link flagged with an
   * error, nothing is opened; otherwise a new window is opened on the remapped URL.
   */
  function LaunchDecision(mode: Mode, link: Link): (r: Launch)
    ensures r.Opened? <==> mode.Live? && !link.error
    ensures r.Opened? ==> r.url == RemapUrl(link)
  {
    match mode
    case Demo => NotLaunched
    case Live => if link.error then NotLaunched else Opened(RemapUrl(link))
  }

  /**
   * A window is opened on an actual URL exactly for a SMART link without an
   * error in live mode; that URL is the link's URL followed by the launch query.
   * An absolute link without an error opens a window on `null`.
   */
  lemma LaunchTargetsSmartLinksOnly(mode: Mode, link: Link)
    ensures LaunchDecision(mode, link).Opened? && LaunchDecision(mode, link).url.Some?
        <==> mode.Live? && !link.error && link.linkType == "smart"
    ensures mode.Live? && !link.error && link.linkType != "smart" ==> LaunchDecision(mode, link) == Opened(None)
    ensures LaunchDecision(mode, link).Opened? && LaunchDecision(mode, link).url.Some? ==>
        StripSuffix(LaunchDecision(mode, link).url.value, SmartLaunchQuery) == Some(UrlText(link.url))
  {
  }
}
