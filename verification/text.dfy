/** Small facts about strings used by the URL rules. */
module Text {
  import opened Wrappers

  /** The part of `s` before `suffix`, if `s` ends with `suffix`. */
  function StripSuffix(s: string, suffix: string): (r: Option<string>)
    ensures r.Some? <==> |suffix| <= |s| && s[|s| - |suffix|..] == suffix
    ensures r.Some? ==> r.value + suffix == s
  {
    if |suffix| <= |s| && s[|s| - |suffix|..] == suffix then
      assert s[..|s| - |suffix|] + s[|s| - |suffix|..] == s;
      Some(s[..|s| - |suffix|])
    else
      None
  }

  /** Appending a suffix and stripping it again gives back the original string. */
  lemma StripAppendedSuffix(prefix: string, suffix: string)
    ensures StripSuffix(prefix + suffix, suffix) == Some(prefix)
  {
  }
}
