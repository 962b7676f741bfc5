/** The string helper that turns an episode URL into the episode's number (Extensions/String.swift). */
module StringExtension {
  import opened TextFormatting

  /** The address every episode URL of the API starts with. */
  const EpisodeURLPrefix: string := "https://rickandmortyapi.com/api/episode/"

  predicate StartsWith(s: string, prefix: string)
  {
    |prefix| <= |s| && s[..|prefix|] == prefix
  }

  /** Whether `target` occurs anywhere in `s`. */
  predicate Contains(s: string, target: string)
    decreases |s|
  {
    StartsWith(s, target) || (s != [] && Contains(s[1..], target))
  }

  /** Foundation's `replacingOccurrences(of:with:)`: scans `s` from the left and replaces every
      non-overlapping occurrence of `target` by `replacement`. */
  function ReplacingOccurrences(s: string, target: string, replacement: string): (r: string)
    requires target != []
    ensures |replacement| <= |target| ==> |r| <= |s|
    ensures !Contains(s, target) ==> r == s
    decreases |s|
  {
    if |s| < |target| then s
    else if s[..|target|] == target then
      replacement + ReplacingOccurrences(s[|target|..], target, replacement)
    else
      [s[0]] + ReplacingOccurrences(s[1..], target, replacement)
  }

  /** `mapEpisodeURLToNumber`: every occurrence of the episode-URL prefix removed. */
  function MapEpisodeURLToNumber(s: string): (r: string)
    ensures |r| <= |s|
    ensures !Contains(s, EpisodeURLPrefix) ==> r == s
  {
    ReplacingOccurrences(s, EpisodeURLPrefix, "")
  }

  /** A string of digits never contains the episode-URL prefix (which starts with a letter). */
  lemma {:induction false} DigitsNeverContainPrefix(d: string)
    requires IsDigits(d)
    ensures !Contains(d, EpisodeURLPrefix)
    decreases |d|
  {
    if |EpisodeURLPrefix| <= |d| {
      assert d[..|EpisodeURLPrefix|][0] != EpisodeURLPrefix[0];
    }
    if d != [] {
      DigitsNeverContainPrefix(d[1..]);
    }
  }

  /** The prefix followed by a suffix in which the prefix does not occur maps to that suffix. */
  lemma PrefixedURLMapsToSuffix(suffix: string)
    requires !Contains(suffix, EpisodeURLPrefix)
    ensures MapEpisodeURLToNumber(EpisodeURLPrefix + suffix) == suffix
  {
    var s := EpisodeURLPrefix + suffix;
    assert s[..|EpisodeURLPrefix|] == EpisodeURLPrefix;
    assert s[|EpisodeURLPrefix|..] == suffix;
  }

  /** An episode URL ending in a decimal number maps to that number. */
  lemma EpisodeURLMapsToNumber(n: nat)
    ensures MapEpisodeURLToNumber(EpisodeURLPrefix + NatToDecimal(n)) == NatToDecimal(n)
  {
    DigitsNeverContainPrefix(NatToDecimal(n));
    PrefixedURLMapsToSuffix(NatToDecimal(n));
  }

  /** `s` repeated `k` times. */
  function Repeat(s: string, k: nat): (r: string)
    ensures |r| == k * |s|
  {
    if k == 0 then [] else s + Repeat(s, k - 1)
  }

  /** The prefix repeated any number of times, the empty string included, maps to the empty string. */
  lemma {:induction false} RepeatedPrefixMapsToEmpty(k: nat)
    ensures MapEpisodeURLToNumber(Repeat(EpisodeURLPrefix, k)) == ""
  {
    if k > 0 {
      var s := Repeat(EpisodeURLPrefix, k);
      assert s[..|EpisodeURLPrefix|] == EpisodeURLPrefix;
      assert s[|EpisodeURLPrefix|..] == Repeat(EpisodeURLPrefix, k - 1);
      RepeatedPrefixMapsToEmpty(k - 1);
    }
  }
}
