/** The track-link side of the Spotify helper: finding a track id in a URL
    (`SpotifyClient.extract_track_id`) and the shape of the track record the
    metadata lookup returns. The lookup itself is an external call and is
    not modelled; its answer is an input. */
module Spotify {
  import opened Wrappers
  import opened Text

  /** The literal part of the pattern `open\.spotify\.com/track/([A-Za-z0-9]+)`. */
  const TrackMarker: string := "open.spotify.com/track/"

  /** The character class `[A-Za-z0-9]` (ASCII only). */
  predicate IsAlnum(c: char) {
    ('a' <= c <= 'z') || ('A' <= c <= 'Z') || ('0' <= c <= '9')
  }

  /** The pattern matches at `p`: the marker, then at least one letter or
      digit. */
  predicate TrackLinkAt(url: string, p: nat) {
    p + |TrackMarker| < |url| && url[p..p + |TrackMarker|] == TrackMarker
    && IsAlnum(url[p + |TrackMarker|])
  }

  /** End of the maximal run of letters and digits starting at `j`. */
  function AlnumEnd(url: string, j: nat): (e: nat)
    requires j <= |url|
    ensures j <= e <= |url|
    ensures forall k :: j <= k < e ==> IsAlnum(url[k])
    ensures e == |url| || !IsAlnum(url[e])
    decreases |url| - j
  {
    if j < |url| && IsAlnum(url[j]) then AlnumEnd(url, j + 1) else j
  }

  /** The leftmost position at or after `from` where the pattern matches
      (what `re.search` finds). */
  function FirstTrackLink(url: string, from: nat): (p: Option<nat>)
    ensures p.Some? ==> from <= p.value && TrackLinkAt(url, p.value)
    ensures p.Some? ==> forall q: nat :: from <= q < p.value ==> !TrackLinkAt(url, q)
    ensures p.None? ==> forall q: nat :: from <= q ==> !TrackLinkAt(url, q)
    decreases |url| - from
  {
    if from + |TrackMarker| >= |url| then None
    else if TrackLinkAt(url, from) then Some(from)
    else FirstTrackLink(url, from + 1)
  }

  /** `extract_track_id(url)`: the letters and digits after the leftmost
      `open.spotify.com/track/` that is followed by at least one of them;
      matching is case-sensitive. */
  function TrackId(url: string): (id: Option<string>)
    ensures id.None? <==> forall q: nat :: !TrackLinkAt(url, q)
    ensures id.Some? ==> |id.value| > 0 && forall k :: 0 <= k < |id.value| ==> IsAlnum(id.value[k])
    ensures id.Some? ==> exists p: nat ::
      && TrackLinkAt(url, p)
      && (forall q: nat :: q < p ==> !TrackLinkAt(url, q))
      && id.value == url[p + |TrackMarker|..AlnumEnd(url, p + |TrackMarker|)]
  {
    match FirstTrackLink(url, 0)
    case None => None
    case Some(p) =>
      var start := p + |TrackMarker|;
      Some(url[start..AlnumEnd(url, start)])
  }

  /** The record `get_track_info` builds from the lookup's answer. Every
      field is already rendered as the text the source interpolates
      (a missing field renders as `None`); `artists` are the artist names
      the answer carries. */
  datatype TrackInfo = TrackInfo(
    name: string,
    artists: seq<string>,
    album: string,
    releaseDate: string,
    popularity: string)

  const TrackLinePrefix: string := "\U{1F3B5} Spotify Track \U{2192} "

  /** The enrichment line for a track:
      `🎵 Spotify Track → <name> by <artists joined by ", "> (album: …,
      released: …, popularity: …)`. */
  function TrackLine(info: TrackInfo): (line: string)
    ensures StartsWith(line, TrackLinePrefix + info.name + " by ")
  {
    TrackLinePrefix + info.name + " by " + Join(", ", info.artists)
    + " (album: " + info.album + ", released: " + info.releaseDate
    + ", popularity: " + info.popularity + ")"
  }
}
