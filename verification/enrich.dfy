/** Link enrichment in `on_message`: for each URL of a message, a track line
    when the Spotify path answers, otherwise a page line when scraping is on
    and the page yields text, otherwise nothing. */
module Enrich {
  import opened Wrappers
  import opened Text
  import opened Urls
  import opened Spotify
  import opened Page

  /** The feature switches and the page-text cap enrichment depends on. */
  datatype EnrichConfig = EnrichConfig(enableSpotify: bool, enableWebScraping: bool, maxContentChars: nat)

  /** At most this many characters of a page's text go into its line. */
  const PageSnippetLength: nat := 300

  function PageLinePrefix(url: string): string {
    "\U{1F517} " + url + " \U{2192} "
  }

  /** `🔗 <url> → ` and the first 300 characters of the page text with
      newlines turned into spaces and surrounding whitespace stripped. */
  function PageLine(url: string, text: string): (line: string)
    ensures StartsWith(line, PageLinePrefix(url))
    ensures |line| <= |PageLinePrefix(url)| + PageSnippetLength
    ensures forall k :: |PageLinePrefix(url)| <= k < |line| ==> line[k] != '\n'
    ensures var one := Strip(ReplaceChar(text, '\n', ' '));
      && |line| == |PageLinePrefix(url)| + (if |one| <= PageSnippetLength then |one| else PageSnippetLength)
      && StartsWith(one, line[|PageLinePrefix(url)|..])
  {
    var oneLiner := Strip(ReplaceChar(text, '\n', ' '));
    var snippet := Take(oneLiner, PageSnippetLength);
    assert forall k :: 0 <= k < |snippet| ==> snippet[k] != '\n' by {
      forall k | 0 <= k < |snippet| ensures snippet[k] != '\n' {
        StripRemovesOnlySpace(ReplaceChar(text, '\n', ' '));
        var i: nat :| StrippedAt(ReplaceChar(text, '\n', ' '), oneLiner, i);
        assert snippet[k] == ReplaceChar(text, '\n', ' ')[i + k];
      }
    }
    PageLinePrefix(url) + snippet
  }

  /** The line one URL contributes, given what the track lookup and the page
      fetch returned for it (`None` for a failed lookup or fetch). The page is
      only consulted when the track path gave nothing. */
  function EnrichOne(cfg: EnrichConfig, url: string, track: Option<TrackInfo>, page: Option<PageResponse>): (line: Option<string>)
    ensures !cfg.enableSpotify && !cfg.enableWebScraping ==> line.None?
    ensures line.Some? ==>
      || (track.Some? && line.value == TrackLine(track.value))
      || (page.Some? && PageText(page.value, cfg.maxContentChars).Some?
          && line.value == PageLine(url, PageText(page.value, cfg.maxContentChars).value))
  {
    if cfg.enableSpotify && TrackId(url).Some? && track.Some? then
      Some(TrackLine(track.value))
    else if cfg.enableWebScraping && page.Some? then
      match PageText(page.value, cfg.maxContentChars)
      case Some(text) => if text != "" then Some(PageLine(url, text)) else None
      case None => None
    else
      None
  }

  /** A URL that names a track whose lookup answers gives exactly its track
      line, whatever the page fetch would have returned. */
  lemma TrackLineWins(cfg: EnrichConfig, url: string, info: TrackInfo, page: Option<PageResponse>)
    requires cfg.enableSpotify && TrackId(url).Some?
    ensures EnrichOne(cfg, url, Some(info), page) == Some(TrackLine(info))
    ensures StartsWith(EnrichOne(cfg, url, Some(info), page).value, TrackLinePrefix + info.name)
  {
    var line := TrackLine(info);
    assert (TrackLinePrefix + info.name + " by ")[..|TrackLinePrefix + info.name|] == TrackLinePrefix + info.name;
    assert line[..|TrackLinePrefix + info.name|] == (TrackLinePrefix + info.name + " by ")[..|TrackLinePrefix + info.name|];
  }

  /** Otherwise the URL gives a page line exactly when scraping is on and
      the page yields text, and no line at all when neither path answers. */
  lemma PageLineOtherwise(cfg: EnrichConfig, url: string, track: Option<TrackInfo>, page: Option<PageResponse>)
    requires !(cfg.enableSpotify && TrackId(url).Some? && track.Some?)
    ensures EnrichOne(cfg, url, track, page).Some? <==>
      cfg.enableWebScraping && page.Some? && PageText(page.value, cfg.maxContentChars).Some?
    ensures EnrichOne(cfg, url, track, page).Some? ==>
      EnrichOne(cfg, url, track, page).value == PageLine(url, PageText(page.value, cfg.maxContentChars).value)
  {
  }

  /** The values present in `xs`, in order. */
  function Somes<T>(xs: seq<Option<T>>): (r: seq<T>)
    ensures |r| <= |xs|
    decreases |xs|
  {
    if xs == [] then []
    else
      var last := xs[|xs| - 1];
      Somes(xs[..|xs| - 1]) + if last.Some? then [last.value] else []
  }

  /** The positions of the values present in `xs`, in order. */
  function SomePositions<T>(xs: seq<Option<T>>): seq<nat>
    decreases |xs|
  {
    if xs == [] then []
    else SomePositions(xs[..|xs| - 1]) + if xs[|xs| - 1].Some? then [|xs| - 1] else []
  }

  /** `Somes` keeps order and drops exactly the missing values: value `k`
      sits at position `src[k]`, the positions are strictly increasing, and
      every present value's position is among them. */
  lemma {:induction false} SomesKeepOrder<T>(xs: seq<Option<T>>)
    ensures var r := Somes(xs);
      var src := SomePositions(xs);
      && |src| == |r|
      && (forall k :: 0 <= k < |src| ==> src[k] < |xs| && xs[src[k]] == Some(r[k]))
      && (forall k, l :: 0 <= k < l < |src| ==> src[k] < src[l])
      && (forall i :: 0 <= i < |xs| && xs[i].Some? ==> i in src)
    decreases |xs|
  {
    if xs != [] {
      var n := |xs| - 1;
      var prefix := xs[..n];
      SomesKeepOrder(prefix);
      var r, src := Somes(xs), SomePositions(xs);
      var pr, ps := Somes(prefix), SomePositions(prefix);
      assert r == pr + if xs[n].Some? then [xs[n].value] else [];
      assert src == ps + if xs[n].Some? then [n] else [];
      forall k | 0 <= k < |src|
        ensures src[k] < |xs| && xs[src[k]] == Some(r[k])
      {
        if k < |ps| {
          assert src[k] == ps[k] && r[k] == pr[k];
          assert xs[ps[k]] == prefix[ps[k]];
        }
      }
      forall i | 0 <= i < |xs| && xs[i].Some?
        ensures i in src
      {
        if i < n {
          assert xs[i] == prefix[i];
          assert i in ps;
        }
      }
    }
  }

  /** What each URL yields, `track(i)` and `page(i)` being what the lookup
      and the fetch returned for the `i`-th URL. */
  function Yields(cfg: EnrichConfig, urls: seq<string>,
                  track: nat -> Option<TrackInfo>, page: nat -> Option<PageResponse>): (ys: seq<Option<string>>)
    ensures |ys| == |urls|
    ensures forall i :: 0 <= i < |urls| ==> ys[i] == EnrichOne(cfg, urls[i], track(i), page(i))
  {
    seq(|urls|, i requires 0 <= i < |urls| => EnrichOne(cfg, urls[i], track(i), page(i)))
  }

  /** The enrichment lines of a message, in URL order. */
  function EnrichLines(cfg: EnrichConfig, urls: seq<string>,
                       track: nat -> Option<TrackInfo>, page: nat -> Option<PageResponse>): (lines: seq<string>)
    ensures |lines| <= |urls|
  {
    Somes(Yields(cfg, urls, track, page))
  }

  /** The lines follow URL order and omit exactly the URLs that yield
      nothing: there are strictly increasing URL positions `src` such that
      line `k` is what URL `src[k]` yields, and every URL that yields a line
      is among them. */
  lemma LinesFollowUrlOrder(cfg: EnrichConfig, urls: seq<string>,
                            track: nat -> Option<TrackInfo>, page: nat -> Option<PageResponse>)
    ensures var lines := EnrichLines(cfg, urls, track, page);
      exists src: seq<nat> ::
      && |src| == |lines|
      && (forall k :: 0 <= k < |src| ==>
            src[k] < |urls| && EnrichOne(cfg, urls[src[k]], track(src[k]), page(src[k])) == Some(lines[k]))
      && (forall k, l :: 0 <= k < l < |src| ==> src[k] < src[l])
      && (forall i :: 0 <= i < |urls| && EnrichOne(cfg, urls[i], track(i), page(i)).Some? ==> i in src)
  {
    var ys := Yields(cfg, urls, track, page);
    SomesKeepOrder(ys);
    var src := SomePositions(ys);
    var lines := EnrichLines(cfg, urls, track, page);
    assert lines == Somes(ys);
    forall k | 0 <= k < |src|
      ensures src[k] < |urls| && EnrichOne(cfg, urls[src[k]], track(src[k]), page(src[k])) == Some(lines[k])
    {
      assert ys[src[k]] == Some(lines[k]);
    }
    forall i | 0 <= i < |urls| && EnrichOne(cfg, urls[i], track(i), page(i)).Some?
      ensures i in src
    {
      assert ys[i].Some?;
    }
  }
}
