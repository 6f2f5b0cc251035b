/** The module-level helpers of the relay: URL extraction with the pattern
    `https?://[^\s>]+` (scheme matched case-insensitively) and the channel
    allow-list test. */
module Urls {
  import opened Text

  /** A character the pattern's run `[^\s>]` accepts. */
  predicate IsUrlChar(c: char) {
    !IsSpace(c) && c != '>'
  }

  /** "http" in any ASCII case at position `i`. */
  predicate HttpAt(t: string, i: nat) {
    && i + 4 <= |t|
    && LowerChar(t[i]) == 'h' && LowerChar(t[i + 1]) == 't'
    && LowerChar(t[i + 2]) == 't' && LowerChar(t[i + 3]) == 'p'
  }

  /** Length of the scheme `http://` or `https://` starting at `i`, or 0
      when neither starts there. */
  function SchemeLength(t: string, i: nat): (n: nat)
    ensures n == 0 || n == 7 || n == 8
    ensures n > 0 ==> HttpAt(t, i) && i + n <= |t| && t[i + n - 3..i + n] == "://"
    ensures n == 8 ==> LowerChar(t[i + 4]) == 's'
  {
    if !HttpAt(t, i) then 0
    else if i + 8 <= |t| && LowerChar(t[i + 4]) == 's' && t[i + 5..i + 8] == "://" then 8
    else if i + 7 <= |t| && t[i + 4..i + 7] == "://" then 7
    else 0
  }

  /** `SchemeLength` reports exactly the scheme the pattern's `https?://`
      matches case-insensitively at `i`: a reported length is `https://` or
      `http://` in some case, and a zero length means neither starts there. */
  lemma SchemeLengthIsTheScheme(t: string, i: nat)
    ensures var n := SchemeLength(t, i);
      && (n > 0 ==> Lower(t[i..i + n]) == if n == 8 then "https://" else "http://")
      && (n == 0 ==>
            && !(i + 7 <= |t| && Lower(t[i..i + 7]) == "http://")
            && !(i + 8 <= |t| && Lower(t[i..i + 8]) == "https://"))
  {
    if i + 7 <= |t| {
      LowerMatches(t, i, "http://");
      if Lower(t[i..i + 7]) == "http://" {
        assert t[i + 4] == ':' && t[i + 5] == '/' && t[i + 6] == '/';
        assert HttpAt(t, i) && t[i + 4..i + 7] == "://";
      }
    }
    if i + 8 <= |t| {
      LowerMatches(t, i, "https://");
      if Lower(t[i..i + 8]) == "https://" {
        assert t[i + 5] == ':' && t[i + 6] == '/' && t[i + 7] == '/';
        assert HttpAt(t, i) && LowerChar(t[i + 4]) == 's' && t[i + 5..i + 8] == "://";
      }
    }
  }

  /** Comparing the lower-cased slice of `t` at `i` with `w` is a test
      character by character. */
  lemma LowerMatches(t: string, i: nat, w: string)
    requires i + |w| <= |t|
    ensures Lower(t[i..i + |w|]) == w <==> forall k :: 0 <= k < |w| ==> LowerChar(t[i + k]) == w[k]
  {
    var s := t[i..i + |w|];
    var l := Lower(s);
    assert forall k :: 0 <= k < |w| ==> l[k] == LowerChar(s[k]) == LowerChar(t[i + k]);
    if forall k :: 0 <= k < |w| ==> LowerChar(t[i + k]) == w[k] {
      assert |l| == |w|;
      assert forall k :: 0 <= k < |w| ==> l[k] == w[k];
    }
  }

  /** A match of the pattern starts at `i`: a scheme followed by at least
      one URL character. */
  predicate MatchAt(t: string, i: nat) {
    var n := SchemeLength(t, i);
    n > 0 && i + n < |t| && IsUrlChar(t[i + n])
  }

  /** End of the maximal run of URL characters starting at `j`. */
  function RunEnd(t: string, j: nat): (e: nat)
    requires j <= |t|
    ensures j <= e <= |t|
    ensures forall k :: j <= k < e ==> IsUrlChar(t[k])
    ensures e == |t| || !IsUrlChar(t[e])
    decreases |t| - j
  {
    if j < |t| && IsUrlChar(t[j]) then RunEnd(t, j + 1) else j
  }

  /** End of the (greedy) match starting at `i`. */
  function MatchEnd(t: string, i: nat): (e: nat)
    requires MatchAt(t, i)
    ensures i + SchemeLength(t, i) < e <= |t|
  {
    RunEnd(t, i + SchemeLength(t, i))
  }

  datatype Span = Span(start: nat, end: nat)

  /** No match starts at any position in `[lo, hi)`. */
  ghost predicate NoMatchIn(t: string, lo: nat, hi: nat) {
    forall p :: lo <= p < hi ==> !MatchAt(t, p)
  }

  /** `spans` is what a left-to-right scan of `t` from position `from`
      reports: the first span starts at the first position at or after
      `from` where a match starts and extends as far as the match goes; the
      rest is the scan from its end. With no match left, the scan is empty. */
  ghost predicate IsScanFrom(t: string, from: nat, spans: seq<Span>)
    decreases |spans|
  {
    if spans == [] then NoMatchIn(t, from, |t|)
    else
      var s := spans[0].start;
      && from <= s
      && NoMatchIn(t, from, s)
      && MatchAt(t, s)
      && spans[0].end == MatchEnd(t, s)
      && IsScanFrom(t, spans[0].end, spans[1..])
  }

  /** The scan itself: the matches of `t` found from position `i` on. */
  function Scan(t: string, i: nat): (spans: seq<Span>)
    requires i <= |t|
    ensures IsScanFrom(t, i, spans)
    decreases |t| - i
  {
    if i == |t| then []
    else if MatchAt(t, i) then
      var e := MatchEnd(t, i);
      [Span(i, e)] + Scan(t, e)
    else
      Scan(t, i + 1)
  }

  /** A scan is determined by the text: two scans from the same position
      report the same spans. */
  lemma {:induction false} ScanIsUnique(t: string, from: nat, a: seq<Span>, b: seq<Span>)
    requires IsScanFrom(t, from, a) && IsScanFrom(t, from, b)
    ensures a == b
    decreases |a|
  {
    if a != [] && b != [] {
      var sa, sb := a[0].start, b[0].start;
      assert MatchAt(t, sa) && MatchAt(t, sb);
      assert sa == sb;
      ScanIsUnique(t, a[0].end, a[1..], b[1..]);
      assert a == [a[0]] + a[1..] && b == [b[0]] + b[1..];
    }
  }

  /** Every span of a scan lies inside the text, after the scan's start. */
  lemma {:induction false} ScanSpansInText(t: string, from: nat, spans: seq<Span>)
    requires IsScanFrom(t, from, spans)
    ensures forall k :: 0 <= k < |spans| ==>
      from <= spans[k].start < spans[k].end <= |t| && MatchAt(t, spans[k].start)
      && spans[k].end == MatchEnd(t, spans[k].start)
    ensures forall k :: 0 <= k < |spans| - 1 ==> spans[k].end <= spans[k + 1].start
    decreases |spans|
  {
    if spans != [] {
      ScanSpansInText(t, spans[0].end, spans[1..]);
      assert forall k :: 1 <= k < |spans| ==> spans[k] == spans[1..][k - 1];
    }
  }

  /** The text of each span. */
  function Slices(t: string, spans: seq<Span>): (urls: seq<string>)
    requires forall k :: 0 <= k < |spans| ==> spans[k].start <= spans[k].end <= |t|
    ensures |urls| == |spans|
    ensures forall k :: 0 <= k < |spans| ==> urls[k] == t[spans[k].start..spans[k].end]
  {
    seq(|spans|, k requires 0 <= k < |spans| => t[spans[k].start..spans[k].end])
  }

  /** A string the pattern matches in full: scheme, then one or more URL
      characters. */
  ghost predicate IsUrl(u: string) {
    var n := SchemeLength(u, 0);
    && n > 0 && n < |u|
    && forall k :: n <= k < |u| ==> IsUrlChar(u[k])
  }

  /** `extract_urls(text)`: every match of the pattern in `text`, left to
      right, without overlap (Python's `findall`). */
  function ExtractUrls(text: string): (urls: seq<string>)
    ensures forall k :: 0 <= k < |urls| ==> IsUrl(urls[k])
    ensures text == [] ==> urls == []
  {
    var spans := Scan(text, 0);
    ScanSpansInText(text, 0, spans);
    var urls := Slices(text, spans);
    assert forall k :: 0 <= k < |urls| ==> IsUrl(urls[k]) by {
      forall k | 0 <= k < |urls| ensures IsUrl(urls[k]) {
        MatchIsUrl(text, spans[k].start);
      }
    }
    urls
  }

  /** The text of a match is a URL in the pattern's sense, and it cannot be
      extended: it ends the text or is followed by whitespace or `>`. */
  lemma MatchIsUrl(t: string, i: nat)
    requires MatchAt(t, i)
    ensures IsUrl(t[i..MatchEnd(t, i)])
    ensures MatchEnd(t, i) == |t| || !IsUrlChar(t[MatchEnd(t, i)])
  {
    var u := t[i..MatchEnd(t, i)];
    var n := SchemeLength(t, i);
    assert u[..n] == t[i..i + n];
    assert HttpAt(u, 0);
    if n == 8 {
      assert u[5..8] == t[i + 5..i + 8];
    } else {
      assert u[4..7] == t[i + 4..i + 7];
      assert t[i + 4] == ':';
    }
    assert SchemeLength(u, 0) == n;
  }

  /** What `extract_urls` returns is exactly the text of the spans of any
      left-to-right scan of the text. */
  lemma ExtractUrlsIsTheScan(text: string, spans: seq<Span>)
    requires IsScanFrom(text, 0, spans)
    ensures forall k :: 0 <= k < |spans| ==> spans[k].start <= spans[k].end <= |text|
    ensures ExtractUrls(text) == Slices(text, spans)
  {
    ScanSpansInText(text, 0, spans);
    ScanIsUnique(text, 0, spans, Scan(text, 0));
  }

  const ExampleText := "see http://a.com and https://b.com/x>y"

  lemma ExampleFirstMatch(t: string)
    requires t == ExampleText
    ensures MatchAt(t, 4) && MatchEnd(t, 4) == 16
  {
    assert |t| == 38;
    assert SchemeLength(t, 4) == 7 by {
      assert HttpAt(t, 4);
      assert LowerChar(t[8]) == ':';
      var s := t[8..11];
      forall k | 0 <= k < 3 ensures s[k] == "://"[k] { assert s[k] == t[8 + k]; }
    }
    assert IsUrlChar(t[11]);
    ExampleFirstRun(t);
  }

  lemma ExampleFirstRun(t: string)
    requires t == ExampleText
    ensures RunEnd(t, 11) == 16
  {
    assert |t| == 38;
    assert RunEnd(t, 16) == 16;
    assert RunEnd(t, 14) == 16;
    assert RunEnd(t, 12) == 16;
  }

  lemma ExampleSecondMatch(t: string)
    requires t == ExampleText
    ensures MatchAt(t, 21) && MatchEnd(t, 21) == 36
  {
    assert |t| == 38;
    assert SchemeLength(t, 21) == 8 by {
      assert HttpAt(t, 21);
      assert LowerChar(t[25]) == 's';
      var s := t[26..29];
      forall k | 0 <= k < 3 ensures s[k] == "://"[k] { assert s[k] == t[26 + k]; }
    }
    assert IsUrlChar(t[29]);
    assert RunEnd(t, 36) == 36;
    assert RunEnd(t, 34) == 36;
    assert RunEnd(t, 32) == 36;
    assert RunEnd(t, 30) == 36;
  }

  lemma ExampleGaps(t: string)
    requires t == ExampleText
    ensures NoMatchIn(t, 0, 4) && NoMatchIn(t, 16, 21) && NoMatchIn(t, 36, |t|)
  {
    assert |t| == 38;
    assert NoMatchIn(t, 0, 4) by {
      forall p | 0 <= p < 4 ensures !MatchAt(t, p) { assert !HttpAt(t, p); }
    }
    assert NoMatchIn(t, 16, 21) by {
      forall p | 16 <= p < 21 ensures !MatchAt(t, p) { assert !HttpAt(t, p); }
    }
    assert NoMatchIn(t, 36, 38) by {
      forall p | 36 <= p < 38 ensures !MatchAt(t, p) { assert !HttpAt(t, p); }
    }
  }

  lemma ExampleSlices(t: string)
    requires t == ExampleText
    ensures t[4..16] == "http://a.com" && t[21..36] == "https://b.com/x"
  {
    assert |t| == 38;
    var u, v := t[4..16], t[21..36];
    assert |u| == 12 && |v| == 15;
    forall k | 0 <= k < 12 ensures u[k] == "http://a.com"[k] { assert u[k] == t[4 + k]; }
    forall k | 0 <= k < 15 ensures v[k] == "https://b.com/x"[k] { assert v[k] == t[21 + k]; }
  }

  /** The scan of the sample text finds `http://a.com` and `https://b.com/x`. */
  lemma ExampleScan(t: string)
    requires t == ExampleText
    ensures IsScanFrom(t, 0, [Span(4, 16), Span(21, 36)])
  {
    ExampleFirstMatch(t);
    ExampleSecondMatch(t);
    ExampleGaps(t);
    var spans := [Span(4, 16), Span(21, 36)];
    assert IsScanFrom(t, 36, []);
    assert IsScanFrom(t, 16, spans[1..]);
  }

  /** A URL stops at the first `>` and at whitespace. */
  lemma ExtractUrlsExample(t: string)
    requires t == ExampleText
    ensures ExtractUrls(t) == ["http://a.com", "https://b.com/x"]
  {
    ExampleScan(t);
    ExampleSlices(t);
    ExtractUrlsIsTheScan(t, [Span(4, 16), Span(21, 36)]);
    assert Slices(t, [Span(4, 16), Span(21, 36)]) == [t[4..16], t[21..36]];
  }

  /** `is_channel_allowed`: an empty allow-list admits every channel. */
  predicate IsChannelAllowed(channel: int, allowed: seq<int>) {
    |allowed| == 0 || channel in allowed
  }
}
