/** What `fetch_url_text` does once the page has been fetched and parsed:
    the status/content-type gate, the bounded accumulation of paragraph and
    list-item texts, and the title/body assembly. Fetching and HTML parsing
    are external; their results are the fields of `PageResponse`. */
module Page {
  import opened Wrappers
  import opened Text

  /** A fetched page as the parser sees it: the HTTP status, the
      `Content-Type` header (empty when absent), the string of the `<title>`
      element (empty when there is none) and the stripped text of every `p`
      and `li` element in document order. */
  datatype PageResponse = PageResponse(
    status: int,
    contentType: string,
    title: string,
    tagTexts: seq<string>)

  /** The non-empty strings of `xs`, in order. */
  function NonEmpty(xs: seq<string>): (r: seq<string>)
    ensures |r| <= |xs|
    ensures forall k :: 0 <= k < |r| ==> r[k] != ""
  {
    if xs == [] then []
    else (if xs[0] != "" then [xs[0]] else []) + NonEmpty(xs[1..])
  }

  /** The accumulation loop of `fetch_url_text`, continuing from the texts
      `acc` already kept: each non-empty tag text is kept, and after every
      tag, empty or not, the loop stops once the kept texts total more than
      `cap` characters. */
  function Collect(tags: seq<string>, cap: nat, acc: seq<string>): seq<string>
    decreases |tags|
  {
    if tags == [] then acc
    else
      var acc' := if tags[0] != "" then acc + [tags[0]] else acc;
      if TotalLength(acc') > cap then acc' else Collect(tags[1..], cap, acc')
  }

  /** What the loop keeps is the shortest prefix of the non-empty texts
      whose total exceeds `cap`, or all of them when none does: it is a
      prefix, everything but its last text fits within `cap`, and it stops
      short of the end only once the total exceeds `cap`. */
  lemma {:induction false} CollectKeepsShortestOverflowingPrefix(tags: seq<string>, cap: nat, acc: seq<string>)
    requires TotalLength(acc) <= cap
    ensures var kept := Collect(tags, cap, acc);
      && |acc| <= |kept| <= |acc| + |NonEmpty(tags)|
      && kept == (acc + NonEmpty(tags))[..|kept|]
      && (|kept| > 0 ==> TotalLength(kept[..|kept| - 1]) <= cap)
      && (kept == acc + NonEmpty(tags) || TotalLength(kept) > cap)
    decreases |tags|
  {
    var kept := Collect(tags, cap, acc);
    if tags == [] {
      if |acc| > 0 {
        TotalLengthOfPrefix(acc, |acc| - 1);
      }
    } else {
      var acc' := if tags[0] != "" then acc + [tags[0]] else acc;
      assert acc + NonEmpty(tags) == acc' + NonEmpty(tags[1..]);
      if TotalLength(acc') > cap {
        // an empty text keeps the total within `cap`, so a text was added
        if tags[0] != "" {
          assert kept == acc';
          assert acc'[..|acc'| - 1] == acc;
        }
      } else {
        CollectKeepsShortestOverflowingPrefix(tags[1..], cap, acc');
      }
    }
  }

  /** The post-parse part of `fetch_url_text` with `max_content_chars`
      equal to `cap`: no text unless the status is 200 and the content type
      mentions `text/html`; otherwise the kept texts joined by spaces and cut
      to `cap` characters, preceded by the stripped title and a newline when
      there is a title, and no text when both are empty. */
  function PageText(resp: PageResponse, cap: nat): (text: Option<string>)
    ensures resp.status != 200 || !Contains(resp.contentType, "text/html") ==> text.None?
    ensures text.Some? ==> text.value != ""
    ensures text.Some? && Strip(resp.title) != "" ==>
      StartsWith(text.value, Strip(resp.title) + "\n") && |text.value| <= |Strip(resp.title)| + 1 + cap
    ensures text.Some? && Strip(resp.title) == "" ==> |text.value| <= cap
    ensures text.None? && resp.status == 200 && Contains(resp.contentType, "text/html") ==>
      Strip(resp.title) == "" && (cap == 0 || NonEmpty(resp.tagTexts) == [])
  {
    if resp.status != 200 || !Contains(resp.contentType, "text/html") then None
    else
      var title := Strip(resp.title);
      var kept := Collect(resp.tagTexts, cap, []);
      var body := Take(Join(" ", kept), cap);
      assert cap > 0 && NonEmpty(resp.tagTexts) != [] ==> body != "" by {
        if cap > 0 && NonEmpty(resp.tagTexts) != [] {
          CollectKeepsShortestOverflowingPrefix(resp.tagTexts, cap, []);
          assert [] + NonEmpty(resp.tagTexts) == NonEmpty(resp.tagTexts);
          assert kept != [];
          assert kept[0] == NonEmpty(resp.tagTexts)[0];
          JoinNonEmpty(kept);
        }
      }
      if title != "" then
        assert StartsWith(title + "\n" + body, title + "\n");
        Some(title + "\n" + body)
      else if body != "" then Some(body)
      else None
  }

  /** The early `break` is only a shortcut: cutting the space-joined kept
      texts to `cap` characters gives the same body as cutting the
      space-joined non-empty texts of every tag. */
  lemma BreakKeepsBody(tags: seq<string>, cap: nat)
    ensures Take(Join(" ", Collect(tags, cap, [])), cap) == Take(Join(" ", NonEmpty(tags)), cap)
  {
    var all := NonEmpty(tags);
    var kept := Collect(tags, cap, []);
    CollectKeepsShortestOverflowingPrefix(tags, cap, []);
    assert [] + all == all;
    if kept != all {
      assert TotalLength(kept) > cap;
      assert kept == all[..|kept|];
      JoinOfPrefix(" ", all, |kept|);
    }
  }

  /** Past the gate, the page text is the stripped title and a newline
      (when there is a title) followed by the first `cap` characters of all
      non-empty tag texts joined by spaces, and there is no text exactly when
      both parts are empty. */
  lemma PageTextIsCappedJoin(resp: PageResponse, cap: nat)
    requires resp.status == 200 && Contains(resp.contentType, "text/html")
    ensures var title := Strip(resp.title);
      var body := Take(Join(" ", NonEmpty(resp.tagTexts)), cap);
      PageText(resp, cap) == if title != "" then Some(title + "\n" + body)
                             else if body != "" then Some(body)
                             else None
  {
    BreakKeepsBody(resp.tagTexts, cap);
  }

  /** Joining texts of which the first is non-empty yields a non-empty text. */
  lemma JoinNonEmpty(xs: seq<string>)
    requires |xs| > 0 && xs[0] != ""
    ensures Join(" ", xs) != ""
  {
    TotalLengthOfPrefix(xs, 1);
    assert xs[..1] == [xs[0]];
    assert TotalLength([xs[0]]) == |xs[0]| by {
      assert [xs[0]][..0] == [];
    }
  }
}
