# CrackGPT relay core in Dafny

A model of the message-processing logic of `crackgpt-noenv.py`, a Discord
bot that relays channel messages to a local language-model backend and can
be toggled per channel between a strict style prompt and a relaxed one. The
model covers:

- the module helpers: URL extraction with `https?://[^\s>]+` (scheme matched
  case-insensitively) and the channel allow-list;
- the Spotify track-id extraction and the track line;
- what `fetch_url_text` does after the page is fetched and parsed;
- the per-channel store `State` / `ChannelState`, whose history is a bounded
  deque;
- prompt assembly;
- the three-attempt backend retry loop;
- `on_message` as a transition from (store, message, collaborator answers)
  to (store, texts sent, backend request);
- one round of the idle `random_chatter_loop`;
- a run of the bot as a sequence of such events.

Every external collaborator is an input:
- what the Spotify lookup and the page fetch returned for the `i`-th URL
  (`nat -> Option<...>`);
- what the `j`-th backend call produced (`TimedOut`, `Failed` or
  `Answered(content)`);
- whether a send to the channel went through;
- whether the picked idle channel is a text channel or thread.

Modules, one per file, in dependency order:

- `Wrappers` holds `Option`.
- `Text` holds Python string operations: `isspace`, `strip`, ASCII `lower`,
  `startswith`, `in`, `join`, slicing and `replace`.
- `Urls` holds `extract_urls` as a left-to-right scanner and
  `is_channel_allowed`.
- `Spotify` holds `extract_track_id` and the track line.
- `Page` holds the post-parse part of `fetch_url_text`.
- `Enrich` holds the per-URL enrichment lines of `on_message`.
- `Channels` holds the store: `get_history`, `toggle`, `mark_active` and
  deque appends.
- `Prompt` holds `build_system_prompt` and `build_ollama_messages`.
- `Backend` holds the retry loop.
- `Pipeline` holds `on_message`.
- `Idle` holds one round of the idle loop.
- `Bot` holds runs of events.

## Model

| member | source | states |
|---|---|---|
| Text.TrimStartDropsLeadingSpace | crackgpt-noenv.py:327 | the left half of `strip`: the result is a suffix that does not start with whitespace, and every dropped character is whitespace |
| Text.TrimEndDropsTrailingSpace | crackgpt-noenv.py:327 | the right half of `strip`: the result is a prefix that does not end with whitespace, and every dropped character is whitespace |
| Text.StripRemovesOnlySpace | crackgpt-noenv.py:327 | `str.strip()` returns an infix of its input with only whitespace before and after it, and neither end of the result is whitespace |
| Text.Strip | crackgpt-noenv.py:327 | stripping never lengthens a string |
| Text.Lower | crackgpt-noenv.py:330 | `lower()` keeps the length and lower-cases each character (ASCII letters only) |
| Text.LowerChar | crackgpt-noenv.py:330 | upper-case ASCII letters map to the letter 32 code points up; every other character is unchanged |
| Text.ContainsFrom | crackgpt-noenv.py:209 | the substring test `"text/html" in content_type` holds exactly when the substring occurs at some position |
| Text.Take | crackgpt-noenv.py:226 | `s[:n]` is the prefix of length `min(n, len(s))` |
| Text.ReplaceChar | crackgpt-noenv.py:374 | `replace("\n", " ")` keeps the length and swaps exactly the newline characters |
| Text.Join | crackgpt-noenv.py:226 | `sep.join(xs)` is empty for no strings, the string itself for one, and otherwise the total length of the strings plus one separator between each pair |
| Text.JoinOfPrefix | crackgpt-noenv.py:226 | joining a non-empty prefix of a list gives a prefix of joining the whole list |
| Text.TotalLengthOfPrefix | crackgpt-noenv.py:224 | the running total `sum(len(x) for x in texts)` of a prefix never exceeds the total |
| Urls.SchemeLength | crackgpt-noenv.py:140 | `https?://` with case-insensitive letters matches with length 8 or 7, or not at all |
| Urls.SchemeLengthIsTheScheme | crackgpt-noenv.py:140 | the scheme found at a position is exactly `https?://` matched case-insensitively: a reported length is `https://` or `http://` in some case, and a zero length means neither is there |
| Urls.RunEnd | crackgpt-noenv.py:140 | the run `[^\s>]+` is maximal: all its characters are URL characters, and it ends the text or stops at whitespace or `>` |
| Urls.MatchEnd | crackgpt-noenv.py:140 | a match holds at least one character after the scheme |
| Urls.Scan | crackgpt-noenv.py:142-143 | the scanner produces a left-to-right scan: each match starts at the first position where the pattern matches, is greedy, and the scan resumes at its end |
| Urls.ScanIsUnique | crackgpt-noenv.py:142-143 | a text has only one left-to-right scan, so the matches are determined by the text |
| Urls.ScanSpansInText | crackgpt-noenv.py:142-143 | the matches lie inside the text, are non-empty, and are ordered without overlap |
| Urls.ExtractUrls | crackgpt-noenv.py:142-143 | every returned string matches the pattern in full, and an empty text yields no URLs |
| Urls.MatchIsUrl | crackgpt-noenv.py:140 | a match's text is a URL and cannot be extended past its end |
| Urls.ExtractUrlsIsTheScan | crackgpt-noenv.py:142-143 | `extract_urls` returns exactly the texts of the left-to-right scan (the `findall` semantics) |
| Urls.Slices | crackgpt-noenv.py:143 | `findall` returns the text of each span, in span order |
| Urls.ExtractUrlsExample | crackgpt-noenv.py:140-143 | `"see http://a.com and https://b.com/x>y"` yields `http://a.com` and `https://b.com/x`: a URL stops at whitespace and at `>` |
| Urls.IsChannelAllowed | crackgpt-noenv.py:145-146 | an empty allow-list admits every channel, and otherwise only the listed ones; its effect is stated by Pipeline.FilteredMessagesChangeNothing, Idle.IdleRound and Idle.ConversationMakesEligible |
| Spotify.AlnumEnd | crackgpt-noenv.py:173 | the group `[A-Za-z0-9]+` is the maximal run of letters and digits |
| Spotify.FirstTrackLink | crackgpt-noenv.py:173 | `re.search` finds the leftmost position where the track pattern matches, or reports that it matches nowhere |
| Spotify.TrackId | crackgpt-noenv.py:171-176 | `extract_track_id` is `None` exactly when no track link occurs; otherwise it is the non-empty alphanumeric run after the leftmost link |
| Spotify.TrackLine | crackgpt-noenv.py:363-367 | the track line begins `🎵 Spotify Track → <name> by ` |
| Page.NonEmpty | crackgpt-noenv.py:221-223 | only non-empty tag texts are kept |
| Page.Collect | crackgpt-noenv.py:219-225 | the tag loop with its early `break`; what it keeps is stated by Page.CollectKeepsShortestOverflowingPrefix and Page.BreakKeepsBody |
| Page.CollectKeepsShortestOverflowingPrefix | crackgpt-noenv.py:219-225 | the loop keeps a prefix of the non-empty texts; everything but its last text fits within the cap; it stops early only once the total exceeds the cap |
| Page.BreakKeepsBody | crackgpt-noenv.py:219-226 | the early `break` does not change the body: cutting the kept texts to the cap equals cutting all non-empty texts to the cap |
| Page.PageText | crackgpt-noenv.py:209-229 | no text on a status other than 200 or a content type without `text/html`; a returned text is never empty; with a title it starts with `title\n` and is at most `len(title) + 1 + cap` long; otherwise it is at most `cap` long |
| Page.PageTextIsCappedJoin | crackgpt-noenv.py:218-229 | past the gate, the result equals a reference without the loop: title and newline, then all non-empty texts space-joined and cut to the cap; no text exactly when both parts are empty |
| Page.JoinNonEmpty | crackgpt-noenv.py:226-229 | a body that starts with a non-empty text is non-empty |
| Enrich.PageLine | crackgpt-noenv.py:374-375 | the page line is `🔗 <url> → ` followed by the first `min(300, n)` characters of the page text with newlines turned into spaces and then stripped, `n` being that one-liner's length; none of them is a newline |
| Enrich.EnrichOne | crackgpt-noenv.py:357-375 | with both features off a URL yields nothing; any line it yields is the track line of its lookup or the page line of its fetched text; Enrich.TrackLineWins and Enrich.PageLineOtherwise say which |
| Enrich.TrackLineWins | crackgpt-noenv.py:358-368 | with Spotify on, a track id and lookup info, the URL yields exactly its track line, whatever the page holds |
| Enrich.PageLineOtherwise | crackgpt-noenv.py:371-375 | otherwise the URL yields a line exactly when scraping is on and the page yields text, and that line is the page line |
| Enrich.Yields | crackgpt-noenv.py:356-375 | each URL contributes what its own lookups give |
| Enrich.EnrichLines | crackgpt-noenv.py:354-375 | there are never more lines than URLs |
| Enrich.SomesKeepOrder | crackgpt-noenv.py:356-375 | dropping missing values keeps order: each kept value comes from a strictly later position than the one before, and every present value is kept |
| Enrich.Somes | crackgpt-noenv.py:356-375 | dropping missing values never lengthens the list |
| Enrich.LinesFollowUrlOrder | crackgpt-noenv.py:356-375 | the lines follow URL order, and exactly the URLs that yield nothing are missing |
| Channels.KeepLast | crackgpt-noenv.py:279 | keeping the last `n` entries gives a suffix of length `min(n, len)` |
| Channels.Push | crackgpt-noenv.py:241 | a deque append keeps the bound and the capacity, and below capacity it simply appends the turn; Channels.PushEvictsOldest covers a full deque |
| Channels.PushEvictsOldest | crackgpt-noenv.py:241 | appending to a full deque evicts exactly its oldest entry and puts the turn last |
| Channels.PushAll | crackgpt-noenv.py:241 | successive appends keep the capacity and the bound |
| Channels.PushAllKeepsMostRecent | crackgpt-noenv.py:241 | after any number of appends the deque holds the most recent `maxlen` entries of the old contents followed by the new turns, in order |
| Channels.KeepLastOfKeepLast | crackgpt-noenv.py:241 | evicting early does not change what a later bound keeps |
| Channels.Resize | crackgpt-noenv.py:254-255 | an unchanged `maxlen` leaves the history untouched; otherwise the most recent entries survive in order under the new bound |
| Channels.Capacity | crackgpt-noenv.py:254 | the bound is `max(2 * max_history_turns, 6)` |
| Channels.GetHistory | crackgpt-noenv.py:251-256 | `get_history` creates the channel if needed, gives its history the configured bound, and changes no flag and no other channel |
| Channels.Record | crackgpt-noenv.py:452 | an append to one channel's history goes through its deque, and nothing else changes |
| Channels.Toggle | crackgpt-noenv.py:258-261 | `toggle` flips only that channel's flag |
| Channels.ToggleTwiceRestores | crackgpt-noenv.py:258-261 | toggling twice restores the channel, and restores the whole store when the channel existed |
| Channels.MarkActive | crackgpt-noenv.py:263-264 | `mark_active` sets only that channel's activity flag |
| Prompt.SystemPrompt | crackgpt-noenv.py:271-273 | the prompt is the stripped directive followed by the STRICT suffix when the toggle is on, or the OFF suffix when it is off |
| Prompt.TogglePositionsDiffer | crackgpt-noenv.py:272 | the two toggle positions give different prompts |
| Prompt.BackendMessages | crackgpt-noenv.py:275-280 | the request is one system entry, then the last `min(50, len(history))` history entries in order |
| Backend.InvokeFrom | crackgpt-noenv.py:390-403 | the loop from attempt `i` stops at the first successful attempt, sleeps `1 + j` after every unsuccessful attempt `j`, and otherwise runs to the third attempt |
| Backend.Invoke | crackgpt-noenv.py:389-406 | at most 3 attempts; the first non-empty content is the reply, with no sleep after it; every earlier attempt failed and was followed by a sleep of `1 + i` seconds; with no success the reply is the fallback after 3 sleeps; the reply is never empty |
| Backend.FailTwiceThenReply | crackgpt-noenv.py:389-406 | two failures and then an answer give that answer after sleeps of 1 and 2 seconds |
| Backend.AlwaysTimingOut | crackgpt-noenv.py:389-406 | three timeouts give the fallback after sleeps of 1, 2 and 3 seconds |
| Pipeline.NewTurns | crackgpt-noenv.py:349-409 | a conversation adds the user turn, then the context turn only when there are enrichment lines, then the assistant turn |
| Pipeline.RouteOf | crackgpt-noenv.py:316-341 | a message is ignored exactly when a filter rejects it; an admitted message is the toggle command exactly when it starts with the keyword, which wins over a help alias; help only when it is not a toggle |
| Pipeline.OnMessage | crackgpt-noenv.py:316-413 | only a conversation calls the backend or sleeps; every handled message sends exactly one text and an ignored one none; a text arrives exactly when the send goes through; the store is stated by Pipeline.OnMessageStore and the request by Pipeline.ReplyFollowsRequest |
| Pipeline.FilteredMessagesChangeNothing | crackgpt-noenv.py:318-325 | an empty message, a bot author when bots are not answered, or a channel outside a non-empty allow-list changes nothing and sends nothing |
| Pipeline.ToggleFlipsOnlyTheFlag | crackgpt-noenv.py:330-333 | the toggle command flips that channel's flag and nothing else, reports the new position, and makes no backend call |
| Pipeline.ToggleTwiceRestoresChannel | crackgpt-noenv.py:330-333 | two toggle commands restore the channel |
| Pipeline.HelpChangesNothing | crackgpt-noenv.py:335-341 | a help alias that is not a toggle only sends the help text |
| Pipeline.LeadTurns | crackgpt-noenv.py:349-382 | before the backend is asked, the user turn is appended, then one system turn with all enrichment lines exactly when there are any |
| Pipeline.ConversedHistory | crackgpt-noenv.py:343-408 | a conversation marks the channel active, keeps its toggle, bounds its history by the configured capacity, and leaves the most recent entries of the old history followed by exactly the new turns |
| Pipeline.ConverseRequestHistory | crackgpt-noenv.py:384-386 | the backend sees the prompt for the channel's toggle and the bounded history ending with the user turn and the context turn |
| Pipeline.ReplyFollowsRequest | crackgpt-noenv.py:384-408 | for a message routed to the backend, `on_message` asks with the prompt for the channel's toggle and the channel's history at that point, whose most recent window is what the request carries, and then records exactly that history with the retry loop's reply appended |
| Channels.PushAllAppend | crackgpt-noenv.py:349-409 | appending two runs of turns equals appending their concatenation |
| Pipeline.ConversationAppendsTurns | crackgpt-noenv.py:316-413 | for a routed message, the appended turns use its own enrichment lines and the non-empty reply the retry loop chose, that reply is sent, and the backend is asked with the channel's prompt and the bounded history ending with the lead turns |
| Pipeline.ConversedFrame | crackgpt-noenv.py:343-408 | a conversation changes or adds only its own channel, marks it active, and keeps every history within its bound |
| Pipeline.OnMessageStore | crackgpt-noenv.py:316-413 | an ignored message or a help alias leaves the store as it was, the toggle command only toggles, and a conversation leaves the conversation's store |
| Pipeline.SendFailureKeepsStore | crackgpt-noenv.py:409-413 | a failed send leaves the same store as a successful one and delivers nothing |
| Pipeline.OtherChannelsUntouched | crackgpt-noenv.py:316-413 | a message changes or adds no channel other than its own |
| Pipeline.ActiveAndBoundsPersist | crackgpt-noenv.py:316-413 | a message keeps every history within its bound and clears no activity flag |
| Idle.ChatterReply | crackgpt-noenv.py:449-451 | the idle loop has a reply exactly when the one backend call answered with non-empty content |
| Idle.IdleRound | crackgpt-noenv.py:428-438 | no channel is picked exactly when no channel is eligible; a picked channel is known, active and allowed |
| Idle.ChatterWith | crackgpt-noenv.py:436-453 | the backend is asked exactly for a text channel; a text is sent exactly when the channel is a text channel and there is a reply, and it is that reply; it arrives exactly when the send goes through |
| Idle.Chatter | crackgpt-noenv.py:441-453 | a text is sent exactly for a text channel whose single backend call answered with non-empty content, and it is that content |
| Idle.ReplyAppended | crackgpt-noenv.py:441-453 | a reply appends exactly one assistant turn to the bounded history, is sent, and the request carries the channel's prompt and history |
| Idle.NoReplyNoTurn | crackgpt-noenv.py:441-451 | without a reply nothing is appended or sent, and the only change is the history's bound; the backend was still asked with the channel's prompt and that history |
| Idle.ChatterFrame | crackgpt-noenv.py:436-452 | a channel that is not a text channel is left untouched; any round touches no flag and no other channel, and keeps every history within its bound |
| Idle.ChatterKeepsEligible | crackgpt-noenv.py:428-452 | idle chatter never changes which channels are eligible |
| Idle.ConversationMakesEligible | crackgpt-noenv.py:428-431 | a conversation makes its channel eligible, and no message makes a channel ineligible |
| Bot.Step | crackgpt-noenv.py:316-453 | one event: an inbound message through `on_message`, or an idle round, which only runs on an eligible channel; its frame is stated by Bot.StepFrame |
| Bot.StepFrame | crackgpt-noenv.py:316-452 | one event keeps every history within its bound, clears no activity flag, and changes only the channel it concerns |
| Bot.ActiveStaysActive | crackgpt-noenv.py:343-344 | no message clears an activity flag |
| Bot.RunKeepsBounds | crackgpt-noenv.py:251-256 | over any run, every history stays within its bound |
| Bot.HistoriesStayBounded | crackgpt-noenv.py:239-256 | from the empty store, no history ever holds more entries than its `maxlen` |
| Bot.RunKeepsActive | crackgpt-noenv.py:263-264 | `active` is only ever set, never cleared, over any run |
| Bot.UnmentionedChannelsUntouched | crackgpt-noenv.py:249-264 | a channel that no event concerns ends the run exactly as it started |

## Left out

- Discord client machinery is not modelled: intents, `setup_hook`, `close`, `on_ready` and `get_channel`. The `isinstance` test on the idle channel is the boolean input `isText`. `channel.send` becomes a sent text plus a flag saying whether it arrived. In the source only the reply send is inside a `try`; a failing toggle notice or help send raises out of `on_message`. In all three cases the store is settled before the send. The model therefore records a failed send as nothing delivered, with the same store.
- The aiohttp fetch and BeautifulSoup parsing are not modelled. The page's status, `Content-Type`, title string and stripped `p`/`li` texts are the fields of `PageResponse`. A failed fetch or parse is `None`.
- The spotipy client and `get_track_info` are not modelled. The lookup's answer is an optional `TrackInfo` whose fields are already rendered as text, with artist names listed.
- The `if "name" in a` artist filter and `duration_ms` are left out. Duration is never shown.
- `ollama.chat`, `asyncio.wait_for`, `to_thread` and `sleep` are not modelled. Each attempt's result is an input, and the sleeps are recorded as whole seconds.
- `random.randint` (the idle wait) is left out.
- `random.choice` is an arbitrary choice among the eligible channels. In a `Bot` run, the event names the picked channel, and a pick of an ineligible channel is no round.
- Logging, `Config` loading and its defaults, `amain`, `main` and signal handling are left out. The configuration values the core reads are plain fields of `Config`.
- Concurrency is left out. The model runs each event handler to completion before the next starts. That is a modelling choice, not how the event loop behaves: `setup_hook` starts `random_chatter_loop` as its own task, and `on_message` suspends at the page fetches, the backend call, the retry sleeps and the send. In the source, an idle round can append its turn to a channel between a message's user turn and its reply.
- Pipeline.ConversedHistory, Pipeline.ConversationAppendsTurns: the user turn, the context turn and the reply of one message are contiguous in the history only under the run-to-completion choice above.
- Urls.ExtractUrls: a `None` text cannot occur, because Dafny strings are never null. The empty text yields `[]`.
- Text.Lower, Text.LowerChar, Urls.SchemeLength: case-insensitive matching and `lower()` are ASCII only. Python also folds non-ASCII letters, for example the Kelvin sign, which `re.IGNORECASE` matches against `k`. The model does not.
- Text.IsSpace is the set of characters `str.isspace()` accepts. Python's `\s` in a `str` pattern accepts the same set; the model assumes this and has not checked it per Unicode version.
- Page.PageText: `max_content_chars` is a `nat`. A negative value would make Python's slice count from the end; it is not modelled.
- Pipeline.OnMessage: Python's `self.spotify` is always a client object and so always truthy. The Spotify branch therefore depends only on `enable_spotify`. A missing client shows up as a `None` lookup answer.
- Pipeline.ConversationAppendsTurns: states the history for a channel whose history already respects its bound, which every reachable store satisfies (`Bot.HistoriesStayBounded`).
- Pipeline.ConversedHistory: same precondition on the channel's history, for the same reason.
- Pipeline.ConverseRequestHistory: same precondition on the channel's history, for the same reason.
- Idle.ReplyAppended: same precondition on the channel's history, for the same reason.
