/** `CrackGPTBot.on_message` as a transition: from the store, the inbound
    message and what the external collaborators returned, to the new store,
    the texts sent to the channel and the request made of the backend. */
module Pipeline {
  import opened Wrappers
  import opened Text
  import opened Urls
  import opened Spotify
  import opened Page
  import opened Channels
  import opened Prompt
  import opened Backend
  import opened Enrich

  /** The configuration the core reads; fixed for the process lifetime. */
  datatype Config = Config(
    respondToBots: bool,
    allowedChannels: seq<ChannelId>,
    maxHistoryTurns: int,
    enableSpotify: bool,
    enableWebScraping: bool,
    maxContentChars: nat,
    masterInstruction: string,
    toggleKeyword: string)

  datatype Author = Author(displayName: string, isBot: bool)

  /** An inbound message: its channel, its author and its raw content. */
  datatype Message = Message(channel: ChannelId, author: Author, content: string)

  /** What the collaborators returned while one message was handled:
      `track(i)` and `page(i)` for the `i`-th URL of the message (`None` for
      a failed lookup or fetch), `backend(j)` for the `j`-th backend call, and
      whether the send to the channel went through. */
  datatype Replies = Replies(
    track: nat -> Option<TrackInfo>,
    page: nat -> Option<PageResponse>,
    backend: nat -> AttemptOutcome,
    sendOk: bool)

  /** The result of handling one message: the new store, the texts handed
      to the channel, those that actually arrived, the message list sent to
      the backend (if it was called) and the retry sleeps. */
  datatype Effect = Effect(
    store: Store,
    sent: seq<string>,
    delivered: seq<string>,
    request: Option<seq<Turn>>,
    sleeps: seq<int>)

  /** How a message is handled. */
  datatype Route = Ignored | ToggleCommand | HelpCommand | Conversation

  const HelpAliases: set<string> := {"!crackgpt help", "!cg help", "!help cg"}

  const ContextHeader: string := "Context from shared links:\n"

  function ToggleNotice(on: bool): string {
    "CrackGPT style toggle is now **" + (if on then "ON" else "OFF") + "** for this channel."
  }

  function HelpText(toggleKeyword: string): string {
    "Commands:\n"
    + "- `" + toggleKeyword + "` \U{2014} toggle style guidance for this channel\n"
    + "- `!crackgpt help` \U{2014} show this help\n"
  }

  /** The message passes the filters: it has content, its author is not a
      bot unless bots are answered, and its channel is allowed. */
  predicate Admitted(cfg: Config, msg: Message) {
    && msg.content != ""
    && (cfg.respondToBots || !msg.author.isBot)
    && IsChannelAllowed(msg.channel, cfg.allowedChannels)
  }

  /** The stripped, lower-cased content starts with the lower-cased toggle
      keyword. */
  predicate IsToggle(cfg: Config, msg: Message) {
    StartsWith(Lower(Strip(msg.content)), Lower(cfg.toggleKeyword))
  }

  predicate IsHelp(msg: Message) {
    Lower(Strip(msg.content)) in HelpAliases
  }

  function RouteOf(cfg: Config, msg: Message): (r: Route)
    ensures r == Ignored <==> !Admitted(cfg, msg)
    ensures r == ToggleCommand <==> Admitted(cfg, msg) && IsToggle(cfg, msg)
    ensures r == HelpCommand <==> Admitted(cfg, msg) && !IsToggle(cfg, msg) && IsHelp(msg)
  {
    if !Admitted(cfg, msg) then Ignored
    else if IsToggle(cfg, msg) then ToggleCommand
    else if IsHelp(msg) then HelpCommand
    else Conversation
  }

  /** What reaches the channel of a text handed to `channel.send`: the text
      when the send goes through, nothing when it raises. */
  function Delivered(text: string, ok: bool): seq<string> {
    if ok then [text] else []
  }

  function EnrichSettings(cfg: Config): EnrichConfig {
    EnrichConfig(cfg.enableSpotify, cfg.enableWebScraping, cfg.maxContentChars)
  }

  /** The enrichment lines for a message. */
  function LinesFor(cfg: Config, msg: Message, rp: Replies): seq<string> {
    EnrichLines(EnrichSettings(cfg), ExtractUrls(Strip(msg.content)), rp.track, rp.page)
  }

  /** The user turn `"<display name>: <stripped content>"`. */
  function UserTurn(msg: Message): Turn {
    Turn(User, msg.author.displayName + ": " + Strip(msg.content))
  }

  /** The single system turn holding all enrichment lines. */
  function ContextTurn(lines: seq<string>): Turn {
    Turn(System, ContextHeader + Join("\n", lines))
  }

  /** The turns a conversation appends before asking the backend: the user
      turn, then the context turn when there are enrichment lines. */
  function LeadTurns(msg: Message, lines: seq<string>): (ts: seq<Turn>)
    ensures 1 <= |ts| <= 2 && ts[0] == UserTurn(msg)
    ensures |ts| == 2 <==> lines != []
    ensures |ts| == 2 ==> ts[1] == ContextTurn(lines)
  {
    [UserTurn(msg)] + if lines != [] then [ContextTurn(lines)] else []
  }

  /** All the turns a conversation appends, in order: the lead turns, then
      the assistant turn with the reply. */
  function NewTurns(msg: Message, lines: seq<string>, reply: string): (ts: seq<Turn>)
    ensures |ts| == |LeadTurns(msg, lines)| + 1
    ensures ts[..|ts| - 1] == LeadTurns(msg, lines) && ts[|ts| - 1] == Turn(Assistant, reply)
  {
    LeadTurns(msg, lines) + [Turn(Assistant, reply)]
  }

  /** The store once the channel is marked active and its history has the
      configured bound (`mark_active`, then `get_history`). */
  function Prepared(cfg: Config, st: Store, c: ChannelId): Store {
    GetHistory(MarkActive(st, c), c, cfg.maxHistoryTurns)
  }

  /** The channel's history when the backend is asked: the prepared history
      with the lead turns appended. */
  function Asked(cfg: Config, st: Store, msg: Message, lines: seq<string>): History {
    PushAll(Prepared(cfg, st, msg.channel)[msg.channel].history, LeadTurns(msg, lines))
  }

  /** The message list sent to the backend: the prompt for the channel's
      toggle and the history at that point. */
  function ConverseRequest(cfg: Config, st: Store, msg: Message, lines: seq<string>): seq<Turn> {
    var st1 := Prepared(cfg, st, msg.channel);
    BackendMessages(SystemPrompt(cfg.masterInstruction, st1[msg.channel].toggleOn), Asked(cfg, st, msg, lines).entries)
  }

  /** The store after a conversation: the asked history with the reply
      appended. */
  function Conversed(cfg: Config, st: Store, msg: Message, lines: seq<string>, reply: string): Store {
    var c := msg.channel;
    var st1 := Prepared(cfg, st, c);
    WithHistory(st1, c, Push(Asked(cfg, st, msg, lines), Turn(Assistant, reply)))
  }

  /** A conversation message, given its enrichment lines and the outcome of
      the retry loop: mark the channel active, bring its history to the
      configured bound, append the user turn and the context turn, ask the
      backend with that history, append the reply and send it. */
  function ConverseWith(cfg: Config, st: Store, msg: Message, lines: seq<string>,
                        inv: Invocation, sendOk: bool): Effect {
    Effect(Conversed(cfg, st, msg, lines, inv.reply), [inv.reply], Delivered(inv.reply, sendOk),
           Some(ConverseRequest(cfg, st, msg, lines)), inv.sleeps)
  }

  function Converse(cfg: Config, st: Store, msg: Message, rp: Replies): Effect {
    ConverseWith(cfg, st, msg, LinesFor(cfg, msg, rp), Invoke(rp.backend), rp.sendOk)
  }

  /** `on_message` */
  function OnMessage(cfg: Config, st: Store, msg: Message, rp: Replies): (e: Effect)
    ensures e.request.Some? <==> RouteOf(cfg, msg) == Conversation
    ensures |e.sent| == if RouteOf(cfg, msg) == Ignored then 0 else 1
    ensures e.delivered == if rp.sendOk then e.sent else []
    ensures e.sleeps != [] ==> RouteOf(cfg, msg) == Conversation
  {
    match RouteOf(cfg, msg)
    case Ignored => Effect(st, [], [], None, [])
    case ToggleCommand =>
      var st' := Toggle(st, msg.channel);
      var notice := ToggleNotice(st'[msg.channel].toggleOn);
      Effect(st', [notice], Delivered(notice, rp.sendOk), None, [])
    case HelpCommand =>
      Effect(st, [HelpText(cfg.toggleKeyword)], Delivered(HelpText(cfg.toggleKeyword), rp.sendOk), None, [])
    case Conversation => Converse(cfg, st, msg, rp)
  }

  /** A message with empty content, from a bot when bots are not answered,
      or in a channel outside a non-empty allow-list changes nothing and
      sends nothing. */
  lemma FilteredMessagesChangeNothing(cfg: Config, st: Store, msg: Message, rp: Replies)
    requires msg.content == "" || (!cfg.respondToBots && msg.author.isBot)
          || (|cfg.allowedChannels| > 0 && msg.channel !in cfg.allowedChannels)
    ensures OnMessage(cfg, st, msg, rp) == Effect(st, [], [], None, [])
  {
  }

  /** An admitted message whose stripped content starts with the toggle
      keyword (help alias or not) flips its channel's toggle and nothing
      else, reports the new position, and does not call the backend. */
  lemma ToggleFlipsOnlyTheFlag(cfg: Config, st: Store, msg: Message, rp: Replies)
    requires Admitted(cfg, msg) && IsToggle(cfg, msg)
    ensures var e := OnMessage(cfg, st, msg, rp);
      var c := msg.channel;
      && Lookup(e.store, c) == Lookup(st, c).(toggleOn := !Lookup(st, c).toggleOn)
      && (forall d :: d != c ==> Lookup(e.store, d) == Lookup(st, d))
      && e.sent == [ToggleNotice(!Lookup(st, c).toggleOn)]
      && e.request.None?
  {
  }

  /** Two toggle commands in a channel give it back its original state. */
  lemma ToggleTwiceRestoresChannel(cfg: Config, st: Store, msg: Message, rp1: Replies, rp2: Replies)
    requires Admitted(cfg, msg) && IsToggle(cfg, msg)
    ensures var st2 := OnMessage(cfg, OnMessage(cfg, st, msg, rp1).store, msg, rp2).store;
      Lookup(st2, msg.channel) == Lookup(st, msg.channel)
  {
    ToggleTwiceRestores(st, msg.channel);
  }

  /** An admitted help alias that is not a toggle only sends the help
      text. */
  lemma HelpChangesNothing(cfg: Config, st: Store, msg: Message, rp: Replies)
    requires Admitted(cfg, msg) && !IsToggle(cfg, msg) && IsHelp(msg)
    ensures var e := OnMessage(cfg, st, msg, rp);
      e.store == st && e.sent == [HelpText(cfg.toggleKeyword)] && e.request.None?
  {
  }

  /** A conversation marks its channel active, keeps its toggle, bounds its
      history by the configured capacity and leaves it holding the most
      recent entries of the old history followed by exactly the new turns. */
  lemma ConversedHistory(cfg: Config, st: Store, msg: Message, lines: seq<string>, reply: string)
    requires Lookup(st, msg.channel).history.Valid()
    ensures var r := Conversed(cfg, st, msg, lines, reply);
      var c := msg.channel;
      var cap := Capacity(cfg.maxHistoryTurns);
      var base := Resize(Lookup(st, c).history, cap).entries;
      && c in r
      && r[c].active
      && r[c].toggleOn == Lookup(st, c).toggleOn
      && r[c].history.capacity == cap
      && r[c].history.entries == KeepLast(base + NewTurns(msg, lines, reply), cap)
  {
    var c := msg.channel;
    var h0 := Prepared(cfg, st, c)[c].history;
    var lead := LeadTurns(msg, lines);
    var ts := NewTurns(msg, lines, reply);
    assert ts == lead + [Turn(Assistant, reply)];
    PushAllKeepsMostRecent(h0, ts);
    PushAllAppend(h0, lead, [Turn(Assistant, reply)]);
  }

  /** The backend sees the prompt for the channel's toggle, then the most
      recent entries of the bounded history followed by the lead turns. */
  lemma ConverseRequestHistory(cfg: Config, st: Store, msg: Message, lines: seq<string>)
    requires Lookup(st, msg.channel).history.Valid()
    ensures var c := msg.channel;
      var cap := Capacity(cfg.maxHistoryTurns);
      var base := Resize(Lookup(st, c).history, cap).entries;
      ConverseRequest(cfg, st, msg, lines)
        == BackendMessages(SystemPrompt(cfg.masterInstruction, Lookup(st, c).toggleOn),
                           KeepLast(base + LeadTurns(msg, lines), cap))
  {
    PushAllKeepsMostRecent(Prepared(cfg, st, msg.channel)[msg.channel].history, LeadTurns(msg, lines));
  }

  /** For a message routed to the backend, `on_message` asks the backend
      with the prompt for the channel's toggle and the channel's history at
      that point, and then records exactly that history with the reply
      appended. */
  lemma ReplyFollowsRequest(cfg: Config, st: Store, msg: Message, rp: Replies)
    requires RouteOf(cfg, msg) == Conversation
    ensures var e := OnMessage(cfg, st, msg, rp);
      var c := msg.channel;
      var asked := Asked(cfg, st, msg, LinesFor(cfg, msg, rp));
      && e.request == Some(BackendMessages(SystemPrompt(cfg.masterInstruction, Lookup(st, c).toggleOn), asked.entries))
      && e.request.value[1..] == KeepLast(asked.entries, HistoryWindow)
      && c in e.store
      && e.store[c].history == Push(asked, Turn(Assistant, Invoke(rp.backend).reply))
  {
    assert OnMessage(cfg, st, msg, rp) == Converse(cfg, st, msg, rp);
  }

  /** For a message routed to the backend: its channel is active and holds
      the new turns with the message's own enrichment lines and the reply
      the retry loop settled on, which is never empty and is what is sent;
      the backend was asked with the channel's prompt and its bounded history
      up to the lead turns. */
  lemma ConversationAppendsTurns(cfg: Config, st: Store, msg: Message, rp: Replies)
    requires RouteOf(cfg, msg) == Conversation
    requires Lookup(st, msg.channel).history.Valid()
    ensures var e := OnMessage(cfg, st, msg, rp);
      var c := msg.channel;
      var cap := Capacity(cfg.maxHistoryTurns);
      var base := Resize(Lookup(st, c).history, cap).entries;
      var inv := Invoke(rp.backend);
      && c in e.store
      && e.store[c].active
      && e.store[c].history.entries == KeepLast(base + NewTurns(msg, LinesFor(cfg, msg, rp), inv.reply), cap)
      && e.sent == [inv.reply] && inv.reply != ""
      && e.sleeps == inv.sleeps
      && e.request == Some(BackendMessages(SystemPrompt(cfg.masterInstruction, Lookup(st, c).toggleOn),
                                           KeepLast(base + LeadTurns(msg, LinesFor(cfg, msg, rp)), cap)))
  {
    ConversedHistory(cfg, st, msg, LinesFor(cfg, msg, rp), Invoke(rp.backend).reply);
    ConverseRequestHistory(cfg, st, msg, LinesFor(cfg, msg, rp));
    assert OnMessage(cfg, st, msg, rp) == Converse(cfg, st, msg, rp);
  }

  /** The frame of a conversation: only its channel changes or appears, it
      is marked active, and every history keeps its bound. */
  lemma ConversedFrame(cfg: Config, st: Store, msg: Message, lines: seq<string>, reply: string)
    ensures var r := Conversed(cfg, st, msg, lines, reply);
      && r.Keys == st.Keys + {msg.channel}
      && (forall d :: d in st && d != msg.channel ==> r[d] == st[d])
      && r[msg.channel].active
      && (StoreValid(st) ==> StoreValid(r))
  {
  }

  /** The store after a message, route by route: unchanged when the
      message is ignored or asks for help, toggled for the toggle command,
      and the conversation's store otherwise. */
  lemma OnMessageStore(cfg: Config, st: Store, msg: Message, rp: Replies)
    ensures var r := OnMessage(cfg, st, msg, rp).store;
      && (RouteOf(cfg, msg) in {Ignored, HelpCommand} ==> r == st)
      && (RouteOf(cfg, msg) == ToggleCommand ==> r == Toggle(st, msg.channel))
      && (RouteOf(cfg, msg) == Conversation ==>
            r == Conversed(cfg, st, msg, LinesFor(cfg, msg, rp), Invoke(rp.backend).reply))
  {
    match RouteOf(cfg, msg)
    case Ignored =>
    case HelpCommand =>
    case ToggleCommand =>
    case Conversation =>
      assert OnMessage(cfg, st, msg, rp) == Converse(cfg, st, msg, rp);
  }

  /** Whatever happens to the send, the store is the same: the reply is in
      the history before it is sent. A failed send delivers nothing. */
  lemma SendFailureKeepsStore(cfg: Config, st: Store, msg: Message, rp: Replies)
    ensures OnMessage(cfg, st, msg, rp.(sendOk := false)).store == OnMessage(cfg, st, msg, rp.(sendOk := true)).store
    ensures OnMessage(cfg, st, msg, rp.(sendOk := false)).delivered == []
  {
    var off, on := rp.(sendOk := false), rp.(sendOk := true);
    OnMessageStore(cfg, st, msg, off);
    OnMessageStore(cfg, st, msg, on);
    assert LinesFor(cfg, msg, off) == LinesFor(cfg, msg, on);
    assert Invoke(off.backend) == Invoke(on.backend);
    match RouteOf(cfg, msg)
    case Ignored =>
    case HelpCommand =>
    case ToggleCommand =>
    case Conversation =>
      assert OnMessage(cfg, st, msg, off) == Converse(cfg, st, msg, off);
  }

  /** Only the message's channel can change, and only it can be added. */
  lemma OtherChannelsUntouched(cfg: Config, st: Store, msg: Message, rp: Replies)
    ensures var e := OnMessage(cfg, st, msg, rp);
      && e.store.Keys <= st.Keys + {msg.channel}
      && forall d :: d in st && d != msg.channel ==> d in e.store && e.store[d] == st[d]
  {
    OnMessageStore(cfg, st, msg, rp);
    if RouteOf(cfg, msg) == Conversation {
      ConversedFrame(cfg, st, msg, LinesFor(cfg, msg, rp), Invoke(rp.backend).reply);
    }
  }

  /** A channel marked active stays active, and every history keeps its
      bound. */
  lemma ActiveAndBoundsPersist(cfg: Config, st: Store, msg: Message, rp: Replies)
    requires StoreValid(st)
    ensures var e := OnMessage(cfg, st, msg, rp);
      && StoreValid(e.store)
      && forall d :: d in st && st[d].active ==> d in e.store && e.store[d].active
  {
    var r := OnMessage(cfg, st, msg, rp).store;
    var c := msg.channel;
    OnMessageStore(cfg, st, msg, rp);
    if RouteOf(cfg, msg) == Conversation {
      ConversedFrame(cfg, st, msg, LinesFor(cfg, msg, rp), Invoke(rp.backend).reply);
    }
    forall d | d in st && st[d].active ensures d in r && r[d].active {
      if d != c {
        assert r[d] == st[d];
      }
    }
  }
}
