/** The idle `random_chatter_loop`: after a random wait, pick one active,
    allowed channel at random, ask the backend once with that channel's
    history, and append and send the reply when there is one. */
module Idle {
  import opened Wrappers
  import opened Urls
  import opened Channels
  import opened Prompt
  import opened Backend
  import opened Pipeline

  /** What one round of the loop did: the new store, the text handed to the
      channel, the texts that arrived, and the request made of the backend
      (if any). */
  datatype IdleEffect = IdleEffect(
    store: Store,
    sent: seq<string>,
    delivered: seq<string>,
    request: Option<seq<Turn>>)

  /** The channels a round may pick: known, marked active, and allowed. */
  function Eligible(st: Store, allowed: seq<ChannelId>): set<ChannelId> {
    set c | c in st && st[c].active && IsChannelAllowed(c, allowed)
  }

  /** The reply one backend call gives idle chatter: the content of an
      answer when it is non-empty; nothing on a timeout, an error, or a
      missing or empty content. */
  function ChatterReply(outcome: AttemptOutcome): (r: Option<string>)
    ensures r.Some? <==> Succeeds(outcome)
    ensures r.Some? ==> r.value == outcome.content.value && r.value != ""
  {
    if Succeeds(outcome) then Some(outcome.content.value) else None
  }

  /** The message list idle chatter sends for channel `c`: the prompt for
      the channel's toggle and its history with the configured bound. */
  function ChatterRequest(cfg: Config, st: Store, c: ChannelId): seq<Turn> {
    var st1 := GetHistory(st, c, cfg.maxHistoryTurns);
    BackendMessages(SystemPrompt(cfg.masterInstruction, st1[c].toggleOn), st1[c].history.entries)
  }

  /** The store after a round on a text channel: its history brought to
      the configured bound, and the reply appended when there is one. */
  function Chattered(cfg: Config, st: Store, c: ChannelId, reply: Option<string>): Store {
    var st1 := GetHistory(st, c, cfg.maxHistoryTurns);
    match reply
    case None => st1
    case Some(text) => Record(st1, c, Turn(Assistant, text))
  }

  /** One round once channel `c` is picked and the reply is known. `isText`
      says whether the client resolves `c` to a text channel or thread. A
      channel that is not a text channel is skipped untouched; otherwise its
      history is brought to the configured bound and sent to the backend, and
      only an actual reply is appended (before it is sent, so a failed send
      keeps it). */
  function ChatterWith(cfg: Config, st: Store, c: ChannelId, isText: bool,
                       reply: Option<string>, sendOk: bool): (e: IdleEffect)
    ensures e.request.Some? <==> isText
    ensures e.sent == if isText && reply.Some? then [reply.value] else []
    ensures e.delivered == if sendOk then e.sent else []
  {
    if !isText then IdleEffect(st, [], [], None)
    else
      match reply
      case None => IdleEffect(Chattered(cfg, st, c, reply), [], [], Some(ChatterRequest(cfg, st, c)))
      case Some(text) =>
        IdleEffect(Chattered(cfg, st, c, reply), [text], Delivered(text, sendOk), Some(ChatterRequest(cfg, st, c)))
  }

  /** One round once channel `c` is picked, `outcome` being what the single
      backend call produced. */
  function Chatter(cfg: Config, st: Store, c: ChannelId, isText: bool,
                   outcome: AttemptOutcome, sendOk: bool): (e: IdleEffect)
    ensures e.sent != [] <==> isText && Succeeds(outcome)
    ensures e.sent != [] ==> e.sent == [outcome.content.value] && outcome.content.value != ""
  {
    ChatterWith(cfg, st, c, isText, ChatterReply(outcome), sendOk)
  }

  /** One round of the loop: no eligible channel means nothing happens;
      otherwise some eligible channel is picked (`random.choice`, modelled as
      an arbitrary choice) and `Chatter` runs on it. */
  method IdleRound(cfg: Config, st: Store, isText: ChannelId -> bool,
                   outcome: AttemptOutcome, sendOk: bool)
    returns (picked: Option<ChannelId>, e: IdleEffect)
    ensures picked.None? <==> Eligible(st, cfg.allowedChannels) == {}
    ensures picked.None? ==> e == IdleEffect(st, [], [], None)
    ensures picked.Some? ==>
      picked.value in st && st[picked.value].active && IsChannelAllowed(picked.value, cfg.allowedChannels)
    ensures picked.Some? ==> e == Chatter(cfg, st, picked.value, isText(picked.value), outcome, sendOk)
  {
    var eligible := Eligible(st, cfg.allowedChannels);
    if eligible == {} {
      return None, IdleEffect(st, [], [], None);
    }
    var c :| c in eligible;
    picked := Some(c);
    e := Chatter(cfg, st, c, isText(c), outcome, sendOk);
  }

  /** A round with a reply appends exactly that one assistant turn to the
      picked channel's history (bounded by the configured capacity), sends
      it, and asks the backend with the channel's prompt and history. */
  lemma ReplyAppended(cfg: Config, st: Store, c: ChannelId, outcome: AttemptOutcome, sendOk: bool)
    requires Succeeds(outcome)
    requires Lookup(st, c).history.Valid()
    ensures var e := Chatter(cfg, st, c, true, outcome, sendOk);
      var cap := Capacity(cfg.maxHistoryTurns);
      var base := Resize(Lookup(st, c).history, cap).entries;
      && c in e.store
      && e.store[c].history.capacity == cap
      && e.store[c].history.entries == KeepLast(base + [Turn(Assistant, outcome.content.value)], cap)
      && e.sent == [outcome.content.value]
      && e.request == Some(BackendMessages(SystemPrompt(cfg.masterInstruction, Lookup(st, c).toggleOn), base))
  {
  }

  /** A round without a reply (timeout, error, missing or empty content)
      appends and sends nothing; the only change is that the picked channel's
      history now has the configured bound. The backend was still asked,
      with the channel's prompt and that history. */
  lemma NoReplyNoTurn(cfg: Config, st: Store, c: ChannelId, outcome: AttemptOutcome, sendOk: bool)
    requires !Succeeds(outcome)
    ensures var e := Chatter(cfg, st, c, true, outcome, sendOk);
      && e.store == GetHistory(st, c, cfg.maxHistoryTurns)
      && e.store[c].history.entries == Resize(Lookup(st, c).history, Capacity(cfg.maxHistoryTurns)).entries
      && e.sent == [] && e.delivered == []
      && e.request == Some(BackendMessages(SystemPrompt(cfg.masterInstruction, Lookup(st, c).toggleOn),
                                           Resize(Lookup(st, c).history, Capacity(cfg.maxHistoryTurns)).entries))
  {
  }

  /** A round touches no flag and no other channel, and keeps every history
      within its bound; a channel that is not a text channel is left
      untouched. */
  lemma ChatterFrame(cfg: Config, st: Store, c: ChannelId, isText: bool, outcome: AttemptOutcome, sendOk: bool)
    ensures var e := Chatter(cfg, st, c, isText, outcome, sendOk);
      && (!isText ==> e.store == st)
      && e.store.Keys <= st.Keys + {c}
      && (forall d :: d in st && d != c ==> d in e.store && e.store[d] == st[d])
      && Lookup(e.store, c).toggleOn == Lookup(st, c).toggleOn
      && Lookup(e.store, c).active == Lookup(st, c).active
      && (StoreValid(st) ==> StoreValid(e.store))
  {
    if isText {
      var r := Chattered(cfg, st, c, ChatterReply(outcome));
      assert Chatter(cfg, st, c, isText, outcome, sendOk).store == r;
    }
  }

  /** Idle chatter never changes which channels are eligible for it. */
  lemma ChatterKeepsEligible(cfg: Config, st: Store, c: ChannelId, isText: bool, outcome: AttemptOutcome, sendOk: bool)
    ensures Eligible(Chatter(cfg, st, c, isText, outcome, sendOk).store, cfg.allowedChannels)
         == Eligible(st, cfg.allowedChannels)
  {
    var r := Chatter(cfg, st, c, isText, outcome, sendOk).store;
    ChatterFrame(cfg, st, c, isText, outcome, sendOk);
    forall d ensures d in Eligible(r, cfg.allowedChannels) <==> d in Eligible(st, cfg.allowedChannels) {
      if d == c {
        assert Lookup(r, c).active == Lookup(st, c).active;
      } else if d in st {
        assert r[d] == st[d];
      }
    }
  }

  /** A conversation message makes its channel eligible for idle chatter,
      and no message makes a channel ineligible. */
  lemma ConversationMakesEligible(cfg: Config, st: Store, msg: Message, rp: Replies)
    ensures var e := OnMessage(cfg, st, msg, rp);
      && Eligible(st, cfg.allowedChannels) <= Eligible(e.store, cfg.allowedChannels)
      && (RouteOf(cfg, msg) == Conversation ==> msg.channel in Eligible(e.store, cfg.allowedChannels))
  {
    var r := OnMessage(cfg, st, msg, rp).store;
    OnMessageStore(cfg, st, msg, rp);
    if RouteOf(cfg, msg) == Conversation {
      ConversedFrame(cfg, st, msg, LinesFor(cfg, msg, rp), Invoke(rp.backend).reply);
    }
    forall d | d in Eligible(st, cfg.allowedChannels) ensures d in Eligible(r, cfg.allowedChannels) {
      if d != msg.channel {
        assert r[d] == st[d];
      }
    }
  }
}
