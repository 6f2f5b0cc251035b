/** The bot over its lifetime: a run is a sequence of events, each an
    inbound message or a round of idle chatter on a picked channel, applied
    to the store in order from the empty store the bot starts with. */
module Bot {
  import opened Channels
  import opened Backend
  import opened Pipeline
  import opened Idle

  datatype Event =
    | Inbound(msg: Message, rp: Replies)
    | Chat(channel: ChannelId, isText: bool, outcome: AttemptOutcome, sendOk: bool)

  /** The store the bot starts with: no channel referenced yet. */
  const Start: Store := map[]

  /** The store after one event. An idle round only happens on an eligible
      channel; a pick of any other channel is no round at all. */
  function Step(cfg: Config, st: Store, ev: Event): Store {
    match ev
    case Inbound(msg, rp) => OnMessage(cfg, st, msg, rp).store
    case Chat(c, isText, outcome, sendOk) =>
      if c in Eligible(st, cfg.allowedChannels) then Chatter(cfg, st, c, isText, outcome, sendOk).store
      else st
  }

  /** The store after the events, in order. */
  function Run(cfg: Config, st: Store, evs: seq<Event>): Store
    decreases |evs|
  {
    if evs == [] then st else Run(cfg, Step(cfg, st, evs[0]), evs[1..])
  }

  /** The channel an event concerns. */
  function Subject(ev: Event): ChannelId {
    match ev
    case Inbound(msg, _) => msg.channel
    case Chat(c, _, _, _) => c
  }

  /** One event keeps every history within its bound, keeps every active
      channel active, and changes or adds no channel but its subject. */
  lemma StepFrame(cfg: Config, st: Store, ev: Event)
    ensures var r := Step(cfg, st, ev);
      && (StoreValid(st) ==> StoreValid(r))
      && (forall d :: d in st && st[d].active ==> d in r && r[d].active)
      && r.Keys <= st.Keys + {Subject(ev)}
      && (forall d :: d in st && d != Subject(ev) ==> d in r && r[d] == st[d])
  {
    match ev
    case Inbound(msg, rp) =>
      OtherChannelsUntouched(cfg, st, msg, rp);
      if StoreValid(st) {
        ActiveAndBoundsPersist(cfg, st, msg, rp);
      } else {
        ActiveStaysActive(cfg, st, msg, rp);
      }
    case Chat(c, isText, outcome, sendOk) =>
      if c in Eligible(st, cfg.allowedChannels) {
        ChatterFrame(cfg, st, c, isText, outcome, sendOk);
      }
  }

  /** A message never clears an activity flag, whatever the histories. */
  lemma ActiveStaysActive(cfg: Config, st: Store, msg: Message, rp: Replies)
    ensures var e := OnMessage(cfg, st, msg, rp);
      forall d :: d in st && st[d].active ==> d in e.store && e.store[d].active
  {
    var r := OnMessage(cfg, st, msg, rp).store;
    OnMessageStore(cfg, st, msg, rp);
    if RouteOf(cfg, msg) == Conversation {
      ConversedFrame(cfg, st, msg, LinesFor(cfg, msg, rp), Invoke(rp.backend).reply);
    }
    forall d | d in st && st[d].active ensures d in r && r[d].active {
      if d != msg.channel {
        assert r[d] == st[d];
      }
    }
  }

  /** Over any run, every history stays within its bound. */
  lemma {:induction false} RunKeepsBounds(cfg: Config, st: Store, evs: seq<Event>)
    requires StoreValid(st)
    ensures StoreValid(Run(cfg, st, evs))
    decreases |evs|
  {
    if evs != [] {
      StepFrame(cfg, st, evs[0]);
      RunKeepsBounds(cfg, Step(cfg, st, evs[0]), evs[1..]);
    }
  }

  /** From the start, no history ever holds more entries than its bound. */
  lemma HistoriesStayBounded(cfg: Config, evs: seq<Event>)
    ensures forall c :: c in Run(cfg, Start, evs) ==>
      |Run(cfg, Start, evs)[c].history.entries| <= Run(cfg, Start, evs)[c].history.capacity
  {
    RunKeepsBounds(cfg, Start, evs);
  }

  /** Once a channel is active it stays active, and so stays eligible for
      idle chatter as long as it is allowed. */
  lemma {:induction false} RunKeepsActive(cfg: Config, st: Store, evs: seq<Event>, d: ChannelId)
    requires d in st && st[d].active
    ensures d in Run(cfg, st, evs) && Run(cfg, st, evs)[d].active
    decreases |evs|
  {
    if evs != [] {
      StepFrame(cfg, st, evs[0]);
      RunKeepsActive(cfg, Step(cfg, st, evs[0]), evs[1..], d);
    }
  }

  /** A channel no event concerns is exactly as it was before the run. */
  lemma {:induction false} UnmentionedChannelsUntouched(cfg: Config, st: Store, evs: seq<Event>, d: ChannelId)
    requires forall i :: 0 <= i < |evs| ==> Subject(evs[i]) != d
    ensures Lookup(Run(cfg, st, evs), d) == Lookup(st, d)
    decreases |evs|
  {
    if evs != [] {
      var st1 := Step(cfg, st, evs[0]);
      StepFrame(cfg, st, evs[0]);
      assert Lookup(st1, d) == Lookup(st, d);
      UnmentionedChannelsUntouched(cfg, st1, evs[1..], d);
      assert forall i :: 0 <= i < |evs[1..]| ==> evs[1..][i] == evs[i + 1];
    }
  }
}
