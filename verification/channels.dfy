/** Per-channel conversation state (`ChannelState` and `State`): a bounded
    FIFO history, the style toggle and the activity flag, kept in a map that
    gains a default entry the first time a channel is referenced. */
module Channels {

  type ChannelId = int

  datatype Role = User | Assistant | System

  /** One history entry, `{"role": …, "content": …}`. */
  datatype Turn = Turn(role: Role, content: string)

  /** A `deque` with a `maxlen`: the entries, oldest first, and the bound. */
  datatype History = History(entries: seq<Turn>, capacity: nat) {
    /** The deque invariant: never more entries than the bound. */
    predicate Valid() {
      |entries| <= capacity
    }
  }

  datatype ChannelState = ChannelState(history: History, toggleOn: bool, active: bool)

  /** `State.channels` */
  type Store = map<ChannelId, ChannelState>

  /** The `maxlen` a fresh channel's history starts with. */
  const DefaultCapacity: nat := 24

  /** What `defaultdict(ChannelState)` creates on first reference. */
  const DefaultChannel := ChannelState(History([], DefaultCapacity), true, false)

  /** The last `n` elements of `s` (all of them when there are fewer). */
  function KeepLast<T>(s: seq<T>, n: nat): (r: seq<T>)
    ensures |r| == if |s| <= n then |s| else n
    ensures r == s[|s| - |r|..]
  {
    if |s| <= n then s else s[|s| - n..]
  }

  /** Appending to a bounded deque: the new turn goes last and, when the
      deque is full, the oldest entry is evicted first. */
  function Push(h: History, t: Turn): (r: History)
    ensures r.Valid() && r.capacity == h.capacity
    ensures |h.entries| < h.capacity ==> r.entries == h.entries + [t]
  {
    History(KeepLast(h.entries + [t], h.capacity), h.capacity)
  }

  /** Appending to a full deque evicts exactly its oldest entry. */
  lemma PushEvictsOldest(h: History, t: Turn)
    requires 0 < |h.entries| == h.capacity
    ensures Push(h, t).entries == h.entries[1..] + [t]
  {
  }

  /** Appending several turns one after another. */
  function PushAll(h: History, ts: seq<Turn>): (r: History)
    ensures r.capacity == h.capacity
    ensures h.Valid() ==> r.Valid()
    decreases |ts|
  {
    if ts == [] then h else PushAll(Push(h, ts[0]), ts[1..])
  }

  /** Appending two runs of turns is appending their concatenation. */
  lemma {:induction false} PushAllAppend(h: History, a: seq<Turn>, b: seq<Turn>)
    ensures PushAll(PushAll(h, a), b) == PushAll(h, a + b)
    decreases |a|
  {
    if a == [] {
      assert a + b == b;
    } else {
      var h1 := Push(h, a[0]);
      var ab := a + b;
      assert ab != [] && ab[0] == a[0] && ab[1..] == a[1..] + b;
      calc {
        PushAll(PushAll(h, a), b);
        PushAll(PushAll(h1, a[1..]), b);
        { PushAllAppend(h1, a[1..], b); }
        PushAll(h1, a[1..] + b);
        PushAll(h, ab);
      }
    }
  }

  /** However many turns are appended, the history ends up holding the most
      recent `capacity` entries of the old entries followed by the new turns,
      in order. */
  lemma {:induction false} PushAllKeepsMostRecent(h: History, ts: seq<Turn>)
    requires h.Valid()
    ensures PushAll(h, ts).entries == KeepLast(h.entries + ts, h.capacity)
    decreases |ts|
  {
    if ts != [] {
      var h' := Push(h, ts[0]);
      PushAllKeepsMostRecent(h', ts[1..]);
      KeepLastOfKeepLast(h.entries + [ts[0]], ts[1..], h.capacity);
      assert h.entries + [ts[0]] + ts[1..] == h.entries + ts;
    }
  }

  /** Truncating before appending does not change what the final truncation
      keeps. */
  lemma KeepLastOfKeepLast<T>(s: seq<T>, u: seq<T>, n: nat)
    ensures KeepLast(KeepLast(s, n) + u, n) == KeepLast(s + u, n)
  {
    var k := KeepLast(s, n);
    var a := KeepLast(k + u, n);
    var b := KeepLast(s + u, n);
    assert |a| == |b|;
    forall i | 0 <= i < |a| ensures a[i] == b[i] {
      var m := |a| - i;
      assert a[i] == (k + u)[|k + u| - m];
      assert b[i] == (s + u)[|s + u| - m];
    }
  }

  /** `deque(hist, maxlen=capacity)` when the bound differs: the most recent
      `capacity` entries survive, in their original order. */
  function Resize(h: History, capacity: nat): (r: History)
    ensures r.capacity == capacity
    ensures h.capacity == capacity ==> r == h
    ensures h.capacity != capacity ==> r.entries == KeepLast(h.entries, capacity)
    ensures h.Valid() ==> r.Valid()
  {
    if h.capacity == capacity then h else History(KeepLast(h.entries, capacity), capacity)
  }

  /** The configured history bound, `max(2 * max_history_turns, 6)`. */
  function Capacity(turns: int): (n: nat)
    ensures n >= 6 && n >= 2 * turns
    ensures n == 6 || n == 2 * turns
  {
    if 2 * turns > 6 then 2 * turns else 6
  }

  /** `State.channels[c]`, with the default entry for a channel not yet
      referenced. */
  function Lookup(st: Store, c: ChannelId): ChannelState {
    if c in st then st[c] else DefaultChannel
  }

  /** Every history in the store keeps its deque invariant. */
  ghost predicate StoreValid(st: Store) {
    forall c :: c in st ==> st[c].history.Valid()
  }

  /** The store after `get_history(c)`: the channel exists and its history
      has the configured bound. */
  function GetHistory(st: Store, c: ChannelId, turns: int): (r: Store)
    ensures c in r && r[c].history.capacity == Capacity(turns)
    ensures r[c].history == Resize(Lookup(st, c).history, Capacity(turns))
    ensures r[c].toggleOn == Lookup(st, c).toggleOn && r[c].active == Lookup(st, c).active
    ensures r.Keys == st.Keys + {c}
    ensures forall d :: d in st && d != c ==> r[d] == st[d]
    ensures StoreValid(st) ==> StoreValid(r)
  {
    var s := Lookup(st, c);
    st[c := s.(history := Resize(s.history, Capacity(turns)))]
  }

  /** Channel `c` (created with defaults if new) given history `h`;
      nothing else changes. */
  function WithHistory(st: Store, c: ChannelId, h: History): (r: Store)
    ensures c in r && r[c] == Lookup(st, c).(history := h)
    ensures r.Keys == st.Keys + {c}
    ensures forall d :: d in st && d != c ==> r[d] == st[d]
    ensures StoreValid(st) && h.Valid() ==> StoreValid(r)
  {
    st[c := Lookup(st, c).(history := h)]
  }

  /** `history.append(t)` on channel `c`'s history: the turn goes through
      the channel's deque and nothing else changes. */
  function Record(st: Store, c: ChannelId, t: Turn): (r: Store)
    ensures c in r && r[c].history == Push(Lookup(st, c).history, t)
    ensures r[c].toggleOn == Lookup(st, c).toggleOn && r[c].active == Lookup(st, c).active
    ensures r.Keys == st.Keys + {c}
    ensures forall d :: d in st && d != c ==> r[d] == st[d]
    ensures StoreValid(st) ==> StoreValid(r)
  {
    WithHistory(st, c, Push(Lookup(st, c).history, t))
  }

  /** `State.toggle(c)`: flips the channel's toggle and nothing else. */
  function Toggle(st: Store, c: ChannelId): (r: Store)
    ensures c in r && r[c].toggleOn == !Lookup(st, c).toggleOn
    ensures r[c].history == Lookup(st, c).history && r[c].active == Lookup(st, c).active
    ensures r.Keys == st.Keys + {c}
    ensures forall d :: d in st && d != c ==> r[d] == st[d]
    ensures StoreValid(st) ==> StoreValid(r)
  {
    var s := Lookup(st, c);
    st[c := s.(toggleOn := !s.toggleOn)]
  }

  /** Toggling a channel twice leaves it as it was. */
  lemma ToggleTwiceRestores(st: Store, c: ChannelId)
    ensures Lookup(Toggle(Toggle(st, c), c), c) == Lookup(st, c)
    ensures c in st ==> Toggle(Toggle(st, c), c) == st
  {
  }

  /** `State.mark_active(c)`: sets the activity flag and nothing else. */
  function MarkActive(st: Store, c: ChannelId): (r: Store)
    ensures c in r && r[c].active
    ensures r[c].history == Lookup(st, c).history && r[c].toggleOn == Lookup(st, c).toggleOn
    ensures r.Keys == st.Keys + {c}
    ensures forall d :: d in st && d != c ==> r[d] == st[d]
    ensures StoreValid(st) ==> StoreValid(r)
  {
    st[c := Lookup(st, c).(active := true)]
  }
}
