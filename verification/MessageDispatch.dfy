/**
  In-worker message dispatch: one queue per subscription, stamped with the block's running index, and
  a selection that takes the smallest stamp first.

  The queues are shared between a sender, kept by the dispatcher, and a receiver, kept by a
  subscriber; a channel id stands for the shared queue.
  */
module MessageDispatch {
  import opened MqMessages

  type ChannelId = nat

  datatype Item = Item(sn: nat, message: Message)

  datatype Channel = Channel(deque: seq<Item>, senders: int, receivers: int)

  datatype State = State(
    subscribers: map<Path, seq<ChannelId>>,
    channels: map<ChannelId, Channel>,
    nextId: ChannelId,
    index: nat)

  const NEW := State(map[], map[], 0, 0)

  function SubscribersOf(subscribers: map<Path, seq<ChannelId>>, p: Path): seq<ChannelId> {
    if p in subscribers then subscribers[p] else []
  }

  function Subscribe(s: State, p: Path): State {
    s.(subscribers := s.subscribers[p := SubscribersOf(s.subscribers, p) + [s.nextId]],
       channels := s.channels[s.nextId := Channel([], 1, 1)],
       nextId := s.nextId + 1)
  }

  predicate HasReceiver(channels: map<ChannelId, Channel>, id: ChannelId) {
    id in channels && channels[id].receivers != 0
  }

  /** A sender whose receivers are gone is dropped. */
  function Sent(channels: map<ChannelId, Channel>, id: ChannelId, item: Item): map<ChannelId, Channel> {
    if HasReceiver(channels, id) then channels[id := channels[id].(deque := channels[id].deque + [item])]
    else if id in channels then channels[id := channels[id].(senders := channels[id].senders - 1)]
    else channels
  }

  /** Sends to each subscriber in turn and keeps those that still have a receiver. */
  function SendAll(channels: map<ChannelId, Channel>, ids: seq<ChannelId>, item: Item)
    : (map<ChannelId, Channel>, seq<ChannelId>)
  {
    if ids == [] then (channels, [])
    else
      var (c, kept) := SendAll(channels, ids[..|ids| - 1], item);
      var last := ids[|ids| - 1];
      (Sent(c, last, item), if HasReceiver(c, last) then kept + [last] else kept)
  }

  function Dispatch(s: State, m: Message): State {
    var t := s.(index := s.index + 1);
    if m.destination !in s.subscribers then t
    else
      var (c, kept) := SendAll(s.channels, s.subscribers[m.destination], Item(s.index, m));
      t.(channels := c, subscribers := s.subscribers[m.destination := kept])
  }

  function ResetLocalIndex(s: State): State {
    s.(index := 0)
  }

  /** The channels some subscription can still send to. */
  predicate Subscribed(s: State, id: ChannelId) {
    exists p :: p in s.subscribers && id in s.subscribers[p]
  }

  function Clear(s: State): State {
    s.(channels := map id | id in s.channels ::
         if Subscribed(s, id) then s.channels[id].(deque := []) else s.channels[id])
  }

  // ---- receiving

  datatype Peek = Next(sn: nat) | Empty | Gone

  function PeekInd(ch: Channel): Peek {
    if ch.deque != [] then Next(ch.deque[0].sn) else if ch.senders == 0 then Gone else Empty
  }

  function PeekAt(s: State, id: ChannelId): Peek {
    if id in s.channels then PeekInd(s.channels[id]) else Empty
  }

  datatype Best = Nothing | At(place: nat, sn: nat)

  function Better(best: Best, peek: Peek, place: nat): Best {
    match peek
    case Empty => best
    case Gone => At(place, 0)
    case Next(sn) => if best.Nothing? || sn < best.sn then At(place, sn) else best
  }

  /** The place in the list of receivers that the selection takes from. */
  function Pick(peeks: seq<Peek>): Best {
    if peeks == [] then Nothing
    else Better(Pick(peeks[..|peeks| - 1]), peeks[|peeks| - 1], |peeks| - 1)
  }

  function Peeks(s: State, receivers: seq<ChannelId>): seq<Peek> {
    seq(|receivers|, i requires 0 <= i < |receivers| => PeekAt(s, receivers[i]))
  }

  function TryNext(s: State, id: ChannelId): State {
    if id in s.channels && s.channels[id].deque != [] then
      s.(channels := s.channels[id := s.channels[id].(deque := s.channels[id].deque[1..])])
    else s
  }

  /** As long as no sender is gone, the first of the smallest stamps is taken, if there is any. */
  lemma {:induction false} PickIsSmallest(peeks: seq<Peek>)
    requires forall i :: 0 <= i < |peeks| ==> !peeks[i].Gone?
    ensures Pick(peeks) == Nothing <==> forall i :: 0 <= i < |peeks| ==> peeks[i] == Empty
    ensures var best := Pick(peeks);
      best.At? ==>
        && best.place < |peeks| && peeks[best.place] == Next(best.sn)
        && (forall i :: 0 <= i < |peeks| && peeks[i].Next? ==> best.sn <= peeks[i].sn)
        && (forall i :: 0 <= i < best.place && peeks[i].Next? ==> best.sn < peeks[i].sn)
  {
    if peeks != [] {
      PickIsSmallest(peeks[..|peeks| - 1]);
    }
  }

  /** A receiver whose senders are gone is taken before any message, so the error surfaces. */
  lemma {:induction false} GoneIsPicked(peeks: seq<Peek>, i: nat)
    requires i < |peeks| && peeks[i] == Gone
    ensures var best := Pick(peeks);
      best.At? && best.sn == 0 && i <= best.place < |peeks| && peeks[best.place] == Gone
  {
    var n := |peeks| - 1;
    if i < n {
      GoneIsPicked(peeks[..n], i);
    }
  }

  // ---- who is reached

  /** The subscribers that still have a receiver. */
  function Live(channels: map<ChannelId, Channel>, ids: seq<ChannelId>): seq<ChannelId> {
    if ids == [] then []
    else
      var last := ids[|ids| - 1];
      Live(channels, ids[..|ids| - 1]) + if HasReceiver(channels, last) then [last] else []
  }

  function Mentions(ids: seq<ChannelId>, id: ChannelId): nat {
    if ids == [] then 0 else Mentions(ids[..|ids| - 1], id) + if ids[|ids| - 1] == id then 1 else 0
  }

  /** Sending keeps exactly the subscribers that have a receiver, and takes a sender from each of the others. */
  lemma {:induction false} SendAllKeepsLive(channels: map<ChannelId, Channel>, ids: seq<ChannelId>, item: Item)
    ensures var (c, kept) := SendAll(channels, ids, item);
      && kept == Live(channels, ids) && c.Keys == channels.Keys
      && (forall id :: id in channels ==>
            && c[id].receivers == channels[id].receivers
            && c[id].senders == channels[id].senders - if channels[id].receivers == 0 then Mentions(ids, id) else 0)
  {
    if ids != [] {
      SendAllKeepsLive(channels, ids[..|ids| - 1], item);
    }
  }

  /** After a dispatch the topic's subscribers are those that were reached; no other topic's list changes. */
  lemma DispatchKeepsLive(s: State, m: Message, p: Path)
    ensures SubscribersOf(Dispatch(s, m).subscribers, p)
         == if p == m.destination then Live(s.channels, SubscribersOf(s.subscribers, p)) else SubscribersOf(s.subscribers, p)
  {
    if m.destination in s.subscribers {
      SendAllKeepsLive(s.channels, s.subscribers[m.destination], Item(s.index, m));
    }
  }

  /** A receiver sees the oldest message as long as there is one, and only then that its senders are gone. */
  lemma PeekIff(s: State, id: ChannelId)
    requires id in s.channels
    ensures var ch := s.channels[id];
      && (PeekAt(s, id).Next? <==> ch.deque != [])
      && (PeekAt(s, id).Next? ==> PeekAt(s, id).sn == ch.deque[0].sn)
      && (PeekAt(s, id) == Gone <==> ch.deque == [] && ch.senders == 0)
  {
  }

  /** The lists are in the order of subscription. */
  ghost predicate Ascending(ids: seq<ChannelId>, next: ChannelId) {
    && (forall i, j :: 0 <= i < j < |ids| ==> ids[i] < ids[j])
    && (forall i :: 0 <= i < |ids| ==> ids[i] < next)
  }

  lemma {:induction false} LiveAscending(channels: map<ChannelId, Channel>, ids: seq<ChannelId>, next: ChannelId)
    requires Ascending(ids, next)
    ensures Ascending(Live(channels, ids), next) && forall id :: id in Live(channels, ids) ==> id in ids
  {
    if ids != [] {
      var n := |ids| - 1;
      LiveAscending(channels, ids[..n], next);
      forall i | 0 <= i < |Live(channels, ids[..n])| ensures Live(channels, ids[..n])[i] < ids[n] {
        assert Live(channels, ids[..n])[i] in ids[..n];
      }
    }
  }

  /** A subscription goes behind the topic's earlier ones, and a dispatch keeps the order. */
  lemma OrderOfSubscription(s: State, p: Path, q: Path, m: Message)
    requires Ascending(SubscribersOf(s.subscribers, p), s.nextId)
    ensures var t := Subscribe(s, q); Ascending(SubscribersOf(t.subscribers, p), t.nextId)
    ensures var t := Dispatch(s, m); Ascending(SubscribersOf(t.subscribers, p), t.nextId)
  {
    DispatchKeepsLive(s, m, p);
    LiveAscending(s.channels, SubscribersOf(s.subscribers, p), s.nextId);
  }

  // ---- how much is waiting

  ghost function Waiting(channels: map<ChannelId, Channel>): nat
    decreases |channels|
  {
    if channels == map[] then 0
    else
      var id :| id in channels;
      |channels[id].deque| + Waiting(channels - {id})
  }

  lemma {:induction false} WaitingWithout(channels: map<ChannelId, Channel>, id: ChannelId)
    requires id in channels
    ensures Waiting(channels) == |channels[id].deque| + Waiting(channels - {id})
    decreases |channels|
  {
    var k :| k in channels && Waiting(channels) == |channels[k].deque| + Waiting(channels - {k});
    if k != id {
      WaitingWithout(channels - {k}, id);
      WaitingWithout(channels - {id}, k);
      assert channels - {k} - {id} == channels - {id} - {k};
    }
  }

  lemma WaitingEmptied(channels: map<ChannelId, Channel>, id: ChannelId, ch: Channel)
    requires id in channels && ch.deque == []
    ensures Waiting(channels[id := ch]) == Waiting(channels) - |channels[id].deque|
  {
    WaitingWithout(channels, id);
    WaitingWithout(channels[id := ch], id);
    assert channels[id := ch] - {id} == channels - {id};
  }

  // ---- clearing topic by topic

  predicate SubscribedIn(subscribers: map<Path, seq<ChannelId>>, topics: set<Path>, id: ChannelId) {
    exists p :: p in topics && id in SubscribersOf(subscribers, p)
  }

  function Emptied(channels: map<ChannelId, Channel>, subscribers: map<Path, seq<ChannelId>>, topics: set<Path>)
    : map<ChannelId, Channel>
  {
    map id | id in channels ::
      if SubscribedIn(subscribers, topics, id) then channels[id].(deque := []) else channels[id]
  }

  /** `after` is `before` with the listed queues empty. */
  ghost predicate EmptiedList(before: map<ChannelId, Channel>, after: map<ChannelId, Channel>, ids: seq<ChannelId>) {
    && after.Keys == before.Keys
    && (forall id :: id in after ==> after[id] == if id in ids then before[id].(deque := []) else before[id])
  }

  lemma EmptiedNext(channels: map<ChannelId, Channel>, after: map<ChannelId, Channel>,
                    subscribers: map<Path, seq<ChannelId>>, topics: set<Path>, p: Path)
    requires EmptiedList(Emptied(channels, subscribers, topics), after, SubscribersOf(subscribers, p))
    ensures after == Emptied(channels, subscribers, topics + {p})
  {
    forall id ensures SubscribedIn(subscribers, topics + {p}, id)
      <==> SubscribedIn(subscribers, topics, id) || id in SubscribersOf(subscribers, p)
    {
      if id in SubscribersOf(subscribers, p) {
        assert p in topics + {p};
      }
    }
  }

  lemma EmptiedNone(channels: map<ChannelId, Channel>, subscribers: map<Path, seq<ChannelId>>)
    ensures Emptied(channels, subscribers, {}) == channels
  {
  }

  lemma EmptiedAll(s: State)
    ensures Emptied(s.channels, s.subscribers, s.subscribers.Keys) == Clear(s).channels
  {
    forall id ensures SubscribedIn(s.subscribers, s.subscribers.Keys, id) <==> Subscribed(s, id) {
      if SubscribedIn(s.subscribers, s.subscribers.Keys, id) {
        var p :| p in s.subscribers.Keys && id in SubscribersOf(s.subscribers, p);
        assert p in s.subscribers && id in s.subscribers[p];
      }
      if Subscribed(s, id) {
        var p :| p in s.subscribers && id in s.subscribers[p];
        assert p in s.subscribers.Keys && id in SubscribersOf(s.subscribers, p);
      }
    }
  }

  // ---- the dispatcher as an object

  class MessageDispatcher {
    var subscribers: map<Path, seq<ChannelId>>
    var channels: map<ChannelId, Channel>
    var nextId: ChannelId
    var localIndex: nat

    ghost function Value(): State
      reads this
    {
      State(subscribers, channels, nextId, localIndex)
    }

    constructor ()
      ensures Value() == NEW
    {
      subscribers, channels, nextId, localIndex := map[], map[], 0, 0;
    }

    method SubscribeTo(path: Path) returns (receiver: ChannelId)
      modifies this
      ensures receiver == old(nextId) && Value() == Subscribe(old(Value()), path)
    {
      receiver := nextId;
      channels := channels[receiver := Channel([], 1, 1)];
      nextId := nextId + 1;
      var entry := if path in subscribers then subscribers[path] else [];
      subscribers := subscribers[path := entry + [receiver]];
    }

    method DispatchMessage(message: Message) returns (count: nat)
      modifies this
      ensures Value() == Dispatch(old(Value()), message)
      ensures count == |Live(old(channels), SubscribersOf(old(subscribers), message.destination))|
    {
      var sn := localIndex;
      localIndex := localIndex + 1;
      if message.destination !in subscribers {
        return 0;
      }
      var receivers, kept := subscribers[message.destination], [];
      for i := 0 to |receivers|
        invariant (channels, kept) == SendAll(old(channels), receivers[..i], Item(sn, message))
        invariant subscribers == old(subscribers) && nextId == old(nextId) && localIndex == old(localIndex) + 1
      {
        assert receivers[..i + 1][..i] == receivers[..i];
        var id := receivers[i];
        if HasReceiver(channels, id) {
          channels := channels[id := channels[id].(deque := channels[id].deque + [Item(sn, message)])];
          kept := kept + [id];
        } else if id in channels {
          channels := channels[id := channels[id].(senders := channels[id].senders - 1)];
        }
      }
      assert receivers[..|receivers|] == receivers;
      subscribers := subscribers[message.destination := kept];
      count := |kept|;
      SendAllKeepsLive(old(channels), receivers, Item(sn, message));
    }

    method Select(receivers: seq<ChannelId>) returns (taken: Best, item: seq<Item>)
      modifies this
      ensures taken == Pick(Peeks(old(Value()), receivers))
      ensures taken.Nothing? ==> Value() == old(Value()) && item == []
      ensures taken.At? ==>
        && taken.place < |receivers|
        && Value() == TryNext(old(Value()), receivers[taken.place])
        && (PeekAt(old(Value()), receivers[taken.place]).Next? ==>
              item == [old(channels)[receivers[taken.place]].deque[0]])
    {
      ghost var peeks := Peeks(Value(), receivers);
      taken, item := Nothing, [];
      for i := 0 to |receivers|
        invariant taken == Pick(peeks[..i])
        invariant taken.At? ==> taken.place < i
      {
        assert peeks[..i + 1][..i] == peeks[..i];
        if receivers[i] in channels {
          var ch := channels[receivers[i]];
          if ch.deque != [] {
            if taken.Nothing? || ch.deque[0].sn < taken.sn {
              taken := At(i, ch.deque[0].sn);
            }
          } else if ch.senders == 0 {
            taken := At(i, 0);
          }
        }
      }
      assert peeks[..|receivers|] == peeks;
      if taken.At? {
        var id := receivers[taken.place];
        if id in channels && channels[id].deque != [] {
          item := [channels[id].deque[0]];
          channels := channels[id := channels[id].(deque := channels[id].deque[1..])];
        }
      }
    }

    method ResetIndex()
      modifies this
      ensures Value() == ResetLocalIndex(old(Value()))
    {
      localIndex := 0;
    }

    /** Also tells how many messages were dropped. */
    method ClearList(ids: seq<ChannelId>) returns (count: nat)
      modifies this`channels
      ensures count == Waiting(old(channels)) - Waiting(channels)
      ensures EmptiedList(old(channels), channels, ids)
    {
      count := 0;
      for i := 0 to |ids|
        invariant count == Waiting(old(channels)) - Waiting(channels)
        invariant EmptiedList(old(channels), channels, ids[..i])
      {
        assert ids[..i + 1] == ids[..i] + [ids[i]];
        if ids[i] in channels {
          WaitingEmptied(channels, ids[i], channels[ids[i]].(deque := []));
          count := count + |channels[ids[i]].deque|;
          channels := channels[ids[i] := channels[ids[i]].(deque := [])];
        }
      }
      assert ids[..|ids|] == ids;
    }

    method ClearAll() returns (count: nat)
      modifies this
      ensures Value() == Clear(old(Value()))
      ensures count == Waiting(old(channels)) - Waiting(channels)
    {
      count := 0;
      var todo := subscribers.Keys;
      ghost var done := {};
      EmptiedNone(channels, subscribers);
      while todo != {}
        modifies this`channels
        invariant todo + done == subscribers.Keys
        invariant count == Waiting(old(channels)) - Waiting(channels)
        invariant channels == Emptied(old(channels), subscribers, done)
        decreases |todo|
      {
        var p :| p in todo;
        var dropped := ClearList(subscribers[p]);
        EmptiedNext(old(channels), channels, subscribers, done, p);
        count := count + dropped;
        todo, done := todo - {p}, done + {p};
      }
      EmptiedAll(old(Value()));
    }
  }
}
