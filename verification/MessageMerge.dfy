/**
  A selection over its own receivers puts the block's messages back into the order of dispatch.

  The world is seen from one selection: `receivers` are its own, everything else that subscribers do
  happens to other channels.  `out` is what the selection has taken in this block, `block` what has
  been dispatched in it, and `since` when in the block a receiver was subscribed.
  */
module MessageMerge {
  import opened MqMessages
  import opened MessageDispatch

  datatype World = World(
    s: State,
    receivers: seq<ChannelId>,
    topic: map<ChannelId, Path>,
    since: map<ChannelId, nat>,
    out: seq<(ChannelId, Item)>,
    block: seq<Message>)

  const START := World(NEW, [], map[], map[], [], [])

  datatype Event =
    | NewReceiver(path: Path)
    | NewReceiverElsewhere(path: Path)
    | Dispatched(message: Message)
    | Selected
    | TakenElsewhere(id: ChannelId)
    | DroppedElsewhere(id: ChannelId)
    | NextBlock

  function Take(w: World): World {
    match Pick(Peeks(w.s, w.receivers))
    case Nothing => w
    case At(place, _) =>
      if place < |w.receivers| && PeekAt(w.s, w.receivers[place]).Next? then
        var id := w.receivers[place];
        w.(s := TryNext(w.s, id), out := w.out + [(id, w.s.channels[id].deque[0])])
      else w
  }

  function Drop(s: State, id: ChannelId): State {
    if id in s.channels then s.(channels := s.channels[id := s.channels[id].(receivers := s.channels[id].receivers - 1)])
    else s
  }

  function Step(w: World, e: Event): World {
    match e
    case NewReceiver(p) =>
      var id := w.s.nextId;
      w.(s := Subscribe(w.s, p), receivers := w.receivers + [id], topic := w.topic[id := p],
         since := w.since[id := |w.block|])
    case NewReceiverElsewhere(p) => w.(s := Subscribe(w.s, p))
    case Dispatched(m) => w.(s := Dispatch(w.s, m), block := w.block + [m])
    case Selected => Take(w)
    case TakenElsewhere(id) => w.(s := TryNext(w.s, id))
    case DroppedElsewhere(id) => w.(s := Drop(w.s, id))
    case NextBlock =>
      w.(s := ResetLocalIndex(Clear(w.s)), out := [], block := [], since := map id | id in w.since :: 0)
  }

  predicate Enabled(w: World, e: Event) {
    e.TakenElsewhere? || e.DroppedElsewhere? ==> e.id !in w.receivers
  }

  function Exec(w: World, events: seq<Event>): World
    decreases |events|
  {
    if events == [] then w else Exec(Step(w, events[0]), events[1..])
  }

  predicate Feasible(w: World, events: seq<Event>)
    decreases |events|
  {
    events == [] || (Enabled(w, events[0]) && Feasible(Step(w, events[0]), events[1..]))
  }

  /** The block's messages for a topic, from a place in the block on, stamped with their places. */
  function Items(block: seq<Message>, p: Path, from: nat): seq<Item> {
    if |block| <= from then []
    else
      var n := |block| - 1;
      if block[n].destination == p then Items(block[..n], p, from) + [Item(n, block[n])]
      else Items(block[..n], p, from)
  }

  /** What the selection took from one receiver. */
  function OutOf(out: seq<(ChannelId, Item)>, r: ChannelId): seq<Item> {
    if out == [] then []
    else
      var n := |out| - 1;
      if out[n].0 == r then OutOf(out[..n], r) + [out[n].1] else OutOf(out[..n], r)
  }

  // ---- what every step keeps

  ghost predicate NoRepeats(q: seq<nat>) {
    forall i, j :: 0 <= i < j < |q| ==> q[i] != q[j]
  }

  type Lists = map<Path, seq<ChannelId>>

  ghost predicate OnlyIn(lists: Lists, r: ChannelId, p: Path) {
    r in SubscribersOf(lists, p) && forall q :: q != p ==> r !in SubscribersOf(lists, q)
  }

  ghost predicate ListTidy(lists: Lists, p: Path, nextId: ChannelId) {
    NoRepeats(SubscribersOf(lists, p)) && forall id :: id in SubscribersOf(lists, p) ==> id < nextId
  }

  ghost predicate ListsTidy(lists: Lists, nextId: ChannelId) {
    forall p :: ListTidy(lists, p, nextId)
  }

  ghost predicate Allocated(channels: map<ChannelId, Channel>, nextId: ChannelId) {
    forall id :: id in channels ==> id < nextId
  }

  /** A receiver's own messages: what came out and what still waits is what was dispatched to it. */
  ghost predicate Conserved(w: World, r: ChannelId) {
    && r in w.s.channels && w.s.channels[r].receivers > 0 && w.s.channels[r].senders > 0
    && r in w.topic && r in w.since && w.since[r] <= |w.block|
    && OnlyIn(w.s.subscribers, r, w.topic[r])
    && OutOf(w.out, r) + w.s.channels[r].deque == Items(w.block, w.topic[r], w.since[r])
  }

  ghost predicate InOrder(out: seq<(ChannelId, Item)>) {
    forall i, j :: 0 <= i < j < |out| ==> out[i].1.sn <= out[j].1.sn
  }

  /** Nothing that still waits was dispatched before something that has come out. */
  ghost predicate Behind(w: World, r: ChannelId)
    requires r in w.s.channels
  {
    forall i, j :: 0 <= i < |w.out| && 0 <= j < |w.s.channels[r].deque| ==>
      w.out[i].1.sn <= w.s.channels[r].deque[j].sn
  }

  ghost predicate Inv(w: World) {
    && w.s.index == |w.block|
    && ListsTidy(w.s.subscribers, w.s.nextId) && Allocated(w.s.channels, w.s.nextId)
    && NoRepeats(w.receivers)
    && (forall r :: r in w.receivers ==> Conserved(w, r) && Behind(w, r))
    && InOrder(w.out)
    && (forall i :: 0 <= i < |w.out| ==> w.out[i].1.sn < |w.block|)
  }

  // ---- sequences of items

  ghost predicate Stamped(q: seq<Item>, bound: nat) {
    && (forall i :: 0 <= i < |q| ==> q[i].sn < bound)
    && (forall i, j :: 0 <= i < j < |q| ==> q[i].sn < q[j].sn)
  }

  lemma {:induction false} ItemsStamped(block: seq<Message>, p: Path, from: nat)
    ensures Stamped(Items(block, p, from), |block|)
  {
    if |block| > from {
      ItemsStamped(block[..|block| - 1], p, from);
    }
  }

  lemma ItemsAppend(block: seq<Message>, m: Message, p: Path, from: nat)
    requires from <= |block|
    ensures Items(block + [m], p, from)
         == if m.destination == p then Items(block, p, from) + [Item(|block|, m)] else Items(block, p, from)
  {
    assert (block + [m])[..|block|] == block;
  }

  lemma OutOfAppend(out: seq<(ChannelId, Item)>, e: (ChannelId, Item), r: ChannelId)
    ensures OutOf(out + [e], r) == if e.0 == r then OutOf(out, r) + [e.1] else OutOf(out, r)
  {
    assert (out + [e])[..|out|] == out;
  }

  lemma {:induction false} OutOfNone(out: seq<(ChannelId, Item)>, r: ChannelId)
    requires forall i :: 0 <= i < |out| ==> out[i].0 != r
    ensures OutOf(out, r) == []
  {
    if out != [] {
      OutOfNone(out[..|out| - 1], r);
    }
  }

  lemma StampedTail(a: seq<Item>, b: seq<Item>, bound: nat)
    requires Stamped(a + b, bound)
    ensures Stamped(b, bound)
  {
    forall j | 0 <= j < |b| ensures b[j] == (a + b)[|a| + j] {
    }
    forall i, j | 0 <= i < j < |b| ensures b[i].sn < b[j].sn {
      assert (a + b)[|a| + i].sn < (a + b)[|a| + j].sn;
    }
  }

  lemma WaitingOrdered(w: World, r: ChannelId)
    requires Conserved(w, r)
    ensures Stamped(w.s.channels[r].deque, |w.block|)
  {
    ItemsStamped(w.block, w.topic[r], w.since[r]);
    StampedTail(OutOf(w.out, r), w.s.channels[r].deque, |w.block|);
  }

  // ---- dispatching

  lemma {:induction false} SendAllEffect(channels: map<ChannelId, Channel>, ids: seq<ChannelId>, item: Item, r: ChannelId)
    requires r in channels && channels[r].receivers > 0 && NoRepeats(ids)
    ensures var (c, kept) := SendAll(channels, ids, item);
      && c.Keys == channels.Keys
      && c[r] == (if r in ids then channels[r].(deque := channels[r].deque + [item]) else channels[r])
      && (r in kept <==> r in ids)
  {
    if ids != [] {
      var n := |ids| - 1;
      SendAllEffect(channels, ids[..n], item, r);
      assert ids == ids[..n] + [ids[n]];
      assert ids[n] !in ids[..n];
    }
  }

  lemma {:induction false} SendAllKept(channels: map<ChannelId, Channel>, ids: seq<ChannelId>, item: Item)
    requires NoRepeats(ids)
    ensures var (c, kept) := SendAll(channels, ids, item);
      NoRepeats(kept) && (forall id :: id in kept ==> id in ids) && c.Keys == channels.Keys
  {
    if ids != [] {
      var n := |ids| - 1;
      SendAllKept(channels, ids[..n], item);
      assert ids[n] !in ids[..n];
    }
  }

  lemma DispatchTidy(s: State, m: Message)
    requires ListsTidy(s.subscribers, s.nextId)
    ensures ListsTidy(Dispatch(s, m).subscribers, s.nextId)
    ensures forall p, id :: id in SubscribersOf(Dispatch(s, m).subscribers, p) ==> id in SubscribersOf(s.subscribers, p)
    ensures Dispatch(s, m).channels.Keys == s.channels.Keys
  {
    var t := Dispatch(s, m);
    if m.destination in s.subscribers {
      assert ListTidy(s.subscribers, m.destination, s.nextId);
      SendAllKept(s.channels, s.subscribers[m.destination], Item(s.index, m));
      forall p ensures ListTidy(t.subscribers, p, s.nextId) {
        assert ListTidy(s.subscribers, p, s.nextId);
      }
    }
  }

  /** A dispatch reaches the receiver exactly when it subscribes to the topic. */
  lemma DispatchReaches(s: State, m: Message, r: ChannelId, p: Path)
    requires ListsTidy(s.subscribers, s.nextId) && OnlyIn(s.subscribers, r, p)
    requires r in s.channels && s.channels[r].receivers > 0
    ensures var t := Dispatch(s, m);
      && r in t.channels && OnlyIn(t.subscribers, r, p)
      && t.channels[r] == (if m.destination == p then s.channels[r].(deque := s.channels[r].deque + [Item(s.index, m)])
                           else s.channels[r])
  {
    assert ListTidy(s.subscribers, m.destination, s.nextId);
    DispatchTidy(s, m);
    assert r in SubscribersOf(s.subscribers, p);
    assert m.destination != p ==> r !in SubscribersOf(s.subscribers, m.destination);
    if m.destination in s.subscribers {
      SendAllEffect(s.channels, s.subscribers[m.destination], Item(s.index, m), r);
    }
  }

  lemma DispatchConserves(w: World, m: Message, r: ChannelId)
    requires ListsTidy(w.s.subscribers, w.s.nextId) && w.s.index == |w.block| && Conserved(w, r)
    ensures Conserved(Step(w, Dispatched(m)), r)
    ensures Step(w, Dispatched(m)).s.channels[r].deque
         == w.s.channels[r].deque + if m.destination == w.topic[r] then [Item(|w.block|, m)] else []
  {
    ItemsAppend(w.block, m, w.topic[r], w.since[r]);
    DispatchReaches(w.s, m, r, w.topic[r]);
  }

  lemma DispatchInv(w: World, m: Message)
    requires Inv(w)
    ensures Inv(Step(w, Dispatched(m)))
  {
    DispatchTidy(w.s, m);
    var w' := Step(w, Dispatched(m));
    forall r | r in w.receivers ensures Conserved(w', r) && Behind(w', r) {
      DispatchConserves(w, m, r);
    }
  }

  // ---- selecting

  /** The world after the head of a receiver's queue was taken. */
  function Taken(w: World, id: ChannelId): World
    requires id in w.s.channels && w.s.channels[id].deque != []
  {
    w.(s := TryNext(w.s, id), out := w.out + [(id, w.s.channels[id].deque[0])])
  }

  lemma MoveHead(out: seq<Item>, deque: seq<Item>)
    requires deque != []
    ensures (out + [deque[0]]) + deque[1..] == out + deque
  {
  }

  lemma TakeConservesOwn(w: World, r: ChannelId)
    requires Conserved(w, r) && w.s.channels[r].deque != []
    ensures Conserved(Taken(w, r), r)
  {
    var q := w.s.channels[r].deque;
    OutOfAppend(w.out, (r, q[0]), r);
    MoveHead(OutOf(w.out, r), q);
  }

  lemma TakeConservesOther(w: World, r: ChannelId, id: ChannelId)
    requires Conserved(w, r) && r != id && id in w.s.channels && w.s.channels[id].deque != []
    ensures Conserved(Taken(w, id), r)
  {
    OutOfAppend(w.out, (id, w.s.channels[id].deque[0]), r);
  }

  /** The head the selection takes is no later than anything that waits at its receivers. */
  lemma TakesEarliest(w: World, place: nat, sn: nat)
    requires Inv(w) && Pick(Peeks(w.s, w.receivers)) == At(place, sn)
    ensures place < |w.receivers| && PeekAt(w.s, w.receivers[place]) == Next(sn)
    ensures forall r, j :: r in w.receivers && 0 <= j < |w.s.channels[r].deque| ==> sn <= w.s.channels[r].deque[j].sn
  {
    var peeks := Peeks(w.s, w.receivers);
    forall i | 0 <= i < |peeks| ensures !peeks[i].Gone? {
      assert w.receivers[i] in w.receivers;
    }
    PickIsSmallest(peeks);
    forall r, j | r in w.receivers && 0 <= j < |w.s.channels[r].deque| ensures sn <= w.s.channels[r].deque[j].sn {
      var i :| 0 <= i < |w.receivers| && w.receivers[i] == r;
      assert peeks[i].Next?;
      WaitingOrdered(w, r);
    }
  }

  lemma TakeInv(w: World)
    requires Inv(w)
    ensures Inv(Take(w))
  {
    var best := Pick(Peeks(w.s, w.receivers));
    if best.At? {
      TakesEarliest(w, best.place, best.sn);
      var id := w.receivers[best.place];
      var w' := Take(w);
      WaitingOrdered(w, id);
      assert w' == Taken(w, id);
      forall r | r in w.receivers ensures Conserved(w', r) && Behind(w', r) {
        if r == id {
          TakeConservesOwn(w, r);
        } else {
          TakeConservesOther(w, r, id);
        }
      }
    }
  }

  // ---- everything else

  /** Everything taken came from a channel that exists. */
  ghost predicate Known(w: World) {
    && (forall i :: 0 <= i < |w.out| ==> w.out[i].0 < w.s.nextId)
    && (forall r :: r in w.receivers ==> r < w.s.nextId)
  }

  lemma SubscribeTidy(s: State, p: Path)
    requires ListsTidy(s.subscribers, s.nextId)
    ensures ListsTidy(Subscribe(s, p).subscribers, Subscribe(s, p).nextId)
  {
    var t := Subscribe(s, p);
    forall q ensures ListTidy(t.subscribers, q, t.nextId) {
      assert ListTidy(s.subscribers, q, s.nextId);
      var ids := SubscribersOf(s.subscribers, q);
      assert forall i :: 0 <= i < |ids| ==> ids[i] in ids;
    }
  }

  /** A channel's subscription is not disturbed by one of another channel. */
  lemma SubscribeOnlyIn(s: State, p: Path, r: ChannelId, q: Path)
    requires OnlyIn(s.subscribers, r, q) && r != s.nextId
    ensures OnlyIn(Subscribe(s, p).subscribers, r, q)
  {
    forall x | x != q ensures r !in SubscribersOf(Subscribe(s, p).subscribers, x) {
      assert r !in SubscribersOf(s.subscribers, x);
    }
    assert r in SubscribersOf(s.subscribers, q);
  }

  lemma SubscribeElsewhereInv(w: World, p: Path)
    requires Inv(w)
    ensures Inv(w.(s := Subscribe(w.s, p)))
  {
    SubscribeTidy(w.s, p);
    var w' := w.(s := Subscribe(w.s, p));
    forall r | r in w.receivers ensures Conserved(w', r) && Behind(w', r) {
      assert Conserved(w, r) && Behind(w, r);
      assert r < w.s.nextId;
      SubscribeOnlyIn(w.s, p, r, w.topic[r]);
    }
  }

  lemma SubscribedOnlyIn(s: State, p: Path)
    requires ListsTidy(s.subscribers, s.nextId)
    ensures OnlyIn(Subscribe(s, p).subscribers, s.nextId, p)
  {
    forall q | q != p ensures s.nextId !in SubscribersOf(Subscribe(s, p).subscribers, q) {
      assert ListTidy(s.subscribers, q, s.nextId);
    }
  }

  lemma SubscribeInv(w: World, p: Path)
    requires Inv(w) && Known(w)
    ensures Inv(Step(w, NewReceiver(p)))
  {
    SubscribeTidy(w.s, p);
    var w', id := Step(w, NewReceiver(p)), w.s.nextId;
    forall r | r in w.receivers ensures r != id && Conserved(w', r) && Behind(w', r) {
      assert Conserved(w, r) && Behind(w, r);
      SubscribeOnlyIn(w.s, p, r, w.topic[r]);
    }
    OutOfNone(w.out, id);
    SubscribedOnlyIn(w.s, p);
    assert Conserved(w', id);
    assert forall i :: 0 <= i < |w.receivers| ==> w.receivers[i] in w.receivers;
  }

  lemma ElsewhereInv(w: World, id: ChannelId, c: Channel)
    requires Inv(w) && id in w.s.channels && id !in w.receivers
    ensures Inv(w.(s := w.s.(channels := w.s.channels[id := c])))
  {
    var w' := w.(s := w.s.(channels := w.s.channels[id := c]));
    forall r | r in w.receivers ensures Conserved(w', r) && Behind(w', r) {
      assert Conserved(w, r) && Behind(w, r);
    }
  }

  lemma NextBlockInv(w: World)
    requires Inv(w)
    ensures Inv(Step(w, NextBlock))
  {
    var w' := Step(w, NextBlock);
    forall r | r in w.receivers ensures Conserved(w', r) && Behind(w', r) {
      assert Conserved(w, r);
      assert Subscribed(w.s, r);
    }
  }

  lemma StepInv(w: World, e: Event)
    requires Inv(w) && Known(w) && Enabled(w, e)
    ensures Inv(Step(w, e)) && Known(Step(w, e))
  {
    match e
    case NewReceiver(p) => SubscribeInv(w, p);
    case NewReceiverElsewhere(p) => SubscribeElsewhereInv(w, p);
    case Dispatched(m) => DispatchInv(w, m);
    case Selected => TakeInv(w);
    case TakenElsewhere(id) =>
      if id in w.s.channels && w.s.channels[id].deque != [] {
        ElsewhereInv(w, id, w.s.channels[id].(deque := w.s.channels[id].deque[1..]));
      }
    case DroppedElsewhere(id) =>
      if id in w.s.channels {
        ElsewhereInv(w, id, w.s.channels[id].(receivers := w.s.channels[id].receivers - 1));
      }
    case NextBlock => NextBlockInv(w);
  }

  lemma {:induction false} RunInv(w: World, events: seq<Event>)
    requires Inv(w) && Known(w) && Feasible(w, events)
    ensures Inv(Exec(w, events))
    decreases |events|
  {
    if events != [] {
      StepInv(w, events[0]);
      RunInv(Step(w, events[0]), events[1..]);
    }
  }

  /** In every run, the messages a selection has taken in the current block are in the order of their
      dispatch; what came out of a receiver and what waits in it are exactly the messages dispatched to
      its topic; and a selection that takes nothing has nothing left to take. */
  lemma MergeOrder(events: seq<Event>, r: ChannelId)
    requires Feasible(START, events) && r in Exec(START, events).receivers
    ensures var w := Exec(START, events);
      && InOrder(w.out)
      && Conserved(w, r)
      && (Take(w) == w ==> OutOf(w.out, r) == Items(w.block, w.topic[r], w.since[r]))
  {
    RunInv(START, events);
    var w := Exec(START, events);
    if Take(w) == w {
      TakesNothing(w, r);
    }
  }

  lemma TakesNothing(w: World, r: ChannelId)
    requires Inv(w) && Take(w) == w && r in w.receivers
    ensures w.s.channels[r].deque == []
  {
    var best, peeks := Pick(Peeks(w.s, w.receivers)), Peeks(w.s, w.receivers);
    if best.At? {
      TakesEarliest(w, best.place, best.sn);
      assert false;
    }
    forall i | 0 <= i < |peeks| ensures !peeks[i].Gone? {
      assert w.receivers[i] in w.receivers;
    }
    PickIsSmallest(peeks);
    var i :| 0 <= i < |w.receivers| && w.receivers[i] == r;
    assert peeks[i] == Empty;
  }
}
