/** The three indexes of the ledger always agree. */
module SidevmLedgerIndex {
  import opened SidevmLedger

  ghost predicate NoRepeats(q: seq<nat>) {
    forall i, j :: 0 <= i < j < |q| ==> q[i] != q[j]
  }

  /** How often a value occurs in a list. */
  function Times(q: seq<nat>, x: nat): nat {
    if q == [] then 0 else (if q[0] == x then 1 else 0) + Times(q[1..], x)
  }

  /** How often an instance calls for deadline x in the list of worker w. */
  function Copies(i: Instance, w: WorkerId, x: nat): nat {
    if i.deadline == x then Times(i.workers, w) else 0
  }

  function Due(q: seq<AccountId>, instances: map<AccountId, Instance>, w: WorkerId, x: nat): nat
    requires forall c :: c in q ==> c in instances
  {
    if q == [] then 0 else Copies(instances[q[0]], w, x) + Due(q[1..], instances, w, x)
  }

  function Held(d: map<WorkerId, seq<nat>>, w: WorkerId, x: nat): nat {
    Times(DeadlinesOf(d, w), x)
  }

  ghost predicate NoneEmpty(d: map<WorkerId, seq<nat>>) {
    forall w :: w in d ==> d[w] != []
  }

  /** Worker w's list has deadline x exactly as often as the instances that name it call for it. */
  ghost predicate Matches(q: seq<AccountId>, a: map<AccountId, Instance>, d: map<WorkerId, seq<nat>>,
                          w: WorkerId, x: nat)
  {
    (forall c :: c in q ==> c in a) && Held(d, w, x) == Due(q, a, w, x)
  }

  ghost predicate Rostered(q: seq<AccountId>, a: map<AccountId, Instance>) {
    NoRepeats(q) && forall c :: c in q <==> c in a
  }

  ghost predicate Indexed(q: seq<AccountId>, a: map<AccountId, Instance>, d: map<WorkerId, seq<nat>>) {
    && Rostered(q, a)
    && NoneEmpty(d)
    && (forall w, x :: Matches(q, a, d, w, x))
  }

  /** The running list is the set of instances without repeats, and each worker's list is, up to
      order, exactly the deadlines of the instances that name it. */
  ghost predicate Agree(s: State) {
    Indexed(s.running, s.instances, s.deadlines)
  }

  // ---- the lists of one worker

  lemma {:induction false} TimesIsMultiplicity(q: seq<nat>, x: nat)
    ensures Times(q, x) == multiset(q)[x]
  {
    if q != [] {
      assert q == [q[0]] + q[1..];
      TimesIsMultiplicity(q[1..], x);
    }
  }

  lemma {:induction false} TimesAppend(q: seq<nat>, y: nat, x: nat)
    ensures Times(q + [y], x) == Times(q, x) + if y == x then 1 else 0
  {
    if q == [] {
      assert q + [y] == [y];
      assert [y][1..] == [];
    } else {
      assert (q + [y])[1..] == q[1..] + [y];
      TimesAppend(q[1..], y, x);
    }
  }

  lemma {:induction false} RemoveFirstTimes(q: seq<nat>, y: nat, x: nat)
    ensures Times(RemoveFirst(q, y), x) == if y == x && Times(q, y) > 0 then Times(q, x) - 1 else Times(q, x)
  {
    if q != [] {
      RemoveFirstTimes(q[1..], y, x);
      if q[0] != y {
        assert RemoveFirst(q, y)[1..] == RemoveFirst(q[1..], y);
      }
    }
  }

  lemma UnlistedHeld(d: map<WorkerId, seq<nat>>, w: WorkerId, x: nat, v: WorkerId, y: nat)
    ensures Held(Unlisted(d, w, x), v, y)
         == if v == w && y == x && Held(d, w, x) > 0 then Held(d, v, y) - 1 else Held(d, v, y)
    ensures NoneEmpty(d) ==> NoneEmpty(Unlisted(d, w, x))
  {
    RemoveFirstTimes(DeadlinesOf(d, w), x, y);
  }

  lemma ListedHeld(d: map<WorkerId, seq<nat>>, w: WorkerId, x: nat, v: WorkerId, y: nat)
    ensures Held(Listed(d, w, x), v, y) == if v == w && y == x then Held(d, v, y) + 1 else Held(d, v, y)
    ensures NoneEmpty(d) ==> NoneEmpty(Listed(d, w, x))
  {
    TimesAppend(DeadlinesOf(d, w), x, y);
  }

  lemma RelistedIsListed(d: map<WorkerId, seq<nat>>, w: WorkerId, x: nat, next: nat)
    ensures Relisted(d, w, x, next) == Listed(Unlisted(d, w, x), w, next)
  {
    var rest := RemoveFirst(DeadlinesOf(d, w), x);
    if rest == [] {
      assert d[w := [next]] == (d - {w})[w := [next]];
    }
  }

  /** Every worker named has the deadline at least as often as it is named. */
  ghost predicate Covers(d: map<WorkerId, seq<nat>>, workers: seq<WorkerId>, x: nat) {
    forall w :: Times(workers, w) <= Held(d, w, x)
  }

  lemma CoversTail(d: map<WorkerId, seq<nat>>, workers: seq<WorkerId>, x: nat)
    requires Covers(d, workers, x) && workers != []
    ensures Held(d, workers[0], x) > 0
    ensures Covers(Unlisted(d, workers[0], x), workers[1..], x)
  {
    forall w ensures Times(workers[1..], w) <= Held(Unlisted(d, workers[0], x), w, x) {
      UnlistedHeld(d, workers[0], x, w, x);
      assert Times(workers, w) <= Held(d, w, x);
    }
    assert Times(workers, workers[0]) <= Held(d, workers[0], x);
  }

  lemma {:induction false} UnlistAllHeld(d: map<WorkerId, seq<nat>>, workers: seq<WorkerId>, x: nat,
                                         w: WorkerId, y: nat)
    requires Covers(d, workers, x) && NoneEmpty(d)
    ensures UnlistAll(d, workers, x).1 && NoneEmpty(UnlistAll(d, workers, x).0)
    ensures Held(UnlistAll(d, workers, x).0, w, y) == Held(d, w, y) - if y == x then Times(workers, w) else 0
    decreases |workers|
  {
    if workers != [] {
      CoversTail(d, workers, x);
      UnlistedHeld(d, workers[0], x, w, y);
      UnlistAllHeld(Unlisted(d, workers[0], x), workers[1..], x, w, y);
    }
  }

  lemma {:induction false} ListAllHeld(d: map<WorkerId, seq<nat>>, workers: seq<WorkerId>, x: nat,
                                       w: WorkerId, y: nat)
    requires NoneEmpty(d)
    ensures NoneEmpty(ListAll(d, workers, x))
    ensures Held(ListAll(d, workers, x), w, y) == Held(d, w, y) + if y == x then Times(workers, w) else 0
    decreases |workers|
  {
    if workers != [] {
      ListedHeld(d, workers[0], x, w, y);
      ListAllHeld(Listed(d, workers[0], x), workers[1..], x, w, y);
    }
  }

  lemma {:induction false} TimesMember(q: seq<nat>, x: nat)
    ensures Times(q, x) > 0 <==> x in q
  {
    if q != [] {
      TimesMember(q[1..], x);
    }
  }

  lemma RelistCovers(d: map<WorkerId, seq<nat>>, workers: seq<WorkerId>, x: nat, next: nat)
    requires Covers(d, workers, x) && workers != [] && x != next
    ensures x in DeadlinesOf(d, workers[0])
    ensures Covers(Relisted(d, workers[0], x, next), workers[1..], x)
  {
    CoversTail(d, workers, x);
    TimesMember(DeadlinesOf(d, workers[0]), x);
    forall w ensures Times(workers[1..], w) <= Held(Relisted(d, workers[0], x, next), w, x) {
      RelistedIsListed(d, workers[0], x, next);
      ListedHeld(Unlisted(d, workers[0], x), workers[0], next, w, x);
      assert Times(workers[1..], w) <= Held(Unlisted(d, workers[0], x), w, x);
    }
  }

  lemma {:induction false} RelistAllHeld(d: map<WorkerId, seq<nat>>, workers: seq<WorkerId>, x: nat, next: nat,
                                         w: WorkerId, y: nat)
    requires Covers(d, workers, x) && NoneEmpty(d) && x != next
    ensures RelistAll(d, workers, x, next).1 && NoneEmpty(RelistAll(d, workers, x, next).0)
    ensures Held(RelistAll(d, workers, x, next).0, w, y)
         == Held(d, w, y) + (if y == next then Times(workers, w) else 0) - (if y == x then Times(workers, w) else 0)
    decreases |workers|
  {
    if workers != [] {
      CoversTail(d, workers, x);
      RelistCovers(d, workers, x, next);
      RelistedIsListed(d, workers[0], x, next);
      UnlistedHeld(d, workers[0], x, w, y);
      ListedHeld(Unlisted(d, workers[0], x), workers[0], next, w, y);
      RelistAllHeld(Relisted(d, workers[0], x, next), workers[1..], x, next, w, y);
    }
  }

  // ---- sums over the running list

  lemma {:induction false} WithoutMembers(q: seq<AccountId>, c: AccountId)
    ensures forall x :: x in Without(q, c) <==> x in q && x != c
    ensures NoRepeats(q) ==> NoRepeats(Without(q, c))
    ensures c !in q ==> Without(q, c) == q
  {
    if q != [] {
      WithoutMembers(q[1..], c);
      assert q == [q[0]] + q[1..];
      if NoRepeats(q) && q[0] != c {
        assert q[0] !in q[1..];
        assert q[0] !in Without(q[1..], c);
      }
    }
  }

  /** Only the instances of the contracts in the list matter. */
  lemma {:induction false} DueSame(q: seq<AccountId>, a: map<AccountId, Instance>, b: map<AccountId, Instance>,
                                   w: WorkerId, x: nat)
    requires forall c :: c in q ==> c in a && c in b && a[c] == b[c]
    ensures Due(q, a, w, x) == Due(q, b, w, x)
  {
    if q != [] {
      DueSame(q[1..], a, b, w, x);
    }
  }

  lemma {:induction false} DueWithout(q: seq<AccountId>, a: map<AccountId, Instance>, c: AccountId,
                                      w: WorkerId, x: nat)
    requires (forall k :: k in q ==> k in a) && NoRepeats(q) && c in q
    ensures forall k :: k in Without(q, c) ==> k in a
    ensures Due(q, a, w, x) == Copies(a[c], w, x) + Due(Without(q, c), a, w, x)
  {
    WithoutMembers(q, c);
    assert q == [q[0]] + q[1..];
    if q[0] == c {
      assert c !in q[1..];
      WithoutMembers(q[1..], c);
    } else {
      DueWithout(q[1..], a, c, w, x);
      assert Without(q, c)[1..] == Without(q[1..], c);
    }
  }

  lemma {:induction false} DueAppend(q: seq<AccountId>, a: map<AccountId, Instance>, c: AccountId, w: WorkerId, x: nat)
    requires (forall k :: k in q ==> k in a) && c in a
    ensures Due(q + [c], a, w, x) == Due(q, a, w, x) + Copies(a[c], w, x)
  {
    if q == [] {
      assert q + [c] == [c];
      assert [c][1..] == [];
    } else {
      assert (q + [c])[1..] == q[1..] + [c];
      DueAppend(q[1..], a, c, w, x);
    }
  }

  // ---- the operations

  lemma NewAgrees(vmPrice: nat, memPrice: nat, limit: nat, balance: nat, now: nat)
    ensures Agree(New(vmPrice, memPrice, limit, balance, now))
  {
  }

  lemma DueCovers(s: State, c: AccountId)
    requires Agree(s) && c in s.instances
    ensures Covers(s.deadlines, s.instances[c].workers, s.instances[c].deadline)
  {
    var i := s.instances[c];
    forall w ensures Times(i.workers, w) <= Held(s.deadlines, w, i.deadline) {
      assert Matches(s.running, s.instances, s.deadlines, w, i.deadline);
      DueWithout(s.running, s.instances, c, w, i.deadline);
    }
  }

  /** Clearing a contract always succeeds when it has instances, and removes exactly it. */
  lemma ClearAgrees(s: State, c: AccountId)
    requires Agree(s)
    ensures Agree(Clear(s, c).0) && Clear(s, c).1 == (c in s.instances)
    ensures Clear(s, c).0.instances == s.instances - {c}
  {
    var t := Clear(s, c).0;
    WithoutMembers(s.running, c);
    if c in s.instances {
      var i := s.instances[c];
      DueCovers(s, c);
      UnlistAllHeld(s.deadlines, i.workers, i.deadline, 0, 0);
      forall w, x ensures Matches(t.running, t.instances, t.deadlines, w, x) {
        assert Matches(s.running, s.instances, s.deadlines, w, x);
        UnlistAllHeld(s.deadlines, i.workers, i.deadline, w, x);
        DueWithout(s.running, s.instances, c, w, x);
        DueSame(t.running, s.instances, t.instances, w, x);
      }
    } else {
      assert s.instances - {c} == s.instances;
      assert t == s;
    }
  }

  lemma EnterAgrees(s: State, c: AccountId, i: Instance)
    requires Agree(s) && c !in s.instances
    ensures Agree(Enter(s, c, i))
  {
    var t := Enter(s, c, i);
    ListAllHeld(s.deadlines, i.workers, i.deadline, 0, 0);
    forall w, x ensures Matches(t.running, t.instances, t.deadlines, w, x) {
      assert Matches(s.running, s.instances, s.deadlines, w, x);
      ListAllHeld(s.deadlines, i.workers, i.deadline, w, x);
      DueSame(s.running, s.instances, t.instances, w, x);
      DueAppend(s.running, t.instances, c, w, x);
    }
  }

  lemma RelistAgrees(s: State, c: AccountId, deadline: nat)
    requires Agree(s) && c in s.instances && s.instances[c].deadline != deadline
    ensures var i := s.instances[c];
      var r := RelistAll(s.deadlines, i.workers, i.deadline, deadline);
      r.1 && Agree(s.(deadlines := r.0, instances := s.instances[c := i.(deadline := deadline)]))
  {
    var i := s.instances[c];
    var d := RelistAll(s.deadlines, i.workers, i.deadline, deadline).0;
    DueCovers(s, c);
    RelistAllHeld(s.deadlines, i.workers, i.deadline, deadline, 0, 0);
    var t := s.(deadlines := d, instances := s.instances[c := i.(deadline := deadline)]);
    WithoutMembers(s.running, c);
    forall w, x ensures Matches(t.running, t.instances, t.deadlines, w, x) {
      assert Matches(s.running, s.instances, s.deadlines, w, x);
      RelistAllHeld(s.deadlines, i.workers, i.deadline, deadline, w, x);
      DueWithout(s.running, s.instances, c, w, x);
      DueWithout(s.running, t.instances, c, w, x);
      DueSame(Without(s.running, c), s.instances, t.instances, w, x);
    }
  }

  // ---- recycling

  lemma {:induction false} ExpiredMembers(s: State, q: seq<AccountId>)
    ensures forall c :: c in Expired(s, q) <==> c in q && c in s.instances && s.instances[c].deadline < s.now
    ensures NoRepeats(q) ==> NoRepeats(Expired(s, q))
  {
    if q != [] {
      ExpiredMembers(s, q[1..]);
      assert q == [q[0]] + q[1..];
      assert NoRepeats(q) ==> NoRepeats(q[1..]) && q[0] !in q[1..];
    }
  }

  lemma MinusFirst(m: map<AccountId, Instance>, cs: seq<AccountId>)
    requires cs != []
    ensures (m - {cs[0]}) - (set c | c in cs[1..]) == m - (set c | c in cs)
  {
    assert cs == [cs[0]] + cs[1..];
  }

  lemma NoRepeatsTail(cs: seq<AccountId>)
    requires cs != [] && NoRepeats(cs)
    ensures NoRepeats(cs[1..]) && forall c :: c in cs[1..] ==> c in cs && c != cs[0]
  {
  }

  lemma {:induction false} ClearEachAgrees(s: State, cs: seq<AccountId>)
    requires Agree(s) && NoRepeats(cs) && forall c :: c in cs ==> c in s.instances
    ensures var (t, ok) := ClearEach(s, cs);
      && ok && Agree(t)
      && t.instances == s.instances - (set c | c in cs)
      && t == s.(running := t.running, instances := t.instances, deadlines := t.deadlines)
    decreases |cs|
  {
    if cs == [] {
      assert s.instances - (set c | c in cs) == s.instances;
    } else {
      ClearAgrees(s, cs[0]);
      NoRepeatsTail(cs);
      ClearEachAgrees(Clear(s, cs[0]).0, cs[1..]);
      MinusFirst(s.instances, cs);
    }
  }

  /** Recycling never panics and removes exactly the expired instances. */
  lemma RecycleAgrees(s: State)
    requires Agree(s)
    ensures var (t, ok) := Recycle(s);
      && ok && Agree(t)
      && t.instances == (map c | c in s.instances && s.instances[c].deadline >= s.now :: s.instances[c])
      && t == s.(running := t.running, instances := t.instances, deadlines := t.deadlines)
  {
    ExpiredMembers(s, s.running);
    ClearEachAgrees(s, Expired(s, s.running));
  }

  lemma AddDeployInfoAgrees(s: State, c: AccountId, i: Instance)
    requires Agree(s)
    ensures AddDeployInfo(s, c, i) != Err(RecyclePanic)
    ensures AddDeployInfo(s, c, i).Ok? ==> Agree(AddDeployInfo(s, c, i).state)
  {
    RecycleAgrees(s);
    var t := Recycle(s).0;
    ClearAgrees(t, c);
    var u := Clear(t, c).0;
    EnterAgrees(u, c, i);
  }

  lemma DeployAgrees(s: State, c: AccountId, available: nat, i: Instance, required: nat)
    requires Agree(s)
    ensures DeployWith(s, c, available, i, required) != Err(RecyclePanic)
    ensures DeployWith(s, c, available, i, required) != Err(NoDeadline)
    ensures DeployWith(s, c, available, i, required).Ok? ==> Agree(DeployWith(s, c, available, i, required).state)
  {
    if required <= available && Pay(s, available - required).Ok? {
      AddDeployInfoAgrees(Pay(s, available - required).state, c, i);
    }
  }

  lemma SettleAgrees(s: State, c: AccountId, refund: nat, deadline: nat, system: bool)
    requires Agree(s) && c in s.instances && s.instances[c].deadline != deadline
    ensures Settle(s, c, refund, deadline, system) != Err(NoDeadline)
    ensures Settle(s, c, refund, deadline, system) != Err(RecyclePanic)
    ensures Settle(s, c, refund, deadline, system).Ok? ==> Agree(Settle(s, c, refund, deadline, system).state)
  {
    if Pay(s, refund).Ok? {
      var t := Pay(s, refund).state;
      assert Agree(t);
      ClearAgrees(t, c);
      RelistAgrees(t, c, deadline);
    }
  }

  lemma MoveAgrees(s: State, c: AccountId, paid: nat, deadline: nat, system: bool)
    requires Agree(s) && c in s.instances && s.instances[c].deadline != deadline
    ensures Move(s, c, paid, deadline, system) != Err(NoDeadline)
    ensures Move(s, c, paid, deadline, system) != Err(RecyclePanic)
    ensures Move(s, c, paid, deadline, system).Ok? ==> Agree(Move(s, c, paid, deadline, system).state)
  {
    var i := s.instances[c];
    if deadline > i.deadline {
      var cost := i.price * (deadline - i.deadline);
      if paid >= cost {
        SettleAgrees(s, c, paid - cost, deadline, system);
      }
    } else {
      SettleAgrees(s, c, paid + i.price * (i.deadline - deadline), deadline, system);
    }
  }

  lemma DeployAtAgrees(s: State, c: AccountId, paid: nat, workers: seq<WorkerId>, price: Price, ttl: nat)
    requires Agree(s)
    ensures DeployAt(s, c, paid, workers, price, ttl) != Err(RecyclePanic)
    ensures DeployAt(s, c, paid, workers, price, ttl) != Err(NoDeadline)
    ensures DeployAt(s, c, paid, workers, price, ttl).Ok? ==> Agree(DeployAt(s, c, paid, workers, price, ttl).state)
  {
    if price.PerBlock? {
      var t := s.(balance := s.balance + paid);
      DeployAgrees(t, c, Min(paid + RemainingValue(t, c), U128_MAX),
                   Instance(workers, Min(s.now + ttl, U32_MAX), price.value), price.value * ttl);
    }
  }

  /** The call neither finds an entry missing nor leaves the indexes in disagreement. */
  ghost predicate Sound(o: Outcome) {
    o != Err(RecyclePanic) && o != Err(NoDeadline) && (o.Ok? ==> Agree(o.state))
  }

  lemma DeployCallAgrees(s: State, c: AccountId, paid: nat, r: Request, inTx: bool, system: bool)
    requires Agree(s)
    ensures Sound(Deploy(s, c, paid, r, inTx, system))
  {
    var workers := Dedup(r.workers);
    DeployAtAgrees(s, c, paid, workers, PriceFor(s, r, |workers|), r.ttl);
  }

  lemma UpdateCallAgrees(s: State, c: AccountId, paid: nat, deadline: nat, inTx: bool, system: bool)
    requires Agree(s)
    ensures Sound(UpdateDeadline(s, c, paid, deadline, inTx, system))
  {
    var t := s.(balance := s.balance + paid);
    var target := if deadline < s.now then s.now else deadline;
    if c in s.instances && target != s.instances[c].deadline {
      MoveAgrees(t, c, paid, target, system);
    }
  }

  lemma StepAgrees(s: State, e: Event)
    requires Agree(s)
    ensures Agree(Step(s, e))
    ensures Call(s, e) != Err(RecyclePanic) && Call(s, e) != Err(NoDeadline)
  {
    match e
    case Deployed(c, paid, r, inTx, system) => DeployCallAgrees(s, c, paid, r, inTx, system);
    case DeadlineUpdated(c, paid, deadline, inTx, system) => UpdateCallAgrees(s, c, paid, deadline, inTx, system);
    case _ =>
  }

  lemma {:induction false} RunAgrees(s: State, events: seq<Event>)
    requires Agree(s)
    ensures Agree(Exec(s, events))
    decreases |events|
  {
    if events != [] {
      StepAgrees(s, events[0]);
      RunAgrees(Step(s, events[0]), events[1..]);
    }
  }

  /** In every run of a new ledger the three indexes agree and no call ends in a missing entry. */
  lemma NewRunAgrees(vmPrice: nat, memPrice: nat, limit: nat, balance: nat, now: nat, events: seq<Event>, last: Event)
    ensures var s := Exec(New(vmPrice, memPrice, limit, balance, now), events);
      Agree(s) && Call(s, last) != Err(RecyclePanic) && Call(s, last) != Err(NoDeadline)
  {
    NewAgrees(vmPrice, memPrice, limit, balance, now);
    RunAgrees(New(vmPrice, memPrice, limit, balance, now), events);
    StepAgrees(Exec(New(vmPrice, memPrice, limit, balance, now), events), last);
  }

  /** Every lookup that `info` expects to succeed does. */
  lemma LookupsSucceed(s: State, c: AccountId, w: WorkerId)
    requires Agree(s) && c in s.running
    ensures c in s.instances
    ensures w in s.instances[c].workers ==> w in s.deadlines && s.instances[c].deadline in s.deadlines[w]
  {
    DueCovers(s, c);
    var i := s.instances[c];
    assert Times(i.workers, w) <= Held(s.deadlines, w, i.deadline);
    TimesMember(i.workers, w);
    TimesMember(DeadlinesOf(s.deadlines, w), i.deadline);
  }
}
