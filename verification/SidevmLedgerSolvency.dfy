/** The contract always owns at least what it owes its customers. */
module SidevmLedgerSolvency {
  import opened SidevmLedger
  import opened SidevmLedgerIndex

  /** What a number of blocks costs, block by block. */
  function Value(price: nat, blocks: nat): nat {
    if blocks == 0 then 0 else price + Value(price, blocks - 1)
  }

  /** The value of the time an instance has left. */
  function Owed(i: Instance, now: nat): nat {
    Value(i.price, SaturatingSub(i.deadline, now))
  }

  function OwedAll(q: seq<AccountId>, a: map<AccountId, Instance>, now: nat): nat
    requires forall c :: c in q ==> c in a
  {
    if q == [] then 0 else Owed(a[q[0]], now) + OwedAll(q[1..], a, now)
  }

  /** The contract owns what it owes and `surplus` on top. */
  ghost predicate SolventBy(s: State, surplus: nat) {
    && Agree(s)
    && s.now <= U32_MAX
    && OwedAll(s.running, s.instances, s.now) + surplus <= s.balance
  }

  ghost predicate Solvent(s: State) {
    SolventBy(s, 0)
  }

  // ---- the sum

  lemma {:induction false} ValueIsProduct(price: nat, blocks: nat)
    ensures Value(price, blocks) == price * blocks
  {
    if blocks > 0 {
      ValueIsProduct(price, blocks - 1);
      assert price * blocks == price * (blocks - 1) + price;
    }
  }

  lemma {:induction false} ValueSum(price: nat, a: nat, b: nat)
    ensures Value(price, a + b) == Value(price, a) + Value(price, b)
  {
    if b > 0 {
      ValueSum(price, a, b - 1);
    }
  }

  lemma ValueMonotone(price: nat, a: nat, b: nat)
    requires a <= b
    ensures Value(price, a) <= Value(price, b)
  {
    ValueSum(price, a, b - a);
  }

  lemma {:induction false} OwedSame(q: seq<AccountId>, a: map<AccountId, Instance>, b: map<AccountId, Instance>, now: nat)
    requires forall c :: c in q ==> c in a && c in b && a[c] == b[c]
    ensures OwedAll(q, a, now) == OwedAll(q, b, now)
  {
    if q != [] {
      OwedSame(q[1..], a, b, now);
    }
  }

  lemma {:induction false} OwedWithout(q: seq<AccountId>, a: map<AccountId, Instance>, c: AccountId, now: nat)
    requires (forall k :: k in q ==> k in a) && NoRepeats(q) && c in q
    ensures forall k :: k in Without(q, c) ==> k in a
    ensures OwedAll(q, a, now) == Owed(a[c], now) + OwedAll(Without(q, c), a, now)
  {
    WithoutMembers(q, c);
    assert q == [q[0]] + q[1..];
    if q[0] == c {
      assert c !in q[1..];
      WithoutMembers(q[1..], c);
    } else {
      OwedWithout(q[1..], a, c, now);
      assert Without(q, c)[1..] == Without(q[1..], c);
    }
  }

  lemma {:induction false} OwedAppend(q: seq<AccountId>, a: map<AccountId, Instance>, c: AccountId, now: nat)
    requires (forall k :: k in q ==> k in a) && c in a
    ensures OwedAll(q + [c], a, now) == OwedAll(q, a, now) + Owed(a[c], now)
  {
    if q == [] {
      assert q + [c] == [c];
      assert [c][1..] == [];
    } else {
      assert (q + [c])[1..] == q[1..] + [c];
      OwedAppend(q[1..], a, c, now);
    }
  }

  lemma {:induction false} OwedLater(q: seq<AccountId>, a: map<AccountId, Instance>, now: nat)
    requires forall c :: c in q ==> c in a
    ensures OwedAll(q, a, now + 1) <= OwedAll(q, a, now)
  {
    if q != [] {
      var i := a[q[0]];
      ValueMonotone(i.price, SaturatingSub(i.deadline, now + 1), SaturatingSub(i.deadline, now));
      OwedLater(q[1..], a, now);
    }
  }

  // ---- the operations

  lemma ClearOwed(s: State, c: AccountId)
    requires Rostered(s.running, s.instances)
    ensures var t := Clear(s, c).0;
      && Rostered(t.running, t.instances)
      && t.instances == s.instances - {c}
      && OwedAll(t.running, t.instances, s.now)
           == OwedAll(s.running, s.instances, s.now) - if c in s.instances then Owed(s.instances[c], s.now) else 0
  {
    var t := Clear(s, c).0;
    WithoutMembers(s.running, c);
    if c in s.instances {
      OwedWithout(s.running, s.instances, c, s.now);
    } else {
      assert s.instances - {c} == s.instances;
    }
    OwedSame(t.running, s.instances, t.instances, s.now);
  }

  lemma {:induction false} ClearEachOwed(s: State, cs: seq<AccountId>)
    requires Rostered(s.running, s.instances) && NoRepeats(cs) && ClearEach(s, cs).1
    requires forall c :: c in cs ==> c in s.instances && s.instances[c].deadline <= s.now
    ensures var t := ClearEach(s, cs).0;
      && Rostered(t.running, t.instances)
      && OwedAll(t.running, t.instances, s.now) == OwedAll(s.running, s.instances, s.now)
    decreases |cs|
  {
    if cs != [] {
      ClearOwed(s, cs[0]);
      assert cs == [cs[0]] + cs[1..];
      assert cs[0] !in cs[1..];
      assert SaturatingSub(s.instances[cs[0]].deadline, s.now) == 0;
      var t := Clear(s, cs[0]).0;
      forall c | c in cs[1..] ensures c in t.instances && t.instances[c] == s.instances[c] {
        assert c in cs && c != cs[0];
      }
      ClearEachOwed(t, cs[1..]);
    }
  }

  /** Recycling removes nothing that is owed. */
  lemma RecycleOwed(s: State)
    requires Agree(s)
    ensures var t := Recycle(s).0;
      && Agree(t) && Recycle(s).1 && t.now == s.now && t.balance == s.balance
      && OwedAll(t.running, t.instances, s.now) == OwedAll(s.running, s.instances, s.now)
      && (forall c :: c in t.instances ==> c in s.instances && t.instances[c] == s.instances[c])
      && (forall c :: c in s.instances && c !in t.instances ==> Owed(s.instances[c], s.now) == 0)
  {
    RecycleAgrees(s);
    ExpiredMembers(s, s.running);
    ClearEachOwed(s, Expired(s, s.running));
    forall c | c in s.instances && c !in Recycle(s).0.instances ensures Owed(s.instances[c], s.now) == 0 {
      assert SaturatingSub(s.instances[c].deadline, s.now) == 0;
    }
  }

  /** Entering a deployment changes what is owed by the new instance and by the caller's old one. */
  lemma AddDeployInfoOwed(s: State, c: AccountId, i: Instance)
    requires Agree(s) && AddDeployInfo(s, c, i).Ok?
    ensures var t := AddDeployInfo(s, c, i).state;
      && Agree(t) && t.balance == s.balance && t.now == s.now
      && OwedAll(t.running, t.instances, s.now)
           == OwedAll(s.running, s.instances, s.now) + Owed(i, s.now)
              - if c in s.instances then Owed(s.instances[c], s.now) else 0
  {
    AddDeployInfoAgrees(s, c, i);
    RecycleOwed(s);
    var t := Recycle(s).0;
    ClearOwed(t, c);
    EnterOwed(Clear(t, c).0, c, i);
  }

  lemma EnterOwed(s: State, c: AccountId, i: Instance)
    requires Rostered(s.running, s.instances) && c !in s.instances
    ensures var t := Enter(s, c, i);
      && (forall k :: k in t.running ==> k in t.instances)
      && OwedAll(t.running, t.instances, s.now) == OwedAll(s.running, s.instances, s.now) + Owed(i, s.now)
  {
    var t := Enter(s, c, i);
    OwedSame(s.running, s.instances, t.instances, s.now);
    OwedAppend(s.running, t.instances, c, s.now);
  }

  /** A redeployment is credited at most what the old instance is owed. */
  lemma CreditAtMostOwed(s: State, c: AccountId)
    requires s.now <= U32_MAX && c in s.instances
    ensures RemainingValue(s, c) <= Owed(s.instances[c], s.now)
  {
    var i := s.instances[c];
    var current := Min(s.now + 1, U32_MAX);
    if i.deadline > current {
      ValueIsProduct(i.price, i.deadline - current);
      ValueMonotone(i.price, i.deadline - current, SaturatingSub(i.deadline, s.now));
    }
  }

  lemma OwedPart(s: State, c: AccountId)
    requires Agree(s) && c in s.instances
    ensures Owed(s.instances[c], s.now) <= OwedAll(s.running, s.instances, s.now)
  {
    OwedWithout(s.running, s.instances, c, s.now);
  }

  lemma CreditCovered(s: State, c: AccountId)
    requires Agree(s) && s.now <= U32_MAX
    ensures RemainingValue(s, c) <= if c in s.instances then Owed(s.instances[c], s.now) else 0
    ensures RemainingValue(s, c) <= OwedAll(s.running, s.instances, s.now)
  {
    if c in s.instances {
      CreditAtMostOwed(s, c);
      OwedPart(s, c);
    }
  }

  lemma EnteredSolvent(s: State, c: AccountId, i: Instance, credit: nat, surplus: nat)
    requires Agree(s) && s.now <= U32_MAX && AddDeployInfo(s, c, i).Ok?
    requires credit <= if c in s.instances then Owed(s.instances[c], s.now) else 0
    requires OwedAll(s.running, s.instances, s.now) - credit + Owed(i, s.now) + surplus <= s.balance
    ensures SolventBy(AddDeployInfo(s, c, i).state, surplus)
  {
    AddDeployInfoOwed(s, c, i);
  }

  lemma DeploySolvent(s: State, c: AccountId, paid: nat, credit: nat, available: nat, i: Instance, required: nat, surplus: nat)
    requires Agree(s) && s.now <= U32_MAX
    requires OwedAll(s.running, s.instances, s.now) + paid + surplus <= s.balance
    requires credit <= if c in s.instances then Owed(s.instances[c], s.now) else 0
    requires credit <= OwedAll(s.running, s.instances, s.now)
    requires available <= paid + credit && Owed(i, s.now) <= required
    ensures DeployWith(s, c, available, i, required) != Err(RefundPanic)
    ensures DeployWith(s, c, available, i, required).Ok? ==> SolventBy(DeployWith(s, c, available, i, required).state, surplus)
  {
    if required <= available {
      var t := s.(balance := s.balance - (available - required));
      assert Pay(s, available - required) == Ok(t);
      AddDeployInfoAgrees(t, c, i);
      if AddDeployInfo(t, c, i).Ok? {
        EnteredSolvent(t, c, i, credit, surplus);
      }
    }
  }

  lemma RelistOwed(s: State, c: AccountId, deadline: nat)
    requires Agree(s) && c in s.instances
    ensures var i := s.instances[c];
      var a := s.instances[c := i.(deadline := deadline)];
      OwedAll(s.running, a, s.now)
        == OwedAll(s.running, s.instances, s.now) - Owed(i, s.now) + Owed(i.(deadline := deadline), s.now)
  {
    var a := s.instances[c := s.instances[c].(deadline := deadline)];
    WithoutMembers(s.running, c);
    OwedWithout(s.running, s.instances, c, s.now);
    OwedWithout(s.running, a, c, s.now);
    OwedSame(Without(s.running, c), s.instances, a, s.now);
  }

  lemma SettleSolvent(s: State, c: AccountId, refund: nat, deadline: nat, system: bool, surplus: nat)
    requires Agree(s) && s.now <= U32_MAX && c in s.instances
    requires s.now <= deadline && deadline != s.instances[c].deadline
    requires OwedAll(s.running, s.instances, s.now) - Owed(s.instances[c], s.now)
               + Owed(s.instances[c].(deadline := deadline), s.now) + refund + surplus <= s.balance
    ensures Settle(s, c, refund, deadline, system) != Err(RefundPanic)
    ensures Settle(s, c, refund, deadline, system).Ok? ==> SolventBy(Settle(s, c, refund, deadline, system).state, surplus)
  {
    OwedPart(s, c);
    assert Pay(s, refund).Ok?;
    var t := Pay(s, refund).state;
    SettleAgrees(s, c, refund, deadline, system);
    if deadline == s.now {
      ClearOwed(t, c);
    } else {
      RelistOwed(t, c, deadline);
    }
  }

  /** Moving a deadline that lies ahead changes what is owed by the price of the blocks in between. */
  lemma OwedDifference(i: Instance, deadline: nat, now: nat)
    requires now <= deadline
    ensures i.deadline < deadline ==>
      Owed(i.(deadline := deadline), now) <= Owed(i, now) + i.price * (deadline - i.deadline)
    ensures deadline < i.deadline ==>
      Owed(i.(deadline := deadline), now) + i.price * (i.deadline - deadline) == Owed(i, now)
  {
    var left, later := SaturatingSub(i.deadline, now), deadline - now;
    if i.deadline < deadline {
      ValueIsProduct(i.price, deadline - i.deadline);
      ValueSum(i.price, left, deadline - i.deadline);
      ValueMonotone(i.price, later, left + (deadline - i.deadline));
    } else if deadline < i.deadline {
      ValueIsProduct(i.price, i.deadline - deadline);
      ValueSum(i.price, later, i.deadline - deadline);
      assert left == later + (i.deadline - deadline);
    }
  }

  lemma MoveLaterSolvent(s: State, c: AccountId, paid: nat, deadline: nat, system: bool, cost: nat, surplus: nat)
    requires Agree(s) && s.now <= U32_MAX && c in s.instances
    requires s.now <= deadline && s.instances[c].deadline < deadline
    requires cost == s.instances[c].price * (deadline - s.instances[c].deadline)
    requires OwedAll(s.running, s.instances, s.now) + paid + surplus <= s.balance
    ensures var o := Move(s, c, paid, deadline, system); o != Err(RefundPanic) && (o.Ok? ==> SolventBy(o.state, surplus))
  {
    OwedDifference(s.instances[c], deadline, s.now);
    if cost <= paid {
      SettleSolvent(s, c, paid - cost, deadline, system, surplus);
    }
  }

  lemma MoveEarlierSolvent(s: State, c: AccountId, paid: nat, deadline: nat, system: bool, refund: nat, surplus: nat)
    requires Agree(s) && s.now <= U32_MAX && c in s.instances
    requires s.now <= deadline < s.instances[c].deadline
    requires refund == s.instances[c].price * (s.instances[c].deadline - deadline)
    requires OwedAll(s.running, s.instances, s.now) + paid + surplus <= s.balance
    ensures var o := Move(s, c, paid, deadline, system); o != Err(RefundPanic) && (o.Ok? ==> SolventBy(o.state, surplus))
  {
    OwedDifference(s.instances[c], deadline, s.now);
    SettleSolvent(s, c, paid + refund, deadline, system, surplus);
  }

  lemma MoveSolvent(s: State, c: AccountId, paid: nat, deadline: nat, system: bool, surplus: nat)
    requires Agree(s) && s.now <= U32_MAX && c in s.instances
    requires s.now <= deadline && deadline != s.instances[c].deadline
    requires OwedAll(s.running, s.instances, s.now) + paid + surplus <= s.balance
    ensures var o := Move(s, c, paid, deadline, system); o != Err(RefundPanic) && (o.Ok? ==> SolventBy(o.state, surplus))
  {
    var i := s.instances[c];
    if deadline > i.deadline {
      ValueIsProduct(i.price, deadline - i.deadline);
      MoveLaterSolvent(s, c, paid, deadline, system, Value(i.price, deadline - i.deadline), surplus);
    } else {
      ValueIsProduct(i.price, i.deadline - deadline);
      MoveEarlierSolvent(s, c, paid, deadline, system, Value(i.price, i.deadline - deadline), surplus);
    }
  }

  /** Time sold is time paid: the deadline is capped, the payment is not. */
  lemma NewInstanceOwed(workers: seq<WorkerId>, price: nat, now: nat, ttl: nat)
    requires now <= U32_MAX
    ensures Owed(Instance(workers, Min(now + ttl, U32_MAX), price), now) <= price * ttl
  {
    ValueIsProduct(price, ttl);
    ValueMonotone(price, SaturatingSub(Min(now + ttl, U32_MAX), now), ttl);
  }

  lemma DeployForSolvent(s: State, c: AccountId, paid: nat, i: Instance, required: nat, surplus: nat)
    requires Agree(s) && s.now <= U32_MAX && Owed(i, s.now) <= required
    requires OwedAll(s.running, s.instances, s.now) + paid + surplus <= s.balance
    ensures DeployFor(s, c, paid, i, required) != Err(RefundPanic)
    ensures DeployFor(s, c, paid, i, required).Ok? ==> SolventBy(DeployFor(s, c, paid, i, required).state, surplus)
  {
    var credit := RemainingValue(s, c);
    CreditCovered(s, c);
    DeploySolvent(s, c, paid, credit, Min(paid + credit, U128_MAX), i, required, surplus);
  }

  lemma DeployAtSolvent(s: State, c: AccountId, paid: nat, workers: seq<WorkerId>, price: Price, ttl: nat, surplus: nat)
    requires SolventBy(s, surplus)
    ensures DeployAt(s, c, paid, workers, price, ttl) != Err(RefundPanic)
    ensures DeployAt(s, c, paid, workers, price, ttl).Ok? ==> SolventBy(DeployAt(s, c, paid, workers, price, ttl).state, surplus)
  {
    if price.PerBlock? {
      var i := Instance(workers, Min(s.now + ttl, U32_MAX), price.value);
      var required: nat := price.value * ttl;
      NewInstanceOwed(workers, price.value, s.now, ttl);
      DeployForSolvent(s.(balance := s.balance + paid), c, paid, i, required, surplus);
    }
  }

  lemma DeploySolventCall(s: State, c: AccountId, paid: nat, r: Request, inTx: bool, system: bool, surplus: nat)
    requires SolventBy(s, surplus)
    ensures Deploy(s, c, paid, r, inTx, system) != Err(RefundPanic)
    ensures Deploy(s, c, paid, r, inTx, system).Ok? ==> SolventBy(Deploy(s, c, paid, r, inTx, system).state, surplus)
  {
    var workers := Dedup(r.workers);
    DeployAtSolvent(s, c, paid, workers, PriceFor(s, r, |workers|), r.ttl, surplus);
  }

  lemma UpdateSolventCall(s: State, c: AccountId, paid: nat, deadline: nat, inTx: bool, system: bool, surplus: nat)
    requires SolventBy(s, surplus)
    ensures var o := UpdateDeadline(s, c, paid, deadline, inTx, system);
      o != Err(RefundPanic) && (o.Ok? ==> SolventBy(o.state, surplus))
  {
    var t := s.(balance := s.balance + paid);
    var target := if deadline < s.now then s.now else deadline;
    if c in s.instances && target != s.instances[c].deadline {
      MoveSolvent(t, c, paid, target, system, surplus);
    }
  }

  /** No call and no new block takes from the surplus. */
  lemma StepSolvent(s: State, e: Event, surplus: nat)
    requires SolventBy(s, surplus) && Enabled(s, e)
    ensures SolventBy(Step(s, e), surplus)
    ensures Call(s, e) != Err(RefundPanic) && Call(s, e) != Err(RecyclePanic)
  {
    StepAgrees(s, e);
    match e
    case Deployed(c, paid, r, inTx, system) => DeploySolventCall(s, c, paid, r, inTx, system, surplus);
    case DeadlineUpdated(c, paid, deadline, inTx, system) => UpdateSolventCall(s, c, paid, deadline, inTx, system, surplus);
    case BlockAdvanced => OwedLater(s.running, s.instances, s.now);
    case _ =>
  }

  /** What the contract owns beyond what it owes. */
  ghost function Surplus(s: State): int
    requires Agree(s)
  {
    s.balance - OwedAll(s.running, s.instances, s.now)
  }

  /** Solvency: whatever is deployed, redeployed, extended and shortened, the contract owns at least
      price x (deadline - now) for every live instance, so a refund is always covered; and what it owns
      beyond that never shrinks. */
  lemma {:induction false} RunSolvent(s: State, events: seq<Event>, last: Event)
    requires Solvent(s) && Feasible(s, events)
    ensures Solvent(Exec(s, events)) && Surplus(s) <= Surplus(Exec(s, events))
    ensures Enabled(Exec(s, events), last) ==>
      Call(Exec(s, events), last) != Err(RefundPanic) && Call(Exec(s, events), last) != Err(RecyclePanic)
    decreases |events|
  {
    if events == [] {
      if Enabled(s, last) {
        StepSolvent(s, last, 0);
      }
    } else {
      StepSolvent(s, events[0], Surplus(s));
      RunSolvent(Step(s, events[0]), events[1..], last);
    }
  }

  /** A new ledger is solvent, whatever it owns, and so is every state it reaches. */
  lemma NewRunSolvent(vmPrice: nat, memPrice: nat, limit: nat, balance: nat, now: nat, events: seq<Event>, last: Event)
    requires now <= U32_MAX && Feasible(New(vmPrice, memPrice, limit, balance, now), events)
    ensures var s := Exec(New(vmPrice, memPrice, limit, balance, now), events);
      && Solvent(s) && balance <= Surplus(s)
      && (Enabled(s, last) ==> Call(s, last) != Err(RefundPanic) && Call(s, last) != Err(RecyclePanic))
  {
    NewAgrees(vmPrice, memPrice, limit, balance, now);
    RunSolvent(New(vmPrice, memPrice, limit, balance, now), events, last);
  }

  // ---- a deadline moved there and back

  lemma SettleExact(s: State, c: AccountId, refund: nat, deadline: nat)
    requires Agree(s) && c in s.instances && deadline != s.instances[c].deadline && deadline != s.now
    requires refund <= s.balance
    ensures var o := Settle(s, c, refund, deadline, true);
      && o.Ok?
      && o.state.balance == s.balance - refund && o.state.running == s.running && o.state.now == s.now
      && o.state.instances == s.instances[c := s.instances[c].(deadline := deadline)]
      && Agree(o.state)
  {
    assert Pay(s, refund).Ok?;
    RelistAgrees(Pay(s, refund).state, c, deadline);
  }

  /** A settled deadline change: the balance moves by what was paid and refunded. */
  ghost predicate Settled(s: State, o: Outcome, c: AccountId, deadline: nat, balance: int) {
    && c in s.instances && o.Ok?
    && o.state.balance == balance && o.state.running == s.running && o.state.now == s.now
    && o.state.instances == s.instances[c := s.instances[c].(deadline := deadline)]
    && Agree(o.state)
  }

  lemma Extend(s: State, c: AccountId, deadline: nat, cost: nat)
    requires Agree(s) && c in s.instances && s.now <= s.instances[c].deadline < deadline && 0 <= s.balance
    requires cost == s.instances[c].price * (deadline - s.instances[c].deadline) <= U128_MAX
    ensures Settled(s, UpdateDeadline(s, c, cost, deadline, true, true), c, deadline, s.balance + cost)
  {
    SettleExact(s.(balance := s.balance + cost), c, 0, deadline);
  }

  lemma Shorten(s: State, c: AccountId, deadline: nat, refund: nat)
    requires Agree(s) && c in s.instances && s.now < deadline < s.instances[c].deadline
    requires refund == s.instances[c].price * (s.instances[c].deadline - deadline) <= U128_MAX
    requires refund <= s.balance
    ensures Settled(s, UpdateDeadline(s, c, 0, deadline, true, true), c, deadline, s.balance - refund)
  {
    SettleExact(s.(balance := s.balance + 0), c, refund, deadline);
  }

  /** Buying more time and giving it back, in the same block, costs nothing and leaves every index as
      it was, up to the order within the workers' lists. */
  lemma ExtensionUndone(s: State, c: AccountId, deadline: nat, cost: nat)
    requires Solvent(s) && c in s.instances
    requires s.now < s.instances[c].deadline < deadline
    requires cost == s.instances[c].price * (deadline - s.instances[c].deadline) <= U128_MAX
    ensures var there := UpdateDeadline(s, c, cost, deadline, true, true);
      && there.Ok?
      && var back := UpdateDeadline(there.state, c, 0, s.instances[c].deadline, true, true);
         && back.Ok?
         && back.state.balance == s.balance
         && back.state.running == s.running && back.state.instances == s.instances
         && forall w, x :: Held(back.state.deadlines, w, x) == Held(s.deadlines, w, x)
  {
    Extend(s, c, deadline, cost);
    var t := UpdateDeadline(s, c, cost, deadline, true, true).state;
    Shorten(t, c, s.instances[c].deadline, cost);
    var u := UpdateDeadline(t, c, 0, s.instances[c].deadline, true, true).state;
    assert u.instances == s.instances;
    forall w, x ensures Held(u.deadlines, w, x) == Held(s.deadlines, w, x) {
      assert Matches(u.running, u.instances, u.deadlines, w, x);
      assert Matches(s.running, s.instances, s.deadlines, w, x);
    }
  }
}
