/** What a successful call does to the ledger, to the last coin, and exactly when a call succeeds. */
module SidevmLedgerExact {
  import opened SidevmLedger
  import opened SidevmLedgerIndex
  import opened SidevmLedgerSolvency
  import opened SidevmLedgerLimit

  // ---- worker lists

  predicate NoEqualNeighbours(q: seq<WorkerId>) {
    forall i :: 0 < i < |q| ==> q[i - 1] != q[i]
  }

  lemma {:induction false} DedupFirst(q: seq<WorkerId>)
    requires q != []
    ensures Dedup(q) != [] && Dedup(q)[0] == q[0]
  {
    if |q| > 1 && q[0] == q[1] {
      DedupFirst(q[1..]);
    }
  }

  /** The list has the same workers and no two equal neighbours, and is the same list if it had none. */
  lemma {:induction false} DedupRemovesRepeats(q: seq<WorkerId>)
    ensures NoEqualNeighbours(Dedup(q))
    ensures forall w :: w in Dedup(q) <==> w in q
    ensures NoEqualNeighbours(q) ==> Dedup(q) == q
  {
    if |q| > 1 {
      assert q == [q[0]] + q[1..];
      DedupRemovesRepeats(q[1..]);
      DedupFirst(q[1..]);
      assert NoEqualNeighbours(q) ==> q[1 - 1] != q[1];
      assert NoEqualNeighbours(q) ==> NoEqualNeighbours(q[1..]) by {
        if NoEqualNeighbours(q) {
          forall i | 0 < i < |q[1..]| ensures q[1..][i - 1] != q[1..][i] {
            assert q[i + 1 - 1] != q[i + 1];
          }
        }
      }
    }
  }

  /** One more worker is kept exactly when it differs from the one before it. */
  lemma {:induction false} DedupAppend(q: seq<WorkerId>, w: WorkerId)
    ensures Dedup(q + [w]) == if q != [] && q[|q| - 1] == w then Dedup(q) else Dedup(q) + [w]
  {
    if |q| == 1 {
      assert (q + [w])[1..] == [w];
    } else if |q| > 1 {
      assert (q + [w])[1..] == q[1..] + [w];
      DedupAppend(q[1..], w);
    }
  }

  // ---- deployments

  /** The instances a deployment of the caller leaves alone. */
  function Others(s: State, c: AccountId): map<AccountId, Instance> {
    map k | k in s.instances && k != c && s.instances[k].deadline >= s.now :: s.instances[k]
  }

  /** The price per block of all workers together. */
  function FullPrice(s: State, r: Request): nat {
    (s.vmPrice + s.memPrice * (r.pages * 65536 + r.codeSize)) * |Dedup(r.workers)|
  }

  function Worth(price: nat, blocks: nat): nat {
    price * blocks
  }

  /** The price of the blocks after the next one up to the old deadline. */
  function Credit(s: State, c: AccountId): nat {
    if c in s.instances && s.now + 1 < s.instances[c].deadline then
      Worth(s.instances[c].price, s.instances[c].deadline - s.now - 1)
    else 0
  }

  lemma AddDeployInfoExact(s: State, c: AccountId, i: Instance)
    requires Agree(s) && AddDeployInfo(s, c, i).Ok?
    ensures var t := AddDeployInfo(s, c, i).state;
      && t.instances == Others(s, c)[c := i]
      && t == s.(running := t.running, instances := t.instances, deadlines := t.deadlines)
  {
    RecycleAgrees(s);
    var t := Recycle(s).0;
    ClearAgrees(t, c);
    assert t.instances - {c} == Others(s, c);
  }

  lemma CreditIs(s: State, c: AccountId, paid: nat)
    requires s.now < U32_MAX
    ensures Min(paid + RemainingValue(s, c), U128_MAX) == Min(paid + Credit(s, c), U128_MAX)
  {
  }

  lemma DeployForExact(s: State, c: AccountId, paid: nat, i: Instance, required: nat)
    requires Agree(s) && s.now < U32_MAX && DeployFor(s, c, paid, i, required).Ok?
    ensures var t := DeployFor(s, c, paid, i, required).state;
      && t.instances == Others(s, c)[c := i]
      && t.balance == s.balance - Min(paid + Credit(s, c), U128_MAX) + required
      && t == s.(running := t.running, instances := t.instances, deadlines := t.deadlines, balance := t.balance)
  {
    CreditIs(s, c, paid);
    var t := Pay(s, Min(paid + RemainingValue(s, c), U128_MAX) - required).state;
    AddDeployInfoExact(t, c, i);
    assert Others(t, c) == Others(s, c);
  }

  lemma PriceForIs(s: State, r: Request, price: nat)
    requires |Dedup(r.workers)| <= U32_MAX && PriceFor(s, r, |Dedup(r.workers)|) == PerBlock(price)
    ensures price == FullPrice(s, r)
  {
    PriceRefusedIff(s.vmPrice, s.memPrice, r.codeSize, r.pages, |Dedup(r.workers)|);
  }

  /** The ledger after a deployment of the caller, up to the lists and the order of running contracts. */
  ghost predicate Entered(s: State, t: State, c: AccountId, i: Instance, gained: int) {
    && t.instances == Others(s, c)[c := i] && t.balance == s.balance + gained
    && t == s.(running := t.running, instances := t.instances, deadlines := t.deadlines, balance := t.balance)
  }

  lemma DeployAtExact(s: State, c: AccountId, paid: nat, workers: seq<WorkerId>, price: nat, ttl: nat)
    requires Agree(s) && s.now < U32_MAX && DeployAt(s, c, paid, workers, PerBlock(price), ttl).Ok?
    ensures Entered(s, DeployAt(s, c, paid, workers, PerBlock(price), ttl).state, c,
                      Instance(workers, Min(s.now + ttl, U32_MAX), price),
                      paid - Min(paid + Credit(s, c), U128_MAX) + Worth(price, ttl))
  {
    var u := s.(balance := s.balance + paid);
    DeployForExact(u, c, paid, Instance(workers, Min(s.now + ttl, U32_MAX), price), Worth(price, ttl));
    assert Others(u, c) == Others(s, c) && Credit(u, c) == Credit(s, c);
  }

  /** A successful deployment replaces the caller's instances by the new ones, at the full price, and removes the
      expired ones; the contract keeps the price of the time sold less the credit for the time left. */
  lemma DeployExact(s: State, c: AccountId, paid: nat, r: Request, inTx: bool, system: bool)
    requires Agree(s) && s.now < U32_MAX && |Dedup(r.workers)| <= U32_MAX
    requires Deploy(s, c, paid, r, inTx, system).Ok?
    ensures Entered(s, Deploy(s, c, paid, r, inTx, system).state, c,
                      Instance(Dedup(r.workers), Min(s.now + r.ttl, U32_MAX), FullPrice(s, r)),
                      paid - Min(paid + Credit(s, c), U128_MAX) + Worth(FullPrice(s, r), r.ttl))
    ensures paid + Credit(s, c) <= U128_MAX ==>
      Deploy(s, c, paid, r, inTx, system).state.balance == s.balance + Worth(FullPrice(s, r), r.ttl) - Credit(s, c)
  {
    var workers := Dedup(r.workers);
    var price := PriceFor(s, r, |workers|).value;
    PriceForIs(s, r, price);
    DeployAtExact(s, c, paid, workers, price, r.ttl);
  }

  // ---- deadline changes

  function Target(s: State, deadline: nat): nat {
    if deadline < s.now then s.now else deadline
  }

  /** The instances after the caller's deadline was moved. */
  function Moved(s: State, c: AccountId, deadline: nat): map<AccountId, Instance>
    requires c in s.instances
  {
    if deadline == s.instances[c].deadline then s.instances
    else if deadline == s.now then s.instances - {c}
    else s.instances[c := s.instances[c].(deadline := deadline)]
  }

  lemma SettleEffect(s: State, c: AccountId, refund: nat, deadline: nat, system: bool)
    requires Agree(s) && c in s.instances && deadline != s.instances[c].deadline
    requires Settle(s, c, refund, deadline, system).Ok?
    ensures var t := Settle(s, c, refund, deadline, system).state;
      && t.instances == Moved(s, c, deadline) && t.balance == s.balance - refund
      && t == s.(running := t.running, instances := t.instances, deadlines := t.deadlines, balance := t.balance)
  {
    var t := Pay(s, refund).state;
    ClearAgrees(t, c);
  }

  lemma MoveEffect(s: State, c: AccountId, paid: nat, deadline: nat, system: bool, cost: nat, refund: nat)
    requires Agree(s) && c in s.instances && deadline != s.instances[c].deadline
    requires deadline > s.instances[c].deadline ==> cost == Worth(s.instances[c].price, deadline - s.instances[c].deadline)
    requires deadline < s.instances[c].deadline ==> refund == Worth(s.instances[c].price, s.instances[c].deadline - deadline)
    requires Move(s, c, paid, deadline, system).Ok?
    ensures var t := Move(s, c, paid, deadline, system).state;
      && t.instances == Moved(s, c, deadline)
      && (deadline > s.instances[c].deadline ==> t.balance == s.balance - paid + cost)
      && (deadline < s.instances[c].deadline ==> t.balance == s.balance - paid - refund)
      && t == s.(running := t.running, instances := t.instances, deadlines := t.deadlines, balance := t.balance)
  {
    if deadline > s.instances[c].deadline {
      SettleEffect(s, c, paid - cost, deadline, system);
    } else {
      SettleEffect(s, c, paid + refund, deadline, system);
    }
  }

  /** A successful deadline change moves the deadline, or removes the instances when it is moved to the present
      block; whatever was paid, the contract keeps the price of the blocks added or returns that of the blocks
      taken away. */
  lemma UpdateExact(s: State, c: AccountId, paid: nat, deadline: nat, inTx: bool, system: bool)
    requires Agree(s) && UpdateDeadline(s, c, paid, deadline, inTx, system).Ok?
    ensures var t, target := UpdateDeadline(s, c, paid, deadline, inTx, system).state, Target(s, deadline);
      && c in s.instances && t.instances == Moved(s, c, target)
      && t.balance == s.balance + Balance(s.instances[c], target)
      && t == s.(running := t.running, instances := t.instances, deadlines := t.deadlines, balance := t.balance)
  {
    var u, target, i := s.(balance := s.balance + paid), Target(s, deadline), s.instances[c];
    if target != i.deadline {
      MoveEffect(u, c, paid, target, system, if target > i.deadline then Worth(i.price, target - i.deadline) else 0,
                 if target < i.deadline then Worth(i.price, i.deadline - target) else 0);
    }
  }

  /** What the contract gains when the instance's deadline becomes `deadline`. */
  function Balance(i: Instance, deadline: nat): int {
    if deadline >= i.deadline then Worth(i.price, deadline - i.deadline) else 0 - Worth(i.price, i.deadline - deadline)
  }

  // ---- when a call succeeds

  lemma DeployForOkIff(s: State, c: AccountId, paid: nat, i: Instance, required: nat)
    requires Agree(s) && s.now < U32_MAX
    requires DeployFor(s.(balance := s.balance + paid), c, paid, i, required) != Err(RefundPanic)
    ensures DeployFor(s.(balance := s.balance + paid), c, paid, i, required).Ok?
      <==> required <= Min(paid + Credit(s, c), U128_MAX) && Available(Vacated(s, c), i.workers)
  {
    var u := s.(balance := s.balance + paid);
    CreditIs(u, c, paid);
    assert Credit(u, c) == Credit(s, c);
    var available := Min(paid + RemainingValue(u, c), U128_MAX);
    if required <= available {
      var t := Pay(u, available - required).state;
      VacatedBalance(s, c, t.balance);
      RecycleAgrees(t);
    }
  }

  lemma DeployAtOkIff(s: State, c: AccountId, paid: nat, workers: seq<WorkerId>, price: nat, ttl: nat)
    requires Agree(s) && s.now < U32_MAX
    requires DeployAt(s, c, paid, workers, PerBlock(price), ttl) != Err(RefundPanic)
    ensures DeployAt(s, c, paid, workers, PerBlock(price), ttl).Ok?
      <==> Worth(price, ttl) <= Min(paid + Credit(s, c), U128_MAX) && Available(Vacated(s, c), workers)
  {
    DeployForOkIff(s, c, paid, Instance(workers, Min(s.now + ttl, U32_MAX), price), Worth(price, ttl));
  }

  /** The price of all workers for a block fits, and so do the sizes on the way to it. */
  predicate Priced(s: State, r: Request) {
    r.pages * 65536 + r.codeSize <= U128_MAX && FullPrice(s, r) <= U128_MAX
  }

  lemma PricedIff(s: State, r: Request)
    requires 1 <= |Dedup(r.workers)| <= U32_MAX
    ensures PriceFor(s, r, |Dedup(r.workers)|) == if Priced(s, r) then PerBlock(FullPrice(s, r)) else Unpayable
  {
    PriceRefusedIff(s.vmPrice, s.memPrice, r.codeSize, r.pages, |Dedup(r.workers)|);
  }

  /** A deployment succeeds exactly when it is a transaction that names workers, memory and time, its price fits,
      payment and credit cover its time, every worker has room and the system obeys. */
  lemma DeployOkIff(s: State, c: AccountId, paid: nat, r: Request, inTx: bool, system: bool)
    requires Solvent(s) && s.now < U32_MAX && |Dedup(r.workers)| <= U32_MAX
    ensures Deploy(s, c, paid, r, inTx, system).Ok?
      <==> (inTx && system && r.workers != [] && r.pages > 0 && r.ttl > 0 && Priced(s, r)
            && Worth(FullPrice(s, r), r.ttl) <= Min(paid + Credit(s, c), U128_MAX)
            && Available(Vacated(s, c), Dedup(r.workers)))
  {
    DeploySolventCall(s, c, paid, r, inTx, true, 0);
    if r.workers == [] {
      assert Dedup(r.workers) == [];
    } else if inTx && r.pages > 0 && r.ttl > 0 {
      DedupFirst(r.workers);
      PricedIff(s, r);
      if Priced(s, r) {
        DeployAtOkIff(s, c, paid, Dedup(r.workers), FullPrice(s, r), r.ttl);
      }
    }
  }

  /** The price of a deadline change fits and is covered. */
  predicate Covered(i: Instance, target: nat, paid: nat) {
    if target > i.deadline then Worth(i.price, target - i.deadline) <= Min(paid, U128_MAX)
    else paid + Worth(i.price, i.deadline - target) <= U128_MAX
  }

  lemma SettleOkIff(s: State, c: AccountId, refund: nat, deadline: nat, system: bool)
    requires Agree(s) && c in s.instances && deadline != s.instances[c].deadline
    requires Settle(s, c, refund, deadline, system) != Err(RefundPanic)
    ensures Settle(s, c, refund, deadline, system).Ok? <==> deadline == s.now || system
  {
    SettleAgrees(s, c, refund, deadline, system);
  }

  lemma MoveOkIff(s: State, c: AccountId, paid: nat, deadline: nat, system: bool)
    requires Agree(s) && c in s.instances && deadline != s.instances[c].deadline
    requires Move(s, c, paid, deadline, system) != Err(RefundPanic)
    ensures Move(s, c, paid, deadline, system).Ok?
      <==> Covered(s.instances[c], deadline, paid) && (deadline == s.now || system)
  {
    var i := s.instances[c];
    if Covered(i, deadline, paid) {
      if deadline > i.deadline {
        SettleOkIff(s, c, paid - Worth(i.price, deadline - i.deadline), deadline, system);
      } else {
        SettleOkIff(s, c, paid + Worth(i.price, i.deadline - deadline), deadline, system);
      }
    }
  }

  lemma UpdateMovedOkIff(s: State, c: AccountId, paid: nat, deadline: nat, system: bool)
    requires Solvent(s) && c in s.instances && Target(s, deadline) != s.instances[c].deadline
    ensures UpdateDeadline(s, c, paid, deadline, true, system).Ok?
      <==> Covered(s.instances[c], Target(s, deadline), paid) && (Target(s, deadline) == s.now || system)
  {
    var u := s.(balance := s.balance + paid);
    assert UpdateDeadline(s, c, paid, deadline, true, system) == Move(u, c, paid, Target(s, deadline), system);
    UpdateSolventCall(s, c, paid, deadline, true, system, 0);
    MoveOkIff(u, c, paid, Target(s, deadline), system);
  }

  lemma UpdateUnmovedOk(s: State, c: AccountId, paid: nat, deadline: nat, system: bool)
    requires Solvent(s) && c in s.instances && Target(s, deadline) == s.instances[c].deadline
    ensures UpdateDeadline(s, c, paid, deadline, true, system).Ok?
  {
  }

  /** A deadline change succeeds exactly when it is a transaction of a contract with instances that changes
      nothing, or whose price fits and is covered and which, unless it ends the instances, the system obeys. */
  lemma UpdateOkIff(s: State, c: AccountId, paid: nat, deadline: nat, inTx: bool, system: bool)
    requires Solvent(s)
    ensures UpdateDeadline(s, c, paid, deadline, inTx, system).Ok?
      <==> (inTx && c in s.instances
            && (Target(s, deadline) == s.instances[c].deadline
                || (Covered(s.instances[c], Target(s, deadline), paid) && (Target(s, deadline) == s.now || system))))
  {
    if inTx && c in s.instances {
      if Target(s, deadline) == s.instances[c].deadline {
        UpdateUnmovedOk(s, c, paid, deadline, system);
      } else {
        UpdateMovedOkIff(s, c, paid, deadline, system);
      }
    }
  }

  // ---- settings

  /** The setting in force after the events: the one last made. */
  function LastPrices(events: seq<Event>, prices: (nat, nat)): (nat, nat)
    decreases |events|
  {
    if events == [] then prices
    else LastPrices(events[1..], if events[0].PriceSet? then (events[0].vmPrice, events[0].memPrice) else prices)
  }

  function LastLimit(events: seq<Event>, limit: nat): nat
    decreases |events|
  {
    if events == [] then limit else LastLimit(events[1..], if events[0].LimitSet? then events[0].limit else limit)
  }

  function Blocks(events: seq<Event>): nat {
    if events == [] then 0 else (if events[0].BlockAdvanced? then 1 else 0) + Blocks(events[1..])
  }

  lemma CallKeepsSettings(s: State, e: Event)
    requires Agree(s) && (e.Deployed? || e.DeadlineUpdated?) && Call(s, e).Ok?
    ensures SameSettings(s, Call(s, e).state)
  {
    match e
    case Deployed(c, paid, r, inTx, system) => DeployKeepsSettings(s, c, paid, r, inTx, system);
    case DeadlineUpdated(c, paid, deadline, inTx, system) => UpdateExact(s, c, paid, deadline, inTx, system);
  }

  ghost predicate SameSettings(s: State, t: State) {
    t.vmPrice == s.vmPrice && t.memPrice == s.memPrice && t.limit == s.limit && t.now == s.now
  }

  lemma DeployForKeepsSettings(s: State, c: AccountId, paid: nat, i: Instance, required: nat)
    requires Agree(s) && DeployFor(s, c, paid, i, required).Ok?
    ensures SameSettings(s, DeployFor(s, c, paid, i, required).state)
  {
    AddDeployInfoExact(Pay(s, Min(paid + RemainingValue(s, c), U128_MAX) - required).state, c, i);
  }

  lemma DeployKeepsSettings(s: State, c: AccountId, paid: nat, r: Request, inTx: bool, system: bool)
    requires Agree(s) && Deploy(s, c, paid, r, inTx, system).Ok?
    ensures SameSettings(s, Deploy(s, c, paid, r, inTx, system).state)
  {
    var workers := Dedup(r.workers);
    var price := PriceFor(s, r, |workers|).value;
    DeployForKeepsSettings(s.(balance := s.balance + paid), c, paid,
                           Instance(workers, Min(s.now + r.ttl, U32_MAX), price), Worth(price, r.ttl));
  }

  /** In every run prices and limit are the ones last set and every block counts one. */
  lemma {:induction false} SettingsInForce(s: State, events: seq<Event>)
    requires Agree(s)
    ensures var t := Exec(s, events);
      && (t.vmPrice, t.memPrice) == LastPrices(events, (s.vmPrice, s.memPrice))
      && t.limit == LastLimit(events, s.limit) && t.now == s.now + Blocks(events)
    decreases |events|
  {
    if events != [] {
      var e := events[0];
      if (e.Deployed? || e.DeadlineUpdated?) && Call(s, e).Ok? {
        CallKeepsSettings(s, e);
      }
      StepAgrees(s, e);
      SettingsInForce(Step(s, e), events[1..]);
    }
  }

  // ---- why a call fails

  lemma DeployForFails(s: State, c: AccountId, paid: nat, i: Instance, required: nat)
    requires Agree(s) && s.now < U32_MAX
    requires DeployFor(s.(balance := s.balance + paid), c, paid, i, required) != Err(RefundPanic)
    ensures var o, available := DeployFor(s.(balance := s.balance + paid), c, paid, i, required),
                                Min(paid + Credit(s, c), U128_MAX);
      && (required > U128_MAX ==> o == Err(Overflow))
      && (required <= U128_MAX && available < required ==> o == Err(NotEnoughValue))
      && (required <= available && !Available(Vacated(s, c), i.workers) ==> o == Err(NoAvailableWorkers))
  {
    DeployForOkIff(s, c, paid, i, required);
    var u := s.(balance := s.balance + paid);
    CreditIs(u, c, paid);
    var available := Min(paid + RemainingValue(u, c), U128_MAX);
    if required <= available {
      RecycleAgrees(Pay(u, available - required).state);
    }
  }

  /** The first thing that is wrong with a deployment decides what it is refused for. */
  lemma DeployFails(s: State, c: AccountId, paid: nat, r: Request, inTx: bool, system: bool)
    requires Solvent(s) && s.now < U32_MAX && |Dedup(r.workers)| <= U32_MAX
    ensures var o := Deploy(s, c, paid, r, inTx, system);
      var named := inTx && r.workers != [] && r.pages > 0 && r.ttl > 0;
      && (!inTx ==> o == Err(NoTransaction))
      && (inTx && r.workers == [] ==> o == Err(NoWorkers))
      && (inTx && r.workers != [] && r.pages == 0 ==> o == Err(NoMemory))
      && (inTx && r.workers != [] && r.pages > 0 && r.ttl == 0 ==> o == Err(LiveTooShort))
      && (named && (!Priced(s, r) || Worth(FullPrice(s, r), r.ttl) > U128_MAX) ==> o == Err(Overflow))
      && (named && Priced(s, r) && Min(paid + Credit(s, c), U128_MAX) < Worth(FullPrice(s, r), r.ttl) <= U128_MAX ==>
            o == Err(NotEnoughValue))
      && (named && Priced(s, r) && Worth(FullPrice(s, r), r.ttl) <= Min(paid + Credit(s, c), U128_MAX) ==>
            if !Available(Vacated(s, c), Dedup(r.workers)) then o == Err(NoAvailableWorkers)
            else o.Ok? || o == Err(SystemFailed))
  {
    DeploySolventCall(s, c, paid, r, inTx, true, 0);
    if r.workers == [] {
      assert Dedup(r.workers) == [];
    } else {
      DedupFirst(r.workers);
      if inTx && r.pages > 0 && r.ttl > 0 {
        PricedIff(s, r);
        if Priced(s, r) {
          DeployForFails(s, c, paid, Instance(Dedup(r.workers), Min(s.now + r.ttl, U32_MAX), FullPrice(s, r)),
                         Worth(FullPrice(s, r), r.ttl));
          DeployAtOkIff(s, c, paid, Dedup(r.workers), FullPrice(s, r), r.ttl);
        }
      }
    }
  }

  // ---- where the money comes from

  /** What the contract gains by an event: gifts, the time it sells and what it returns. */
  function Income(s: State, e: Event): int {
    if Call(s, e).Err? then 0
    else match e
      case Deployed(c, paid, r, _, _) => paid - Min(paid + Credit(s, c), U128_MAX) + Worth(FullPrice(s, r), r.ttl)
      case DeadlineUpdated(c, _, deadline, _, _) =>
        if c in s.instances then Balance(s.instances[c], Target(s, deadline)) else 0
      case Donated(amount) => amount
      case _ => 0
  }

  function Incomes(s: State, events: seq<Event>): int
    decreases |events|
  {
    if events == [] then 0 else Income(s, events[0]) + Incomes(Step(s, events[0]), events[1..])
  }

  ghost predicate Countable(s: State, events: seq<Event>)
    decreases |events|
  {
    events != [] ==>
      && s.now < U32_MAX && (events[0].Deployed? ==> |Dedup(events[0].request.workers)| <= U32_MAX)
      && Countable(Step(s, events[0]), events[1..])
  }

  lemma StepIncome(s: State, e: Event)
    requires Agree(s) && s.now < U32_MAX && (e.Deployed? ==> |Dedup(e.request.workers)| <= U32_MAX)
    ensures Step(s, e).balance == s.balance + Income(s, e)
  {
    match e
    case Deployed(c, paid, r, inTx, system) =>
      if Call(s, e).Ok? {
        DeployExact(s, c, paid, r, inTx, system);
      }
    case DeadlineUpdated(c, paid, deadline, inTx, system) =>
      if Call(s, e).Ok? {
        UpdateExact(s, c, paid, deadline, inTx, system);
      }
    case _ =>
  }

  /** In every run the balance is what there was, what was given, and the price of the time sold less that of the
      time credited and taken back; no coin is made or lost. */
  lemma {:induction false} MoneyConserved(s: State, events: seq<Event>)
    requires Agree(s) && Countable(s, events)
    ensures Exec(s, events).balance == s.balance + Incomes(s, events)
    decreases |events|
  {
    if events != [] {
      StepIncome(s, events[0]);
      StepAgrees(s, events[0]);
      MoneyConserved(Step(s, events[0]), events[1..]);
    }
  }

}
