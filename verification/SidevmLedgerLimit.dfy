/** When each worker's list stays within the limit on paid instances. */
module SidevmLedgerLimit {
  import opened SidevmLedger
  import opened SidevmLedgerIndex

  ghost predicate Within(d: map<WorkerId, seq<nat>>, limit: nat) {
    forall w :: |DeadlinesOf(d, w)| <= limit
  }

  lemma {:induction false} RemoveFirstLength(q: seq<nat>, x: nat)
    ensures |RemoveFirst(q, x)| == if x in q then |q| - 1 else |q|
  {
    if q != [] {
      RemoveFirstLength(q[1..], x);
    }
  }

  lemma UnlistedLength(d: map<WorkerId, seq<nat>>, w: WorkerId, x: nat, v: WorkerId)
    ensures |DeadlinesOf(Unlisted(d, w, x), v)| <= |DeadlinesOf(d, v)|
  {
    RemoveFirstLength(DeadlinesOf(d, w), x);
  }

  lemma {:induction false} UnlistAllLength(d: map<WorkerId, seq<nat>>, workers: seq<WorkerId>, x: nat, v: WorkerId)
    ensures |DeadlinesOf(UnlistAll(d, workers, x).0, v)| <= |DeadlinesOf(d, v)|
    decreases |workers|
  {
    if workers != [] && workers[0] in d {
      UnlistedLength(d, workers[0], x, v);
      UnlistAllLength(Unlisted(d, workers[0], x), workers[1..], x, v);
    }
  }

  lemma {:induction false} RelistAllLength(d: map<WorkerId, seq<nat>>, workers: seq<WorkerId>, x: nat, y: nat, v: WorkerId)
    ensures |DeadlinesOf(RelistAll(d, workers, x, y).0, v)| == |DeadlinesOf(d, v)|
    decreases |workers|
  {
    if workers != [] && x in DeadlinesOf(d, workers[0]) {
      RemoveFirstLength(DeadlinesOf(d, workers[0]), x);
      RelistAllLength(Relisted(d, workers[0], x, y), workers[1..], x, y, v);
    }
  }

  /** A worker's list grows by one for every time the deployment names it. */
  lemma {:induction false} ListAllLength(d: map<WorkerId, seq<nat>>, workers: seq<WorkerId>, x: nat, v: WorkerId)
    ensures |DeadlinesOf(ListAll(d, workers, x), v)| == |DeadlinesOf(d, v)| + Times(workers, v)
    decreases |workers|
  {
    if workers != [] {
      ListAllLength(Listed(d, workers[0], x), workers[1..], x, v);
    }
  }

  lemma {:induction false} TimesAtMostOnce(q: seq<nat>, x: nat)
    requires NoRepeats(q)
    ensures Times(q, x) <= 1
  {
    if q != [] {
      TimesMember(q[1..], x);
      TimesAtMostOnce(q[1..], x);
    }
  }

  lemma {:induction false} RepeatedTwice(q: seq<nat>, i: nat, j: nat)
    requires i < j < |q| && q[i] == q[j]
    ensures 2 <= Times(q, q[i])
  {
    if i == 0 {
      assert q[j] in q[1..];
      TimesMember(q[1..], q[i]);
    } else {
      RepeatedTwice(q[1..], i - 1, j - 1);
    }
  }

  /** A deployment leaves every list within the limit exactly when each worker it names has room for all
      the times it is named; the availability check asks for room for one. */
  lemma EnterWithinIff(s: State, c: AccountId, i: Instance)
    requires Within(s.deadlines, s.limit)
    ensures Within(Enter(s, c, i).deadlines, s.limit)
      <==> forall w :: w in i.workers ==> |DeadlinesOf(s.deadlines, w)| + Times(i.workers, w) <= s.limit
  {
    var d := Enter(s, c, i).deadlines;
    forall w ensures |DeadlinesOf(d, w)| == |DeadlinesOf(s.deadlines, w)| + Times(i.workers, w) {
      ListAllLength(s.deadlines, i.workers, i.deadline, w);
    }
    forall w ensures Times(i.workers, w) > 0 <==> w in i.workers {
      TimesMember(i.workers, w);
    }
  }

  /** When the workers named have one place left each, a deployment stays within the limit exactly when its
      worker list, after adjacent repeats are removed, has no repeats at all. */
  lemma WithinIffNoRepeats(s: State, c: AccountId, i: Instance)
    requires Within(s.deadlines, s.limit)
    requires forall w :: w in i.workers ==> |DeadlinesOf(s.deadlines, w)| + 1 == s.limit
    ensures Available(s, i.workers)
    ensures Within(Enter(s, c, i).deadlines, s.limit) <==> NoRepeats(i.workers)
  {
    EnterWithinIff(s, c, i);
    if NoRepeats(i.workers) {
      forall w | w in i.workers ensures Times(i.workers, w) <= 1 {
        TimesAtMostOnce(i.workers, w);
      }
    } else {
      var j, k :| 0 <= j < k < |i.workers| && i.workers[j] == i.workers[k];
      RepeatedTwice(i.workers, j, k);
      assert i.workers[j] in i.workers;
    }
  }

  /** Removing adjacent repeats lets a worker through twice. */
  lemma DedupKeepsDistantRepeat(a: WorkerId, b: WorkerId)
    requires a != b
    ensures Dedup([a, b, a]) == [a, b, a] && !NoRepeats([a, b, a])
  {
    assert [a, b, a][1..] == [b, a];
    assert [b, a][1..] == [a];
    assert Dedup([b, a]) == [b] + Dedup([a]) == [b, a];
    assert [a, b, a][0] == [a, b, a][2];
  }

  // ---- deployments, as the caller sees them

  lemma ClearBalance(s: State, c: AccountId, x: int)
    ensures Clear(s.(balance := x), c) == (Clear(s, c).0.(balance := x), Clear(s, c).1)
  {
  }

  lemma {:induction false} ClearEachBalance(s: State, cs: seq<AccountId>, x: int)
    ensures ClearEach(s.(balance := x), cs) == (ClearEach(s, cs).0.(balance := x), ClearEach(s, cs).1)
    decreases |cs|
  {
    if cs != [] {
      ClearBalance(s, cs[0], x);
      ClearEachBalance(Clear(s, cs[0]).0, cs[1..], x);
    }
  }

  lemma {:induction false} ExpiredBalance(s: State, q: seq<AccountId>, x: int)
    ensures Expired(s.(balance := x), q) == Expired(s, q)
  {
    if q != [] {
      ExpiredBalance(s, q[1..], x);
    }
  }

  /** The ledger a deployment of the caller finds: without expired instances and without the caller's own. */
  function Vacated(s: State, c: AccountId): State {
    Clear(Recycle(s).0, c).0
  }

  lemma VacatedBalance(s: State, c: AccountId, x: int)
    ensures Vacated(s.(balance := x), c) == Vacated(s, c).(balance := x)
    ensures Recycle(s.(balance := x)).1 == Recycle(s).1
  {
    ExpiredBalance(s, s.running, x);
    ClearEachBalance(s, Expired(s, s.running), x);
    ClearBalance(Recycle(s).0, c, x);
  }

  lemma VacatedWithin(s: State, c: AccountId)
    requires Within(s.deadlines, s.limit)
    ensures Within(Vacated(s, c).deadlines, s.limit) && Vacated(s, c).limit == s.limit
  {
    ClearEachWithin(s, Expired(s, s.running));
    ClearWithin(Recycle(s).0, c);
  }

  /** The list of each named worker in the vacated ledger has a place, and gets the deadline. */
  ghost predicate Enters(s: State, c: AccountId, t: State, workers: seq<WorkerId>, deadline: nat) {
    && Available(Vacated(s, c), workers)
    && t.deadlines == ListAll(Vacated(s, c).deadlines, workers, deadline)
  }

  lemma AddDeployInfoEnters(s: State, c: AccountId, i: Instance)
    requires AddDeployInfo(s, c, i).Ok?
    ensures Enters(s, c, AddDeployInfo(s, c, i).state, i.workers, i.deadline)
  {
  }

  lemma DeployForEnters(s: State, c: AccountId, paid: nat, i: Instance, required: nat)
    requires DeployFor(s, c, paid, i, required).Ok?
    ensures Enters(s, c, DeployFor(s, c, paid, i, required).state, i.workers, i.deadline)
  {
    var available := Min(paid + RemainingValue(s, c), U128_MAX);
    var t := Pay(s, available - required).state;
    AddDeployInfoEnters(t, c, i);
    VacatedBalance(s, c, t.balance);
  }

  lemma DeployAtEnters(s: State, c: AccountId, paid: nat, workers: seq<WorkerId>, price: Price, ttl: nat)
    requires DeployAt(s, c, paid, workers, price, ttl).Ok?
    ensures Enters(s, c, DeployAt(s, c, paid, workers, price, ttl).state, workers, Min(s.now + ttl, U32_MAX))
  {
    var u := s.(balance := s.balance + paid);
    var i := Instance(workers, Min(s.now + ttl, U32_MAX), price.value);
    var required: nat := price.value * ttl;
    DeployForEnters(u, c, paid, i, required);
    VacatedBalance(s, c, u.balance);
  }

  /** A successful deployment enters its instances into the vacated ledger. */
  lemma DeployEnters(s: State, c: AccountId, paid: nat, r: Request, inTx: bool, system: bool)
    requires Deploy(s, c, paid, r, inTx, system).Ok?
    ensures Enters(s, c, Deploy(s, c, paid, r, inTx, system).state, Dedup(r.workers), Min(s.now + r.ttl, U32_MAX))
  {
    var workers := Dedup(r.workers);
    DeployAtEnters(s, c, paid, workers, PriceFor(s, r, |workers|), r.ttl);
  }

  /** A successful deployment leaves every list within the limit exactly when each worker it names has room,
      once the ledger is vacated, for all the times it is named. */
  lemma DeployWithinIff(s: State, c: AccountId, paid: nat, r: Request, inTx: bool, system: bool)
    requires Within(s.deadlines, s.limit) && Deploy(s, c, paid, r, inTx, system).Ok?
    ensures Within(Deploy(s, c, paid, r, inTx, system).state.deadlines, s.limit)
      <==> forall w :: w in Dedup(r.workers) ==>
             |DeadlinesOf(Vacated(s, c).deadlines, w)| + Times(Dedup(r.workers), w) <= s.limit
  {
    DeployEnters(s, c, paid, r, inTx, system);
    VacatedWithin(s, c);
    EnterWithinIff(Vacated(s, c), c, Instance(Dedup(r.workers), Min(s.now + r.ttl, U32_MAX), 0));
  }

  /** Paying the exact price, a caller without instances gets its deployment entered if there is room. */
  lemma ExactPayment(s: State, c: AccountId, r: Request, price: nat, paid: nat)
    requires 0 <= s.balance && c !in s.instances && Recycle(s) == (s, true) && Dedup(r.workers) != []
    requires 0 < r.pages && 0 < r.ttl && PriceFor(s, r, |Dedup(r.workers)|) == PerBlock(price)
    requires paid == price * r.ttl <= U128_MAX && Available(Vacated(s, c), Dedup(r.workers))
    ensures Deploy(s, c, paid, r, true, true).Ok?
  {
    var workers, u := Dedup(r.workers), s.(balance := s.balance + paid);
    var i := Instance(workers, Min(s.now + r.ttl, U32_MAX), price);
    VacatedBalance(s, c, u.balance);
    assert AddDeployInfo(u, c, i).Ok?;
    assert RemainingValue(u, c) == 0;
    assert DeployWith(u, c, paid, i, paid) == AddDeployInfo(u, c, i);
    assert DeployAt(s, c, paid, workers, PerBlock(price), r.ttl) == DeployWith(u, c, paid, i, paid);
  }

  lemma TimesOfThree(a: WorkerId, b: WorkerId)
    requires a != b
    ensures Times([a, b, a], a) == 2
  {
    assert [a, b, a][1..] == [b, a];
    assert [b, a][1..] == [a];
    assert Times([b, a], a) == Times([a], a) == 1;
  }

  /** On a new ledger whose limit is one, a deployment that names a worker twice, with another one in
      between, is accepted at its price and leaves that worker with two instances. */
  lemma DeployOverLimit(s: State, c: AccountId, r: Request, a: WorkerId, b: WorkerId, price: nat, paid: nat)
    requires 0 <= s.balance && s == New(s.vmPrice, s.memPrice, s.limit, s.balance, s.now) && s.limit == 1
    requires a != b && r.workers == [a, b, a] && 0 < r.pages && 0 < r.ttl
    requires PriceFor(s, r, 3) == PerBlock(price) && paid == price * r.ttl <= U128_MAX
    ensures var o := Deploy(s, c, paid, r, true, true);
      o.Ok? && |DeadlinesOf(o.state.deadlines, a)| == 2 && !Within(o.state.deadlines, s.limit)
  {
    DedupKeepsDistantRepeat(a, b);
    assert Expired(s, s.running) == [];
    assert Recycle(s) == (s, true);
    assert Vacated(s, c).deadlines == map[] && Vacated(s, c).limit == 1;
    ExactPayment(s, c, r, price, paid);
    DeployEnters(s, c, paid, r, true, true);
    ListAllLength(map[], [a, b, a], Min(s.now + r.ttl, U32_MAX), a);
    TimesOfThree(a, b);
  }

  // ---- runs with repeat-free lists and a limit that is never lowered

  ghost predicate Careful(s: State, e: Event) {
    && (e.Deployed? ==> NoRepeats(Dedup(e.request.workers)))
    && (e.LimitSet? ==> s.limit <= e.limit)
  }

  ghost predicate AllCareful(s: State, events: seq<Event>)
    decreases |events|
  {
    events != [] ==> Careful(s, events[0]) && AllCareful(Step(s, events[0]), events[1..])
  }

  lemma ClearWithin(s: State, c: AccountId)
    requires Within(s.deadlines, s.limit)
    ensures Within(Clear(s, c).0.deadlines, s.limit) && Clear(s, c).0.limit == s.limit
  {
    if c in s.instances {
      forall w ensures |DeadlinesOf(Clear(s, c).0.deadlines, w)| <= s.limit {
        UnlistAllLength(s.deadlines, s.instances[c].workers, s.instances[c].deadline, w);
      }
    }
  }

  lemma {:induction false} ClearEachWithin(s: State, cs: seq<AccountId>)
    requires Within(s.deadlines, s.limit)
    ensures Within(ClearEach(s, cs).0.deadlines, s.limit) && ClearEach(s, cs).0.limit == s.limit
    decreases |cs|
  {
    if cs != [] {
      ClearWithin(s, cs[0]);
      if Clear(s, cs[0]).1 {
        ClearEachWithin(Clear(s, cs[0]).0, cs[1..]);
      }
    }
  }

  lemma AddDeployInfoWithin(s: State, c: AccountId, i: Instance)
    requires Within(s.deadlines, s.limit) && NoRepeats(i.workers)
    ensures AddDeployInfo(s, c, i).Ok? ==>
      Within(AddDeployInfo(s, c, i).state.deadlines, s.limit) && AddDeployInfo(s, c, i).state.limit == s.limit
  {
    ClearEachWithin(s, Expired(s, s.running));
    var t := Recycle(s).0;
    ClearWithin(t, c);
    var u := Clear(t, c).0;
    if Available(u, i.workers) {
      forall w ensures |DeadlinesOf(Enter(u, c, i).deadlines, w)| <= s.limit {
        ListAllLength(u.deadlines, i.workers, i.deadline, w);
        TimesAtMostOnce(i.workers, w);
        TimesMember(i.workers, w);
      }
    }
  }

  lemma DeployAtWithin(s: State, c: AccountId, paid: nat, workers: seq<WorkerId>, price: Price, ttl: nat)
    requires Within(s.deadlines, s.limit) && NoRepeats(workers)
    ensures var o := DeployAt(s, c, paid, workers, price, ttl);
      o.Ok? ==> Within(o.state.deadlines, s.limit) && o.state.limit == s.limit
  {
    if price.PerBlock? {
      var t := s.(balance := s.balance + paid);
      DeployWithWithin(t, c, Min(paid + RemainingValue(t, c), U128_MAX),
                       Instance(workers, Min(s.now + ttl, U32_MAX), price.value), price.value * ttl);
    }
  }

  lemma DeployWithWithin(s: State, c: AccountId, available: nat, i: Instance, required: nat)
    requires Within(s.deadlines, s.limit) && NoRepeats(i.workers)
    ensures var o := DeployWith(s, c, available, i, required);
      o.Ok? ==> Within(o.state.deadlines, s.limit) && o.state.limit == s.limit
  {
    if required <= available && Pay(s, available - required).Ok? {
      AddDeployInfoWithin(Pay(s, available - required).state, c, i);
    }
  }

  lemma SettleWithin(s: State, c: AccountId, refund: nat, deadline: nat, system: bool)
    requires Within(s.deadlines, s.limit) && c in s.instances
    ensures var o := Settle(s, c, refund, deadline, system);
      o.Ok? ==> Within(o.state.deadlines, s.limit) && o.state.limit == s.limit
  {
    if Pay(s, refund).Ok? {
      var t, i := Pay(s, refund).state, s.instances[c];
      ClearWithin(t, c);
      forall w ensures |DeadlinesOf(RelistAll(t.deadlines, i.workers, i.deadline, deadline).0, w)| <= s.limit {
        RelistAllLength(t.deadlines, i.workers, i.deadline, deadline, w);
      }
    }
  }

  lemma MoveWithin(s: State, c: AccountId, paid: nat, deadline: nat, system: bool)
    requires Within(s.deadlines, s.limit) && c in s.instances
    ensures var o := Move(s, c, paid, deadline, system);
      o.Ok? ==> Within(o.state.deadlines, s.limit) && o.state.limit == s.limit
  {
    var i := s.instances[c];
    if deadline > i.deadline {
      var cost := i.price * (deadline - i.deadline);
      if cost <= paid {
        SettleWithin(s, c, paid - cost, deadline, system);
      }
    } else {
      SettleWithin(s, c, paid + i.price * (i.deadline - deadline), deadline, system);
    }
  }

  lemma DeployWithin(s: State, c: AccountId, paid: nat, r: Request, inTx: bool, system: bool)
    requires Within(s.deadlines, s.limit) && NoRepeats(Dedup(r.workers))
    ensures var o := Deploy(s, c, paid, r, inTx, system);
      o.Ok? ==> Within(o.state.deadlines, s.limit) && o.state.limit == s.limit
  {
    var workers := Dedup(r.workers);
    DeployAtWithin(s, c, paid, workers, PriceFor(s, r, |workers|), r.ttl);
  }

  lemma UpdateWithin(s: State, c: AccountId, paid: nat, deadline: nat, inTx: bool, system: bool)
    requires Within(s.deadlines, s.limit)
    ensures var o := UpdateDeadline(s, c, paid, deadline, inTx, system);
      o.Ok? ==> Within(o.state.deadlines, s.limit) && o.state.limit == s.limit
  {
    var target := if deadline < s.now then s.now else deadline;
    if c in s.instances {
      MoveWithin(s.(balance := s.balance + paid), c, paid, target, system);
    }
  }

  lemma StepWithin(s: State, e: Event)
    requires Within(s.deadlines, s.limit) && Careful(s, e)
    ensures Within(Step(s, e).deadlines, Step(s, e).limit)
  {
    match e
    case Deployed(c, paid, r, inTx, system) => DeployWithin(s, c, paid, r, inTx, system);
    case DeadlineUpdated(c, paid, deadline, inTx, system) => UpdateWithin(s, c, paid, deadline, inTx, system);
    case _ =>
  }

  lemma {:induction false} RunWithin(s: State, events: seq<Event>)
    requires Within(s.deadlines, s.limit) && AllCareful(s, events)
    ensures Within(Exec(s, events).deadlines, Exec(s, events).limit)
    decreases |events|
  {
    if events != [] {
      StepWithin(s, events[0]);
      RunWithin(Step(s, events[0]), events[1..]);
    }
  }

  lemma NewRunWithin(vmPrice: nat, memPrice: nat, limit: nat, balance: nat, now: nat, events: seq<Event>)
    requires AllCareful(New(vmPrice, memPrice, limit, balance, now), events)
    ensures var s := Exec(New(vmPrice, memPrice, limit, balance, now), events); Within(s.deadlines, s.limit)
  {
    RunWithin(New(vmPrice, memPrice, limit, balance, now), events);
  }
}
