/** The contract itself: storage updated in place, each method proved against `SidevmLedger`. */
module SidevmOp {
  import L = SidevmLedger

  datatype Result = Done | Failed(error: L.Error)

  /** What a call leaves behind: its new state, or the old one and an error. */
  ghost predicate Follows(before: L.State, after: L.State, result: Result, outcome: L.Outcome) {
    match outcome
    case Ok(t) => result == Done && after == t
    case Err(e) => result == Failed(e) && after == before
  }

  class Contract {
    var vmPrice: nat
    var memPrice: nat
    var maxPaidInstancesPerWorker: nat
    var contractDeadlineByWorkers: map<L.WorkerId, seq<nat>>
    var paidInstancesByContracts: map<L.AccountId, L.Instance>
    var contractsRunningSidevm: seq<L.AccountId>
    // What the environment keeps for the contract.
    var balance: int
    var blockNumber: nat

    ghost function State(): L.State
      reads this
    {
      L.State(vmPrice, memPrice, maxPaidInstancesPerWorker, contractDeadlineByWorkers,
              paidInstancesByContracts, contractsRunningSidevm, balance, blockNumber)
    }

    constructor (vmPrice: nat, memPrice: nat, limit: nat, balance: nat, now: nat)
      ensures State() == L.New(vmPrice, memPrice, limit, balance, now)
    {
      this.vmPrice, this.memPrice, this.maxPaidInstancesPerWorker := vmPrice, memPrice, limit;
      contractDeadlineByWorkers, paidInstancesByContracts, contractsRunningSidevm := map[], map[], [];
      this.balance, this.blockNumber := balance, now;
    }

    /** The environment undoes a failed call. */
    method Revert(deadlines: map<L.WorkerId, seq<nat>>, instances: map<L.AccountId, L.Instance>,
                  running: seq<L.AccountId>, balance: int)
      modifies this`contractDeadlineByWorkers, this`paidInstancesByContracts, this`contractsRunningSidevm,
        this`balance
      ensures State() == old(State()).(deadlines := deadlines, instances := instances,
                                       running := running, balance := balance)
    {
      contractDeadlineByWorkers, paidInstancesByContracts := deadlines, instances;
      contractsRunningSidevm, this.balance := running, balance;
    }

    method Retain(c: L.AccountId)
      modifies this`contractsRunningSidevm
      ensures State() == old(State()).(running := L.Without(old(contractsRunningSidevm), c))
    {
      var kept, i := [], 0;
      while i < |contractsRunningSidevm|
        invariant 0 <= i <= |contractsRunningSidevm|
        invariant kept + L.Without(contractsRunningSidevm[i..], c) == L.Without(contractsRunningSidevm, c)
      {
        assert contractsRunningSidevm[i..][1..] == contractsRunningSidevm[i + 1..];
        if contractsRunningSidevm[i] != c {
          kept := kept + [contractsRunningSidevm[i]];
        }
        i := i + 1;
      }
      contractsRunningSidevm := kept;
    }

    method ClearContract(c: L.AccountId) returns (ok: bool)
      modifies this`contractDeadlineByWorkers, this`paidInstancesByContracts, this`contractsRunningSidevm
      ensures (State(), ok) == L.Clear(old(State()), c)
    {
      Retain(c);
      if c !in paidInstancesByContracts {
        return false;
      }
      var instances := paidInstancesByContracts[c];
      paidInstancesByContracts := paidInstancesByContracts - {c};
      ghost var before := State();
      for i := 0 to |instances.workers|
        invariant State() == before.(deadlines := contractDeadlineByWorkers)
        invariant L.UnlistAll(contractDeadlineByWorkers, instances.workers[i..], instances.deadline)
               == L.UnlistAll(before.deadlines, instances.workers, instances.deadline)
      {
        var worker := instances.workers[i];
        assert instances.workers[i..][1..] == instances.workers[i + 1..];
        if worker !in contractDeadlineByWorkers {
          return false;
        }
        contractDeadlineByWorkers := L.Unlisted(contractDeadlineByWorkers, worker, instances.deadline);
      }
      return true;
    }

    method Recycle() returns (ok: bool)
      modifies this`contractDeadlineByWorkers, this`paidInstancesByContracts, this`contractsRunningSidevm
      ensures ok == L.Recycle(old(State())).1
      ensures ok ==> State() == L.Recycle(old(State())).0
    {
      var toRemove, i := [], 0;
      while i < |contractsRunningSidevm|
        invariant 0 <= i <= |contractsRunningSidevm|
        invariant forall k :: 0 <= k < i ==> contractsRunningSidevm[k] in paidInstancesByContracts
        invariant toRemove + L.Expired(State(), contractsRunningSidevm[i..]) == L.Expired(State(), contractsRunningSidevm)
      {
        var c := contractsRunningSidevm[i];
        assert contractsRunningSidevm[i..][1..] == contractsRunningSidevm[i + 1..];
        if c !in paidInstancesByContracts {
          assert c in contractsRunningSidevm;
          return false;
        }
        if paidInstancesByContracts[c].deadline < blockNumber {
          toRemove := toRemove + [c];
        }
        i := i + 1;
      }
      ghost var before := State();
      assert contractsRunningSidevm[i..] == [];
      assert L.AllKnown(before) && toRemove == L.Expired(before, before.running);
      for k := 0 to |toRemove|
        invariant L.ClearEach(State(), toRemove[k..]) == L.ClearEach(before, toRemove)
      {
        assert toRemove[k..][1..] == toRemove[k + 1..];
        var cleared := ClearContract(toRemove[k]);
        if !cleared {
          return false;
        }
      }
      assert toRemove[|toRemove|..] == [];
      return true;
    }

    method EnsureAvailable(workers: seq<L.WorkerId>) returns (ok: bool)
      ensures ok == L.Available(State(), workers)
    {
      for i := 0 to |workers|
        invariant forall k :: 0 <= k < i ==>
          |L.DeadlinesOf(contractDeadlineByWorkers, workers[k])| < maxPaidInstancesPerWorker
      {
        if |L.DeadlinesOf(contractDeadlineByWorkers, workers[i])| >= maxPaidInstancesPerWorker {
          assert workers[i] in workers;
          return false;
        }
      }
      return true;
    }

    method AddDeployInfo(c: L.AccountId, instances: L.Instance) returns (result: Result)
      modifies this`contractDeadlineByWorkers, this`paidInstancesByContracts, this`contractsRunningSidevm
      ensures L.AddDeployInfo(old(State()), c, instances)
           == if result == Done then L.Ok(State()) else L.Err(result.error)
    {
      var recycled := Recycle();
      if !recycled {
        return Failed(L.RecyclePanic);
      }
      var _ := ClearContract(c);
      var available := EnsureAvailable(instances.workers);
      if !available {
        return Failed(L.NoAvailableWorkers);
      }
      ghost var before := State();
      paidInstancesByContracts := paidInstancesByContracts[c := instances];
      for i := 0 to |instances.workers|
        invariant State() == before.(deadlines := contractDeadlineByWorkers, instances := before.instances[c := instances])
        invariant L.ListAll(contractDeadlineByWorkers, instances.workers[i..], instances.deadline)
               == L.ListAll(before.deadlines, instances.workers, instances.deadline)
      {
        assert instances.workers[i..][1..] == instances.workers[i + 1..];
        contractDeadlineByWorkers := L.Listed(contractDeadlineByWorkers, instances.workers[i], instances.deadline);
      }
      contractsRunningSidevm := contractsRunningSidevm + [c];
      return Done;
    }

    method RemoveAdjacentRepeats(workers: seq<L.WorkerId>) returns (kept: seq<L.WorkerId>)
      ensures kept == L.Dedup(workers)
    {
      kept := [];
      for i := 0 to |workers|
        invariant kept + L.Dedup(workers[i..]) == L.Dedup(workers)
      {
        assert workers[i..][1..] == workers[i + 1..];
        if i + 1 == |workers| || workers[i] != workers[i + 1] {
          assert L.Dedup(workers[i..]) == [workers[i]] + L.Dedup(workers[i + 1..]);
          kept := kept + [workers[i]];
        } else {
          assert L.Dedup(workers[i..]) == L.Dedup(workers[i + 1..]);
        }
      }
      assert workers[|workers|..] == [];
    }

    method RemainingTimeToValue(c: L.AccountId) returns (value: nat)
      ensures value == L.RemainingValue(State(), c)
    {
      if c !in paidInstancesByContracts {
        return 0;
      }
      var info := paidInstancesByContracts[c];
      var current := L.Min(blockNumber + 1, L.U32_MAX);
      if info.deadline <= current {
        return 0;
      }
      return L.Min(info.price * L.SaturatingSub(info.deadline, current), L.U128_MAX);
    }

    /** Pays the caller; a payment that cannot be made panics. */
    method Transfer(amount: nat) returns (ok: bool)
      modifies this`balance
      ensures ok <==> amount <= old(balance)
      ensures balance == if ok then old(balance) - amount else old(balance)
    {
      ok := amount <= balance;
      if ok {
        balance := balance - amount;
      }
    }

    /** A deployment that costs `required`, before the environment undoes a failure. */
    method DeployFor(c: L.AccountId, paid: nat, instances: L.Instance, required: nat) returns (result: Result)
      modifies this`balance, this`contractDeadlineByWorkers, this`paidInstancesByContracts, this`contractsRunningSidevm
      ensures L.DeployFor(old(State()), c, paid, instances, required)
           == if result == Done then L.Ok(State()) else L.Err(result.error)
    {
      var remaining := RemainingTimeToValue(c);
      var available := L.Min(paid + remaining, L.U128_MAX);
      if required > L.U128_MAX {
        return Failed(L.Overflow);
      }
      if available < required {
        return Failed(L.NotEnoughValue);
      }
      var refunded := Transfer(available - required);
      if !refunded {
        return Failed(L.RefundPanic);
      }
      result := AddDeployInfo(c, instances);
    }

    method DeployToWorkers(c: L.AccountId, paid: nat, r: L.Request, inTx: bool, system: bool) returns (result: Result)
      modifies this`balance, this`contractDeadlineByWorkers, this`paidInstancesByContracts, this`contractsRunningSidevm
      ensures Follows(old(State()), State(), result, L.Deploy(old(State()), c, paid, r, inTx, system))
    {
      if !inTx {
        return Failed(L.NoTransaction);
      }
      var workers := RemoveAdjacentRepeats(r.workers);
      if workers == [] {
        return Failed(L.NoWorkers);
      }
      if r.pages == 0 {
        return Failed(L.NoMemory);
      }
      if r.ttl == 0 {
        return Failed(L.LiveTooShort);
      }
      var price := L.PricePerBlock(vmPrice, memPrice, r.codeSize, r.pages, |workers| % (L.U32_MAX + 1));
      assert price == L.PriceFor(State(), r, |workers|);
      if price == L.Unpayable {
        return Failed(L.Overflow);
      }
      var d, a, q, b := contractDeadlineByWorkers, paidInstancesByContracts, contractsRunningSidevm, balance;
      balance := balance + paid;
      var deadline := L.Min(blockNumber + r.ttl, L.U32_MAX);
      result := DeployFor(c, paid, L.Instance(workers, deadline, price.value), price.value * r.ttl);
      if result == Done && !system {
        result := Failed(L.SystemFailed);
      }
      if result != Done {
        Revert(d, a, q, b);
      }
    }

    /** The new deadline of a running instance, before the environment undoes a failure. */
    method Settle(c: L.AccountId, refund: nat, deadline: nat, system: bool) returns (result: Result)
      requires c in paidInstancesByContracts
      modifies this`balance, this`contractDeadlineByWorkers, this`paidInstancesByContracts, this`contractsRunningSidevm
      ensures L.Settle(old(State()), c, refund, deadline, system)
           == if result == Done then L.Ok(State()) else L.Err(result.error)
    {
      var refunded := Transfer(refund);
      if !refunded {
        return Failed(L.RefundPanic);
      }
      if deadline == blockNumber {
        var _ := ClearContract(c);
        return Done;
      }
      var current := paidInstancesByContracts[c];
      ghost var before := State();
      for i := 0 to |current.workers|
        invariant State() == before.(deadlines := contractDeadlineByWorkers)
        invariant L.RelistAll(contractDeadlineByWorkers, current.workers[i..], current.deadline, deadline)
               == L.RelistAll(before.deadlines, current.workers, current.deadline, deadline)
      {
        var worker := current.workers[i];
        assert current.workers[i..][1..] == current.workers[i + 1..];
        if current.deadline !in L.DeadlinesOf(contractDeadlineByWorkers, worker) {
          return Failed(L.NoDeadline);
        }
        contractDeadlineByWorkers := L.Relisted(contractDeadlineByWorkers, worker, current.deadline, deadline);
      }
      if !system {
        return Failed(L.SystemFailed);
      }
      paidInstancesByContracts := paidInstancesByContracts[c := current.(deadline := deadline)];
      return Done;
    }

    method Move(c: L.AccountId, paid: nat, deadline: nat, system: bool) returns (result: Result)
      requires c in paidInstancesByContracts
      modifies this`balance, this`contractDeadlineByWorkers, this`paidInstancesByContracts, this`contractsRunningSidevm
      ensures L.Move(old(State()), c, paid, deadline, system)
           == if result == Done then L.Ok(State()) else L.Err(result.error)
    {
      var current := paidInstancesByContracts[c];
      if deadline > current.deadline {
        var cost := current.price * (deadline - current.deadline);
        if cost > L.U128_MAX {
          return Failed(L.Overflow);
        }
        if paid < cost {
          return Failed(L.NotEnoughValue);
        }
        result := Settle(c, paid - cost, deadline, system);
      } else {
        var refund := current.price * (current.deadline - deadline);
        if refund > L.U128_MAX || paid + refund > L.U128_MAX {
          return Failed(L.Overflow);
        }
        result := Settle(c, paid + refund, deadline, system);
      }
    }

    method UpdateDeadline(c: L.AccountId, paid: nat, wanted: nat, inTx: bool, system: bool) returns (result: Result)
      modifies this`balance, this`contractDeadlineByWorkers, this`paidInstancesByContracts, this`contractsRunningSidevm
      ensures Follows(old(State()), State(), result, L.UpdateDeadline(old(State()), c, paid, wanted, inTx, system))
    {
      if !inTx {
        return Failed(L.NoTransaction);
      }
      if c !in paidInstancesByContracts {
        return Failed(L.NoInstances);
      }
      var d, a, q, b := contractDeadlineByWorkers, paidInstancesByContracts, contractsRunningSidevm, balance;
      balance := balance + paid;
      var deadline := if wanted < blockNumber then blockNumber else wanted;
      if deadline == paidInstancesByContracts[c].deadline {
        var refunded := Transfer(paid);
        result := if refunded then Done else Failed(L.RefundPanic);
      } else {
        result := Move(c, paid, deadline, system);
      }
      if result != Done {
        Revert(d, a, q, b);
      }
    }
  }
}
