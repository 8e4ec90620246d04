/**
  The ledger of paid SideVM instances: who runs where, until when, and for how much.

  `balance` is what the contract owns and `now` the current block number.  A call that ends in an
  error or a panic is reverted by the contract runtime: state and payment stay where they were.
  */
module SidevmLedger {

  // Worker and account ids are only ever compared for equality.
  type WorkerId = nat
  type AccountId = nat

  const U32_MAX: nat := 0xffff_ffff
  const U128_MAX: nat := 0xffff_ffff_ffff_ffff_ffff_ffff_ffff_ffff
  const PAGE_SIZE: nat := 65536

  datatype Instance = Instance(workers: seq<WorkerId>, deadline: nat, price: nat)

  datatype State = State(
    vmPrice: nat,
    memPrice: nat,
    limit: nat,
    deadlines: map<WorkerId, seq<nat>>,
    instances: map<AccountId, Instance>,
    running: seq<AccountId>,
    balance: int,
    now: nat)

  datatype Error =
    | NoTransaction | NoWorkers | NoMemory | LiveTooShort | Overflow | NotEnoughValue
    | NoAvailableWorkers | NoInstances | NoDeadline | SystemFailed
    | RefundPanic | RecyclePanic

  datatype Outcome = Ok(state: State) | Err(error: Error)

  function Min(a: nat, b: nat): nat {
    if a < b then a else b
  }

  function SaturatingSub(a: nat, b: nat): nat {
    if a < b then 0 else a - b
  }

  function New(vmPrice: nat, memPrice: nat, limit: nat, balance: nat, now: nat): State {
    State(vmPrice, memPrice, limit, map[], map[], [], balance, now)
  }

  // ---- pricing

  datatype Price = Unpayable | PerBlock(value: nat)

  function CheckedAdd(a: nat, b: nat): Price {
    if a + b > U128_MAX then Unpayable else PerBlock(a + b)
  }

  function CheckedMul(a: nat, b: nat): Price {
    if a * b > U128_MAX then Unpayable else PerBlock(a * b)
  }

  /** The price per block, unless a step of its computation overflows. */
  function PricePerBlock(vmPrice: nat, memPrice: nat, codeSize: nat, pages: nat, workers: nat): Price {
    var pageBytes := CheckedMul(pages, PAGE_SIZE);
    if pageBytes.Unpayable? then Unpayable else
    var memSize := CheckedAdd(pageBytes.value, codeSize);
    if memSize.Unpayable? then Unpayable else
    var memory := CheckedMul(memPrice, memSize.value);
    if memory.Unpayable? then Unpayable else
    var price := CheckedAdd(vmPrice, memory.value);
    if price.Unpayable? then Unpayable else CheckedMul(price.value, workers)
  }

  lemma GrowsWithWorkers(price: nat, workers: nat)
    requires 1 <= workers
    ensures price <= price * workers
  {
  }

  /** The same with the two products given. */
  lemma PriceFrom(vmPrice: nat, memPrice: nat, codeSize: nat, pages: nat, workers: nat, memory: nat, whole: nat)
    requires memory == memPrice * (pages * PAGE_SIZE + codeSize) && whole == (vmPrice + memory) * workers
    ensures PricePerBlock(vmPrice, memPrice, codeSize, pages, workers)
      == if pages * PAGE_SIZE + codeSize > U128_MAX || vmPrice + memory > U128_MAX || whole > U128_MAX then Unpayable
         else PerBlock(whole)
  {
  }

  /** The price is refused exactly when the memory, the price for one worker or the whole does not fit; if
      there is a worker, the whole is the largest of the prices. */
  lemma PriceRefusedIff(vmPrice: nat, memPrice: nat, codeSize: nat, pages: nat, workers: nat)
    ensures var memSize := pages * PAGE_SIZE + codeSize;
      var each := vmPrice + memPrice * memSize;
      && PricePerBlock(vmPrice, memPrice, codeSize, pages, workers)
           == (if memSize > U128_MAX || each > U128_MAX || each * workers > U128_MAX then Unpayable
               else PerBlock(each * workers))
      && (1 <= workers ==> each <= each * workers)
  {
    var memory: nat := memPrice * (pages * PAGE_SIZE + codeSize);
    var whole: nat := (vmPrice + memory) * workers;
    PriceFrom(vmPrice, memPrice, codeSize, pages, workers, memory, whole);
    if 1 <= workers {
      GrowsWithWorkers(vmPrice + memory, workers);
    }
  }

  /** What a redeployment credits for the time left, counted from the next block on. */
  function RemainingValue(s: State, c: AccountId): nat {
    if c !in s.instances then 0
    else
      var current := Min(s.now + 1, U32_MAX);
      if s.instances[c].deadline <= current then 0
      else Min(s.instances[c].price * (s.instances[c].deadline - current), U128_MAX)
  }

  // ---- the index by worker

  function DeadlinesOf(d: map<WorkerId, seq<nat>>, w: WorkerId): seq<nat> {
    if w in d then d[w] else []
  }

  function RemoveFirst(q: seq<nat>, x: nat): seq<nat> {
    if q == [] then []
    else if q[0] == x then q[1..]
    else [q[0]] + RemoveFirst(q[1..], x)
  }

  function Unlisted(d: map<WorkerId, seq<nat>>, w: WorkerId, deadline: nat): map<WorkerId, seq<nat>> {
    var rest := RemoveFirst(DeadlinesOf(d, w), deadline);
    if rest == [] then d - {w} else d[w := rest]
  }

  /** Removes a deadline from the list of each worker, up to a worker that has none. */
  function UnlistAll(d: map<WorkerId, seq<nat>>, workers: seq<WorkerId>, deadline: nat)
    : (map<WorkerId, seq<nat>>, bool)
    decreases |workers|
  {
    if workers == [] then (d, true)
    else if workers[0] !in d then (d, false)
    else UnlistAll(Unlisted(d, workers[0], deadline), workers[1..], deadline)
  }

  function Listed(d: map<WorkerId, seq<nat>>, w: WorkerId, deadline: nat): map<WorkerId, seq<nat>> {
    d[w := DeadlinesOf(d, w) + [deadline]]
  }

  function ListAll(d: map<WorkerId, seq<nat>>, workers: seq<WorkerId>, deadline: nat): map<WorkerId, seq<nat>>
    decreases |workers|
  {
    if workers == [] then d else ListAll(Listed(d, workers[0], deadline), workers[1..], deadline)
  }

  /** Replaces a deadline in the list of each worker. */
  function Relisted(d: map<WorkerId, seq<nat>>, w: WorkerId, deadline: nat, next: nat): map<WorkerId, seq<nat>> {
    d[w := RemoveFirst(DeadlinesOf(d, w), deadline) + [next]]
  }

  function RelistAll(d: map<WorkerId, seq<nat>>, workers: seq<WorkerId>, deadline: nat, next: nat)
    : (map<WorkerId, seq<nat>>, bool)
    decreases |workers|
  {
    if workers == [] then (d, true)
    else if deadline !in DeadlinesOf(d, workers[0]) then (d, false)
    else RelistAll(Relisted(d, workers[0], deadline, next), workers[1..], deadline, next)
  }

  // ---- the three indexes together

  function Without(q: seq<AccountId>, c: AccountId): seq<AccountId> {
    if q == [] then []
    else if q[0] == c then Without(q[1..], c)
    else [q[0]] + Without(q[1..], c)
  }

  /** Removes a contract's instances; the flag says whether all went well. */
  function Clear(s: State, c: AccountId): (State, bool) {
    var t := s.(running := Without(s.running, c));
    if c !in s.instances then (t, false)
    else
      var i := s.instances[c];
      var (d, ok) := UnlistAll(s.deadlines, i.workers, i.deadline);
      (t.(instances := s.instances - {c}, deadlines := d), ok)
  }

  function ClearEach(s: State, cs: seq<AccountId>): (State, bool)
    decreases |cs|
  {
    if cs == [] then (s, true)
    else
      var (t, ok) := Clear(s, cs[0]);
      if ok then ClearEach(t, cs[1..]) else (t, false)
  }

  /** The running contracts whose deadline has passed. */
  function Expired(s: State, q: seq<AccountId>): seq<AccountId> {
    if q == [] then []
    else if q[0] in s.instances && s.instances[q[0]].deadline < s.now then [q[0]] + Expired(s, q[1..])
    else Expired(s, q[1..])
  }

  predicate AllKnown(s: State) {
    forall c :: c in s.running ==> c in s.instances
  }

  function Recycle(s: State): (State, bool) {
    if AllKnown(s) then ClearEach(s, Expired(s, s.running)) else (s, false)
  }

  predicate Available(s: State, workers: seq<WorkerId>) {
    forall w :: w in workers ==> |DeadlinesOf(s.deadlines, w)| < s.limit
  }

  function Enter(s: State, c: AccountId, i: Instance): State {
    s.(instances := s.instances[c := i],
       deadlines := ListAll(s.deadlines, i.workers, i.deadline),
       running := s.running + [c])
  }

  function AddDeployInfo(s: State, c: AccountId, i: Instance): Outcome {
    var (t, recycled) := Recycle(s);
    if !recycled then Err(RecyclePanic)
    else
      var u := Clear(t, c).0;
      if !Available(u, i.workers) then Err(NoAvailableWorkers) else Ok(Enter(u, c, i))
  }

  // ---- the calls

  /** Removes repeats that stand next to each other. */
  function Dedup(q: seq<WorkerId>): seq<WorkerId> {
    if |q| <= 1 then q
    else if q[0] == q[1] then Dedup(q[1..])
    else [q[0]] + Dedup(q[1..])
  }

  /** Pays out of the balance; a payment the contract cannot make panics. */
  function Pay(s: State, amount: nat): Outcome {
    if amount > s.balance then Err(RefundPanic) else Ok(s.(balance := s.balance - amount))
  }

  /** A deployment that costs `required`; what is left of the available value goes back. */
  function DeployWith(s: State, c: AccountId, available: nat, i: Instance, required: nat): Outcome {
    if required > U128_MAX then Err(Overflow)
    else if available < required then Err(NotEnoughValue)
    else
      match Pay(s, available - required)
      case Err(e) => Err(e)
      case Ok(t) => AddDeployInfo(t, c, i)
  }

  /** The payment, which `s` has already received, and the value of the time left are available. */
  function DeployFor(s: State, c: AccountId, paid: nat, i: Instance, required: nat): Outcome {
    DeployWith(s, c, Min(paid + RemainingValue(s, c), U128_MAX), i, required)
  }

  function DeployAt(s: State, c: AccountId, paid: nat, workers: seq<WorkerId>, price: Price, ttl: nat): Outcome {
    match price
    case Unpayable => Err(Overflow)
    case PerBlock(p) =>
      DeployFor(s.(balance := s.balance + paid), c, paid, Instance(workers, Min(s.now + ttl, U32_MAX), p), p * ttl)
  }

  datatype Request = Request(codeSize: nat, workers: seq<WorkerId>, pages: nat, ttl: nat)

  /** The number of workers is cast to 32 bits. */
  function PriceFor(s: State, r: Request, workers: nat): Price {
    PricePerBlock(s.vmPrice, s.memPrice, r.codeSize, r.pages, workers % (U32_MAX + 1))
  }

  /** `inTx` says whether this is a transaction and `system` whether the system contract obeys. */
  function Deploy(s: State, c: AccountId, paid: nat, r: Request, inTx: bool, system: bool): Outcome {
    var workers := Dedup(r.workers);
    if !inTx then Err(NoTransaction)
    else if workers == [] then Err(NoWorkers)
    else if r.pages == 0 then Err(NoMemory)
    else if r.ttl == 0 then Err(LiveTooShort)
    else
      match DeployAt(s, c, paid, workers, PriceFor(s, r, |workers|), r.ttl)
      case Err(e) => Err(e)
      case Ok(t) => if system then Ok(t) else Err(SystemFailed)
  }

  /** A deadline change once it is known to be one; `s` has already received the payment. */
  function Move(s: State, c: AccountId, paid: nat, deadline: nat, system: bool): Outcome
    requires c in s.instances
  {
    var i := s.instances[c];
    if deadline > i.deadline then
      var cost := i.price * (deadline - i.deadline);
      if cost > U128_MAX then Err(Overflow)
      else if paid < cost then Err(NotEnoughValue)
      else Settle(s, c, paid - cost, deadline, system)
    else
      var refund := i.price * (i.deadline - deadline);
      if refund > U128_MAX || paid + refund > U128_MAX then Err(Overflow)
      else Settle(s, c, paid + refund, deadline, system)
  }

  function Settle(s: State, c: AccountId, refund: nat, deadline: nat, system: bool): Outcome
    requires c in s.instances
  {
    match Pay(s, refund)
    case Err(e) => Err(e)
    case Ok(t) =>
      if deadline == s.now then Ok(Clear(t, c).0)
      else
        var i := s.instances[c];
        var (d, ok) := RelistAll(t.deadlines, i.workers, i.deadline, deadline);
        if !ok then Err(NoDeadline)
        else if !system then Err(SystemFailed)
        else Ok(t.(deadlines := d, instances := t.instances[c := i.(deadline := deadline)]))
  }

  function UpdateDeadline(s: State, c: AccountId, paid: nat, deadline: nat, inTx: bool, system: bool): Outcome {
    if !inTx then Err(NoTransaction)
    else if c !in s.instances then Err(NoInstances)
    else
      var t := s.(balance := s.balance + paid);
      var target := if deadline < s.now then s.now else deadline;
      if target == s.instances[c].deadline then Pay(t, paid) else Move(t, c, paid, target, system)
  }

  datatype Event =
    | Deployed(caller: AccountId, paid: nat, request: Request, inTx: bool, system: bool)
    | DeadlineUpdated(caller: AccountId, paid: nat, deadline: nat, inTx: bool, system: bool)
    | PriceSet(vmPrice: nat, memPrice: nat)
    | LimitSet(limit: nat)
    | Donated(amount: nat)
    | BlockAdvanced

  function Call(s: State, e: Event): Outcome {
    match e
    case Deployed(c, paid, r, inTx, system) => Deploy(s, c, paid, r, inTx, system)
    case DeadlineUpdated(c, paid, deadline, inTx, system) => UpdateDeadline(s, c, paid, deadline, inTx, system)
    case PriceSet(vm, mem) => Ok(s.(vmPrice := vm, memPrice := mem))
    case LimitSet(limit) => Ok(s.(limit := limit))
    case Donated(amount) => Ok(s.(balance := s.balance + amount))
    case BlockAdvanced => Ok(s.(now := s.now + 1))
  }

  function Step(s: State, e: Event): State {
    match Call(s, e)
    case Ok(t) => t
    case Err(_) => s
  }

  /** Arguments fit the source's unsigned types. */
  predicate Enabled(s: State, e: Event) {
    match e
    case Deployed(_, paid, r, _, _) => paid <= U128_MAX && r.ttl <= U32_MAX
    case DeadlineUpdated(_, paid, deadline, _, _) => paid <= U128_MAX && deadline <= U32_MAX
    case BlockAdvanced => s.now < U32_MAX
    case _ => true
  }

  function Exec(s: State, events: seq<Event>): State
    decreases |events|
  {
    if events == [] then s else Exec(Step(s, events[0]), events[1..])
  }

  predicate Feasible(s: State, events: seq<Event>)
    decreases |events|
  {
    events == [] || (Enabled(s, events[0]) && Feasible(Step(s, events[0]), events[1..]))
  }
}
