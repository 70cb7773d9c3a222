/** Proxy and coordinator together, joined by unordered, lossy `channelUpdate` messages.

    The regime: one price, no final states, no checkpoints. Queries are in the single
    mode; payments may happen too, and records may be synchronised late, out of order
    and more than once.
 */
module Convergence {
  import opened Outcomes
  import opened Words
  import opened SignedStates
  import opened StateCaches
  import opened Manifest
  import opened Channel
  import Coordinator
  import Exposure

  // The mutation's arguments, as the coordinator reads them
  function Mutation(u: Update): Coordinator.Signed {
    Coordinator.Signed(u.spent, u.isFinal, Some(u.indexerSign), Some(u.consumerSign))
  }

  function UpdatedAll(r: Coordinator.Record, us: seq<Update>): Coordinator.Record {
    if us == [] then r else Coordinator.Updated(UpdatedAll(r, us[..|us| - 1]), Mutation(us[|us| - 1]))
  }

  // `history` holds every record the coordinator has published, the current one last.
  // Updates in flight are kept apart by what caused them; so are the lost ones.
  datatype System = System(
    entry: Entry,
    history: seq<Coordinator.Record>,
    queries: multiset<Update>, payments: multiset<Update>,
    lostQueries: multiset<Update>, lostPayments: multiset<Update>,
    delivered: seq<Update>, served: nat, deliveredPayments: nat)
  {
    function Record(): Coordinator.Record
      requires history != []
    {
      history[|history| - 1]
    }
  }

  datatype Move =
    | Query(state: QueryState, price: Price, limit: u64, ctx: Context)
    | Pay(state: QueryState, ctx: Context)
    | Deliver(update: Update, payment: bool)
    | Lose(update: Update, payment: bool)
    | Sync(index: nat, agent: Address, deployment: Hash, total: u256, expired: i64,
           consumer: Result<ConsumerType>, now: i64)

  predicate InRegime(m: Move) {
    match m
    case Query(state, _, _, _) => !state.isFinal
    case Pay(state, _) => !state.isFinal
    case Sync(_, _, _, _, expired, _, now) => now <= expired
    case _ => true
  }

  // The coordinator's spent amount as the proxy parses it
  function Parsed(n: nat): Result<u256> {
    if n < U256_MODULUS then Ok(n) else Err(Serialize(1123))
  }

  function SyncRecord(entry: Entry, r: Coordinator.Record, m: Move): Entry
    requires m.Sync?
  {
    if r.spent >= U256_MODULUS || r.remote >= U256_MODULUS || r.price >= U256_MODULUS then entry
    else
      var item := ChannelItem(m.agent, m.deployment, m.total, r.spent, r.remote, r.price, m.expired, r.lastFinal);
      HandleChannel(entry, item, m.consumer, m.now).entry
  }

  function Receive(s: System, u: Update): System
    requires s.history != []
  {
    s.(history := s.history + [Coordinator.Updated(s.Record(), Mutation(u))], delivered := s.delivered + [u])
  }

  function AfterQuery(s: System, m: Move): System
    requires s.history != [] && m.Query?
  {
    var step := ServeSingle(s.entry, m.state, m.price, m.limit, m.ctx);
    if step.reply.Err? then s
    else s.(entry := step.entry, queries := s.queries + multiset(step.sent), served := s.served + 1)
  }

  function AfterPay(s: System, m: Move): System
    requires s.history != [] && m.Pay?
  {
    var step := PayChannel(s.entry, m.state, Parsed(s.Record().spent), m.ctx);
    s.(entry := step.entry, payments := s.payments + multiset(step.sent))
  }

  function AfterDeliver(s: System, m: Move): System
    requires s.history != [] && m.Deliver?
  {
    var u := m.update;
    if m.payment && u in s.payments then
      Receive(s.(payments := s.payments - multiset{u}, deliveredPayments := s.deliveredPayments + 1), u)
    else if !m.payment && u in s.queries then
      Receive(s.(queries := s.queries - multiset{u}), u)
    else s
  }

  function AfterLose(s: System, m: Move): System
    requires m.Lose?
  {
    var u := m.update;
    if m.payment && u in s.payments then
      s.(payments := s.payments - multiset{u}, lostPayments := s.lostPayments + multiset{u})
    else if !m.payment && u in s.queries then
      s.(queries := s.queries - multiset{u}, lostQueries := s.lostQueries + multiset{u})
    else s
  }

  function AfterSync(s: System, m: Move): System
    requires m.Sync?
  {
    if m.index < |s.history| then s.(entry := SyncRecord(s.entry, s.history[m.index], m)) else s
  }

  // Moves that are not possible do nothing.
  function Next(s: System, m: Move): (s': System)
    requires s.history != []
    ensures s'.history != []
  {
    match m
    case Query(_, _, _, _) => AfterQuery(s, m)
    case Pay(_, _) => AfterPay(s, m)
    case Deliver(_, _) => AfterDeliver(s, m)
    case Lose(_, _) => AfterLose(s, m)
    case Sync(_, _, _, _, _, _, _) => AfterSync(s, m)
  }

  function RunMoves(s: System, ms: seq<Move>): (s': System)
    requires s.history != []
    ensures s'.history != []
    decreases |ms|
  {
    if ms == [] then s else RunMoves(Next(s, ms[0]), ms[1..])
  }

  // Just after the proxy has taken in the coordinator's record
  predicate Initial(s: System, cache: StateCache, r: Coordinator.Record) {
    && s == System(Ok(cache), [r], multiset{}, multiset{}, multiset{}, multiset{}, [], 0, 0)
    && cache.spent == r.spent && cache.price == r.price && !r.lastFinal
  }

  // The price of `n` queries
  function Charge(price: nat, n: nat): nat {
    if n == 0 then 0 else Charge(price, n - 1) + price
  }

  lemma {:induction false} ChargeIsProduct(price: nat, n: nat)
    ensures Charge(price, n) == price * n
  {
    if n > 0 {
      ChargeIsProduct(price, n - 1);
      assert price * n == price * (n - 1) + price;
    }
  }

  lemma {:induction false} ChargesAdd(price: nat, x: nat, y: nat)
    ensures Charge(price, x + y) == Charge(price, x) + Charge(price, y)
  {
    if y > 0 {
      ChargesAdd(price, x, y - 1);
    }
  }

  // Invariants, one concern each

  predicate Counted(s: System, r: Coordinator.Record)
    requires s.history != []
  {
    && s.Record() == UpdatedAll(r, s.delivered)
    && s.Record().spent == r.spent + Charge(r.price, |s.delivered|)
    && s.served + s.deliveredPayments == |s.queries| + |s.lostQueries| + |s.delivered|
  }

  predicate Published(s: System, r: Coordinator.Record)
    requires s.history != []
  {
    forall h <- s.history :: h.spent <= s.Record().spent && h.price == r.price && !h.lastFinal
  }

  predicate AllOpen(us: multiset<Update>) {
    forall u <- us :: !u.isFinal
  }

  predicate NoFinals(s: System) {
    AllOpen(s.queries) && AllOpen(s.payments)
  }

  predicate Bracketed(s: System, r: Coordinator.Record) {
    && s.entry.Ok? && s.entry.value.price == r.price
    && r.spent + Charge(r.price, s.served) <= s.entry.value.spent
    && s.entry.value.spent <= r.spent + Charge(r.price, s.served + s.deliveredPayments)
  }

  predicate Invariant(s: System, r: Coordinator.Record) {
    s.history != [] && Counted(s, r) && Published(s, r) && NoFinals(s) && Bracketed(s, r)
  }

  lemma SingleStep(entry: Entry, state: QueryState, price: Price, limit: u64, ctx: Context)
    requires entry.Ok? && !state.isFinal
    ensures var step := ServeSingle(entry, state, price, limit, ctx);
      if step.reply.Err? then step.entry == entry && step.sent == []
      else
        && step.entry.Ok? && step.entry.value.price == entry.value.price
        && step.entry.value.spent == entry.value.spent + entry.value.price
        && |step.sent| == 1 && !step.sent[0].isFinal
  {
  }

  lemma PayStep(entry: Entry, state: QueryState, paid: Result<u256>, ctx: Context)
    requires entry.Ok? && !state.isFinal
    ensures var step := PayChannel(entry, state, paid, ctx);
      && step.entry.Ok? && step.entry.value.price == entry.value.price && step.entry.value.spent == entry.value.spent
      && |step.sent| <= 1 && forall u <- step.sent :: !u.isFinal
  {
  }

  lemma SyncStep(entry: Entry, h: Coordinator.Record, m: Move)
    requires entry.Ok? && m.Sync? && m.now <= m.expired && !h.lastFinal && h.price == entry.value.price
    ensures var after := SyncRecord(entry, h, m);
      && after.Ok? && after.value.price == entry.value.price
      && (after.value.spent == entry.value.spent || after.value.spent == Max(entry.value.spent, h.spent))
    ensures
      (h.spent < U256_MODULUS && h.remote < U256_MODULUS && h.price < U256_MODULUS
       && m.now < m.expired && m.consumer.Ok?) ==>
      SyncRecord(entry, h, m).value.spent == Max(entry.value.spent, h.spent)
  {
  }

  lemma QueryKeepsInvariant(s: System, r: Coordinator.Record, m: Move)
    requires Invariant(s, r) && InRegime(m) && m.Query?
    ensures Invariant(AfterQuery(s, m), r)
  {
    SingleStep(s.entry, m.state, m.price, m.limit, m.ctx);
    var step := ServeSingle(s.entry, m.state, m.price, m.limit, m.ctx);
    if step.reply.Ok? {
      assert step.sent == [step.sent[0]];
    }
  }

  lemma PayKeepsInvariant(s: System, r: Coordinator.Record, m: Move)
    requires Invariant(s, r) && InRegime(m) && m.Pay?
    ensures Invariant(AfterPay(s, m), r)
  {
    PayStep(s.entry, m.state, Parsed(s.Record().spent), m.ctx);
    var sent := PayChannel(s.entry, m.state, Parsed(s.Record().spent), m.ctx).sent;
    assert sent == [] || sent == [sent[0]];
  }

  lemma DeliverQueryKeepsInvariant(s: System, r: Coordinator.Record, u: Update)
    requires Invariant(s, r) && u in s.queries
    ensures Invariant(Receive(s.(queries := s.queries - multiset{u}), u), r)
  {
  }

  lemma DeliverPaymentKeepsInvariant(s: System, r: Coordinator.Record, u: Update)
    requires Invariant(s, r) && u in s.payments
    ensures var rest := s.(payments := s.payments - multiset{u}, deliveredPayments := s.deliveredPayments + 1);
      Invariant(Receive(rest, u), r)
  {
  }

  lemma DeliveredAtMostServed(s: System, r: Coordinator.Record)
    requires s.history != [] && Counted(s, r)
    ensures r.spent + Charge(r.price, s.served + s.deliveredPayments)
         == s.Record().spent + Charge(r.price, |s.queries| + |s.lostQueries|)
  {
    ChargesAdd(r.price, |s.delivered|, |s.queries| + |s.lostQueries|);
  }

  lemma SyncKeepsInvariant(s: System, r: Coordinator.Record, m: Move)
    requires Invariant(s, r) && InRegime(m) && m.Sync?
    ensures Invariant(AfterSync(s, m), r)
    ensures s.deliveredPayments == 0 ==> AfterSync(s, m).entry.value.spent == s.entry.value.spent
  {
    if m.index < |s.history| {
      var h := s.history[m.index];
      assert h in s.history;
      SyncStep(s.entry, h, m);
      DeliveredAtMostServed(s, r);
    }
  }

  lemma MoveKeepsInvariant(s: System, r: Coordinator.Record, m: Move)
    requires Invariant(s, r) && InRegime(m)
    ensures Invariant(Next(s, m), r)
  {
    match m
    case Query(_, _, _, _) => QueryKeepsInvariant(s, r, m);
    case Pay(_, _) => PayKeepsInvariant(s, r, m);
    case Deliver(u, payment) =>
      if payment && u in s.payments {
        DeliverPaymentKeepsInvariant(s, r, u);
      } else if !payment && u in s.queries {
        DeliverQueryKeepsInvariant(s, r, u);
      }
    case Lose(u, payment) =>
      if payment && u in s.payments {
        LosePaymentKeepsInvariant(s, r, u);
      } else if !payment && u in s.queries {
        LoseQueryKeepsInvariant(s, r, u);
      }
    case Sync(_, _, _, _, _, _, _) => SyncKeepsInvariant(s, r, m);
  }

  lemma LoseQueryKeepsInvariant(s: System, r: Coordinator.Record, u: Update)
    requires Invariant(s, r) && u in s.queries
    ensures Invariant(s.(queries := s.queries - multiset{u}, lostQueries := s.lostQueries + multiset{u}), r)
  {
  }

  lemma LosePaymentKeepsInvariant(s: System, r: Coordinator.Record, u: Update)
    requires Invariant(s, r) && u in s.payments
    ensures Invariant(s.(payments := s.payments - multiset{u}, lostPayments := s.lostPayments + multiset{u}), r)
  {
  }

  lemma {:induction false} RunKeepsInvariant(s: System, r: Coordinator.Record, ms: seq<Move>)
    requires Invariant(s, r) && forall m <- ms :: InRegime(m)
    ensures Invariant(RunMoves(s, ms), r)
    decreases |ms|
  {
    if ms != [] {
      MoveKeepsInvariant(s, r, ms[0]);
      RunKeepsInvariant(Next(s, ms[0]), r, ms[1..]);
    }
  }

  lemma ReachableInvariant(s: System, cache: StateCache, r: Coordinator.Record, ms: seq<Move>)
    requires Initial(s, cache, r) && forall m <- ms :: InRegime(m)
    ensures Invariant(RunMoves(s, ms), r)
  {
    RunKeepsInvariant(s, r, ms);
  }

  // How far the proxy's amount stays behind the coordinator's once everything has arrived
  function Gap(t: System, price: nat): int
    requires t.history != [] && t.entry.Ok?
  {
    t.Record().spent + price * (|t.queries| + |t.lostQueries|) - t.entry.value.spent
  }

  // The same in terms of what the proxy served and the payments that arrived
  lemma GapIsCharge(t: System, r: Coordinator.Record)
    requires Invariant(t, r)
    ensures Gap(t, r.price) == r.spent + Charge(r.price, t.served + t.deliveredPayments) - t.entry.value.spent
  {
    DeliveredAtMostServed(t, r);
    ChargeIsProduct(r.price, |t.queries| + |t.lostQueries|);
  }

  predicate Bounded(t: System, price: nat)
    requires t.history != []
  {
    && t.entry.Ok?
    && 0 <= Gap(t, price) <= price * t.deliveredPayments
    && (t.deliveredPayments == 0 ==> Gap(t, price) == 0)
  }

  lemma InvariantBoundsGap(t: System, r: Coordinator.Record)
    requires Invariant(t, r)
    ensures Bounded(t, r.price)
  {
    GapIsCharge(t, r);
    ChargesAdd(r.price, t.served, t.deliveredPayments);
    ChargeIsProduct(r.price, t.deliveredPayments);
  }

  /** In every reachable state the proxy leads the coordinator by exactly the updates that
      have not arrived, as long as no payment has; every payment that arrived blurs this by
      at most one price. */
  lemma SpentAmountsAgree(s: System, cache: StateCache, r: Coordinator.Record, ms: seq<Move>)
    requires Initial(s, cache, r) && forall m <- ms :: InRegime(m)
    ensures Bounded(RunMoves(s, ms), r.price)
  {
    ReachableInvariant(s, cache, r, ms);
    InvariantBoundsGap(RunMoves(s, ms), r);
  }

  predicate Unsynced(s: System, r: Coordinator.Record) {
    s.entry.Ok? && s.entry.value.spent == r.spent + Charge(r.price, s.served)
  }

  lemma MoveKeepsUnsynced(s: System, r: Coordinator.Record, m: Move)
    requires Invariant(s, r) && InRegime(m) && !m.Sync? && Unsynced(s, r)
    ensures Unsynced(Next(s, m), r)
  {
    MoveShifts(s, r, m);
  }

  lemma {:induction false} RunKeepsUnsynced(s: System, r: Coordinator.Record, ms: seq<Move>)
    requires Invariant(s, r) && Unsynced(s, r) && forall m <- ms :: InRegime(m) && !m.Sync?
    ensures Unsynced(RunMoves(s, ms), r)
    decreases |ms|
  {
    if ms != [] {
      MoveKeepsInvariant(s, r, ms[0]);
      MoveKeepsUnsynced(s, r, ms[0]);
      RunKeepsUnsynced(Next(s, ms[0]), r, ms[1..]);
    }
  }

  // The gap before any record is synchronised
  predicate Exact(t: System, r: Coordinator.Record)
    requires t.history != []
  {
    && t.entry.Ok?
    && t.entry.value.spent == r.spent + r.price * t.served
    && Gap(t, r.price) == r.price * t.deliveredPayments
    && (Gap(t, r.price) == 0 <==> r.price == 0 || t.deliveredPayments == 0)
  }

  lemma UnsyncedIsExact(t: System, r: Coordinator.Record)
    requires Invariant(t, r) && Unsynced(t, r)
    ensures Exact(t, r)
  {
    GapIsCharge(t, r);
    ChargesAdd(r.price, t.served, t.deliveredPayments);
    ChargeIsProduct(r.price, t.served);
    ChargeIsProduct(r.price, t.deliveredPayments);
    ZeroProduct(r.price, t.deliveredPayments);
  }

  lemma ZeroProduct(a: nat, b: nat)
    ensures a * b == 0 <==> a == 0 || b == 0
  {
  }

  /** Until a record is synchronised the gap is one price for each payment that arrived: the
      two amounts agree exactly when none has, or the price is zero. */
  lemma PaymentsAreTheGap(s: System, cache: StateCache, r: Coordinator.Record, ms: seq<Move>)
    requires Initial(s, cache, r) && forall m <- ms :: InRegime(m) && !m.Sync?
    ensures Exact(RunMoves(s, ms), r)
  {
    ReachableInvariant(s, cache, r, ms);
    InitialInvariant(s, cache, r);
    RunKeepsUnsynced(s, r, ms);
    UnsyncedIsExact(RunMoves(s, ms), r);
  }

  lemma InitialInvariant(s: System, cache: StateCache, r: Coordinator.Record)
    requires Initial(s, cache, r)
    ensures Invariant(s, r) && Unsynced(s, r)
  {
  }

  predicate ArrivingPayment(t: System, m: Move) {
    m.Deliver? && m.payment && m.update in t.payments
  }

  // What a record would add to the proxy's amount
  function Raise(t: System, m: Move): nat
    requires m.Sync? && t.entry.Ok?
  {
    if m.index < |t.history| then Max(0, t.history[m.index].spent - t.entry.value.spent) else 0
  }

  // How a move changes what was charged, and what was served or arrived
  predicate Shifts(t: System, t': System, m: Move, price: nat)
    requires t.entry.Ok?
  {
    && t'.entry.Ok?
    && var (n, n') := (t.served + t.deliveredPayments, t'.served + t'.deliveredPayments);
       var charged := t'.entry.value.spent - t.entry.value.spent;
       if ArrivingPayment(t, m) then n' == n + 1 && t'.served == t.served && charged == 0
       else if m.Sync? then n' == n && (charged == 0 || charged == Raise(t, m))
       else
         && t'.deliveredPayments == t.deliveredPayments
         && ((n' == n && charged == 0) || (n' == n + 1 && charged == price))
  }

  lemma MoveShifts(t: System, r: Coordinator.Record, m: Move)
    requires Invariant(t, r) && InRegime(m)
    ensures Shifts(t, Next(t, m), m, r.price)
  {
    match m
    case Query(state, price, limit, ctx) => SingleStep(t.entry, state, price, limit, ctx);
    case Pay(state, ctx) => PayStep(t.entry, state, Parsed(t.Record().spent), ctx);
    case Deliver(_, _) =>
    case Lose(_, _) =>
    case Sync(index, _, _, _, _, _, _) =>
      if index < |t.history| {
        assert t.history[index] in t.history;
        SyncStep(t.entry, t.history[index], m);
      }
  }

  // How a move changes the gap
  predicate ShiftsGap(t: System, t': System, m: Move, price: nat)
    requires t.history != [] && t'.history != [] && t.entry.Ok?
  {
    && t'.entry.Ok?
    && var (before, after) := (Gap(t, price), Gap(t', price));
       if ArrivingPayment(t, m) then after == before + price
       else if m.Sync? then after == before || after == before - Raise(t, m)
       else after == before
  }

  lemma ShiftMovesGap(t: System, t': System, r: Coordinator.Record, m: Move)
    requires Invariant(t, r) && Invariant(t', r) && Shifts(t, t', m, r.price)
    ensures ShiftsGap(t, t', m, r.price)
  {
    GapIsCharge(t, r);
    GapIsCharge(t', r);
  }

  /** What each move does to the gap of a reachable state: a payment that arrives widens it by
      one price, and only a synchronisation narrows it, by what the record adds. */
  lemma OnlySyncsCloseTheGap(s: System, cache: StateCache, r: Coordinator.Record, ms: seq<Move>, m: Move)
    requires Initial(s, cache, r) && (forall m <- ms :: InRegime(m)) && InRegime(m)
    ensures var t := RunMoves(s, ms); t.entry.Ok? && ShiftsGap(t, Next(t, m), m, r.price)
  {
    var t := RunMoves(s, ms);
    ReachableInvariant(s, cache, r, ms);
    MoveKeepsInvariant(t, r, m);
    MoveShifts(t, r, m);
    ShiftMovesGap(t, Next(t, m), r, m);
  }

  /** Before any payment arrives, synchronising any record published so far leaves the
      proxy's amount unchanged. */
  lemma StaleSyncChangesNothing(s: System, cache: StateCache, r: Coordinator.Record, ms: seq<Move>, m: Move)
    requires Initial(s, cache, r) && (forall m <- ms :: InRegime(m)) && InRegime(m) && m.Sync?
    requires RunMoves(s, ms).deliveredPayments == 0
    ensures var t := RunMoves(s, ms);
      t.entry.Ok? && Next(t, m).entry.Ok? && Next(t, m).entry.value.spent == t.entry.value.spent
  {
    ReachableInvariant(s, cache, r, ms);
    SyncKeepsInvariant(RunMoves(s, ms), r, m);
  }

  // The highest signed amount

  predicate Highest(remote: nat, r: Coordinator.Record, us: multiset<Update>) {
    && r.remote <= remote
    && (forall u <- us :: u.spent <= remote)
    && (remote == r.remote || exists u <- us :: u.spent == remote)
  }

  lemma {:induction false} UpdatesReachHighest(r: Coordinator.Record, us: seq<Update>)
    ensures Highest(UpdatedAll(r, us).remote, r, multiset(us))
  {
    if us != [] {
      var n := |us| - 1;
      UpdatesReachHighest(r, us[..n]);
      assert us == us[..n] + [us[n]];
    }
  }

  /** Any order of the same updates gives the same amounts, and the highest signed one. */
  lemma UpdateOrderIsIrrelevant(r: Coordinator.Record, xs: seq<Update>, ys: seq<Update>)
    requires multiset(xs) == multiset(ys)
    ensures UpdatedAll(r, xs).remote == UpdatedAll(r, ys).remote
    ensures UpdatedAll(r, xs).spent == UpdatedAll(r, ys).spent
  {
    UpdatesReachHighest(r, xs);
    UpdatesReachHighest(r, ys);
    UpdatesCount(r, xs);
    UpdatesCount(r, ys);
    assert |xs| == |multiset(xs)| == |multiset(ys)| == |ys|;
  }

  lemma {:induction false} UpdatesCount(r: Coordinator.Record, us: seq<Update>)
    ensures UpdatedAll(r, us).spent == r.spent + Charge(r.price, |us|)
    ensures UpdatedAll(r, us).price == r.price
  {
    if us != [] {
      UpdatesCount(r, us[..|us| - 1]);
    }
  }

  // Everything sent so far, wherever it is
  function Sent(s: System): multiset<Update> {
    s.queries + s.payments + s.lostQueries + s.lostPayments + multiset(s.delivered)
  }

  // What the moves of a run submit, read off the proxy's replies
  function SubmittedBy(s: System, m: Move): multiset<Update>
    requires s.history != []
  {
    match m
    case Query(state, price, limit, ctx) => multiset(ServeSingle(s.entry, state, price, limit, ctx).sent)
    case Pay(state, ctx) => multiset(PayChannel(s.entry, state, Parsed(s.Record().spent), ctx).sent)
    case _ => multiset{}
  }

  function Submissions(s: System, ms: seq<Move>): multiset<Update>
    requires s.history != []
    decreases |ms|
  {
    if ms == [] then multiset{} else SubmittedBy(s, ms[0]) + Submissions(Next(s, ms[0]), ms[1..])
  }

  lemma RefusedSendsNothing(entry: Entry, state: QueryState, price: Price, limit: u64, ctx: Context)
    ensures var step := ServeSingle(entry, state, price, limit, ctx); step.reply.Err? ==> step.sent == []
  {
  }

  lemma SentByOne(s: System, m: Move)
    requires s.history != []
    ensures Sent(Next(s, m)) == Sent(s) + SubmittedBy(s, m)
  {
    match m
    case Query(state, price, limit, ctx) =>
      RefusedSendsNothing(s.entry, state, price, limit, ctx);
      Regroup(s.queries, SubmittedBy(s, m), s.payments, s.lostQueries, s.lostPayments, multiset(s.delivered));
    case Pay(state, ctx) =>
      Regroup(s.payments, SubmittedBy(s, m), s.queries, s.lostQueries, s.lostPayments, multiset(s.delivered));
    case Deliver(u, payment) =>
      assert multiset(s.delivered + [u]) == multiset(s.delivered) + multiset{u};
      DeliverMovesOne(s, m);
    case Lose(_, _) =>
      LoseMovesOne(s, m);
    case Sync(_, _, _, _, _, _, _) =>
  }

  lemma Regroup(
      a: multiset<Update>, x: multiset<Update>, b: multiset<Update>, c: multiset<Update>, d: multiset<Update>,
      e: multiset<Update>)
    ensures (a + x) + b + c + d + e == a + b + c + d + e + x
    ensures b + (a + x) + c + d + e == b + a + c + d + e + x
  {
  }

  lemma DeliverMovesOne(s: System, m: Move)
    requires s.history != [] && m.Deliver?
    ensures Sent(AfterDeliver(s, m)) == Sent(s)
  {
  }

  lemma LoseMovesOne(s: System, m: Move)
    requires m.Lose?
    ensures Sent(AfterLose(s, m)) == Sent(s)
  {
  }

  /** No update is forged or duplicated on the way. */
  lemma {:induction false} NothingIsForged(s: System, ms: seq<Move>)
    requires s.history != []
    ensures Sent(RunMoves(s, ms)) == Sent(s) + Submissions(s, ms)
    decreases |ms|
  {
    if ms != [] {
      SentByOne(s, ms[0]);
      NothingIsForged(Next(s, ms[0]), ms[1..]);
    }
  }

  predicate Drained(s: System) {
    s.queries == s.payments == s.lostQueries == s.lostPayments == multiset{}
  }

  // The record's signed state is that of an update, field by field.
  predicate HoldsUpdate(record: Coordinator.Record, u: Update) {
    && record.remote == u.spent && record.lastFinal == u.isFinal
    && record.lastIndexerSign == Some(u.indexerSign) && record.lastConsumerSign == Some(u.consumerSign)
  }

  lemma {:induction false} UpdatesHoldOne(r: Coordinator.Record, us: seq<Update>)
    ensures Coordinator.TupleOf(UpdatedAll(r, us)) == Coordinator.TupleOf(r)
         || exists u <- us :: HoldsUpdate(UpdatedAll(r, us), u)
  {
    if us != [] {
      var n := |us| - 1;
      UpdatesHoldOne(r, us[..n]);
      assert us[n] in us && forall u <- us[..n] :: u in us;
    }
  }

  /** In every reachable state the coordinator holds the signed state it started with, or one
      the proxy submitted, with its amount, its final flag and both signatures. */
  lemma CoordinatorHoldsSubmitted(s: System, cache: StateCache, r: Coordinator.Record, ms: seq<Move>)
    requires Initial(s, cache, r) && forall m <- ms :: InRegime(m)
    ensures var record := RunMoves(s, ms).Record();
      || Coordinator.TupleOf(record) == Coordinator.TupleOf(r)
      || exists u <- Submissions(s, ms) :: HoldsUpdate(record, u)
  {
    ReachableInvariant(s, cache, r, ms);
    HoldsDelivered(RunMoves(s, ms), r);
    NothingIsForged(s, ms);
    assert Sent(s) == multiset{};
  }

  lemma HoldsDelivered(t: System, r: Coordinator.Record)
    requires Invariant(t, r)
    ensures Coordinator.TupleOf(t.Record()) == Coordinator.TupleOf(r)
         || exists u <- Sent(t) :: HoldsUpdate(t.Record(), u)
  {
    UpdatesHoldOne(r, t.delivered);
    assert forall u <- t.delivered :: u in Sent(t);
  }

  predicate Converged(t: System, r: Coordinator.Record, submitted: multiset<Update>)
    requires t.history != []
  {
    && Highest(t.Record().remote, r, submitted)
    && t.entry.Ok?
    && (t.deliveredPayments == 0 ==> t.entry.value.spent == t.Record().spent)
  }

  lemma DrainedConverges(t: System, r: Coordinator.Record)
    requires Invariant(t, r) && Drained(t)
    ensures Converged(t, r, Sent(t))
  {
    assert Sent(t) == multiset(t.delivered);
    UpdatesReachHighest(r, t.delivered);
    InvariantBoundsGap(t, r);
  }

  /** Once everything has arrived, in whatever order, the coordinator holds the highest
      amount ever submitted, and without payments both sides agree on what was spent. */
  lemma DrainedSystemConverges(s: System, cache: StateCache, r: Coordinator.Record, ms: seq<Move>)
    requires Initial(s, cache, r) && forall m <- ms :: InRegime(m)
    requires Drained(RunMoves(s, ms))
    ensures Converged(RunMoves(s, ms), r, Submissions(s, ms))
  {
    ReachableInvariant(s, cache, r, ms);
    DrainedConverges(RunMoves(s, ms), r);
    NothingIsForged(s, ms);
    assert Sent(s) == multiset{};
  }

  // A synchronisation that takes in the current record
  predicate SyncsCurrent(t: System, m: Move)
    requires t.history != []
  {
    && m.Sync? && m.index == |t.history| - 1 && m.now < m.expired && m.consumer.Ok?
    && t.Record().spent < U256_MODULUS && t.Record().remote < U256_MODULUS && t.Record().price < U256_MODULUS
  }

  // Both sides have counted the same, at one price a query and a payment.
  predicate Settled(t: System, t': System, r: Coordinator.Record)
    requires t.history != []
  {
    && t'.entry.Ok? && t'.entry.value.spent == t.Record().spent
    && t.Record().spent == r.spent + r.price * (t.served + t.deliveredPayments)
  }

  lemma SyncOfCurrentRecord(t: System, r: Coordinator.Record, m: Move)
    requires Invariant(t, r) && Drained(t) && SyncsCurrent(t, m)
    ensures Settled(t, Next(t, m), r)
  {
    assert t.Record() in t.history;
    SyncStep(t.entry, t.Record(), m);
    ChargeIsProduct(r.price, |t.delivered|);
  }

  /** With payments too, synchronising the drained coordinator's record makes the two agree:
      every payment is then counted on both sides as one query. */
  lemma FinalSyncAgrees(s: System, cache: StateCache, r: Coordinator.Record, ms: seq<Move>, m: Move)
    requires Initial(s, cache, r) && (forall m <- ms :: InRegime(m)) && Drained(RunMoves(s, ms))
    requires SyncsCurrent(RunMoves(s, ms), m)
    ensures Settled(RunMoves(s, ms), Next(RunMoves(s, ms), m), r)
  {
    ReachableInvariant(s, cache, r, ms);
    SyncOfCurrentRecord(RunMoves(s, ms), r, m);
  }

  // A fresh channel at a price of one
  const FRESH_CACHE := Exposure.SampleCache(1, 100, 0, 0, 0)
  const FRESH_RECORD := Coordinator.Record(1, 0, 0, 0, false, None, None)
  const FRESH := System(Ok(FRESH_CACHE), [FRESH_RECORD], multiset{}, multiset{}, multiset{}, multiset{}, [], 0, 0)

  function FirstPayment(payment: QueryState): Update {
    Update(5, false, Exposure.SIGN, payment.consumerSign)
  }

  function AfterFirstPayment(payment: QueryState): System {
    FRESH.(entry := Ok(FRESH_CACHE.(remote := 5)), payments := multiset{FirstPayment(payment)})
  }

  function FirstPaymentCounted(payment: QueryState): System {
    var u := FirstPayment(payment);
    var counted := Coordinator.Record(1, 1, 5, 0, false, Some(u.indexerSign), Some(u.consumerSign));
    AfterFirstPayment(payment).(
      payments := multiset{}, history := [FRESH_RECORD, counted], delivered := [u], deliveredPayments := 1)
  }

  lemma FirstPaymentSteps(payment: QueryState)
    requires payment.spent == 5 && !payment.isFinal
    ensures Next(FRESH, Move.Pay(payment, Exposure.KNOWN)) == AfterFirstPayment(payment)
    ensures Next(AfterFirstPayment(payment), Deliver(FirstPayment(payment), true)) == FirstPaymentCounted(payment)
  {
    var step := PayChannel(FRESH.entry, payment, Ok(0), Exposure.KNOWN);
    assert step.entry == Ok(FRESH_CACHE.(remote := 5)) && step.sent == [FirstPayment(payment)];
    var u := FirstPayment(payment);
    assert AfterFirstPayment(payment).payments - multiset{u} == multiset{};
  }

  lemma TwoMoves(s: System, a: Move, b: Move)
    requires s.history != []
    ensures RunMoves(s, [a, b]) == Next(Next(s, a), b)
  {
    assert [a, b][1..] == [b] && [b][1..] == [];
    assert RunMoves(Next(s, a), [b]) == RunMoves(Next(Next(s, a), b), []);
  }

  const FRESH_SYNC := Move.Sync(1, FRESH_CACHE.agent, FRESH_CACHE.deployment, 100, 1, Ok(FRESH_CACHE.signer), 0)

  lemma FirstPaymentSynced(payment: QueryState)
    ensures var t := FirstPaymentCounted(payment);
      && Drained(t) && t.served == 0
      && t.entry.Ok? && t.entry.value.spent == 0 && t.Record().spent == 1
      && Next(t, FRESH_SYNC).entry.Ok? && Next(t, FRESH_SYNC).entry.value.spent == 1
  {
  }

  /** One payment is enough to part the two: the coordinator counts it as a query, and the
      next record charges the consumer for a query that was never served. */
  lemma PaymentPartsThem(payment: QueryState) returns (ms: seq<Move>)
    requires payment.spent == 5 && !payment.isFinal
    ensures Initial(FRESH, FRESH_CACHE, FRESH_RECORD) && (forall m <- ms :: InRegime(m)) && InRegime(FRESH_SYNC)
    ensures var t := RunMoves(FRESH, ms);
      && Drained(t) && t.served == 0
      && t.entry.Ok? && t.entry.value.spent == 0 && t.Record().spent == 1
      && Next(t, FRESH_SYNC).entry.Ok? && Next(t, FRESH_SYNC).entry.value.spent == 1
  {
    var pay, deliver := Move.Pay(payment, Exposure.KNOWN), Deliver(FirstPayment(payment), true);
    ms := [pay, deliver];
    FirstPaymentSteps(payment);
    TwoMoves(FRESH, pay, deliver);
    FirstPaymentSynced(payment);
  }
}
