/** The single mode: how much work is done on credit, and the total deposit. */
module Credit {
  import opened Outcomes
  import opened Products
  import opened Words
  import opened SignedStates
  import opened StateCaches
  import opened Manifest
  import opened Channel
  import opened Exposure

  // Credit. `best` is the largest signed amount seen so far.

  predicate WithinCredit(cache: StateCache, best: nat, price: u256, limit: u64) {
    && cache.price == price
    && cache.conflictTimes <= limit
    && cache.spent <= best + price * (1 + cache.conflictTimes)
  }

  predicate CreditEntry(entry: Entry, best: nat, price: u256, limit: u64) {
    entry.Ok? ==> WithinCredit(entry.value, best, price, limit)
  }

  function Better(best: nat, e: Event): nat {
    match e
    case Single(query, _, _, _) => Max(best, query.spent)
    case Pay(query, _, _) => Max(best, query.spent)
    case Sync(item, _, _) => Max(best, item.remote)
    case _ => best
  }

  // A weight that counts and cannot wrap the counter.
  predicate ProperWeight(weight: u64, limit: u64) {
    1 <= weight && limit + weight < U64_MODULUS
  }

  // Queries under one limit, payments, and records of the same price that either lag
  // behind the proxy or start from at most one unpaid query.
  predicate CreditEvent(entry: Entry, best: nat, price: u256, limit: u64, e: Event) {
    match e
    case Single(_, p, l, _) => l == limit && ProperWeight(p.weight, limit)
    case Pay(_, _, _) => true
    case Sync(item, _, _) =>
      && item.price == price
      && (item.spent <= Max(best, item.remote) + price || (entry.Ok? && item.spent <= entry.value.spent))
    case _ => false
  }

  predicate CreditRun(entry: Entry, best: nat, price: u256, limit: u64, es: seq<Event>)
    decreases |es|
  {
    es == [] || (
      && CreditEvent(entry, best, price, limit, es[0])
      && CreditRun(Apply(entry, es[0]), Better(best, es[0]), price, limit, es[1..]))
  }

  function BestOf(best: nat, es: seq<Event>): nat
    decreases |es|
  {
    if es == [] then best else BestOf(Better(best, es[0]), es[1..])
  }

  lemma Distributes(a: nat, x: nat, y: nat)
    requires x + 1 <= y
    ensures a * x + a <= a * y
  {
    ProductMonotone(a, x + 1, y);
    assert a * (x + 1) == a * x + a;
  }

  lemma SingleKeepsCredit(entry: Entry, best: nat, price: u256, limit: u64, query: QueryState, p: Price, ctx: Context)
    requires entry.Ok? && CreditEntry(entry, best, price, limit) && ProperWeight(p.weight, limit)
    ensures CreditEntry(ServeSingle(entry, query, p, limit, ctx).entry, Max(best, query.spent), price, limit)
  {
    var before := entry.value;
    var charged := SingleCache(before, query, p, limit, ctx);
    if charged.Ok? && !query.isFinal {
      var after := charged.value;
      assert after.spent == before.spent + price;
      if after.conflictTimes != before.conflictTimes {
        assert after.conflictTimes == before.conflictTimes + p.weight;
        Distributes(price, 1 + before.conflictTimes, 1 + after.conflictTimes);
      } else {
        assert before.spent <= query.spent;
        Distributes(price, 0, 1 + after.conflictTimes);
      }
    }
  }

  lemma EventKeepsCredit(entry: Entry, best: nat, price: u256, limit: u64, e: Event)
    requires CreditEntry(entry, best, price, limit) && CreditEvent(entry, best, price, limit, e)
    ensures CreditEntry(Apply(entry, e), Better(best, e), price, limit)
  {
    match e
    case Single(query, p, l, ctx) =>
      if entry.Ok? {
        SingleKeepsCredit(entry, best, price, limit, query, p, ctx);
      }
    case Pay(query, paid, ctx) =>
    case Sync(item, consumer, now) =>
      var after := Apply(entry, e);
      if after.Ok? {
        ProductMonotone(price, 1, 1 + after.value.conflictTimes);
      }
  }

  /** Over every such run from at most one unpaid query, the conflict counter stays within
      its limit and the unpaid work within one price for each counted conflict and one. */
  lemma {:induction false} CreditBound(entry: Entry, best: nat, price: u256, limit: u64, es: seq<Event>)
    requires CreditEntry(entry, best, price, limit) && CreditRun(entry, best, price, limit, es)
    ensures CreditEntry(Run(entry, es), BestOf(best, es), price, limit)
    decreases |es|
  {
    if es != [] {
      EventKeepsCredit(entry, best, price, limit, es[0]);
      CreditBound(Apply(entry, es[0]), Better(best, es[0]), price, limit, es[1..]);
    }
  }

  // The prices a project charges for non-empty queries
  ghost predicate Charges(ptype: ProjectType, p: Price) {
    exists q: Query :: (q.Calls? ==> q.names != []) && QueryPrice(ptype, q) == Ok(p)
  }

  // Runs whose queries carry the limit and an allowed price
  ghost predicate AllowedRun(
      allowed: Price -> bool, entry: Entry, best: nat, price: u256, limit: u64, es: seq<Event>)
    decreases |es|
  {
    es == [] || (
      && (if es[0].Single? then es[0].limit == limit && allowed(es[0].price)
          else CreditEvent(entry, best, price, limit, es[0]))
      && AllowedRun(allowed, Apply(entry, es[0]), Better(best, es[0]), price, limit, es[1..]))
  }

  // No conflict, and at most one unpaid query
  predicate InGoodStanding(cache: StateCache) {
    cache.conflictTimes == 0 && cache.spent <= cache.remote + cache.price
  }

  // The credit bound holds after every allowed run from a channel in good standing.
  ghost predicate CreditHolds(allowed: Price -> bool, limit: u64) {
    forall cache: StateCache, es: seq<Event> ::
      InGoodStanding(cache) && AllowedRun(allowed, Ok(cache), cache.remote, cache.price, limit, es) ==>
        CreditEntry(Run(Ok(cache), es), BestOf(cache.remote, es), cache.price, limit)
  }

  ghost predicate ProperPrices(allowed: Price -> bool, limit: u64) {
    forall p: Price | allowed(p) :: ProperWeight(p.weight, limit)
  }

  lemma {:induction false} AllowedRunIsCreditRun(
      allowed: Price -> bool, entry: Entry, best: nat, price: u256, limit: u64, es: seq<Event>)
    requires ProperPrices(allowed, limit) && AllowedRun(allowed, entry, best, price, limit, es)
    ensures CreditRun(entry, best, price, limit, es)
    decreases |es|
  {
    if es != [] {
      AllowedRunIsCreditRun(allowed, Apply(entry, es[0]), Better(best, es[0]), price, limit, es[1..]);
    }
  }

  lemma AllowedRunKeepsCredit(allowed: Price -> bool, limit: u64, cache: StateCache, es: seq<Event>)
    requires ProperPrices(allowed, limit) && InGoodStanding(cache)
    requires AllowedRun(allowed, Ok(cache), cache.remote, cache.price, limit, es)
    ensures CreditEntry(Run(Ok(cache), es), BestOf(cache.remote, es), cache.price, limit)
  {
    AllowedRunIsCreditRun(allowed, Ok(cache), cache.remote, cache.price, limit, es);
    CreditBound(Ok(cache), cache.remote, cache.price, limit, es);
  }

  lemma ProperPricesSuffice(allowed: Price -> bool, limit: u64)
    requires ProperPrices(allowed, limit)
    ensures CreditHolds(allowed, limit)
  {
    forall cache: StateCache, es: seq<Event>
      | InGoodStanding(cache) && AllowedRun(allowed, Ok(cache), cache.remote, cache.price, limit, es)
      ensures CreditEntry(Run(Ok(cache), es), BestOf(cache.remote, es), cache.price, limit)
    {
      AllowedRunKeepsCredit(allowed, limit, cache, es);
    }
  }

  // Unpaid queries of a channel at a price of one: `n` alike, then a last one

  const UNPAID := QueryState(0, SOMEONE, SOMEONE, 0, 0, false, SIGN, SIGN)
  const CLEAN := SampleCache(1, U256_MODULUS - 1, 0, 0, 0)

  function Unpaid(p: Price, limit: u64): Event {
    Single(UNPAID, p, limit, KNOWN)
  }

  function UnpaidRun(one: Event, last: Event, n: nat): seq<Event> {
    if n == 0 then [last] else [one] + UnpaidRun(one, last, n - 1)
  }

  // The channel after one unpaid query and `n` conflicts
  function Owing(n: u64): StateCache {
    CLEAN.(spent := 1 + n, conflictTimes := n)
  }

  lemma UnpaidCounts(one: Price, limit: u64, n: u64)
    requires one.weight == 1
    ensures Apply(Ok(CLEAN), Unpaid(one, limit)) == Ok(Owing(0))
    ensures n < limit ==> Apply(Ok(Owing(n)), Unpaid(one, limit)) == Ok(Owing(n + 1))
  {
  }

  // An improper weight at the limit
  lemma LastBreaks(last: Price, limit: u64)
    requires !ProperWeight(last.weight, limit)
    ensures !CreditEntry(Apply(Ok(Owing(limit)), Unpaid(last, limit)), 0, 1, limit)
  {
  }

  lemma UnpaidRunSteps(entry: Entry, one: Event, last: Event, n: nat)
    ensures Run(entry, UnpaidRun(one, last, 0)) == Apply(entry, last)
    ensures n > 0 ==> Run(entry, UnpaidRun(one, last, n)) == Run(Apply(entry, one), UnpaidRun(one, last, n - 1))
  {
    assert [last][1..] == [];
    if n > 0 {
      assert UnpaidRun(one, last, n)[1..] == UnpaidRun(one, last, n - 1);
    }
  }

  lemma {:induction false} OwingRunEnds(state: u64 -> Entry, one: Event, last: Event, limit: u64, n: u64)
    requires n <= limit && forall k: u64 | k < limit :: Apply(state(k), one) == state(k + 1)
    ensures Run(state(n), UnpaidRun(one, last, limit - n)) == Apply(state(limit), last)
    decreases limit - n
  {
    UnpaidRunSteps(state(n), one, last, limit - n);
    if n < limit {
      OwingRunEnds(state, one, last, limit, n + 1);
    }
  }

  lemma {:induction false} UnpaidRunIsAllowed(
      allowed: Price -> bool, entry: Entry, one: Price, last: Price, limit: u64, n: nat)
    requires allowed(one) && allowed(last)
    ensures var es := UnpaidRun(Unpaid(one, limit), Unpaid(last, limit), n);
      AllowedRun(allowed, entry, 0, 1, limit, es) && BestOf(0, es) == 0
    decreases n
  {
    var es := UnpaidRun(Unpaid(one, limit), Unpaid(last, limit), n);
    if n > 0 {
      assert es[1..] == UnpaidRun(Unpaid(one, limit), Unpaid(last, limit), n - 1);
      UnpaidRunIsAllowed(allowed, Apply(entry, es[0]), one, last, limit, n - 1);
    } else {
      assert es[1..] == [];
    }
  }

  /** A proper weight is necessary: on a channel nothing was spent on, unpaid queries of
      weight one reach the limit, and one query of any improper weight then breaks the bound. */
  lemma ImproperWeightBreaksCredit(one: Price, last: Price, limit: u64)
    requires one.weight == 1 && !ProperWeight(last.weight, limit)
    ensures InGoodStanding(CLEAN) && CLEAN.spent == CLEAN.remote == 0 && CLEAN.price == 1
    ensures !CreditEntry(Run(Ok(CLEAN), UnpaidRun(Unpaid(one, limit), Unpaid(last, limit), limit + 1)), 0, 1, limit)
  {
    forall k: u64 ensures k < limit ==> Apply(Ok(Owing(k)), Unpaid(one, limit)) == Ok(Owing(k + 1)) {
      UnpaidCounts(one, limit, k);
    }
    UnpaidCounts(one, limit, 0);
    UnpaidRunSteps(Ok(CLEAN), Unpaid(one, limit), Unpaid(last, limit), limit + 1);
    OwingRunEnds((k: u64) => Ok(Owing(k)), Unpaid(one, limit), Unpaid(last, limit), limit, 0);
    LastBreaks(last, limit);
  }

  /** Where some query weighs one, as every method missing from the unit table does, the bound
      holds over all runs exactly when every weight is proper. */
  lemma CreditHoldsWhen(allowed: Price -> bool, limit: u64, one: Price)
    requires allowed(one) && one.weight == 1
    ensures CreditHolds(allowed, limit) <==> ProperPrices(allowed, limit)
  {
    if ProperPrices(allowed, limit) {
      ProperPricesSuffice(allowed, limit);
    } else {
      var last: Price :| allowed(last) && !ProperWeight(last.weight, limit);
      ImproperWeightBreaksCredit(one, last, limit);
      UnpaidRunIsAllowed(allowed, Ok(CLEAN), one, last, limit, limit + 1);
    }
  }

  /** Runs that mix the weights one and `w`: the bound holds exactly when `w` counts and
      cannot wrap a counter within its limit. */
  lemma MixedWeightsHoldWhen(w: u64, limit: u64)
    ensures CreditHolds((p: Price) => p.weight == 1 || p.weight == w, limit) <==> ProperWeight(w, limit)
  {
    var allowed := (p: Price) => p.weight == 1 || p.weight == w;
    CreditHoldsWhen(allowed, limit, Price(1, 1));
    assert allowed(Price(1, w));
  }

  // Limits and weights

  // The weight of a method of one unit, the heaviest there is
  function Heaviest(paygOverflow: u64, maxUnitOverflow: u64): u64 {
    OverflowWeight(paygOverflow, 1, maxUnitOverflow)
  }

  // Limits under which no weight, of a batch of the most calls either, can vanish or wrap
  predicate ProperLimits(paygOverflow: u64, maxUnitOverflow: u64) {
    && Heaviest(paygOverflow, maxUnitOverflow) >= 1
    && paygOverflow + MAX_CALLS * Heaviest(paygOverflow, maxUnitOverflow) < U64_MODULUS
  }

  lemma MethodWeighsAtMostHeaviest(m: RpcManifest, name: string, paygOverflow: u64, maxUnitOverflow: u64)
    requires FetchedUnder(m, paygOverflow, maxUnitOverflow) && Heaviest(paygOverflow, maxUnitOverflow) >= 1
    ensures 1 <= MethodPrice(m, name).weight <= Heaviest(paygOverflow, maxUnitOverflow)
  {
    WeightsPositive(paygOverflow, maxUnitOverflow);
    if name in m.computeUnit {
      QuotientAtMost(paygOverflow, m.computeUnit[name].value);
    }
  }

  lemma QuotientAtMost(a: nat, b: nat)
    requires b >= 1
    ensures a / b <= a
  {
    if b < a {
      QuotientBounds(a, b);
    }
  }

  lemma OneMore(n: nat, k: int)
    ensures (n + 1) * k == n * k + k
  {
  }

  /** A batch weighs at least one and at most the heaviest weight a call. */
  lemma {:induction false} BatchWeighsAtMost(
      m: RpcManifest, names: seq<string>, paygOverflow: u64, maxUnitOverflow: u64)
    requires FetchedUnder(m, paygOverflow, maxUnitOverflow) && Heaviest(paygOverflow, maxUnitOverflow) >= 1
    ensures |names| <= SumWeights(m, names) <= |names| * Heaviest(paygOverflow, maxUnitOverflow)
  {
    if names != [] {
      var n := |names| - 1;
      BatchWeighsAtMost(m, names[..n], paygOverflow, maxUnitOverflow);
      OneMore(n, Heaviest(paygOverflow, maxUnitOverflow));
      MethodWeighsAtMostHeaviest(m, names[n], paygOverflow, maxUnitOverflow);
    }
  }

  lemma BatchWeightIsProper(m: RpcManifest, names: seq<string>, paygOverflow: u64, maxUnitOverflow: u64)
    requires FetchedUnder(m, paygOverflow, maxUnitOverflow) && ProperLimits(paygOverflow, maxUnitOverflow)
    requires names != [] && BatchPrice(m, names).Ok?
    ensures ProperWeight(BatchPrice(m, names).value.weight, paygOverflow)
  {
    BatchWeighsAtMost(m, names, paygOverflow, maxUnitOverflow);
    HundredWeights(|names|, Heaviest(paygOverflow, maxUnitOverflow));
  }

  lemma HundredWeights(n: nat, k: nat)
    requires n <= MAX_CALLS
    ensures n * k <= MAX_CALLS * k
  {
  }

  /** Under proper limits every non-empty query of a fetched manifest weighs properly. */
  lemma ChargedWeightIsProper(ptype: ProjectType, p: Price, paygOverflow: u64, maxUnitOverflow: u64)
    requires ptype.Rpc? ==> FetchedUnder(ptype.manifest, paygOverflow, maxUnitOverflow)
    requires ProperLimits(paygOverflow, maxUnitOverflow) && Charges(ptype, p)
    ensures ProperWeight(p.weight, paygOverflow)
  {
    var q: Query :| (q.Calls? ==> q.names != []) && QueryPrice(ptype, q) == Ok(p);
    if ptype.Rpc? {
      match q
      case Call(name) =>
        MethodWeighsAtMostHeaviest(ptype.manifest, name, paygOverflow, maxUnitOverflow);
      case Calls(names) =>
        BatchWeightIsProper(ptype.manifest, names, paygOverflow, maxUnitOverflow);
    }
  }

  // A manifest of one method of one unit, and batches of it

  function OneMethod(paygOverflow: u64, maxUnitOverflow: u64): RpcManifest {
    RpcManifest([], [], map["m" := ComputeUnit(1, Heaviest(paygOverflow, maxUnitOverflow))])
  }

  function Repeated(n: nat): (names: seq<string>)
    ensures |names| == n
  {
    if n == 0 then [] else Repeated(n - 1) + ["m"]
  }

  lemma {:induction false} RepeatedSums(m: RpcManifest, weight: u64, n: nat)
    requires MethodPrice(m, "m") == Price(1, weight)
    ensures SumUnits(m, Repeated(n)) == n && SumWeights(m, Repeated(n)) == n * weight
  {
    if n == 0 {
      assert n * weight == 0;
    } else {
      RepeatedSums(m, weight, n - 1);
      RepeatedOnce(m, weight, n);
      OneMore(n - 1, weight);
    }
  }

  lemma RepeatedOnce(m: RpcManifest, weight: u64, n: nat)
    requires n > 0 && MethodPrice(m, "m") == Price(1, weight)
    ensures SumUnits(m, Repeated(n)) == SumUnits(m, Repeated(n - 1)) + 1
    ensures SumWeights(m, Repeated(n)) == SumWeights(m, Repeated(n - 1)) + weight
  {
    assert Repeated(n)[..n - 1] == Repeated(n - 1);
  }

  lemma RepeatedPrice(m: RpcManifest, weight: u64, k: nat) returns (p: Price)
    requires m.allowList == m.denyList == [] && MethodPrice(m, "m") == Price(1, weight)
    requires k <= MAX_CALLS && k * weight < U64_MODULUS
    ensures BatchPrice(m, Repeated(k)) == Ok(p) && p.weight == k * weight
  {
    RepeatedSums(m, weight, k);
    Unwrapped(m, Repeated(k));
    p := BatchPrice(m, Repeated(k)).value;
  }

  // The shortest batch whose weight can wrap the counter does not wrap by itself.
  lemma {:induction false} ShortestWrap(paygOverflow: u64, weight: u64, n: nat) returns (k: nat)
    requires 1 <= n <= MAX_CALLS && weight <= Max(paygOverflow, 1) && paygOverflow + n * weight >= U64_MODULUS
    ensures 1 <= k <= n && paygOverflow + k * weight >= U64_MODULUS && k * weight < U64_MODULUS
  {
    OneMore(n - 1, weight);
    if n > 1 && paygOverflow + (n - 1) * weight >= U64_MODULUS {
      k := ShortestWrap(paygOverflow, weight, n - 1);
    } else {
      k := n;
    }
  }

  lemma ImproperLimitsCharge(paygOverflow: u64, maxUnitOverflow: u64) returns (p: Price)
    requires !ProperLimits(paygOverflow, maxUnitOverflow)
    ensures Charges(Rpc(OneMethod(paygOverflow, maxUnitOverflow)), p) && !ProperWeight(p.weight, paygOverflow)
  {
    var m, weight := OneMethod(paygOverflow, maxUnitOverflow), Heaviest(paygOverflow, maxUnitOverflow);
    if weight == 0 {
      p := Price(1, 0);
      assert QueryPrice(Rpc(m), Call("m")) == Ok(p);
    } else {
      var k := ShortestWrap(paygOverflow, weight, MAX_CALLS);
      p := RepeatedPrice(m, weight, k);
      assert QueryPrice(Rpc(m), Calls(Repeated(k))) == Ok(p);
    }
  }

  lemma ProjectIsProper(ptype: ProjectType, paygOverflow: u64, maxUnitOverflow: u64)
    requires ptype.Rpc? ==> FetchedUnder(ptype.manifest, paygOverflow, maxUnitOverflow)
    requires ProperLimits(paygOverflow, maxUnitOverflow)
    ensures ProperPrices(p => Charges(ptype, p), paygOverflow)
  {
    forall p: Price | Charges(ptype, p) ensures ProperWeight(p.weight, paygOverflow) {
      ChargedWeightIsProper(ptype, p, paygOverflow, maxUnitOverflow);
    }
  }

  /** The whole bound, from the manifest's arithmetic: runs of priced queries, payments and
      records leave at most `price * (1 + paygOverflow)` of unpaid work. */
  lemma UnpaidWorkIsBounded(
      ptype: ProjectType, paygOverflow: u64, maxUnitOverflow: u64, cache: StateCache, es: seq<Event>)
    requires ptype.Rpc? ==> FetchedUnder(ptype.manifest, paygOverflow, maxUnitOverflow)
    requires ProperLimits(paygOverflow, maxUnitOverflow) && InGoodStanding(cache)
    requires AllowedRun(p => Charges(ptype, p), Ok(cache), cache.remote, cache.price, paygOverflow, es)
    ensures var after := Run(Ok(cache), es);
      after.Ok? ==>
        && after.value.conflictTimes <= paygOverflow
        && after.value.spent <= BestOf(cache.remote, es) + cache.price * (1 + after.value.conflictTimes)
        && after.value.spent <= BestOf(cache.remote, es) + cache.price * (1 + paygOverflow)
  {
    ProjectIsProper(ptype, paygOverflow, maxUnitOverflow);
    AllowedRunKeepsCredit(p => Charges(ptype, p), paygOverflow, cache, es);
    CreditCoversWork(Run(Ok(cache), es), BestOf(cache.remote, es), cache.price, paygOverflow);
  }

  lemma CreditCoversWork(entry: Entry, best: nat, price: u256, limit: u64)
    requires CreditEntry(entry, best, price, limit)
    ensures entry.Ok? ==> entry.value.spent <= best + price * (1 + limit)
  {
    if entry.Ok? {
      ProductMonotone(price, 1 + entry.value.conflictTimes, 1 + limit);
    }
  }

  /** Which limits are safe: the bound holds for every manifest fetched under them and every
      run it prices, exactly when a full batch of the heaviest method cannot wrap the counter. */
  lemma CreditHoldsUnder(paygOverflow: u64, maxUnitOverflow: u64)
    ensures (forall m: RpcManifest :: FetchedUnder(m, paygOverflow, maxUnitOverflow) ==>
               CreditHolds(p => Charges(Rpc(m), p), paygOverflow))
       <==> ProperLimits(paygOverflow, maxUnitOverflow)
  {
    if ProperLimits(paygOverflow, maxUnitOverflow) {
      forall m: RpcManifest | FetchedUnder(m, paygOverflow, maxUnitOverflow)
        ensures CreditHolds(p => Charges(Rpc(m), p), paygOverflow)
      {
        ProjectIsProper(Rpc(m), paygOverflow, maxUnitOverflow);
        ProperPricesSuffice(p => Charges(Rpc(m), p), paygOverflow);
      }
    } else {
      var m := OneMethod(paygOverflow, maxUnitOverflow);
      var allowed := (p: Price) => Charges(Rpc(m), p);
      var p := ImproperLimitsCharge(paygOverflow, maxUnitOverflow);
      assert QueryPrice(Rpc(m), Call("")) == Ok(Price(1, 1));
      CreditHoldsWhen(allowed, paygOverflow, Price(1, 1));
      assert FetchedUnder(m, paygOverflow, maxUnitOverflow) && allowed(p);
    }
  }

  lemma {:induction false} FreeRun(e: Event, k: u256, n: nat)
    requires e == Unpaid(Price(0, 0), HALF_RANGE) && k + n < U256_MODULUS - 1
    ensures Run(Ok(CLEAN.(spent := k)), UnpaidRun(e, e, n)) == Ok(CLEAN.(spent := k + n + 1))
    decreases n
  {
    assert Apply(Ok(CLEAN.(spent := k)), e) == Ok(CLEAN.(spent := k + 1));
    UnpaidRunSteps(Ok(CLEAN.(spent := k)), e, e, n);
    if n > 0 {
      FreeRun(e, k + 1, n - 1);
    }
  }

  /** An improper weight can come out of a batch: two calls of weight 2^63 together weigh
      nothing, so unpaid queries are served until the whole deposit is spent. */
  lemma WrappedWeightIsFree(n: nat) returns (m: RpcManifest, names: seq<string>)
    requires n < U256_MODULUS - 1
    ensures FetchedUnder(m, HALF_RANGE, 1)
    ensures names != [] && BatchPrice(m, names) == Ok(Price(0, 0))
    ensures var e := Unpaid(Price(0, 0), HALF_RANGE);
      Run(Ok(CLEAN), UnpaidRun(e, e, n)) == Ok(CLEAN.(spent := n + 1))
  {
    m, names := WrappedBatch(HALF_RANGE, 1);
    FreeRun(Unpaid(Price(0, 0), HALF_RANGE), 0, n);
  }

  // The deposit: spent never exceeds total

  predicate WithinTotal(entry: Entry) {
    entry.Ok? ==> entry.value.spent <= entry.value.total
  }

  // Non-empty queries of every mode, payments, and records that are themselves within
  // their total and do not lower it.
  predicate FundedEvent(entry: Entry, e: Event) {
    match e
    case Single(_, p, _, _) => p.units >= 1
    case Sync(item, _, _) => item.spent <= item.total && (entry.Ok? ==> entry.value.total <= item.total)
    case _ => true
  }

  predicate FundedRun(entry: Entry, es: seq<Event>)
    decreases |es|
  {
    es == [] || (FundedEvent(entry, es[0]) && FundedRun(Apply(entry, es[0]), es[1..]))
  }

  lemma EventKeepsTotal(entry: Entry, e: Event)
    requires WithinTotal(entry) && FundedEvent(entry, e)
    ensures WithinTotal(Apply(entry, e))
  {
    match e
    case Single(query, p, limit, ctx) =>
      if entry.Ok? {
        ProductMonotone(entry.value.price, 1, p.units);
      }
    case Multiple(block, units, ctx) =>
    case Token(block, num, ctx) =>
    case Pay(query, paid, ctx) =>
    case Sync(item, consumer, now) =>
  }

  /** Over every run mixing the modes, a channel never spends more than its deposit. */
  lemma {:induction false} DepositBound(entry: Entry, es: seq<Event>)
    requires WithinTotal(entry) && FundedRun(entry, es)
    ensures WithinTotal(Run(entry, es))
    decreases |es|
  {
    if es != [] {
      EventKeepsTotal(entry, es[0]);
      DepositBound(Apply(entry, es[0]), es[1..]);
    }
  }

  /** Single queries of a given price keep the deposit bound exactly when they cost a unit. */
  lemma DepositHoldsWhenUnitsArePaid(p: Price, limit: u64)
    ensures (forall entry: Entry, query: QueryState, ctx: Context ::
               WithinTotal(entry) ==> WithinTotal(ServeSingle(entry, query, p, limit, ctx).entry))
       <==> p.units >= 1
  {
    if p.units >= 1 {
      forall entry: Entry, query: QueryState, ctx: Context | WithinTotal(entry)
        ensures WithinTotal(ServeSingle(entry, query, p, limit, ctx).entry)
      {
        EventKeepsTotal(entry, Single(query, p, limit, ctx));
      }
    } else {
      var entry := Ok(SampleCache(1, 7, 7, 0, 0));
      var query := QueryState(0, SOMEONE, SOMEONE, 7, 0, false, SIGN, SIGN);
      assert WithinTotal(entry) && !WithinTotal(ServeSingle(entry, query, p, limit, KNOWN).entry);
    }
  }

  /** Which queries cost no unit: batches that are empty or whose units wrap to zero. */
  lemma FreeQueries(ptype: ProjectType, q: Query, paygOverflow: u64, maxUnitOverflow: u64)
    requires ptype.Rpc? ==> FetchedUnder(ptype.manifest, paygOverflow, maxUnitOverflow)
    requires QueryPrice(ptype, q).Ok?
    ensures QueryPrice(ptype, q).value.units == 0 <==>
      && ptype.Rpc? && q.Calls?
      && (q.names == [] || (SumUnits(ptype.manifest, q.names) >= U64_MODULUS
                            && SumUnits(ptype.manifest, q.names) % U64_MODULUS == 0))
  {
  }

  /** An empty batch costs no unit, is charged one price, and overdraws a channel spent to
      its total. */
  lemma EmptyBatchOverdraws(m: RpcManifest, query: QueryState) returns (cache: StateCache)
    requires query.spent == 0 && !query.isFinal
    ensures BatchPrice(m, []) == Ok(Price(0, 0))
    ensures WithinTotal(Ok(cache))
    ensures !WithinTotal(ServeSingle(Ok(cache), query, BatchPrice(m, []).value, 0, KNOWN).entry)
  {
    cache := SampleCache(1, 7, 7, 0, 0);
  }
}
