/** The multiple mode: the balance check, the exposure it allows, and synchronisation. */
module Exposure {
  import opened Outcomes
  import opened Products
  import opened Words
  import opened SignedStates
  import opened StateCaches
  import opened Channel

  // The balance check in plain integers: no wrap, no flag, no third overflow branch.
  function PlainBalance(cache: StateCache, units: u64, start: u256, end: u256): Result<Active> {
    var localNext := cache.spent + cache.price * units;
    var range := end - start;
    if cache.price * units >= U256_MODULUS then Err(Panic)
    else if localNext >= U256_MODULUS then Err(Overflow(1058))
    else if localNext > cache.total then Err(Overflow(1056))
    else if range < 0 then Err(Overflow(1058))
    else if range > 100_000_000_000_000_000_000 then Err(Overflow(1059))
    else if cache.remote + range < start || localNext > end then Ok(Inactive2)
    else if localNext < start + range / 2 then Ok(Active)
    else Ok(Inactive1)
  }

  /** The 256-bit check decides as the plain one, and its midpoint lies in the block. */
  lemma BalanceIsPlain(cache: StateCache, units: u64, start: u256, end: u256)
    ensures CheckBalance(cache, units, start, end) == PlainBalance(cache, units, start, end)
    ensures start <= end ==> start <= start + (end - start) / 2 <= end && !OverflowingAdd(start, (end - start) / 2).1
  {
  }

  function Rank(a: Active): nat {
    match a
    case Active => 0
    case Inactive1 => 1
    case Inactive2 => 2
  }

  /** More spending, more units or less signed money never brings a channel back to life. */
  lemma UseNeverReactivates(a: StateCache, b: StateCache, units: u64, units': u64, start: u256, end: u256)
    requires a.price == b.price && a.spent <= b.spent && b.remote <= a.remote && units <= units'
    requires CheckBalance(a, units, start, end).Ok? && CheckBalance(b, units', start, end).Ok?
    ensures Rank(CheckBalance(a, units, start, end).value) <= Rank(CheckBalance(b, units', start, end).value)
  {
    BalanceIsPlain(a, units, start, end);
    BalanceIsPlain(b, units', start, end);
    ProductMonotone(a.price, units, units');
  }

  // Exposure: what was spent beyond the money signed for

  predicate Exposed(cache: StateCache, bound: nat) {
    cache.spent <= cache.remote + bound
  }

  /** A served block query leaves at most twice the block's range unpaid. */
  lemma ServedBlockIsCovered(entry: Entry, state: MultipleQueryState, units: u64, ctx: Context)
    requires var step := ServeMultiple(entry, state, units, ctx);
      step.reply.Ok? && !step.reply.value.active.IsInactive()
    ensures var after := ServeMultiple(entry, state, units, ctx).entry;
      && state.start <= state.end <= state.start + MULTIPLE_RANGE_MAX
      && after.Ok?
      && Exposed(after.value, 2 * (state.end - state.start))
      && Exposed(after.value, 2 * MULTIPLE_RANGE_MAX)
  {
  }

  predicate CoveredEntry(entry: Entry) {
    entry.Ok? ==> Exposed(entry.value, 2 * MULTIPLE_RANGE_MAX)
  }

  // Block queries, payments, and records that themselves satisfy the bound
  predicate BlockEvent(e: Event) {
    || e.Multiple?
    || e.Pay?
    || (e.Sync? && e.item.spent <= e.item.remote + 2 * MULTIPLE_RANGE_MAX)
  }

  lemma BlockEventKeepsCover(entry: Entry, e: Event)
    requires CoveredEntry(entry) && BlockEvent(e)
    ensures CoveredEntry(Apply(entry, e))
  {
  }

  /** Whatever is not served, an inactive answer included, leaves the entry untouched. */
  lemma InactiveLeavesEntry(entry: Entry, state: MultipleQueryState, units: u64, ctx: Context)
    requires var step := ServeMultiple(entry, state, units, ctx);
      step.reply.Err? || step.reply.value.active.IsInactive()
    ensures ServeMultiple(entry, state, units, ctx).entry == entry
  {
  }

  /** Over every run of block queries, payments and such records, the unpaid amount stays
      within twice the largest range. */
  lemma {:induction false} ExposureBound(entry: Entry, es: seq<Event>)
    requires CoveredEntry(entry) && forall e <- es :: BlockEvent(e)
    ensures CoveredEntry(Run(entry, es))
    decreases |es|
  {
    if es != [] {
      BlockEventKeepsCover(entry, es[0]);
      ExposureBound(Apply(entry, es[0]), es[1..]);
    }
  }

  /** A token payment keeps the bound when its answer is not inactive. */
  lemma ActiveTokenIsCovered(entry: Entry, num: u64, state: MultipleQueryState, ctx: Context)
    requires var step := PayByToken(entry, num, state, ctx); step.reply.Ok? && !step.reply.value.active.IsInactive()
    ensures CoveredEntry(PayByToken(entry, num, state, ctx).entry)
  {
  }

  const SOMEONE: Address := [0, 0, 0, 0, 0, 0, 0, 0, 0, 0, 0, 0, 0, 0, 0, 0, 0, 0, 0, 0]
  const SIGN := Signature(0, 0, 27)
  const KNOWN := Context(SOMEONE, Ok(false), SIGN, 0, true)

  function SampleCache(price: u256, total: u256, spent: u256, remote: u256, conflictTimes: u64): StateCache {
    StateCache(1, SOMEONE, seq(32, _ => 0), price, total, spent, remote, spent, 0, conflictTimes, Account([SOMEONE]))
  }

  // A block the balance check lets through
  predicate AcceptedBlock(state: MultipleQueryState) {
    state.start <= state.end <= state.start + MULTIPLE_RANGE_MAX
  }

  /** With an inactive answer it is charged all the same: whatever the accepted block and the
      number of tokens, one payment takes some channel nothing was spent on beyond the bound. */
  lemma AcceptedBlockEscapes(num: u64, state: MultipleQueryState) returns (cache: StateCache)
    requires AcceptedBlock(state)
    ensures cache.spent == cache.remote == 0
    ensures var step := PayByToken(Ok(cache), num, state, KNOWN);
      && step.reply.Ok? && step.reply.value.active == Inactive2
      && !CoveredEntry(step.entry)
  {
    cache := SampleCache(2 * MULTIPLE_RANGE_MAX + 1, U256_MODULUS - 1, 0, 0, 0);
    ProductMonotone(cache.price, 1, TokenUnits(num));
    ProductMonotone(cache.price, TokenUnits(num), U64_MODULUS);
    assert PayByToken(Ok(cache), num, state, KNOWN).reply.Ok?;
    if !PayByToken(Ok(cache), num, state, KNOWN).reply.value.active.IsInactive() {
      ActiveTokenIsCovered(Ok(cache), num, state, KNOWN);
    }
  }

  /** A request for tokens keeps the bound on every channel exactly when its block is one
      the balance check refuses: nothing in an accepted request protects the bound. */
  lemma TokenCoverIsExact(num: u64, state: MultipleQueryState)
    ensures (forall entry: Entry, ctx: Context ::
               CoveredEntry(entry) ==> CoveredEntry(PayByToken(entry, num, state, ctx).entry))
       <==> !AcceptedBlock(state)
  {
    if AcceptedBlock(state) {
      var cache := AcceptedBlockEscapes(num, state);
      assert CoveredEntry(Ok(cache));
    } else {
      forall entry: Entry, ctx: Context | CoveredEntry(entry)
        ensures CoveredEntry(PayByToken(entry, num, state, ctx).entry)
      {
        assert PayByToken(entry, num, state, ctx).reply.Err?;
      }
    }
  }

  // Synchronisation as a join

  // Events that find and keep the entry; a record counts when it is taken in.
  predicate Keeps(entry: Entry, e: Event) {
    match e
    case Single(_, _, _, _) => false
    case Multiple(_, _, _) => true
    case Token(_, _, _) => true
    case Pay(query, _, _) => !query.isFinal
    case Sync(item, consumer, now) =>
      !item.isFinal && now < item.expired && HandleChannel(entry, item, consumer, now).reply.Ok?
  }

  predicate KeptThroughout(entry: Entry, es: seq<Event>)
    decreases |es|
  {
    es == [] || (Keeps(entry, es[0]) && KeptThroughout(Apply(entry, es[0]), es[1..]))
  }

  predicate AtMost(a: StateCache, b: StateCache) {
    a.spent <= b.spent && a.remote <= b.remote
  }

  lemma KeptEventRaises(entry: Entry, e: Event)
    requires entry.Ok? && Keeps(entry, e)
    ensures Apply(entry, e).Ok? && AtMost(entry.value, Apply(entry, e).value)
    ensures e.Sync? ==> e.item.spent <= Apply(entry, e).value.spent && e.item.remote <= Apply(entry, e).value.remote
  {
  }

  /** Without deletion both amounts only grow, and end at or above every record received. */
  lemma {:induction false} AmountsOnlyGrow(entry: Entry, es: seq<Event>)
    requires entry.Ok? && KeptThroughout(entry, es)
    ensures Run(entry, es).Ok? && AtMost(entry.value, Run(entry, es).value)
    ensures forall e <- es :: e.Sync? ==>
              e.item.spent <= Run(entry, es).value.spent && e.item.remote <= Run(entry, es).value.remote
    decreases |es|
  {
    if es != [] {
      KeptEventRaises(entry, es[0]);
      AmountsOnlyGrow(Apply(entry, es[0]), es[1..]);
      forall e <- es | e.Sync?
        ensures e.item.spent <= Run(entry, es).value.spent && e.item.remote <= Run(entry, es).value.remote
      {
        assert e == es[0] || e in es[1..];
      }
    }
  }

  lemma {:induction false} SyncsAddNothingElse(entry: Entry, es: seq<Event>)
    requires entry.Ok? && KeptThroughout(entry, es) && forall e <- es :: e.Sync?
    ensures Run(entry, es).Ok?
    ensures Run(entry, es).value.spent == entry.value.spent
         || exists e <- es :: Run(entry, es).value.spent == e.item.spent
    ensures Run(entry, es).value.remote == entry.value.remote
         || exists e <- es :: Run(entry, es).value.remote == e.item.remote
    decreases |es|
  {
    if es != [] {
      KeptEventRaises(entry, es[0]);
      var mid := Apply(entry, es[0]);
      SyncsAddNothingElse(mid, es[1..]);
      assert forall e <- es[1..] :: e in es;
      assert es[0] in es;
    }
  }

  /** The order and the repetition of records do not matter to the amounts they leave. */
  lemma SyncOrderIsIrrelevant(entry: Entry, xs: seq<Event>, ys: seq<Event>)
    requires entry.Ok? && KeptThroughout(entry, xs) && KeptThroughout(entry, ys)
    requires forall e <- xs :: e.Sync? && e in ys
    requires forall e <- ys :: e.Sync? && e in xs
    ensures Run(entry, xs).Ok? && Run(entry, ys).Ok?
    ensures Run(entry, xs).value.spent == Run(entry, ys).value.spent
    ensures Run(entry, xs).value.remote == Run(entry, ys).value.remote
  {
    AmountsOnlyGrow(entry, xs);
    AmountsOnlyGrow(entry, ys);
    SyncsAddNothingElse(entry, xs);
    SyncsAddNothingElse(entry, ys);
  }
}
