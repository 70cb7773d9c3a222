/** What each request does to one channel's cache entry.

    Every request is one atomic step. What the code obtains from outside arrives as a
    parameter: the recovered signer, the answer about a controller account, the
    indexer's own signature, the clock, the upstream query's success and the
    coordinator's replies.
 */
module Channel {
  import opened Outcomes
  import opened Products
  import opened Words
  import opened SignedStates
  import opened StateCaches
  import opened Manifest

  // A cache entry: a cache, or the error with which fetching it fails.
  type Entry = Result<StateCache>

  const ABSENT: Entry := Err(Expired(1054))

  // The body of a `channelUpdate` mutation sent to the coordinator.
  datatype Update = Update(spent: u256, isFinal: bool, indexerSign: Signature, consumerSign: Signature)

  datatype Step<R> = Step(entry: Entry, sent: seq<Update>, reply: Result<R>)

  // What is known about a request beyond its text.
  datatype Context = Context(signer: Address, controller: Result<bool>, indexerSign: Signature, now: i64, served: bool)

  datatype ChannelItem = ChannelItem(
    agent: Address, deployment: Hash, total: u256, spent: u256, remote: u256, price: u256, expired: i64, isFinal: bool)

  /** The signer must be known, or be a controller of the channel's account. */
  function WithSigner(cache: StateCache, ctx: Context): Result<StateCache> {
    if cache.signer.Contains(ctx.signer) then Ok(cache)
    else match cache.signer
      case Host(_) => Err(InvalidSignature(1055))
      case Account(signers) =>
        if signers == [] then Err(Panic)
        else
          var isController :- ctx.controller;
          if isController then Ok(cache.(signer := Account(signers + [ctx.signer])))
          else Err(InvalidSignature(1055))
  }

  // Single mode

  function MarkConflict(cache: StateCache, weight: u64, now: i64): StateCache {
    cache.(
      conflictStart := if cache.conflictTimes <= 1 then now else cache.conflictStart,
      conflictTimes := WrappingAdd(cache.conflictTimes, weight))
  }

  function BeforeSingle(cache: StateCache, next: u256, price: Price, limit: u64, now: i64): Result<StateCache> {
    var used :- CheckedMul(cache.price, price.units);
    var localNext :- CheckedAdd(cache.spent, used);
    var tooLow :- if cache.remote < next then RaisedTooLittle(cache.remote, used, next) else Ok(false);
    if tooLow then Err(InvalidProjectPrice(1034))
    else if localNext > cache.total then Err(Overflow(1056))
    else
      var covered :- CheckedAdd(next, used);
      var marked := if localNext > covered then MarkConflict(cache, price.weight, now) else cache;
      if marked.conflictTimes > limit then Err(PaygConflict(1050)) else Ok(marked)
  }

  function RaisedTooLittle(remote: u256, used: u256, next: u256): Result<bool> {
    var expected :- CheckedAdd(remote, used);
    Ok(expected > next)
  }

  // The cache is charged one price, whatever the query's units.
  function PostSingle(cache: StateCache, next: u256): Result<StateCache> {
    var localNext :- CheckedAdd(cache.spent, cache.price);
    Ok(cache.(spent := localNext, remote := next))
  }

  function SingleCache(cache: StateCache, state: QueryState, price: Price, limit: u64, ctx: Context): Result<StateCache>
  {
    var known :- WithSigner(cache, ctx);
    var checked :- BeforeSingle(known, state.spent, price, limit, ctx.now);
    if !ctx.served then Err(Upstream) else PostSingle(checked, state.spent)
  }

  function ServeSingle(entry: Entry, state: QueryState, price: Price, limit: u64, ctx: Context): Step<QueryState> {
    if entry.Err? then Step(entry, [], Err(entry.error))
    else
      var charged := SingleCache(entry.value, state, price, limit, ctx);
      if charged.Err? then Step(entry, [], Err(charged.error))
      else
        Step(if state.isFinal then ABSENT else Ok(Stored(charged.value)),
             [Update(state.spent, state.isFinal, ctx.indexerSign, state.consumerSign)],
             Ok(state.(indexerSign := ctx.indexerSign, remote := charged.value.spent)))
  }

  // Multiple mode

  const MULTIPLE_RANGE_MAX: u256 := 7766279631452241920 + 5 * U64_MODULUS

  function CheckBalance(cache: StateCache, units: u64, start: u256, end: u256): (r: Result<Active>)
    ensures r.Ok? ==> cache.spent + cache.price * units <= cache.total
  {
    var used :- CheckedMul(cache.price, units);
    var (localNext, flag) := OverflowingAdd(cache.spent, used);
    if flag then Err(Overflow(1058))
    else if localNext > cache.total then Err(Overflow(1056))
    else
      var (range, flag) := OverflowingSub(end, start);
      if flag then Err(Overflow(1058))
      else if range > MULTIPLE_RANGE_MAX then Err(Overflow(1059))
      else
        var (middle, flag) := OverflowingAdd(start, range / 2);
        if flag then Err(Overflow(1058))
        else if start > range && cache.remote < start - range then Ok(Inactive2)
        else if localNext < middle then Ok(Active)
        else if localNext > end then Ok(Inactive2)
        else Ok(Inactive1)
  }

  datatype Charged = Charged(cache: StateCache, active: Active)

  function BeforeMultiple(cache: StateCache, units: u64, start: u256, end: u256, ctx: Context): Result<Charged> {
    var known :- WithSigner(cache, ctx);
    var active :- CheckBalance(known, units, start, end);
    NonNegativeProduct(known.price, units);
    Ok(Charged(known.(spent := known.spent + known.price * units), active))
  }

  function Answered(state: MultipleQueryState, active: Active, ctx: Context): MultipleQueryState {
    state.(active := active, sign := ctx.indexerSign)
  }

  // An inactive answer leaves the entry untouched.
  function ServeMultiple(entry: Entry, state: MultipleQueryState, units: u64, ctx: Context): Step<MultipleQueryState> {
    if entry.Err? then Step(entry, [], Err(entry.error))
    else
      var r := BeforeMultiple(entry.value, units, state.start, state.end, ctx);
      if r.Err? then Step(entry, [], Err(r.error))
      else if r.value.active.IsInactive() then Step(entry, [], Ok(Answered(state, r.value.active, ctx)))
      else if !ctx.served then Step(entry, [], Err(Upstream))
      else Step(Ok(Stored(r.value.cache)), [], Ok(Answered(state, r.value.active, ctx)))
  }

  // Token payments of AI streams are charged even when the answer is inactive.
  function TokenUnits(num: u64): u64 {
    if num > 1 then num else 1
  }

  function PayByToken(entry: Entry, num: u64, state: MultipleQueryState, ctx: Context): Step<MultipleQueryState> {
    if entry.Err? then Step(entry, [], Err(entry.error))
    else
      var r := BeforeMultiple(entry.value, TokenUnits(num), state.start, state.end, ctx);
      if r.Err? then Step(entry, [], Err(r.error))
      else Step(Ok(Stored(r.value.cache)), [], Ok(Answered(state, r.value.active, ctx)))
  }

  // Payments. `paid` is the coordinator's own spent amount at that moment.

  function PayChannel(entry: Entry, state: QueryState, paid: Result<u256>, ctx: Context): Step<QueryState> {
    if entry.Err? then Step(entry, [], Err(entry.error))
    else
      var known := WithSigner(entry.value, ctx);
      if known.Err? then Step(entry, [], Err(known.error))
      else if state.spent > known.value.total then Step(entry, [], Err(Overflow(1056)))
      else if paid.Err? then Step(entry, [], Err(paid.error))
      else
        var answer := state.(indexerSign := ctx.indexerSign, remote := known.value.spent);
        if state.spent <= paid.value then Step(entry, [], Ok(answer))
        else
          var entry' :=
            if known.value.remote >= state.spent then entry
            else if state.isFinal then ABSENT
            else Ok(Stored(known.value.(remote := state.spent)));
          Step(entry', [Update(state.spent, state.isFinal, ctx.indexerSign, state.consumerSign)], Ok(answer))
  }

  // Synchronisation with a channel record published by the coordinator

  function Synced(cache: StateCache, item: ChannelItem): StateCache {
    cache.(
      expiration := item.expired,
      total := item.total,
      price := item.price,
      remote := Max(cache.remote, item.remote),
      spent := Max(cache.spent, item.spent),
      coordi := item.spent)
  }

  function Opened(item: ChannelItem, signer: ConsumerType, now: i64): StateCache {
    StateCache(item.expired, item.agent, item.deployment, item.price, item.total, item.spent, item.remote,
               item.spent, now, 0, signer)
  }

  // `consumer` is the answer to the question who may sign, asked only when needed.
  function HandleChannel(entry: Entry, item: ChannelItem, consumer: Result<ConsumerType>, now: i64): Step<()> {
    if item.isFinal || now > item.expired then Step(ABSENT, [], Ok(()))
    else
      var asks := entry.Err? || entry.value.signer.IsEmpty();
      if asks && consumer.Err? then Step(entry, [], Err(consumer.error))
      else
        var cache :=
          if entry.Err? then Opened(item, consumer.value, now)
          else if asks then Synced(entry.value, item).(signer := consumer.value)
          else Synced(entry.value, item);
        Step(if item.expired > now then Ok(Stored(cache)) else entry, [], Ok(()))
  }

  // Runs

  datatype Event =
    | Single(query: QueryState, price: Price, limit: u64, ctx: Context)
    | Multiple(block: MultipleQueryState, units: u64, ctx: Context)
    | Token(block: MultipleQueryState, num: u64, ctx: Context)
    | Pay(query: QueryState, paid: Result<u256>, ctx: Context)
    | Sync(item: ChannelItem, consumer: Result<ConsumerType>, now: i64)

  function Apply(entry: Entry, e: Event): Entry {
    match e
    case Single(query, price, limit, ctx) => ServeSingle(entry, query, price, limit, ctx).entry
    case Multiple(block, units, ctx) => ServeMultiple(entry, block, units, ctx).entry
    case Token(block, num, ctx) => PayByToken(entry, num, block, ctx).entry
    case Pay(query, paid, ctx) => PayChannel(entry, query, paid, ctx).entry
    case Sync(item, consumer, now) => HandleChannel(entry, item, consumer, now).entry
  }

  function Run(entry: Entry, es: seq<Event>): Entry
    decreases |es|
  {
    if es == [] then entry else Run(Apply(entry, es[0]), es[1..])
  }
}
