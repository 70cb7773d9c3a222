/** Which requests are answered, and what each leaves behind: signers, single and block
    queries, token payments, payments, and the opening and closing of channels.

    Nothing here is stated through the steps of `Channel` themselves.
 */
module Requests {
  import opened Outcomes
  import opened Products
  import opened Words
  import opened SignedStates
  import opened StateCaches
  import opened Manifest
  import opened Channel
  import opened Exposure

  // Signers

  // A known signer, or a controller of the account whose first signer is asked about.
  predicate MaySign(cache: StateCache, ctx: Context) {
    || ctx.signer in cache.signer.signers
    || (cache.signer.Account? && cache.signer.signers != [] && ctx.controller == Ok(true))
  }

  function Refusal(cache: StateCache, ctx: Context): Error {
    if cache.signer.Host? then InvalidSignature(1055)
    else if cache.signer.signers == [] then Panic
    else if ctx.controller.Err? then ctx.controller.error
    else InvalidSignature(1055)
  }

  // The signers afterwards: a controller is added at the end, and 255 are kept.
  function SignersAfter(cache: StateCache, ctx: Context): ConsumerType {
    var known := cache.signer.signers;
    var all := if ctx.signer in known then known else known + [ctx.signer];
    var kept := if |all| <= 255 then all else all[..255];
    if cache.signer.Host? then Host(kept) else Account(kept)
  }

  /** Exactly the known signers and the controllers of an account pass, a controller joins
      the signers, and all others are refused for the stated reason. */
  lemma SignerIsChecked(cache: StateCache, ctx: Context)
    ensures WithSigner(cache, ctx).Ok? <==> MaySign(cache, ctx)
    ensures MaySign(cache, ctx) ==> Stored(WithSigner(cache, ctx).value) == cache.(signer := SignersAfter(cache, ctx))
    ensures !MaySign(cache, ctx) ==> WithSigner(cache, ctx) == Err(Refusal(cache, ctx))
  {
  }

  // The record after a charge or payment: both amounts and the signers, nothing else
  function Booked(cache: StateCache, ctx: Context, spent: u256, remote: u256): StateCache {
    cache.(spent := spent, remote := remote, signer := SignersAfter(cache, ctx))
  }

  // Refusals

  // A request that is answered with an error
  predicate Refused<R>(step: Step<R>, entry: Entry, error: Error) {
    step.reply == Err(error) && step.entry == entry && step.sent == []
  }

  predicate ErrorsLeave<R>(step: Step<R>, entry: Entry) {
    step.reply.Err? ==> step.entry == entry && step.sent == []
  }

  /** A request that ends in an error, whatever the error, changes and sends nothing. */
  lemma ErrorsChangeNothing(
      entry: Entry, query: QueryState, block: MultipleQueryState, p: Price, limit: u64, units: u64,
      paid: Result<u256>, ctx: Context)
    ensures ErrorsLeave(ServeSingle(entry, query, p, limit, ctx), entry)
    ensures ErrorsLeave(ServeMultiple(entry, block, units, ctx), entry)
    ensures ErrorsLeave(PayByToken(entry, units, block, ctx), entry)
    ensures ErrorsLeave(PayChannel(entry, query, paid, ctx), entry)
  {
  }

  /** Without a record every request fails with the record's error; with one, an unknown
      signer is refused before anything else is looked at. */
  lemma StrangersAreRefused(
      entry: Entry, query: QueryState, block: MultipleQueryState, p: Price, limit: u64, units: u64,
      paid: Result<u256>, ctx: Context)
    requires entry.Ok? ==> !MaySign(entry.value, ctx)
    ensures var error := if entry.Err? then entry.error else Refusal(entry.value, ctx);
      && Refused(ServeSingle(entry, query, p, limit, ctx), entry, error)
      && Refused(ServeMultiple(entry, block, units, ctx), entry, error)
      && Refused(PayByToken(entry, units, block, ctx), entry, error)
      && Refused(PayChannel(entry, query, paid, ctx), entry, error)
  {
  }

  /** A query whose upstream fails is never charged: a single query fails, final or not, and
      a block query fails or is answered inactive; the record stays and nothing is sent. */
  lemma FailedQueriesAreFree(
      entry: Entry, query: QueryState, block: MultipleQueryState, p: Price, limit: u64, units: u64, ctx: Context)
    requires !ctx.served
    ensures var step := ServeSingle(entry, query, p, limit, ctx);
      step.reply.Err? && step.entry == entry && step.sent == []
    ensures var step := ServeMultiple(entry, block, units, ctx);
      && (step.reply.Err? || step.reply.value.active == Inactive2)
      && step.entry == entry && step.sent == []
  {
  }

  // Single queries

  // The checks of a single query whose signer passes, in plain integers
  predicate Affordable(cache: StateCache, query: QueryState, p: Price) {
    cache.spent + cache.price * p.units <= cache.total
  }

  predicate RaisedEnough(cache: StateCache, query: QueryState, p: Price) {
    cache.remote < query.spent ==> cache.remote + cache.price * p.units <= query.spent
  }

  function ConflictsAfter(cache: StateCache, query: QueryState, p: Price): u64 {
    if cache.spent > query.spent then (cache.conflictTimes + p.weight) % U64_MODULUS else cache.conflictTimes
  }

  predicate NoAbort(cache: StateCache, query: QueryState, p: Price) {
    && cache.spent + cache.price * p.units < U256_MODULUS
    && query.spent + cache.price * p.units < U256_MODULUS
    && cache.spent + cache.price < U256_MODULUS
  }

  lemma SingleCheckedWhen(cache: StateCache, query: QueryState, p: Price, limit: u64, now: i64)
    ensures var checked := BeforeSingle(cache, query.spent, p, limit, now);
      && (checked.Ok? && cache.spent + cache.price < U256_MODULUS <==>
            && RaisedEnough(cache, query, p) && Affordable(cache, query, p)
            && ConflictsAfter(cache, query, p) <= limit && NoAbort(cache, query, p))
      && (checked.Ok? ==> checked.value.spent == cache.spent && checked.value.price == cache.price)
  {
    NonNegativeProduct(cache.price, p.units);
  }

  /** When a single query is answered: the signer passes, the deposit covers all its units, a
      raised signature is raised by at least their price, the counter stays within its limit
      after counting a conflict, which is there exactly when more was spent than is signed
      for, no sum overflows, and the upstream answers. */
  lemma SingleChargedWhen(entry: Entry, query: QueryState, p: Price, limit: u64, ctx: Context)
    ensures ServeSingle(entry, query, p, limit, ctx).reply.Ok? <==>
      && entry.Ok? && MaySign(entry.value, ctx)
      && RaisedEnough(entry.value, query, p)
      && Affordable(entry.value, query, p)
      && ConflictsAfter(entry.value, query, p) <= limit
      && NoAbort(entry.value, query, p)
      && ctx.served
  {
    if entry.Ok? && MaySign(entry.value, ctx) {
      SingleCheckedWhen(WithSigner(entry.value, ctx).value, query, p, limit, ctx.now);
    }
  }

  /** Why a single query is refused, in the order of the checks. */
  lemma SingleRefusedWith(entry: Entry, query: QueryState, p: Price, limit: u64, ctx: Context)
    requires entry.Ok? && MaySign(entry.value, ctx) && NoAbort(entry.value, query, p)
    ensures var cache, step := entry.value, ServeSingle(entry, query, p, limit, ctx);
      && (!RaisedEnough(cache, query, p) ==> Refused(step, entry, InvalidProjectPrice(1034)))
      && (RaisedEnough(cache, query, p) && !Affordable(cache, query, p) ==> Refused(step, entry, Overflow(1056)))
      && (RaisedEnough(cache, query, p) && Affordable(cache, query, p) && ConflictsAfter(cache, query, p) > limit ==>
            Refused(step, entry, PaygConflict(1050)))
  {
    NonNegativeProduct(entry.value.price, p.units);
  }

  /** What an answered single query books: one price spent, the signed amount taken over and
      sent on with both signatures, the new spent amount answered, and a conflict counted by
      its weight exactly when more had been spent than is signed for. A final one closes the
      channel instead. */
  lemma SingleIsBooked(entry: Entry, query: QueryState, p: Price, limit: u64, ctx: Context)
    requires ServeSingle(entry, query, p, limit, ctx).reply.Ok?
    ensures var step := ServeSingle(entry, query, p, limit, ctx);
      && entry.Ok? && entry.value.spent + entry.value.price < U256_MODULUS
      && var cache, spent := entry.value, entry.value.spent + entry.value.price;
         var conflict := cache.spent > query.spent;
         && step.entry
              == (if query.isFinal then Err(Expired(1054))
                  else Ok(Booked(cache, ctx, spent, query.spent).(
                            conflictTimes := ConflictsAfter(cache, query, p),
                            conflictStart :=
                              if conflict && cache.conflictTimes <= 1 then ctx.now else cache.conflictStart)))
         && step.sent == [Update(query.spent, query.isFinal, ctx.indexerSign, query.consumerSign)]
         && step.reply == Ok(QueryState(query.channelId, query.indexer, query.consumer, query.spent, spent,
                                        query.isFinal, ctx.indexerSign, query.consumerSign))
  {
  }

  // Block queries and token payments

  function Decision(cache: StateCache, units: u64, block: MultipleQueryState): Result<Active> {
    PlainBalance(cache, units, block.start, block.end)
  }

  // The answer: the block as it was asked about, the decision, and the indexer's signature
  function BlockAnswer(block: MultipleQueryState, active: Active, ctx: Context): MultipleQueryState {
    MultipleQueryState(active, block.channelId, block.start, block.end, ctx.indexerSign)
  }

  // The step block queries and token payments share
  lemma BlockIsChecked(cache: StateCache, units: u64, block: MultipleQueryState, ctx: Context)
    ensures var checked := BeforeMultiple(cache, units, block.start, block.end, ctx);
      && (checked.Ok? <==> MaySign(cache, ctx) && Decision(cache, units, block).Ok?)
      && (checked.Ok? ==>
            && checked.value.active == Decision(cache, units, block).value
            && 0 <= cache.spent + cache.price * units < U256_MODULUS
            && Stored(checked.value.cache) == Booked(cache, ctx, cache.spent + cache.price * units, cache.remote))
      && (checked.Err? && MaySign(cache, ctx) ==> checked.error == Decision(cache, units, block).error)
  {
    NonNegativeProduct(cache.price, units);
    if MaySign(cache, ctx) {
      BalanceIsPlain(WithSigner(cache, ctx).value, units, block.start, block.end);
    }
  }

  /** When a block query is answered: the signer passes, the plain balance check accepts, and
      the upstream answers unless the answer is inactive. */
  lemma BlockAnsweredWhen(entry: Entry, block: MultipleQueryState, units: u64, ctx: Context)
    ensures ServeMultiple(entry, block, units, ctx).reply.Ok? <==>
      && entry.Ok? && MaySign(entry.value, ctx) && Decision(entry.value, units, block).Ok?
      && (ctx.served || Decision(entry.value, units, block) == Ok(Inactive2))
  {
    if entry.Ok? {
      BlockIsChecked(entry.value, units, block, ctx);
    }
  }

  /** What an answered block query leaves: the decision and the indexer's signature in the
      answer, nothing sent, and exactly the price of its units charged, or nothing at all if
      the answer is inactive. */
  lemma BlockIsCharged(entry: Entry, block: MultipleQueryState, units: u64, ctx: Context)
    requires ServeMultiple(entry, block, units, ctx).reply.Ok?
    ensures var step := ServeMultiple(entry, block, units, ctx);
      && entry.Ok? && Decision(entry.value, units, block).Ok? && step.sent == []
      && var cache, active := entry.value, Decision(entry.value, units, block).value;
         && step.reply == Ok(BlockAnswer(block, active, ctx))
         && 0 <= cache.spent + cache.price * units < U256_MODULUS
         && step.entry
              == (if active == Inactive2 then entry
                  else Ok(Booked(cache, ctx, cache.spent + cache.price * units, cache.remote)))
  {
    BlockIsChecked(entry.value, units, block, ctx);
  }

  /** A refused block query is refused with the error of the plain check. */
  lemma BlockRefusedWith(entry: Entry, block: MultipleQueryState, units: u64, ctx: Context)
    requires entry.Ok? && MaySign(entry.value, ctx)
    ensures var step, decision := ServeMultiple(entry, block, units, ctx), Decision(entry.value, units, block);
      && (decision.Err? ==> Refused(step, entry, decision.error))
      && (decision.Ok? && decision.value != Inactive2 && !ctx.served ==> Refused(step, entry, Upstream))
  {
    BlockIsChecked(entry.value, units, block, ctx);
  }

  /** A token payment asks for neither an active answer nor an upstream: whenever the signer
      passes and the plain check accepts, at least one unit is charged. */
  lemma TokensChargedWhen(entry: Entry, num: u64, block: MultipleQueryState, ctx: Context)
    ensures PayByToken(entry, num, block, ctx).reply.Ok? <==>
      entry.Ok? && MaySign(entry.value, ctx) && Decision(entry.value, if num == 0 then 1 else num, block).Ok?
    ensures PayByToken(entry, num, block, ctx).sent == []
  {
    if entry.Ok? {
      BlockIsChecked(entry.value, if num == 0 then 1 else num, block, ctx);
    }
  }

  /** What it leaves: the decision and the signature in the answer, and the exact charge. */
  lemma TokensAreCharged(entry: Entry, num: u64, block: MultipleQueryState, ctx: Context)
    requires PayByToken(entry, num, block, ctx).reply.Ok?
    ensures var step, units := PayByToken(entry, num, block, ctx), if num == 0 then 1 else num;
      && entry.Ok? && Decision(entry.value, units, block).Ok?
      && step.reply == Ok(BlockAnswer(block, Decision(entry.value, units, block).value, ctx))
      && 0 <= entry.value.spent + entry.value.price * units < U256_MODULUS
      && step.entry
           == Ok(Booked(entry.value, ctx, entry.value.spent + entry.value.price * units, entry.value.remote))
  {
    BlockIsChecked(entry.value, if num == 0 then 1 else num, block, ctx);
  }

  // Payments

  // A payment takes effect: more is signed for than the coordinator has counted.
  predicate Effective(entry: Entry, query: QueryState, paid: Result<u256>, ctx: Context) {
    && entry.Ok? && MaySign(entry.value, ctx) && query.spent <= entry.value.total
    && paid.Ok? && paid.value < query.spent
  }

  /** When a payment is answered and when it takes effect, and all it then does: the signed
      amount is sent on with both signatures, and the record takes it over if it is higher,
      or is closed by a final one. */
  lemma PaymentIsExact(entry: Entry, query: QueryState, paid: Result<u256>, ctx: Context)
    ensures var step := PayChannel(entry, query, paid, ctx);
      && (step.reply.Ok? <==>
            entry.Ok? && MaySign(entry.value, ctx) && query.spent <= entry.value.total && paid.Ok?)
      && (step.reply.Ok? ==>
            step.reply == Ok(QueryState(query.channelId, query.indexer, query.consumer, query.spent,
                                        entry.value.spent, query.isFinal, ctx.indexerSign, query.consumerSign)))
      && step.sent
           == (if Effective(entry, query, paid, ctx)
               then [Update(query.spent, query.isFinal, ctx.indexerSign, query.consumerSign)] else [])
      && step.entry
           == (if !Effective(entry, query, paid, ctx) || query.spent <= entry.value.remote then entry
               else if query.isFinal then Err(Expired(1054))
               else Ok(Booked(entry.value, ctx, entry.value.spent, query.spent)))
  {
  }

  /** Why a payment is refused, in the order of the checks. */
  lemma PaymentRefusedWith(entry: Entry, query: QueryState, paid: Result<u256>, ctx: Context)
    requires entry.Ok? && MaySign(entry.value, ctx)
    ensures query.spent > entry.value.total ==> Refused(PayChannel(entry, query, paid, ctx), entry, Overflow(1056))
    ensures query.spent <= entry.value.total && paid.Err? ==>
              Refused(PayChannel(entry, query, paid, ctx), entry, paid.error)
  {
  }

  // Records

  predicate Closes(item: ChannelItem, now: i64) {
    item.isFinal || now > item.expired
  }

  // Who may sign has to be asked for a new channel, and for one without signers.
  predicate AsksConsumer(entry: Entry) {
    entry.Ok? ==> entry.value.signer.signers == []
  }

  predicate TakenIn(entry: Entry, item: ChannelItem, consumer: Result<ConsumerType>, now: i64) {
    !item.isFinal && now < item.expired && (AsksConsumer(entry) ==> consumer.Ok?)
  }

  function FirstOf(signers: ConsumerType): ConsumerType {
    if |signers.signers| <= 255 then signers
    else if signers.Host? then Host(signers.signers[..255]) else Account(signers.signers[..255])
  }

  /** What a published record does: a final or expired one closes the channel whatever it was,
      one that is taken in sets price, total and expiration and raises both amounts, and
      anything else leaves the channel as it was. */
  lemma RecordIsExact(entry: Entry, item: ChannelItem, consumer: Result<ConsumerType>, now: i64)
    ensures var step := HandleChannel(entry, item, consumer, now);
      && step.sent == []
      && (step.reply.Ok? <==> Closes(item, now) || (AsksConsumer(entry) ==> consumer.Ok?))
      && (step.reply.Err? ==> consumer.Err? && step.reply.error == consumer.error)
      && (Closes(item, now) ==> step.entry == Err(Expired(1054)))
      && (!Closes(item, now) && !TakenIn(entry, item, consumer, now) ==> step.entry == entry)
  {
  }

  lemma RecordIsMerged(entry: Entry, item: ChannelItem, consumer: Result<ConsumerType>, now: i64)
    requires entry.Ok? && TakenIn(entry, item, consumer, now)
    ensures var after := HandleChannel(entry, item, consumer, now).entry;
      && after.Ok?
      && after.value.expiration == item.expired && after.value.price == item.price
      && after.value.total == item.total && after.value.coordi == item.spent
      && after.value.spent == (if entry.value.spent <= item.spent then item.spent else entry.value.spent)
      && after.value.remote == (if entry.value.remote <= item.remote then item.remote else entry.value.remote)
      && after.value.agent == entry.value.agent && after.value.deployment == entry.value.deployment
      && after.value.conflictStart == entry.value.conflictStart
      && after.value.conflictTimes == entry.value.conflictTimes
      && after.value.signer == FirstOf(if AsksConsumer(entry) then consumer.value else entry.value.signer)
  {
  }

  lemma RecordOpens(entry: Entry, item: ChannelItem, consumer: Result<ConsumerType>, now: i64)
    requires entry.Err? && TakenIn(entry, item, consumer, now)
    ensures HandleChannel(entry, item, consumer, now).entry
         == Ok(StateCache(item.expired, item.agent, item.deployment, item.price, item.total, item.spent, item.remote,
                          item.spent, now, 0, FirstOf(consumer.value)))
  {
  }

  // Opening and closing

  // A request on a channel without a record fails as expired.
  predicate Fails(e: Event) {
    var closed: Entry := Err(Expired(1054));
    match e
    case Single(query, p, limit, ctx) => Refused(ServeSingle(closed, query, p, limit, ctx), closed, Expired(1054))
    case Multiple(block, units, ctx) => Refused(ServeMultiple(closed, block, units, ctx), closed, Expired(1054))
    case Token(block, num, ctx) => Refused(PayByToken(closed, num, block, ctx), closed, Expired(1054))
    case Pay(query, paid, ctx) => Refused(PayChannel(closed, query, paid, ctx), closed, Expired(1054))
    case Sync(_, _, _) => true
  }

  predicate Opens(e: Event) {
    e.Sync? && !e.item.isFinal && e.now < e.item.expired && e.consumer.Ok?
  }

  /** A closed channel is opened exactly by a record that is neither final nor expired and
      whose consumer is known; every request on it fails. */
  lemma OnlyRecordsOpen(e: Event)
    ensures var after := Apply(Err(Expired(1054)), e); if Opens(e) then after.Ok? else after == Err(Expired(1054))
    ensures Fails(e)
  {
  }

  /** Which event closes an open channel: a final single query that is answered, a final
      payment that raises the signed amount, and a final or expired record. */
  lemma ChannelClosesWhen(entry: Entry, e: Event)
    requires entry.Ok?
    ensures Apply(entry, e).Err? <==>
      match e
      case Single(query, p, limit, ctx) => query.isFinal && ServeSingle(entry, query, p, limit, ctx).reply.Ok?
      case Multiple(_, _, _) => false
      case Token(_, _, _) => false
      case Pay(query, paid, ctx) =>
        query.isFinal && Effective(entry, query, paid, ctx) && entry.value.remote < query.spent
      case Sync(item, _, now) => item.isFinal || now > item.expired
    ensures Apply(entry, e).Err? ==> Apply(entry, e) == Err(Expired(1054))
  {
  }

  lemma {:induction false} ClosedStaysClosed(es: seq<Event>)
    requires forall e <- es :: !Opens(e)
    ensures Run(Err(Expired(1054)), es) == Err(Expired(1054)) && forall e <- es :: Fails(e)
    decreases |es|
  {
    if es != [] {
      OnlyRecordsOpen(es[0]);
      ClosedStaysClosed(es[1..]);
      assert forall e <- es :: e == es[0] || e in es[1..];
    }
  }

  /** After a final or expired record a channel stays closed over every run, and refuses every
      query and payment in it, until a record opens it again. */
  lemma FinalRecordCloses(entry: Entry, close: Event, es: seq<Event>)
    requires close.Sync? && Closes(close.item, close.now) && forall e <- es :: !Opens(e)
    ensures Run(entry, [close] + es) == Err(Expired(1054)) && forall e <- es :: Fails(e)
  {
    RecordIsExact(entry, close.item, close.consumer, close.now);
    assert ([close] + es)[1..] == es;
    ClosedStaysClosed(es);
  }
}
