/** The proxy's request handlers over its Redis store.

    Each method is proved to do to the entry of its own channel exactly what `Channel`
    says, to leave every other channel's entry alone, and to send what `Channel` says.
 */
module Proxy {
  import opened Outcomes
  import opened Products
  import opened Words
  import opened Encoding
  import opened SignedStates
  import opened StateCaches
  import opened Manifest
  import opened Channel

  datatype Message = Message(channelId: u256, update: Update)

  function Tagged(channelId: u256, updates: seq<Update>): (ms: seq<Message>)
    ensures |ms| == |updates|
  {
    seq(|updates|, i requires 0 <= i < |updates| => Message(channelId, updates[i]))
  }

  ghost function Lookup(redis: map<string, Bytes>, keyname: string): Entry {
    if keyname !in redis || redis[keyname] == [] then ABSENT else FromBytes(redis[keyname])
  }

  lemma StoredLookup(redis: map<string, Bytes>, channelId: u256, cache: StateCache, other: u256)
    ensures Lookup(redis[KeyName(channelId) := ToBytes(cache)], KeyName(other))
         == if other == channelId then Ok(Stored(cache)) else Lookup(redis, KeyName(other))
  {
    KeyNameInjective(channelId, other);
    CacheRoundTrip(cache);
  }

  lemma DeletedLookup(redis: map<string, Bytes>, channelId: u256, other: u256)
    ensures Lookup(redis - {KeyName(channelId)}, KeyName(other))
         == if other == channelId then ABSENT else Lookup(redis, KeyName(other))
  {
    KeyNameInjective(channelId, other);
  }

  class Server {
    var redis: map<string, Bytes>
    var outbox: seq<Message>

    constructor ()
      ensures redis == map[] && outbox == []
    {
      redis := map[];
      outbox := [];
    }

    ghost function EntryOf(channelId: u256): Entry
      reads this
    {
      Lookup(redis, KeyName(channelId))
    }

    method FetchChannelCache(channelId: u256) returns (r: Result<StateCache>)
      ensures r == EntryOf(channelId)
    {
      var keyname := KeyName(channelId);
      if keyname !in redis {
        return Err(Expired(1054));
      }
      var bytes := redis[keyname];
      if bytes == [] {
        return Err(Expired(1054));
      }
      r := FromBytes(bytes);
    }

    method SetEx(channelId: u256, cache: StateCache)
      modifies this`redis
      ensures forall id: u256 ::
                Lookup(redis, KeyName(id))
                  == if id == channelId then Ok(Stored(cache)) else Lookup(old(redis), KeyName(id))
    {
      var bytes := EncodeCache(cache);
      redis := redis[KeyName(channelId) := bytes];
      forall id: u256
        ensures Lookup(redis, KeyName(id))
             == if id == channelId then Ok(Stored(cache)) else Lookup(old(redis), KeyName(id))
      {
        StoredLookup(old(redis), channelId, cache, id);
      }
    }

    method Del(channelId: u256)
      modifies this`redis
      ensures forall id: u256 ::
                Lookup(redis, KeyName(id)) == if id == channelId then ABSENT else Lookup(old(redis), KeyName(id))
    {
      redis := redis - {KeyName(channelId)};
      forall id: u256
        ensures Lookup(redis, KeyName(id)) == if id == channelId then ABSENT else Lookup(old(redis), KeyName(id))
      {
        DeletedLookup(old(redis), channelId, id);
      }
    }

    method BeforeQuerySingleState(state: QueryState, price: Price, limit: u64, ctx: Context)
      returns (r: Result<StateCache>)
      ensures r == if EntryOf(state.channelId).Err? then EntryOf(state.channelId)
                   else match WithSigner(EntryOf(state.channelId).value, ctx)
                        case Err(error) => Err(error)
                        case Ok(known) => BeforeSingle(known, state.spent, price, limit, ctx.now)
    {
      var fetched := FetchChannelCache(state.channelId);
      if fetched.Err? {
        return fetched;
      }
      var known := WithSigner(fetched.value, ctx);
      if known.Err? {
        return known;
      }
      var cache := known.value;
      var used := CheckedMul(cache.price, price.units);
      if used.Err? {
        return Err(used.error);
      }
      var localNext := CheckedAdd(cache.spent, used.value);
      if localNext.Err? {
        return Err(localNext.error);
      }
      var remoteNext := state.spent;
      if cache.remote < remoteNext {
        var expected := CheckedAdd(cache.remote, used.value);
        if expected.Err? {
          return Err(expected.error);
        }
        if expected.value > remoteNext {
          return Err(InvalidProjectPrice(1034));
        }
      }
      if localNext.value > cache.total {
        return Err(Overflow(1056));
      }
      var covered := CheckedAdd(remoteNext, used.value);
      if covered.Err? {
        return Err(covered.error);
      }
      if localNext.value > covered.value {
        if cache.conflictTimes <= 1 {
          cache := cache.(conflictStart := ctx.now);
        }
        cache := cache.(conflictTimes := WrappingAdd(cache.conflictTimes, price.weight));
      }
      if cache.conflictTimes > limit {
        return Err(PaygConflict(1050));
      }
      r := Ok(cache);
    }

    method PostQuerySingleState(state: QueryState, checked: StateCache, ctx: Context) returns (r: Result<QueryState>)
      modifies this
      ensures var post := PostSingle(checked, state.spent);
        if post.Err? then r == Err(post.error) && redis == old(redis) && outbox == old(outbox)
        else
          && r == Ok(state.(remote := post.value.spent))
          && (forall id: u256 :: EntryOf(id) ==
                if id != state.channelId then old(EntryOf(id))
                else if state.isFinal then ABSENT
                else Ok(Stored(post.value)))
          && outbox == old(outbox)
               + [Message(state.channelId, Update(state.spent, state.isFinal, state.indexerSign, state.consumerSign))]
    {
      var cache := checked;
      var localNext := CheckedAdd(cache.spent, cache.price);
      if localNext.Err? {
        return Err(localNext.error);
      }
      var remoteNext := state.spent;
      cache := cache.(spent := localNext.value);
      cache := cache.(remote := remoteNext);
      if state.isFinal {
        Del(state.channelId);
      } else {
        SetEx(state.channelId, cache);
      }
      outbox := outbox
        + [Message(state.channelId, Update(remoteNext, state.isFinal, state.indexerSign, state.consumerSign))];
      r := Ok(state.(remote := localNext.value));
    }

    method QuerySingleState(state: QueryState, price: Price, limit: u64, ctx: Context) returns (r: Result<QueryState>)
      modifies this
      ensures var step := ServeSingle(old(EntryOf(state.channelId)), state, price, limit, ctx);
        && r == step.reply
        && (forall id: u256 :: EntryOf(id) == if id == state.channelId then step.entry else old(EntryOf(id)))
        && outbox == old(outbox) + Tagged(state.channelId, step.sent)
    {
      var before := BeforeQuerySingleState(state, price, limit, ctx);
      if before.Err? {
        return Err(before.error);
      }
      if !ctx.served {
        return Err(Upstream);
      }
      r := PostQuerySingleState(state.(indexerSign := ctx.indexerSign), before.value, ctx);
    }

    method BeforeQueryMultipleState(state: MultipleQueryState, units: u64, ctx: Context) returns (r: Result<Charged>)
      ensures r == if EntryOf(state.channelId).Err? then Err(EntryOf(state.channelId).error)
                   else BeforeMultiple(EntryOf(state.channelId).value, units, state.start, state.end, ctx)
    {
      var fetched := FetchChannelCache(state.channelId);
      if fetched.Err? {
        return Err(fetched.error);
      }
      var known := WithSigner(fetched.value, ctx);
      if known.Err? {
        return Err(known.error);
      }
      var cache := known.value;
      var active := CheckBalance(cache, units, state.start, state.end);
      if active.Err? {
        return Err(active.error);
      }
      NonNegativeProduct(cache.price, units);
      cache := cache.(spent := cache.spent + cache.price * units);
      r := Ok(Charged(cache, active.value));
    }

    method QueryMultipleState(state: MultipleQueryState, units: u64, ctx: Context)
      returns (r: Result<MultipleQueryState>)
      modifies this
      ensures var step := ServeMultiple(old(EntryOf(state.channelId)), state, units, ctx);
        && r == step.reply
        && (forall id: u256 :: EntryOf(id) == if id == state.channelId then step.entry else old(EntryOf(id)))
        && outbox == old(outbox) + Tagged(state.channelId, step.sent)
    {
      var before := BeforeQueryMultipleState(state, units, ctx);
      if before.Err? {
        return Err(before.error);
      }
      var answer := state.(active := before.value.active, sign := ctx.indexerSign);
      if before.value.active.IsInactive() {
        return Ok(answer);
      }
      if !ctx.served {
        return Err(Upstream);
      }
      SetEx(state.channelId, before.value.cache);
      r := Ok(answer);
    }

    method ChargeTokens(num: u64, state: MultipleQueryState, ctx: Context) returns (r: Result<MultipleQueryState>)
      modifies this
      ensures var step := PayByToken(old(EntryOf(state.channelId)), num, state, ctx);
        && r == step.reply
        && (forall id: u256 :: EntryOf(id) == if id == state.channelId then step.entry else old(EntryOf(id)))
        && outbox == old(outbox) + Tagged(state.channelId, step.sent)
    {
      var realNum := if num > 1 then num else 1;
      var before := BeforeQueryMultipleState(state, realNum, ctx);
      if before.Err? {
        return Err(before.error);
      }
      SetEx(state.channelId, before.value.cache);
      r := Ok(state.(active := before.value.active, sign := ctx.indexerSign));
    }

    method Pay(query: QueryState, paid: Result<u256>, ctx: Context) returns (r: Result<QueryState>)
      modifies this
      ensures var step := PayChannel(old(EntryOf(query.channelId)), query, paid, ctx);
        && r == step.reply
        && (forall id: u256 :: EntryOf(id) == if id == query.channelId then step.entry else old(EntryOf(id)))
        && outbox == old(outbox) + Tagged(query.channelId, step.sent)
    {
      var state := query;
      var fetched := FetchChannelCache(state.channelId);
      if fetched.Err? {
        return Err(fetched.error);
      }
      state := state.(indexerSign := ctx.indexerSign);
      var known := WithSigner(fetched.value, ctx);
      if known.Err? {
        return Err(known.error);
      }
      var cache := known.value;
      var remoteSpent := state.spent;
      state := state.(remote := cache.spent);
      if remoteSpent > cache.total {
        return Err(Overflow(1056));
      }
      if paid.Err? {
        return Err(paid.error);
      }
      if remoteSpent <= paid.value {
        return Ok(state);
      }
      RaiseRemote(state.channelId, cache, remoteSpent, state.isFinal);
      outbox := outbox
        + [Message(state.channelId, Update(remoteSpent, state.isFinal, state.indexerSign, state.consumerSign))];
      r := Ok(state);
    }

    method RaiseRemote(channelId: u256, known: StateCache, remoteSpent: u256, isFinal: bool)
      modifies this`redis
      ensures forall id: u256 ::
                Lookup(redis, KeyName(id)) ==
                  if id != channelId || known.remote >= remoteSpent then Lookup(old(redis), KeyName(id))
                  else if isFinal then ABSENT
                  else Ok(Stored(known.(remote := remoteSpent)))
    {
      var cache := known;
      if cache.remote < remoteSpent {
        cache := cache.(remote := remoteSpent);
        if isFinal {
          Del(channelId);
        } else {
          SetEx(channelId, cache);
        }
      }
    }

    method Handle(channelId: u256, item: ChannelItem, consumer: Result<ConsumerType>, now: i64) returns (r: Result<()>)
      modifies this
      ensures var step := HandleChannel(old(EntryOf(channelId)), item, consumer, now);
        && r == step.reply
        && (forall id: u256 :: EntryOf(id) == if id == channelId then step.entry else old(EntryOf(id)))
        && outbox == old(outbox) + Tagged(channelId, step.sent)
    {
      if item.isFinal || now > item.expired {
        Del(channelId);
        return Ok(());
      }
      var cached := FetchChannelCache(channelId);
      var cache: StateCache;
      if cached.Ok? {
        cache := cached.value;
        cache := cache.(expiration := item.expired);
        cache := cache.(total := item.total);
        cache := cache.(price := item.price);
        cache := cache.(remote := if cache.remote < item.remote then item.remote else cache.remote);
        cache := cache.(spent := if cache.spent < item.spent then item.spent else cache.spent);
        cache := cache.(coordi := item.spent);
        if cache.signer.IsEmpty() {
          if consumer.Err? {
            return Err(consumer.error);
          }
          cache := cache.(signer := consumer.value);
        }
      } else {
        if consumer.Err? {
          return Err(consumer.error);
        }
        cache := StateCache(item.expired, item.agent, item.deployment, item.price, item.total, item.spent, item.remote,
                            item.spent, now, 0, consumer.value);
      }
      if item.expired - now > 0 {
        SetEx(channelId, cache);
      }
      r := Ok(());
    }
  }
}
