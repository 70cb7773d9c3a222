/** The coordinator's half of a state channel: updates, checkpoints, reward collection. */
module Coordinator {
  import opened Outcomes
  import opened SignedStates

  // A signature as it is stored: none before the first is received.
  type Sign = Option<Signature>

  // A state both sides signed, as it is submitted to the coordinator and to the chain.
  datatype Signed = Signed(spent: nat, isFinal: bool, indexerSign: Sign, consumerSign: Sign)

  // The amounts and signatures of a stored channel
  datatype Record = Record(
    price: nat, spent: nat, remote: nat, onchain: nat, lastFinal: bool, lastIndexerSign: Sign, lastConsumerSign: Sign)

  function TupleOf(r: Record): Signed {
    Signed(r.remote, r.lastFinal, r.lastIndexerSign, r.lastConsumerSign)
  }

  // Every update adds one price; a higher signed amount replaces the whole tuple.
  function Updated(r: Record, s: Signed): Record {
    var counted := r.(spent := r.spent + r.price);
    if r.remote < s.spent then
      counted.(remote := s.spent, lastFinal := s.isFinal,
               lastIndexerSign := s.indexerSign, lastConsumerSign := s.consumerSign)
    else counted
  }

  datatype Checkpointing = Checkpointing(record: Record, sent: Option<Signed>, reply: Result<()>)

  // `accepted` says whether the transaction went through.
  function Checkpointed(r: Record, accepted: bool): Checkpointing {
    if r.onchain == r.remote then Checkpointing(r, None, Ok(()))
    else if accepted then Checkpointing(r.(onchain := r.remote, spent := r.remote), Some(TupleOf(r)), Ok(()))
    else Checkpointing(r, Some(TupleOf(r)), Err(TransactionFailed))
  }

  // Runs

  datatype Event = Submit(state: Signed) | Check(accepted: bool)

  function Apply(r: Record, e: Event): Record {
    match e
    case Submit(s) => Updated(r, s)
    case Check(accepted) => Checkpointed(r, accepted).record
  }

  function Run(r: Record, es: seq<Event>): Record {
    if es == [] then r else Apply(Run(r, es[..|es| - 1]), es[|es| - 1])
  }

  function Submitted(es: seq<Event>): seq<Signed> {
    if es == [] then []
    else
      var before, last := Submitted(es[..|es| - 1]), es[|es| - 1];
      if last.Submit? then before + [last.state] else before
  }

  // A channel as it is first stored
  predicate Opened(r: Record) {
    r.remote == 0 && !r.lastFinal && r.lastIndexerSign == None && r.lastConsumerSign == None
  }

  /** In every reachable state the stored tuple is one submitted state, taken whole, and no
      submitted state has a higher amount. */
  lemma {:induction false} StoredTupleIsWhole(r: Record, es: seq<Event>)
    requires Opened(r)
    ensures forall s <- Submitted(es) :: s.spent <= Run(r, es).remote
    ensures TupleOf(Run(r, es)) in Submitted(es) || TupleOf(Run(r, es)) == TupleOf(r)
    ensures Run(r, es).remote > 0 ==> TupleOf(Run(r, es)) in Submitted(es)
  {
    if es != [] {
      var n := |es| - 1;
      StoredTupleIsWhole(r, es[..n]);
      var before := Run(r, es[..n]);
      match es[n]
      case Submit(s) =>
        assert Submitted(es) == Submitted(es[..n]) + [s];
        assert s in Submitted(es);
        if before.remote >= s.spent {
          assert TupleOf(Run(r, es)) == TupleOf(before);
        } else {
          assert TupleOf(Run(r, es)) == s;
        }
      case Check(accepted) =>
        assert TupleOf(Run(r, es)) == TupleOf(before);
    }
  }

  predicate OnlySubmits(es: seq<Event>) {
    forall e <- es :: e.Submit?
  }

  // The submitted state at `k` is the first of the highest amount.
  predicate FirstHighest(submitted: seq<Signed>, k: nat) {
    && k < |submitted|
    && (forall j | 0 <= j < k :: submitted[j].spent < submitted[k].spent)
    && (forall j | k <= j < |submitted| :: submitted[j].spent <= submitted[k].spent)
  }

  /** Of several states of the highest amount the first is stored, and stays. */
  lemma {:induction false} FirstHighestIsStored(r: Record, es: seq<Event>)
    requires Opened(r)
    ensures Run(r, es).remote > 0 ==>
              exists k: nat :: FirstHighest(Submitted(es), k) && Submitted(es)[k] == TupleOf(Run(r, es))
    ensures Run(r, es).remote == 0 ==> forall s <- Submitted(es) :: s.spent == 0
  {
    if es != [] {
      var n := |es| - 1;
      var before, earlier := Run(r, es[..n]), Submitted(es[..n]);
      FirstHighestIsStored(r, es[..n]);
      StoredTupleIsWhole(r, es[..n]);
      match es[n]
      case Submit(s) =>
        assert Submitted(es) == earlier + [s];
        if s.spent > before.remote {
          assert FirstHighest(Submitted(es), |earlier|);
        } else if before.remote > 0 {
          var k: nat :| FirstHighest(earlier, k) && earlier[k] == TupleOf(before);
          assert FirstHighest(Submitted(es), k);
        }
      case Check(accepted) =>
        assert TupleOf(Run(r, es)) == TupleOf(before);
    }
  }

  /** Between checkpoints every update counts one price, raised or not; price and settled
      amount stay. */
  lemma {:induction false} UpdatesCountPrices(r: Record, es: seq<Event>)
    requires OnlySubmits(es)
    ensures Run(r, es).spent == r.spent + |es| * r.price
    ensures Run(r, es).price == r.price && Run(r, es).onchain == r.onchain
  {
    if es != [] {
      UpdatesCountPrices(r, es[..|es| - 1]);
      assert |es| * r.price == (|es| - 1) * r.price + r.price;
    }
  }

  /** A checkpoint sends nothing when there is nothing to settle; if its transaction is
      accepted both amounts become the signed one, and otherwise nothing changes. */
  lemma CheckpointOutcome(r: Record, accepted: bool)
    ensures var c := Checkpointed(r, accepted);
      && (c.sent.None? <==> r.onchain == r.remote)
      && (c.sent.Some? ==>
            c.sent.value == Signed(r.remote, r.lastFinal, r.lastIndexerSign, r.lastConsumerSign))
      && (c.reply.Ok? <==> r.onchain == r.remote || accepted)
      && (c.reply.Err? ==> c.reply == Err(TransactionFailed))
      && (if r.onchain != r.remote && accepted
          then c.record == Record(
            r.price, r.remote, r.remote, r.remote, r.lastFinal, r.lastIndexerSign, r.lastConsumerSign)
          else c.record == r)
  {
  }

  /** A checkpoint of a reachable state with money to claim sends a submitted state whole,
      the highest one submitted. */
  lemma CheckpointSendsSubmittedState(r: Record, es: seq<Event>, accepted: bool)
    requires Opened(r) && Run(r, es).onchain < Run(r, es).remote
    ensures var c := Checkpointed(Run(r, es), accepted);
      && c.sent.Some? && c.sent.value in Submitted(es)
      && (forall s <- Submitted(es) :: s.spent <= c.sent.value.spent)
      && (c.reply.Ok? ==> c.record.onchain == c.record.spent == c.sent.value.spent)
  {
    StoredTupleIsWhole(r, es);
  }

  /** Called directly, a checkpoint sends a submitted state exactly when one raised the
      stored amount: before that it sends an unsigned tuple. */
  lemma DirectCheckpointIsSignedWhen(r: Record, es: seq<Event>, accepted: bool)
    requires Opened(r) && Run(r, es).onchain != Run(r, es).remote
    requires forall s <- Submitted(es) :: s.indexerSign != None
    ensures Checkpointed(Run(r, es), accepted).sent.value in Submitted(es) <==> Run(r, es).remote > 0
    ensures Run(r, es).remote > 0 <==> exists s <- Submitted(es) :: s.spent > 0
  {
    StoredTupleIsWhole(r, es);
    assert Run(r, es).remote == 0 ==> TupleOf(Run(r, es)).indexerSign == None by {
      UnraisedTupleIsUnsigned(r, es);
    }
  }

  lemma {:induction false} UnraisedTupleIsUnsigned(r: Record, es: seq<Event>)
    requires Opened(r)
    ensures Run(r, es).remote == 0 ==> TupleOf(Run(r, es)) == TupleOf(r)
  {
    if es != [] {
      UnraisedTupleIsUnsigned(r, es[..|es| - 1]);
    }
  }

  // The stored channels, and the scheduled collection of rewards

  datatype Collection = Collection(
    channels: map<string, Record>, startTimes: map<string, int>, ongoing: bool, sent: seq<(string, Signed)>)

  // The clock as it is read at a channel's turn: once to note a start time, once to compare
  datatype Reading = Reading(noted: int, compared: int)

  datatype Limits = Limits(threshold: int, timeLimit: int, clock: string -> Reading)

  function StartTime(c: Collection, id: string, limits: Limits): int {
    if id in c.startTimes then c.startTimes[id] else limits.clock(id).noted
  }

  predicate Due(c: Collection, id: string, limits: Limits)
    requires id in c.channels
  {
    var r := c.channels[id];
    && r.remote > r.onchain
    && (|| r.remote - r.onchain > limits.threshold
        || limits.clock(id).compared - StartTime(c, id, limits) >= limits.timeLimit)
  }

  // What happens to one open channel; `accepts` answers whether its transaction goes through.
  function CollectOne(c: Collection, id: string, limits: Limits, accepts: string -> bool): Collection {
    if id !in c.channels || c.channels[id].remote <= c.channels[id].onchain then c
    else
      var r := c.channels[id];
      var started := c.(startTimes := c.startTimes[id := StartTime(c, id, limits)]);
      if !Due(c, id, limits) then started
      else
        var tried := started.(sent := c.sent + [(id, TupleOf(r))]);
        if accepts(id) then
          tried.(channels := c.channels[id := Checkpointed(r, true).record], startTimes := started.startTimes - {id})
        else tried.(ongoing := true)
  }

  function CollectAll(c: Collection, ids: seq<string>, limits: Limits, accepts: string -> bool): Collection {
    if ids == [] then c
    else CollectOne(CollectAll(c, ids[..|ids| - 1], limits, accepts), ids[|ids| - 1], limits, accepts)
  }

  predicate Distinct(ids: seq<string>) {
    forall i, j | 0 <= i < j < |ids| :: ids[i] != ids[j]
  }

  lemma {:induction false} CollectionLeavesOthers(
      c: Collection, ids: seq<string>, limits: Limits, accepts: string -> bool, id: string)
    requires id !in ids
    ensures var after := CollectAll(c, ids, limits, accepts);
      && after.channels.Keys == c.channels.Keys
      && (id in c.channels ==> after.channels[id] == c.channels[id])
      && (id in after.startTimes <==> id in c.startTimes)
      && (id in c.startTimes ==> after.startTimes[id] == c.startTimes[id])
      && StartTime(after, id, limits) == StartTime(c, id, limits)
      && (forall t :: (id, t) in after.sent <==> (id, t) in c.sent)
  {
    if ids != [] {
      CollectionLeavesOthers(c, ids[..|ids| - 1], limits, accepts, id);
    }
  }

  lemma OneCollected(c: Collection, id: string, limits: Limits, accepts: string -> bool)
    requires id in c.channels
    ensures var after := CollectOne(c, id, limits, accepts);
      && after.channels[id] == (if Due(c, id, limits) && accepts(id) then Checkpointed(c.channels[id], true).record
                                else c.channels[id])
      && (forall t ::
            (id, t) in after.sent <==> (id, t) in c.sent || (Due(c, id, limits) && t == TupleOf(c.channels[id])))
  {
  }

  /** For each listed channel, a collection sends its whole stored tuple exactly when it is
      due, nothing else of it, and settles it exactly when that is accepted. */
  lemma {:induction false} CollectionSendsStoredTuples(
      c: Collection, ids: seq<string>, limits: Limits, accepts: string -> bool, id: string)
    requires Distinct(ids) && id in ids && id in c.channels && forall t :: (id, t) !in c.sent
    ensures var after := CollectAll(c, ids, limits, accepts);
      && id in after.channels
      && after.channels[id] == (if Due(c, id, limits) && accepts(id) then Checkpointed(c.channels[id], true).record
                                else c.channels[id])
      && (forall t :: (id, t) in after.sent <==> Due(c, id, limits) && t == TupleOf(c.channels[id]))
  {
    var n := |ids| - 1;
    var before := CollectAll(c, ids[..n], limits, accepts);
    if id == ids[n] {
      assert id !in ids[..n];
      CollectionLeavesOthers(c, ids[..n], limits, accepts, id);
      OneCollected(before, id, limits, accepts);
    } else {
      assert id in ids[..n];
      CollectionSendsStoredTuples(c, ids[..n], limits, accepts, id);
    }
  }

  /** With each listed channel in a reachable state, everything a collection sends was
      submitted whole. */
  lemma CollectionSendsSubmittedStates(
      c: Collection, ids: seq<string>, limits: Limits, accepts: string -> bool, id: string, t: Signed,
      r: Record, es: seq<Event>)
    requires Distinct(ids) && id in c.channels && c.sent == []
    requires Opened(r) && c.channels[id] == Run(r, es)
    requires (id, t) in CollectAll(c, ids, limits, accepts).sent
    ensures id in ids && t in Submitted(es) && forall s <- Submitted(es) :: s.spent <= t.spent
  {
    if id in ids {
      CollectionSendsStoredTuples(c, ids, limits, accepts, id);
    } else {
      CollectionLeavesOthers(c, ids, limits, accepts, id);
    }
    StoredTupleIsWhole(r, es);
  }

  // When a channel was first seen with money to claim
  function Noted(c: Collection, id: string, limits: Limits): int {
    if id in c.startTimes then c.startTimes[id] else limits.clock(id).noted
  }

  // Money to claim, and either enough of it or old enough
  predicate Ripe(c: Collection, id: string, limits: Limits)
    requires id in c.channels
  {
    var unclaimed := c.channels[id].remote - c.channels[id].onchain;
    && unclaimed > 0
    && (unclaimed > limits.threshold || limits.clock(id).compared - Noted(c, id, limits) >= limits.timeLimit)
  }

  // How a channel's turn leaves its start time: forgotten when settled, otherwise noted once
  // there is money to claim
  predicate Remembers(before: Collection, after: Collection, limits: Limits, accepts: string -> bool, id: string)
    requires id in before.channels
  {
    if before.channels[id].remote <= before.channels[id].onchain then
      && (id in after.startTimes <==> id in before.startTimes)
      && (id in before.startTimes ==> after.startTimes[id] == before.startTimes[id])
    else if Ripe(before, id, limits) && accepts(id) then id !in after.startTimes
    else id in after.startTimes && after.startTimes[id] == Noted(before, id, limits)
  }

  lemma OneRemembers(c: Collection, limits: Limits, accepts: string -> bool, id: string)
    requires id in c.channels
    ensures var after := CollectOne(c, id, limits, accepts);
      && Remembers(c, after, limits, accepts, id)
      && (after.ongoing <==> c.ongoing || (Ripe(c, id, limits) && !accepts(id)))
      && forall other | other != id ::
           && (other in after.startTimes <==> other in c.startTimes)
           && (other in c.startTimes ==> after.startTimes[other] == c.startTimes[other])
           && (other in after.channels <==> other in c.channels)
           && (other in c.channels ==> after.channels[other] == c.channels[other])
  {
  }

  /** A collection notes when a channel was first seen with money to claim, keeps that time
      over failed and early turns, and forgets it when the channel is settled. */
  lemma {:induction false} CollectionRemembers(
      c: Collection, ids: seq<string>, limits: Limits, accepts: string -> bool, id: string)
    requires Distinct(ids) && id in ids && id in c.channels
    ensures Remembers(c, CollectAll(c, ids, limits, accepts), limits, accepts, id)
  {
    var n := |ids| - 1;
    var before := CollectAll(c, ids[..n], limits, accepts);
    if id == ids[n] {
      CollectionLeavesOthers(c, ids[..n], limits, accepts, id);
      OneRemembers(before, limits, accepts, id);
    } else {
      CollectionRemembers(c, ids[..n], limits, accepts, id);
      if ids[n] in before.channels {
        OneRemembers(before, limits, accepts, ids[n]);
      }
    }
  }

  /** A collection asks to be repeated exactly when some ripe channel's transaction failed. */
  lemma {:induction false} RetryIsRaisedWhen(c: Collection, ids: seq<string>, limits: Limits, accepts: string -> bool)
    requires Distinct(ids)
    ensures CollectAll(c, ids, limits, accepts).ongoing <==>
      c.ongoing || exists id <- ids :: id in c.channels && Ripe(c, id, limits) && !accepts(id)
  {
    if ids != [] {
      var n := |ids| - 1;
      var before := CollectAll(c, ids[..n], limits, accepts);
      RetryIsRaisedWhen(c, ids[..n], limits, accepts);
      CollectionLeavesOthers(c, ids[..n], limits, accepts, ids[n]);
      if ids[n] in c.channels {
        OneRemembers(before, limits, accepts, ids[n]);
      }
      assert forall id :: id in ids <==> id in ids[..n] || id == ids[n];
    }
  }

  // Several collections, one after the other

  datatype Round = Round(ids: seq<string>, limits: Limits, accepts: string -> bool)

  function AfterRound(c: Collection, round: Round): Collection {
    CollectAll(c.(ongoing := false), round.ids, round.limits, round.accepts)
  }

  predicate Unsettled(c: Collection, rounds: seq<Round>, id: string)
    decreases |rounds|
  {
    rounds == [] || (
      var round := rounds[0];
      && Distinct(round.ids)
      && (id in round.ids && id in c.channels && Ripe(c, id, round.limits) ==> !round.accepts(id))
      && Unsettled(AfterRound(c, round), rounds[1..], id))
  }

  function AfterRounds(c: Collection, rounds: seq<Round>): Collection
    decreases |rounds|
  {
    if rounds == [] then c else AfterRounds(AfterRound(c, rounds[0]), rounds[1..])
  }

  lemma UnsettledRoundKeeps(c: Collection, round: Round, id: string)
    requires id in c.channels && c.channels[id].remote > c.channels[id].onchain && id in c.startTimes
    requires Distinct(round.ids) && (id in round.ids && Ripe(c, id, round.limits) ==> !round.accepts(id))
    ensures var after := AfterRound(c, round);
      && id in after.channels && after.channels[id] == c.channels[id]
      && id in after.startTimes && after.startTimes[id] == c.startTimes[id]
  {
    var c' := c.(ongoing := false);
    if id in round.ids {
      CollectionRemembers(c', round.ids, round.limits, round.accepts, id);
      SettledOnlyWhenRipe(c', round.ids, round.limits, round.accepts, id);
    } else {
      CollectionLeavesOthers(c', round.ids, round.limits, round.accepts, id);
    }
  }

  lemma {:induction false} SettledOnlyWhenRipe(
      c: Collection, ids: seq<string>, limits: Limits, accepts: string -> bool, id: string)
    requires Distinct(ids) && id in ids && id in c.channels && !(Ripe(c, id, limits) && accepts(id))
    ensures var after := CollectAll(c, ids, limits, accepts);
      id in after.channels && after.channels[id] == c.channels[id]
  {
    var n := |ids| - 1;
    if id == ids[n] {
      CollectionLeavesOthers(c, ids[..n], limits, accepts, id);
    } else {
      SettledOnlyWhenRipe(c, ids[..n], limits, accepts, id);
    }
  }

  /** Until it is settled a channel keeps the time it was first noted, so that it becomes due
      when the time limit has passed since, however often its transaction has failed. */
  lemma {:induction false} WaitingIsCounted(c: Collection, rounds: seq<Round>, id: string)
    requires id in c.channels && c.channels[id].remote > c.channels[id].onchain && id in c.startTimes
    requires Unsettled(c, rounds, id)
    ensures var after := AfterRounds(c, rounds);
      && id in after.channels && after.channels[id] == c.channels[id]
      && id in after.startTimes && after.startTimes[id] == c.startTimes[id]
      && forall limits: Limits | limits.clock(id).compared - c.startTimes[id] >= limits.timeLimit ::
           Due(after, id, limits)
    decreases |rounds|
  {
    if rounds != [] {
      UnsettledRoundKeeps(c, rounds[0], id);
      WaitingIsCounted(AfterRound(c, rounds[0]), rounds[1..], id);
    }
  }

  class PaygService {
    var channels: map<string, Record>
    var channelRewardsStartTimes: map<string, int>
    var collecting: bool

    ghost function State(sent: seq<(string, Signed)>): Collection
      reads this
    {
      Collection(channels, channelRewardsStartTimes, collecting, sent)
    }

    method Update(id: string, s: Signed) returns (r: Result<Record>)
      modifies this`channels
      ensures id in old(channels) ==>
                && channels == old(channels)[id := Updated(old(channels)[id], s)]
                && r == Ok(channels[id])
      ensures id !in old(channels) ==> channels == old(channels) && r.Err?
    {
      if id !in channels {
        return Err(Upstream);
      }
      var channel := channels[id];
      var currentRemote := s.spent;
      var prevSpent := channel.spent;
      var prevRemote := channel.remote;
      channel := channel.(spent := prevSpent + channel.price);
      if prevRemote < currentRemote {
        channel := channel.(remote := s.spent);
        channel := channel.(lastFinal := s.isFinal);
        channel := channel.(lastIndexerSign := s.indexerSign);
        channel := channel.(lastConsumerSign := s.consumerSign);
      }
      channels := channels[id := channel];
      r := Ok(channel);
    }

    method Checkpoint(id: string, accepted: bool) returns (sent: Option<Signed>, r: Result<()>)
      modifies this`channels
      ensures id in old(channels) ==>
                var c := Checkpointed(old(channels)[id], accepted);
                channels == old(channels)[id := c.record] && sent == c.sent && r == c.reply
      ensures id !in old(channels) ==> channels == old(channels) && sent == None && r.Err?
    {
      if id !in channels {
        return None, Err(Upstream);
      }
      var channel := channels[id];
      if channel.onchain == channel.remote {
        assert channels == channels[id := channel];
        return None, Ok(());
      }
      sent := Some(Signed(channel.remote, channel.lastFinal, channel.lastIndexerSign, channel.lastConsumerSign));
      if !accepted {
        assert channels == channels[id := channel];
        return sent, Err(TransactionFailed);
      }
      channel := channel.(onchain := channel.remote);
      channel := channel.(spent := channel.remote);
      channels := channels[id := channel];
      r := Ok(());
    }

    method CollectChannel(id: string, limits: Limits, accepts: string -> bool, earlier: seq<(string, Signed)>)
      returns (sent: seq<(string, Signed)>)
      modifies this
      ensures State(sent) == CollectOne(old(State(earlier)), id, limits, accepts)
    {
      sent := earlier;
      if id in channels && channels[id].remote - channels[id].onchain > 0 {
        var unclaimed := channels[id].remote - channels[id].onchain;
        if id !in channelRewardsStartTimes {
          channelRewardsStartTimes := channelRewardsStartTimes[id := limits.clock(id).noted];
        } else {
          assert channelRewardsStartTimes == channelRewardsStartTimes[id := channelRewardsStartTimes[id]];
        }
        var startTime := channelRewardsStartTimes[id];
        if unclaimed > limits.threshold || limits.clock(id).compared - startTime >= limits.timeLimit {
          var tuple, r := Checkpoint(id, accepts(id));
          sent := sent + [(id, tuple.value)];
          if r.Ok? {
            channelRewardsStartTimes := channelRewardsStartTimes - {id};
          } else {
            assert channels == old(channels);
            collecting := true;
          }
        }
      }
    }

    method CollectStateChannelRewards(open: seq<string>, limits: Limits, accepts: string -> bool)
      returns (sent: seq<(string, Signed)>)
      modifies this
      ensures State(sent) == CollectAll(old(State([])).(ongoing := false), open, limits, accepts)
    {
      collecting := false;
      sent := [];
      for i := 0 to |open|
        invariant State(sent) == CollectAll(old(State([])).(ongoing := false), open[..i], limits, accepts)
      {
        assert open[..i + 1][..i] == open[..i];
        sent := CollectChannel(open[i], limits, accepts, sent);
      }
      assert open[..|open|] == open;
    }
  }
}
