/** Charging an AI stream: the request's tokens first, then the answer's messages in batches.

    `accepted[i]` says whether the client still takes the i-th message. Nothing else touches
    the channel meanwhile.
 */
module AiStream {
  import opened Outcomes
  import opened Products
  import opened Words
  import opened SignedStates
  import opened StateCaches
  import opened Channel
  import opened Proxy

  const BATCH := 10

  // `ctx(k)` is the context of the k-th payment; `connected` tells whether the model answers.
  datatype Request = Request(
    state: MultipleQueryState, tokens: u64, isTest: bool, connected: bool, ctx: nat -> Context)

  datatype Progress = Open | Closed | Failed(error: Error)

  // `charged` counts the units paid so far, `answers` holds the signed answers of the
  // payments, `told` those handed to the client.
  datatype Stream = Stream(
    entry: Entry, progress: Progress, count: nat, received: nat, delivered: nat, charged: nat,
    answers: seq<MultipleQueryState>, told: seq<MultipleQueryState>)

  function Unstarted(entry: Entry): Stream {
    Stream(entry, Open, 0, 0, 0, 0, [], [])
  }

  // A test is not charged. Inactive answers are always handed to the client.
  function Pay(s: Stream, num: u64, mustSend: bool, req: Request): Stream {
    if req.isTest then s
    else
      var step := PayByToken(s.entry, num, req.state, req.ctx(|s.answers|));
      if step.reply.Err? then s.(entry := step.entry, progress := Failed(step.reply.error))
      else
        var answer := step.reply.value;
        s.(entry := step.entry, charged := s.charged + TokenUnits(num), answers := s.answers + [answer],
           told := if mustSend || answer.active.IsInactive() then s.told + [answer] else s.told)
  }

  function Start(entry: Entry, req: Request): Stream {
    var s := Pay(Unstarted(entry), req.tokens, true, req);
    if s.progress == Open && !req.connected then s.(progress := Failed(Upstream)) else s
  }

  function Counted(s: Stream): Stream {
    s.(received := s.received + 1, count := s.count + 1)
  }

  function Receive(s: Stream, accepted: bool, req: Request): Stream
    requires s.count < BATCH
  {
    if s.progress != Open then s
    else
      var counted := Counted(s);
      var paid :=
        if counted.count == BATCH then
          var p := Pay(counted, counted.count, false, req);
          if p.progress == Open then p.(count := 0) else p
        else counted;
      if paid.progress != Open then paid
      else if accepted then paid.(delivered := paid.delivered + 1)
      else paid.(progress := Closed)
  }

  function Finish(s: Stream, req: Request): Stream
    requires s.progress.Failed? || s.count < BATCH
  {
    if s.progress.Failed? || s.count == 0 then s
    else
      var p := Pay(s, s.count, true, req);
      if p.progress.Failed? then p else p.(count := 0)
  }

  function Receiving(s: Stream, accepted: seq<bool>, req: Request): (t: Stream)
    requires s.progress == Open ==> s.count < BATCH
    ensures !t.progress.Failed? && !s.progress.Failed? && s.count < BATCH ==> t.count < BATCH
    decreases |accepted|
  {
    if s.progress != Open || accepted == [] then s
    else Receiving(Receive(s, accepted[0], req), accepted[1..], req)
  }

  function Whole(entry: Entry, accepted: seq<bool>, req: Request): Stream {
    Finish(Receiving(Start(entry, req), accepted, req), req)
  }

  // The entry has been charged `charged` units since `spent`.
  predicate Charged(s: Stream, price: nat, spent: nat) {
    s.entry.Ok? && s.entry.value.price == price && s.entry.value.spent == spent + price * s.charged
  }

  lemma PayCharges(s: Stream, num: u64, mustSend: bool, req: Request, price: nat, spent: nat)
    requires Charged(s, price, spent)
    ensures Charged(Pay(s, num, mustSend, req), price, spent)
  {
    Distribute(price, s.charged, TokenUnits(num));
  }

  // Messages charged or counted; the request cost `first` units.
  predicate InStep(s: Stream, first: nat) {
    && first <= s.charged
    && s.received == s.charged - first + s.count
    && s.delivered <= s.received
    && s.count <= 10
    && (!s.progress.Failed? ==> s.count < 10)
    && (s.count == 10 ==> s.delivered < s.received)
  }

  lemma ReceiveKeepsStep(s: Stream, accepted: bool, req: Request, first: nat, price: nat, spent: nat)
    requires s.progress == Open && InStep(s, first) && Charged(s, price, spent) && !req.isTest
    ensures var t := Receive(s, accepted, req); InStep(t, first) && Charged(t, price, spent)
  {
    PayCharges(Counted(s), BATCH, false, req, price, spent);
  }

  lemma {:induction false} ReceivingKeepsStep(
      s: Stream, accepted: seq<bool>, req: Request, first: nat, price: nat, spent: nat)
    requires InStep(s, first) && Charged(s, price, spent) && !req.isTest
    ensures var t := Receiving(s, accepted, req); InStep(t, first) && Charged(t, price, spent)
    decreases |accepted|
  {
    if s.progress == Open && accepted != [] {
      ReceiveKeepsStep(s, accepted[0], req, first, price, spent);
      ReceivingKeepsStep(Receive(s, accepted[0], req), accepted[1..], req, first, price, spent);
    }
  }

  // What holds of a stream whose request was paid: the channel is charged for what was paid,
  // and fewer than a batch of delivered messages are not charged.
  predicate Covered(s: Stream, cache: StateCache, first: nat) {
    Charged(s, cache.price, cache.spent) && s.delivered - (s.charged - first) < 10
  }

  /** At every point of a stream whose request was paid, fewer than a batch of delivered
      messages are not charged, even when a payment has failed; and the channel is charged
      exactly for what was paid. */
  lemma DeliveredIsCharged(cache: StateCache, accepted: seq<bool>, req: Request)
    requires !req.isTest && PayByToken(Ok(cache), req.tokens, req.state, req.ctx(0)).reply.Ok?
    ensures var s := Receiving(Start(Ok(cache), req), accepted, req);
      InStep(s, TokenUnits(req.tokens)) && Covered(s, cache, TokenUnits(req.tokens))
    ensures Covered(Whole(Ok(cache), accepted, req), cache, TokenUnits(req.tokens))
  {
    PayCharges(Unstarted(Ok(cache)), req.tokens, true, req, cache.price, cache.spent);
    var started := Start(Ok(cache), req);
    ReceivingKeepsStep(started, accepted, req, TokenUnits(req.tokens), cache.price, cache.spent);
    var s := Receiving(started, accepted, req);
    if !s.progress.Failed? {
      PayCharges(s, s.count, true, req, cache.price, cache.spent);
    }
  }

  /** If no payment fails, a stream costs the request's tokens, at least one, and one unit
      for each message received, also when the client leaves early. */
  lemma StreamCostsItsMessages(cache: StateCache, accepted: seq<bool>, req: Request)
    requires !req.isTest
    ensures var s := Whole(Ok(cache), accepted, req);
      !s.progress.Failed? ==>
        && s.entry.Ok?
        && s.entry.value.spent == cache.spent + cache.price * (Max(req.tokens, 1) + s.received)
  {
    var started := Start(Ok(cache), req);
    if started.progress.Failed? {
      FailureStays(started, accepted, req);
    } else {
      PayCharges(Unstarted(Ok(cache)), req.tokens, true, req, cache.price, cache.spent);
      ReceivingKeepsStep(started, accepted, req, TokenUnits(req.tokens), cache.price, cache.spent);
      FinishCharges(Receiving(started, accepted, req), req, TokenUnits(req.tokens), cache.price, cache.spent);
    }
  }

  lemma FinishCharges(s: Stream, req: Request, first: nat, price: nat, spent: nat)
    requires !req.isTest && InStep(s, first) && Charged(s, price, spent)
    ensures var t := Finish(s, req);
      Charged(t, price, spent) && (!t.progress.Failed? ==> t.charged == first + t.received)
  {
    if !s.progress.Failed? && s.count > 0 {
      PayCharges(s, s.count, true, req, price, spent);
    }
  }

  lemma FailureStays(s: Stream, accepted: seq<bool>, req: Request)
    requires s.progress.Failed?
    ensures Receiving(s, accepted, req) == s
  {
  }

  lemma {:induction false} TestStaysFree(s: Stream, accepted: seq<bool>, req: Request)
    requires req.isTest && (s.progress == Open ==> s.count < BATCH)
    ensures var t := Receiving(s, accepted, req);
      && t.entry == s.entry && t.charged == s.charged && t.answers == s.answers && t.told == s.told
      && (t.progress.Failed? ==> s.progress.Failed?)
    decreases |accepted|
  {
    if s.progress == Open && accepted != [] {
      TestStaysFree(Receive(s, accepted[0], req), accepted[1..], req);
    }
  }

  /** A test costs nothing, tells the client nothing of payments, and fails only for want of
      a connection, even on a channel that cannot pay. */
  lemma TestIsFree(entry: Entry, accepted: seq<bool>, req: Request)
    requires req.isTest
    ensures var s := Whole(entry, accepted, req);
      && s.entry == entry && s.charged == 0 && s.answers == s.told == []
      && (s.progress.Failed? <==> !req.connected)
  {
    TestStaysFree(Start(entry, req), accepted, req);
  }

  // Every inactive answer reached the client's channel, and nothing else but answers did.
  predicate Told(s: Stream) {
    && (forall a <- s.answers :: a.active.IsInactive() ==> a in s.told)
    && (forall t <- s.told :: t in s.answers)
  }

  lemma PayTells(s: Stream, num: u64, mustSend: bool, req: Request)
    requires Told(s)
    ensures var p := Pay(s, num, mustSend, req); Told(p) && s.told <= p.told && s.answers <= p.answers
  {
  }

  lemma {:induction false} ReceivingTells(s: Stream, accepted: seq<bool>, req: Request)
    requires Told(s) && (s.progress == Open ==> s.count < BATCH)
    ensures var t := Receiving(s, accepted, req); Told(t) && s.told <= t.told && s.answers <= t.answers
    decreases |accepted|
  {
    if s.progress == Open && accepted != [] {
      PayTells(Counted(s), BATCH, false, req);
      ReceivingTells(Receive(s, accepted[0], req), accepted[1..], req);
    }
  }

  /** The client is told of the request's payment first, and of every inactive answer, in
      every stream, also one that fails. */
  lemma ClientIsTold(entry: Entry, accepted: seq<bool>, req: Request)
    ensures var s := Whole(entry, accepted, req);
      Told(s) && (s.answers != [] ==> s.told != [] && s.told[0] == s.answers[0])
  {
    PayTells(Unstarted(entry), req.tokens, true, req);
    ReceivingTells(Start(entry, req), accepted, req);
    var s := Receiving(Start(entry, req), accepted, req);
    if !s.progress.Failed? {
      PayTells(s, s.count, true, req);
    }
    if Start(entry, req).answers == [] {
      UnpaidStaysUntold(entry, accepted, req);
    }
  }

  // Without a first payment there is none later.
  lemma UnpaidStaysUntold(entry: Entry, accepted: seq<bool>, req: Request)
    requires Start(entry, req).answers == []
    ensures Whole(entry, accepted, req).answers == []
  {
    if req.isTest {
      TestIsFree(entry, accepted, req);
    } else {
      FailureStays(Start(entry, req), accepted, req);
    }
  }

  // One payment for the request, and one for each full batch
  predicate InBatches(s: Stream) {
    && (s.progress == Open ==> s.count < 10)
    && (!s.progress.Failed? ==> s.count == s.received % 10 && |s.answers| == 1 + s.received / 10)
  }

  lemma {:induction false} ReceivingPaysBatches(s: Stream, accepted: seq<bool>, req: Request)
    requires !req.isTest && InBatches(s) && (s.progress == Closed ==> s.count < 10)
    ensures var t := Receiving(s, accepted, req); InBatches(t)
    decreases |accepted|
  {
    if s.progress == Open && accepted != [] {
      ReceivingPaysBatches(Receive(s, accepted[0], req), accepted[1..], req);
    }
  }

  /** A stream without a failure makes one payment for the request, one for every ten messages
      received, and one for those left over, which the client is told of last. */
  lemma PaymentsAreMade(entry: Entry, accepted: seq<bool>, req: Request)
    requires !req.isTest
    ensures var s := Whole(entry, accepted, req);
      !s.progress.Failed? ==>
        && |s.answers| == 1 + (s.received + 9) / 10
        && s.count == 0
        && (s.received % 10 != 0 ==> s.told != [] && s.told[|s.told| - 1] == s.answers[|s.answers| - 1])
  {
    var started := Start(entry, req);
    if started.progress.Failed? {
      FailureStays(started, accepted, req);
    } else {
      ReceivingPaysBatches(started, accepted, req);
    }
  }

  /** If the model does not answer, the request has been paid all the same. */
  lemma UnansweredIsCharged(cache: StateCache, accepted: seq<bool>, req: Request)
    requires !req.isTest && !req.connected
    requires PayByToken(Ok(cache), req.tokens, req.state, req.ctx(0)).reply.Ok?
    ensures var s := Whole(Ok(cache), accepted, req);
      && s.progress == Failed(Upstream) && s.received == s.delivered == 0
      && s.entry.Ok? && s.entry.value.spent == cache.spent + cache.price * Max(req.tokens, 1)
  {
    PayCharges(Unstarted(Ok(cache)), req.tokens, true, req, cache.price, cache.spent);
    FailureStays(Start(Ok(cache), req), accepted, req);
  }

  /** How many messages are received: all, or up to the first the client refuses. */
  lemma {:induction false} ReceivedCount(s: Stream, accepted: seq<bool>, req: Request)
    requires s.progress == Open && s.count < BATCH
    ensures var t := Receiving(s, accepted, req);
      !t.progress.Failed? ==>
        && (t.progress == Closed <==> exists i | 0 <= i < |accepted| :: !accepted[i])
        && (t.progress == Open ==> t.received == s.received + |accepted| && t.delivered == s.delivered + |accepted|)
        && (t.progress == Closed ==>
              && 0 < t.received - s.received <= |accepted|
              && !accepted[t.received - s.received - 1]
              && t.delivered == s.delivered + (t.received - s.received) - 1)
    decreases |accepted|
  {
    if accepted != [] {
      var next := Receive(s, accepted[0], req);
      if next.progress == Open {
        ReceivedCount(next, accepted[1..], req);
        assert forall i | 1 <= i < |accepted| :: accepted[i] == accepted[1..][i - 1];
      }
    }
  }

  // What a method has done so far, as a stream
  ghost predicate Reached(server: Server, told: seq<MultipleQueryState>, s: Stream, channelId: u256)
    reads server
  {
    server.EntryOf(channelId) == s.entry && told == s.told
  }

  twostate predicate OnlyTouches(server: Server, channelId: u256)
    reads server
  {
    && server.outbox == old(server.outbox)
    && forall id: u256 | id != channelId :: server.EntryOf(id) == old(server.EntryOf(id))
  }

  method PayTokens(
      server: Server, ghost s: Stream, num: u64, mustSend: bool, req: Request, payments: nat,
      told: seq<MultipleQueryState>)
    returns (r: Result<()>, told': seq<MultipleQueryState>)
    requires Reached(server, told, s, req.state.channelId) && |s.answers| == payments
    requires !s.progress.Failed? && !req.isTest
    modifies server
    ensures var t := Pay(s, num, mustSend, req);
      && Reached(server, told', t, req.state.channelId)
      && r == if t.progress.Failed? then Err(t.progress.error) else Ok(())
    ensures OnlyTouches(server, req.state.channelId)
  {
    told' := told;
    var answer := server.ChargeTokens(num, req.state, req.ctx(payments));
    if answer.Err? {
      return Err(answer.error), told';
    }
    if mustSend || answer.value.active.IsInactive() {
      told' := told' + [answer.value];
    }
    r := Ok(());
  }

  method ForwardMessages(
      server: Server, ghost start: Stream, accepted: seq<bool>, req: Request, made: nat, sent: seq<MultipleQueryState>)
    returns (r: Result<()>, count: nat, received: nat, delivered: nat, payments: nat, told: seq<MultipleQueryState>)
    requires Reached(server, sent, start, req.state.channelId) && start.progress == Open
    requires start.count == start.received == start.delivered == 0 && |start.answers| == made
    modifies server
    ensures var t := Receiving(start, accepted, req);
      && Reached(server, told, t, req.state.channelId)
      && received == t.received && delivered == t.delivered && payments == |t.answers|
      && (!t.progress.Failed? ==> r == Ok(()) && count == t.count)
      && (t.progress.Failed? ==> r == Err(t.progress.error))
    ensures OnlyTouches(server, req.state.channelId)
  {
    count, received, delivered, payments, told := 0, 0, 0, made, sent;
    ghost var s := start;
    for i := 0 to |accepted|
      invariant Reached(server, told, s, req.state.channelId) && s.progress == Open
      invariant s.count == count < BATCH && s.received == received && s.delivered == delivered
      invariant |s.answers| == payments
      invariant Receiving(start, accepted, req) == Receiving(s, accepted[i..], req)
      invariant OnlyTouches(server, req.state.channelId)
    {
      assert accepted[i..][0] == accepted[i] && accepted[i..][1..] == accepted[i + 1..];
      received := received + 1;
      count := count + 1;
      ghost var counted := Counted(s);
      s := Receive(s, accepted[i], req);
      if count == BATCH {
        if !req.isTest {
          r, told := PayTokens(server, counted, count, false, req, payments, told);
          if r.Err? {
            return;
          }
          payments := payments + 1;
        }
        count := 0;
      }
      if !accepted[i] {
        return Ok(()), count, received, delivered, payments, told;
      }
      delivered := delivered + 1;
    }
    r := Ok(());
  }

  method ConnectRemote(server: Server, accepted: seq<bool>, req: Request)
    returns (r: Result<()>, received: nat, delivered: nat, told: seq<MultipleQueryState>)
    modifies server
    ensures var s := Whole(old(server.EntryOf(req.state.channelId)), accepted, req);
      && Reached(server, told, s, req.state.channelId)
      && received == s.received && delivered == s.delivered
      && r == if s.progress.Failed? then Err(s.progress.error) else Ok(())
    ensures OnlyTouches(server, req.state.channelId)
  {
    received, delivered, told := 0, 0, [];
    ghost var start := Start(server.EntryOf(req.state.channelId), req);
    var payments := 0;
    if !req.isTest {
      ghost var unstarted := Unstarted(server.EntryOf(req.state.channelId));
      r, told := PayTokens(server, unstarted, req.tokens, true, req, 0, told);
      if r.Err? {
        return;
      }
      payments := 1;
    }
    if !req.connected {
      return Err(Upstream), 0, 0, told;
    }
    var count;
    r, count, received, delivered, payments, told := ForwardMessages(server, start, accepted, req, payments, told);
    if r.Err? {
      return;
    }
    if count != 0 && !req.isTest {
      ghost var s := Receiving(start, accepted, req);
      r, told := PayTokens(server, s, count, true, req, payments, told);
    }
  }
}
