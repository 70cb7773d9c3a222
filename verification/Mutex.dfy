/** Methods serialised by a promise chain, and the retried transactions run under it.

    A call extends the chain of its lock and gets back its own promise. When a promise
    settles, whichever way, the callback chained on it may run at any later moment.
 */
module Mutex {
  import opened Outcomes

  const MAX_RETRY := 3

  // `failures` counts the attempts that have failed.
  datatype Status = Waiting | Running(failures: nat) | Settled(ok: bool, failures: nat)

  // One call: its lock, the promise it was chained on, and its own promise.
  datatype Job = Job(lock: string, after: Option<nat>, status: Status)

  datatype Kind = Begun | Tried(ok: bool) | Ended(ok: bool)

  datatype Entry = Entry(lock: string, id: nat, kind: Kind)

  datatype State = State(promises: map<string, nat>, jobs: seq<Job>, log: seq<Entry>)

  const EMPTY := State(map[], [], [])

  datatype Event = Call(lock: string) | Fire(id: nat) | Attempt(id: nat, ok: bool)

  // A call without a chain starts its body at once, any other waits on the last promise.
  function Called(s: State, lock: string): State {
    var id := |s.jobs|;
    if lock !in s.promises then
      State(s.promises[lock := id], s.jobs + [Job(lock, None, Running(0))], s.log + [Entry(lock, id, Begun)])
    else
      State(s.promises[lock := id], s.jobs + [Job(lock, Some(s.promises[lock]), Waiting)], s.log)
  }

  predicate Ready(s: State, id: nat) {
    && id < |s.jobs| && s.jobs[id].status.Waiting? && s.jobs[id].after.Some?
    && s.jobs[id].after.value < |s.jobs| && s.jobs[s.jobs[id].after.value].status.Settled?
  }

  function Advance(s: State, id: nat, status: Status, kinds: seq<Kind>): State
    requires id < |s.jobs|
  {
    var job := s.jobs[id];
    State(s.promises, s.jobs[id := job.(status := status)], s.log + Entries(job.lock, id, kinds))
  }

  function Entries(lock: string, id: nat, kinds: seq<Kind>): (es: seq<Entry>)
    ensures |es| == |kinds|
  {
    seq(|kinds|, i requires 0 <= i < |kinds| => Entry(lock, id, kinds[i]))
  }

  function Fired(s: State, id: nat): State {
    if Ready(s, id) then Advance(s, id, Running(0), [Begun]) else s
  }

  // A failed attempt is repeated up to MAX_RETRY times.
  function Attempted(s: State, id: nat, ok: bool): State {
    if id >= |s.jobs| || !s.jobs[id].status.Running? then s
    else
      var failures := s.jobs[id].status.failures;
      Advance(s, id, NextStatus(failures, ok), NextKinds(failures, ok))
  }

  function Apply(s: State, e: Event): State {
    match e
    case Call(lock) => Called(s, lock)
    case Fire(id) => Fired(s, id)
    case Attempt(id, ok) => Attempted(s, id, ok)
  }

  function Run(s: State, es: seq<Event>): State
    decreases |es|
  {
    if es == [] then s else Run(Apply(s, es[0]), es[1..])
  }

  // What the log must say about a job, and about all jobs of a lock in call order

  function Fails(n: nat): seq<Kind> {
    if n == 0 then [] else Fails(n - 1) + [Tried(false)]
  }

  function Kinds(status: Status): seq<Kind> {
    match status
    case Waiting => []
    case Running(failures) => [Begun] + Fails(failures)
    case Settled(ok, failures) => [Begun] + Fails(failures) + [Tried(ok), Ended(ok)]
  }

  function Transcript(jobs: seq<Job>, lock: string): seq<Entry> {
    if jobs == [] then []
    else
      var n := |jobs| - 1;
      var before := Transcript(jobs[..n], lock);
      if jobs[n].lock == lock then before + Entries(lock, n, Kinds(jobs[n].status)) else before
  }

  function Restrict(log: seq<Entry>, lock: string): seq<Entry> {
    if log == [] then []
    else
      var n := |log| - 1;
      if log[n].lock == lock then Restrict(log[..n], lock) + [log[n]] else Restrict(log[..n], lock)
  }

  // Invariants

  predicate Chained(s: State) {
    && (forall lock <- s.promises :: s.promises[lock] < |s.jobs| && s.jobs[s.promises[lock]].lock == lock)
    && (forall k | 0 <= k < |s.jobs| :: s.jobs[k].lock in s.promises && k <= s.promises[s.jobs[k].lock])
  }

  // Each job follows the last earlier call of its lock, if there is one.
  predicate FollowsAt(jobs: seq<Job>, k: nat)
    requires k < |jobs|
  {
    match jobs[k].after
    case None => forall i | 0 <= i < k :: jobs[i].lock != jobs[k].lock
    case Some(p) =>
      && p < k && jobs[p].lock == jobs[k].lock
      && forall i | p < i < k :: jobs[i].lock != jobs[k].lock
  }

  predicate Follows(s: State) {
    forall k | 0 <= k < |s.jobs| :: FollowsAt(s.jobs, k)
  }

  lemma FollowsKept(a: seq<Job>, b: seq<Job>, k: nat)
    requires k < |a| <= |b| && FollowsAt(a, k)
    requires forall i | 0 <= i <= k :: a[i].lock == b[i].lock && a[i].after == b[i].after
    ensures FollowsAt(b, k)
  {
  }

  predicate OneAtATime(s: State) {
    && (forall k | 0 <= k < |s.jobs| :: s.jobs[k].after.None? ==> !s.jobs[k].status.Waiting?)
    && (forall i, k | 0 <= i < k < |s.jobs| ::
          s.jobs[i].lock == s.jobs[k].lock && !s.jobs[k].status.Waiting? ==> s.jobs[i].status.Settled?)
  }

  predicate Bounded(s: State) {
    forall k | 0 <= k < |s.jobs| ::
      match s.jobs[k].status
      case Waiting => true
      case Running(failures) => failures <= 3
      case Settled(ok, failures) => failures <= 3 && (!ok ==> failures == 3)
  }

  ghost predicate Logged(s: State) {
    forall lock :: Restrict(s.log, lock) == Transcript(s.jobs, lock)
  }

  ghost predicate Invariant(s: State) {
    Chained(s) && Follows(s) && OneAtATime(s) && Bounded(s) && Logged(s)
  }

  lemma {:induction false} RestrictConcat(a: seq<Entry>, b: seq<Entry>, lock: string)
    ensures Restrict(a + b, lock) == Restrict(a, lock) + Restrict(b, lock)
  {
    if b == [] {
      assert a + b == a;
    } else {
      var n := |b| - 1;
      RestrictConcat(a, b[..n], lock);
      assert (a + b)[..|a + b| - 1] == a + b[..n];
    }
  }

  lemma {:induction false} RestrictEntries(lock: string, id: nat, kinds: seq<Kind>, other: string)
    ensures Restrict(Entries(lock, id, kinds), other) == if other == lock then Entries(lock, id, kinds) else []
  {
    if kinds != [] {
      var n := |kinds| - 1;
      RestrictEntries(lock, id, kinds[..n], other);
      assert Entries(lock, id, kinds)[..n] == Entries(lock, id, kinds[..n]);
    }
  }

  lemma EntriesConcat(lock: string, id: nat, a: seq<Kind>, b: seq<Kind>)
    ensures Entries(lock, id, a + b) == Entries(lock, id, a) + Entries(lock, id, b)
  {
  }

  // A job whose later companions all wait can only add to the end of the transcript.
  lemma {:induction false} TranscriptGrows(jobs: seq<Job>, id: nat, status: Status, added: seq<Kind>, lock: string)
    requires id < |jobs| && Kinds(status) == Kinds(jobs[id].status) + added
    requires forall k | id < k < |jobs| :: jobs[k].lock == jobs[id].lock ==> jobs[k].status.Waiting?
    ensures Transcript(jobs[id := jobs[id].(status := status)], lock)
         == Transcript(jobs, lock) + if lock == jobs[id].lock then Entries(lock, id, added) else []
  {
    var n := |jobs| - 1;
    var jobs' := jobs[id := jobs[id].(status := status)];
    if id == n {
      assert jobs'[..n] == jobs[..n];
      EntriesConcat(lock, id, Kinds(jobs[id].status), added);
    } else {
      assert jobs'[..n] == jobs[..n][id := jobs[id].(status := status)];
      TranscriptGrows(jobs[..n], id, status, added, lock);
    }
  }

  lemma AdvanceKeepsLog(s: State, id: nat, status: Status, added: seq<Kind>)
    requires Invariant(s) && id < |s.jobs| && !s.jobs[id].status.Settled?
    requires Kinds(status) == Kinds(s.jobs[id].status) + added
    ensures Logged(Advance(s, id, status, added))
  {
    forall lock
      ensures Restrict(Advance(s, id, status, added).log, lock) == Transcript(Advance(s, id, status, added).jobs, lock)
    {
      TranscriptGrows(s.jobs, id, status, added, lock);
      RestrictConcat(s.log, Entries(s.jobs[id].lock, id, added), lock);
      RestrictEntries(s.jobs[id].lock, id, added, lock);
    }
  }

  lemma AdvanceKeepsChain(s: State, id: nat, status: Status, added: seq<Kind>)
    requires Chained(s) && Follows(s) && id < |s.jobs|
    ensures Chained(Advance(s, id, status, added)) && Follows(Advance(s, id, status, added))
  {
    var jobs' := Advance(s, id, status, added).jobs;
    forall k | 0 <= k < |jobs'| ensures FollowsAt(jobs', k) {
      FollowsKept(s.jobs, jobs', k);
    }
  }

  predicate EarlierSettled(s: State, id: nat)
    requires id < |s.jobs|
  {
    forall i | 0 <= i < id :: s.jobs[i].lock == s.jobs[id].lock ==> s.jobs[i].status.Settled?
  }

  lemma AdvanceKeepsOrder(s: State, id: nat, status: Status, added: seq<Kind>)
    requires OneAtATime(s) && id < |s.jobs| && EarlierSettled(s, id)
    requires !s.jobs[id].status.Settled? && !status.Waiting?
    ensures OneAtATime(Advance(s, id, status, added))
  {
  }

  lemma FireKeepsInvariant(s: State, id: nat)
    requires Invariant(s) && Ready(s, id)
    ensures Invariant(Fired(s, id))
  {
    assert FollowsAt(s.jobs, id);
    assert EarlierSettled(s, id);
    assert Kinds(Running(0)) == [Begun] + [];
    AdvanceKeepsLog(s, id, Running(0), [Begun]);
    AdvanceKeepsChain(s, id, Running(0), [Begun]);
    AdvanceKeepsOrder(s, id, Running(0), [Begun]);
  }

  function NextStatus(failures: nat, ok: bool): Status {
    if ok then Settled(true, failures)
    else if failures < MAX_RETRY then Running(failures + 1)
    else Settled(false, failures)
  }

  function NextKinds(failures: nat, ok: bool): (added: seq<Kind>)
    ensures Kinds(NextStatus(failures, ok)) == Kinds(Running(failures)) + added
  {
    if ok then [Tried(true), Ended(true)]
    else if failures < MAX_RETRY then
      assert Fails(failures + 1) == Fails(failures) + [Tried(false)];
      [Tried(false)]
    else [Tried(false), Ended(false)]
  }

  lemma AttemptKeepsInvariant(s: State, id: nat, ok: bool)
    requires Invariant(s) && id < |s.jobs| && s.jobs[id].status.Running?
    ensures Invariant(Attempted(s, id, ok))
  {
    var failures := s.jobs[id].status.failures;
    var status, added := NextStatus(failures, ok), NextKinds(failures, ok);
    assert Attempted(s, id, ok) == Advance(s, id, status, added);
    AdvanceKeepsLog(s, id, status, added);
    AdvanceKeepsChain(s, id, status, added);
    AdvanceKeepsOrder(s, id, status, added);
    AdvanceKeepsBound(s, id, ok);
  }

  lemma AdvanceKeepsBound(s: State, id: nat, ok: bool)
    requires Bounded(s) && id < |s.jobs| && s.jobs[id].status.Running?
    ensures Bounded(Attempted(s, id, ok))
  {
  }

  lemma CallKeepsLog(s: State, lock: string)
    requires Logged(s)
    ensures Logged(Called(s, lock))
  {
  }

  lemma CallKeepsInvariant(s: State, lock: string)
    requires Invariant(s)
    ensures Invariant(Called(s, lock))
  {
    CallKeepsLog(s, lock);
    CallKeepsChain(s, lock);
    CallKeepsOrder(s, lock);
  }

  lemma CallKeepsChain(s: State, lock: string)
    requires Chained(s) && Follows(s)
    ensures Chained(Called(s, lock)) && Follows(Called(s, lock))
  {
    var jobs' := Called(s, lock).jobs;
    forall k | 0 <= k < |jobs'| ensures FollowsAt(jobs', k) {
      if k < |s.jobs| {
        FollowsKept(s.jobs, jobs', k);
      }
    }
  }

  lemma CallKeepsOrder(s: State, lock: string)
    requires Chained(s) && OneAtATime(s)
    ensures OneAtATime(Called(s, lock))
  {
  }

  lemma StepKeepsInvariant(s: State, e: Event)
    requires Invariant(s)
    ensures Invariant(Apply(s, e))
  {
    match e
    case Call(lock) => CallKeepsInvariant(s, lock);
    case Fire(id) =>
      if Ready(s, id) {
        FireKeepsInvariant(s, id);
      }
    case Attempt(id, ok) =>
      if id < |s.jobs| && s.jobs[id].status.Running? {
        AttemptKeepsInvariant(s, id, ok);
      }
  }

  lemma {:induction false} RunKeepsInvariant(s: State, es: seq<Event>)
    requires Invariant(s)
    ensures Invariant(Run(s, es))
    decreases |es|
  {
    if es != [] {
      StepKeepsInvariant(s, es[0]);
      RunKeepsInvariant(Apply(s, es[0]), es[1..]);
    }
  }

  /** For every interleaving, what has happened under a lock is, call after call in call
      order, the whole story of each: begun once, tried until the first success and at most
      four times, ended once. Nothing of one call falls into another's. */
  lemma ExecutionsAreSerial(es: seq<Event>, lock: string)
    ensures var s := Run(EMPTY, es);
      && Restrict(s.log, lock) == Transcript(s.jobs, lock)
      && OneAtATime(s)
      && Bounded(s)
  {
    assert Logged(EMPTY);
    RunKeepsInvariant(EMPTY, es);
  }

  predicate Ordered(log: seq<Entry>, bound: nat) {
    && (forall i | 0 <= i < |log| :: log[i].id < bound)
    && (forall i, j | 0 <= i < j < |log| :: log[i].id <= log[j].id)
  }

  lemma OrderedConcat(a: seq<Entry>, bound: nat, b: seq<Entry>)
    requires Ordered(a, bound) && forall i | 0 <= i < |b| :: b[i].id == bound
    ensures Ordered(a + b, bound + 1)
  {
  }

  lemma {:induction false} TranscriptIsOrdered(jobs: seq<Job>, lock: string)
    ensures Ordered(Transcript(jobs, lock), |jobs|)
  {
    if jobs != [] {
      var n := |jobs| - 1;
      TranscriptIsOrdered(jobs[..n], lock);
      OrderedConcat(Transcript(jobs[..n], lock), n, Entries(jobs[n].lock, n, Kinds(jobs[n].status)));
    }
  }

  /** Read along time, what happens under a lock never goes back to an earlier call: bodies
      start in call order, and attempts of different transactions never interleave. */
  lemma AttemptsNeverInterleave(es: seq<Event>, lock: string)
    ensures Ordered(Restrict(Run(EMPTY, es).log, lock), |Run(EMPTY, es).jobs|)
  {
    ExecutionsAreSerial(es, lock);
    TranscriptIsOrdered(Run(EMPTY, es).jobs, lock);
  }

  /** A chain is never stuck: behind a settled call, successful or not, the next can start. */
  lemma WaitingCallsGetTheirTurn(es: seq<Event>, id: nat)
    requires var s := Run(EMPTY, es);
      && id < |s.jobs| && s.jobs[id].status.Waiting?
      && forall i | 0 <= i < id :: s.jobs[i].lock == s.jobs[id].lock ==> s.jobs[i].status.Settled?
    ensures Ready(Run(EMPTY, es), id) && Apply(Run(EMPTY, es), Fire(id)).jobs[id].status == Running(0)
  {
    assert Logged(EMPTY);
    RunKeepsInvariant(EMPTY, es);
    assert FollowsAt(Run(EMPTY, es).jobs, id);
  }

  // Once settled, a promise keeps its outcome.
  lemma {:induction false} OutcomesAreKept(s: State, es: seq<Event>, id: nat)
    requires id < |s.jobs|
    ensures id < |Run(s, es).jobs| && Run(s, es).jobs[id].lock == s.jobs[id].lock
    ensures s.jobs[id].status.Settled? ==> Run(s, es).jobs[id].status == s.jobs[id].status
    decreases |es|
  {
    if es != [] {
      OutcomesAreKept(Apply(s, es[0]), es[1..], id);
    }
  }

  // A transaction's attempts, as the recursion makes them. `outcomes(k)` is the fate of
  // the attempt after `k` retries.

  datatype Sent = Sent(ok: bool, attempts: nat)

  function Send(outcomes: nat -> bool, retries: nat): (r: Sent)
    requires retries <= MAX_RETRY
    ensures retries < r.attempts <= MAX_RETRY + 1
    decreases MAX_RETRY - retries
  {
    if outcomes(retries) then Sent(true, retries + 1)
    else if retries < MAX_RETRY then Send(outcomes, retries + 1)
    else Sent(false, retries + 1)
  }

  method SendTransaction(outcomes: nat -> bool, retries: nat) returns (r: Result<nat>, attempts: nat)
    requires retries <= MAX_RETRY
    ensures attempts == Send(outcomes, retries).attempts
    ensures r == if Send(outcomes, retries).ok then Ok(attempts) else Err(TransactionFailed)
    decreases MAX_RETRY - retries
  {
    attempts := retries + 1;
    if outcomes(retries) {
      return Ok(attempts), attempts;
    }
    if retries < MAX_RETRY {
      r, attempts := SendTransaction(outcomes, retries + 1);
    } else {
      r := Err(TransactionFailed);
    }
  }

  /** A transaction succeeds exactly when one of its attempts would, stops right there, and
      gives up only after four failures. */
  lemma {:induction false} SendStopsAtFirstSuccess(outcomes: nat -> bool, retries: nat)
    requires retries <= MAX_RETRY
    ensures var r := Send(outcomes, retries);
      && retries < r.attempts <= 4
      && (r.ok <==> exists k | retries <= k <= 3 :: outcomes(k))
      && (r.ok ==> outcomes(r.attempts - 1))
      && (forall k | retries <= k < r.attempts - 1 :: !outcomes(k))
      && (!r.ok ==> r.attempts == 4)
    decreases MAX_RETRY - retries
  {
    if !outcomes(retries) && retries < MAX_RETRY {
      SendStopsAtFirstSuccess(outcomes, retries + 1);
    }
  }

  // How the attempts of a call turn out in a run, whatever else happens between them
  function AttemptsOf(es: seq<Event>, id: nat): seq<bool>
    decreases |es|
  {
    if es == [] then []
    else if es[0].Attempt? && es[0].id == id then [es[0].ok] + AttemptsOf(es[1..], id)
    else AttemptsOf(es[1..], id)
  }

  // The attempts made in a run reach the end of the recursion, each with its own fate.
  predicate Follow(attempts: seq<bool>, outcomes: nat -> bool, failures: nat)
    requires failures <= MAX_RETRY
  {
    var needed := Send(outcomes, failures).attempts - failures;
    |attempts| >= needed && forall i | 0 <= i < needed :: attempts[i] == outcomes(failures + i)
  }

  /** A running call whose attempts turn out as `outcomes` says settles as the recursion
      returns, after as many attempts, whatever calls, starts and attempts of other calls
      come between them. */
  lemma {:induction false} AttemptsFollowRecursion(
      s: State, id: nat, outcomes: nat -> bool, failures: nat, es: seq<Event>)
    requires id < |s.jobs| && s.jobs[id].status == Running(failures) && failures <= MAX_RETRY
    requires Follow(AttemptsOf(es, id), outcomes, failures)
    ensures id < |Run(s, es).jobs|
    ensures Run(s, es).jobs[id].status
         == Settled(Send(outcomes, failures).ok, Send(outcomes, failures).attempts - 1)
    decreases |es|
  {
    SendStopsAtFirstSuccess(outcomes, failures);
    assert es != [];
    var next := Apply(s, es[0]);
    if es[0].Attempt? && es[0].id == id {
      assert AttemptsOf(es, id)[0] == es[0].ok == outcomes(failures + 0);
      AttemptMoves(s, id, failures, es[0].ok);
      if next.jobs[id].status.Settled? {
        OutcomesAreKept(next, es[1..], id);
      } else {
        FollowTail(AttemptsOf(es, id), outcomes, failures);
        AttemptsFollowRecursion(next, id, outcomes, failures + 1, es[1..]);
      }
    } else {
      OthersLeaveRunning(s, id, es[0]);
      AttemptsFollowRecursion(next, id, outcomes, failures, es[1..]);
    }
  }

  lemma FollowTail(attempts: seq<bool>, outcomes: nat -> bool, failures: nat)
    requires failures < MAX_RETRY && !outcomes(failures) && Follow(attempts, outcomes, failures) && attempts != []
    ensures Follow(attempts[1..], outcomes, failures + 1)
  {
    forall i | 0 <= i < Send(outcomes, failures + 1).attempts - (failures + 1)
      ensures attempts[1..][i] == outcomes(failures + 1 + i)
    {
      assert attempts[i + 1] == outcomes(failures + (i + 1));
    }
  }

  lemma OthersLeaveRunning(s: State, id: nat, e: Event)
    requires id < |s.jobs| && s.jobs[id].status.Running? && !(e.Attempt? && e.id == id)
    ensures id < |Apply(s, e).jobs| && Apply(s, e).jobs[id] == s.jobs[id]
  {
  }

  lemma AttemptMoves(s: State, id: nat, failures: nat, ok: bool)
    requires id < |s.jobs| && s.jobs[id].status == Running(failures)
    ensures var s' := Attempted(s, id, ok);
      |s'.jobs| == |s.jobs| && s'.jobs[id].status == NextStatus(failures, ok)
  {
  }

  class Runtime {
    var promises: map<string, nat>
    var jobs: seq<Job>
    var log: seq<Entry>

    constructor ()
      ensures Now() == EMPTY
    {
      promises := map[];
      jobs := [];
      log := [];
    }

    ghost function Now(): State
      reads this
    {
      State(promises, jobs, log)
    }

    /** Returns the caller's own promise. */
    method CallUnder(lock: string) returns (promise: nat)
      modifies this
      ensures Now() == Called(old(Now()), lock) && promise == |old(jobs)|
    {
      promise := |jobs|;
      if lock !in promises {
        jobs := jobs + [Job(lock, None, Running(0))];
        log := log + [Entry(lock, promise, Begun)];
        promises := promises[lock := promise];
      } else {
        jobs := jobs + [Job(lock, Some(promises[lock]), Waiting)];
        promises := promises[lock := promise];
      }
    }
  }
}
