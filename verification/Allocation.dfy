/** Reducing an over-allocation: splitting the excess over deployments, and carrying the
    plan out across scheduled runs that may fail half way.

    Deployments come in whatever order the service has sorted them.
 */
module Allocation {
  import opened Outcomes
  import opened Products

  datatype Status = Pending | Success | Failed

  datatype DeploymentReduce = DeploymentReduce(deploymentId: string, toReduce: int, status: Status)

  datatype Summary = Summary(deploymentId: string, totalAmount: nat)

  function Sum(s: seq<int>): int {
    if s == [] then 0 else Sum(s[..|s| - 1]) + s[|s| - 1]
  }

  lemma {:induction false} SumConcat(a: seq<int>, b: seq<int>)
    ensures Sum(a + b) == Sum(a) + Sum(b)
  {
    if b == [] {
      assert a + b == a;
    } else {
      SumConcat(a, b[..|b| - 1]);
      assert (a + b)[..|a + b| - 1] == a + b[..|b| - 1];
    }
  }

  function Amounts(ds: seq<Summary>): (a: seq<int>)
    ensures |a| == |ds|
  {
    seq(|ds|, i requires 0 <= i < |ds| => ds[i].totalAmount)
  }

  // Shares

  function FloorShare(excess: nat, amount: nat, used: nat): int
    requires used > 0
  {
    excess * amount / used
  }

  function FloorShares(ds: seq<Summary>, excess: nat, used: nat): (s: seq<int>)
    requires used > 0
    ensures |s| == |ds|
  {
    if ds == [] then []
    else FloorShares(ds[..|ds| - 1], excess, used) + [FloorShare(excess, ds[|ds| - 1].totalAmount, used)]
  }

  // Spread the rest over the last items first, none beyond its amount.
  function Adjusted(amounts: seq<int>, shares: seq<int>, rest: int): (s: seq<int>)
    requires |amounts| == |shares|
    ensures |s| == |shares|
  {
    if shares == [] || rest == 0 then shares
    else
      var n := |shares| - 1;
      if amounts[n] >= shares[n] + rest then shares[..n] + [shares[n] + rest]
      else Adjusted(amounts[..n], shares[..n], rest - (amounts[n] - shares[n])) + [amounts[n]]
  }

  function Shares(ds: seq<Summary>, excess: nat, used: nat): (s: seq<int>)
    requires used > 0
    ensures |s| == |ds|
  {
    var floors := FloorShares(ds, excess, used);
    Adjusted(Amounts(ds), floors, excess - Sum(floors))
  }

  lemma AdjustedStep(amounts: seq<int>, shares: seq<int>, i: nat, rest: int)
    requires i < |amounts| == |shares| && rest != 0
    ensures Adjusted(amounts[..i + 1], shares[..i + 1], rest)
         == if amounts[i] >= shares[i] + rest then shares[..i] + [shares[i] + rest]
            else Adjusted(amounts[..i], shares[..i], rest - (amounts[i] - shares[i])) + [amounts[i]]
  {
    assert amounts[..i + 1][..i] == amounts[..i] && shares[..i + 1][..i] == shares[..i];
  }

  predicate WithinAmounts(shares: seq<int>, amounts: seq<int>) {
    |shares| == |amounts| && forall i | 0 <= i < |shares| :: 0 <= shares[i] <= amounts[i]
  }

  predicate Below(a: seq<int>, b: seq<int>) {
    |a| == |b| && forall i | 0 <= i < |a| :: a[i] <= b[i]
  }

  lemma CancelProduct(u: int, x: int, y: int)
    requires u > 0 && u * x <= u * y
    ensures x <= y
  {
  }

  lemma FloorBounds(excess: nat, amount: nat, used: nat)
    requires 0 < excess <= used
    ensures var f := FloorShare(excess, amount, used);
      && 0 <= f <= amount
      && used * f <= excess * amount < used * f + used
  {
  }

  // Floor sums after one more item
  lemma FloorStep(excess: nat, used: nat, amounts: nat, floors: nat, n: nat, amount: nat)
    requires 0 < excess <= used
    requires used * floors <= excess * amounts <= used * floors + used * n
    ensures var f := FloorShare(excess, amount, used);
      used * (floors + f) <= excess * (amounts + amount) < used * (floors + f) + used * (n + 1)
  {
  }

  lemma {:induction false} FloorsWithin(ds: seq<Summary>, excess: nat, used: nat)
    requires 0 < excess <= used
    ensures var f := FloorShares(ds, excess, used);
      && WithinAmounts(f, Amounts(ds))
      && Sum(f) >= 0 && Sum(Amounts(ds)) >= 0
  {
    if ds != [] {
      SumsOneMore(ds, excess, used);
      FloorsWithin(ds[..|ds| - 1], excess, used);
      FloorBounds(excess, ds[|ds| - 1].totalAmount, used);
    }
  }

  lemma SumsOneMore(ds: seq<Summary>, excess: nat, used: nat)
    requires used > 0 && ds != []
    ensures var n := |ds| - 1;
      && Sum(FloorShares(ds, excess, used))
           == Sum(FloorShares(ds[..n], excess, used)) + FloorShare(excess, ds[n].totalAmount, used)
      && Sum(Amounts(ds)) == Sum(Amounts(ds[..n])) + ds[n].totalAmount
  {
    var n := |ds| - 1;
    assert Amounts(ds)[..n] == Amounts(ds[..n]);
    assert FloorShares(ds, excess, used)[..n] == FloorShares(ds[..n], excess, used);
  }

  /** The sum of the floors misses the exact quotient by less than one for each item. */
  lemma {:induction false} FloorSums(ds: seq<Summary>, excess: nat, used: nat)
    requires 0 < excess <= used
    ensures var f := Sum(FloorShares(ds, excess, used));
      && used * f <= excess * Sum(Amounts(ds)) <= used * f + used * |ds|
      && (ds != [] ==> excess * Sum(Amounts(ds)) < used * f + used * |ds|)
  {
    if ds != [] {
      var n := |ds| - 1;
      FloorSums(ds[..n], excess, used);
      SumsOneMore(ds, excess, used);
      FloorsWithin(ds[..n], excess, used);
      FloorStep(excess, used, Sum(Amounts(ds[..n])), Sum(FloorShares(ds[..n], excess, used)), n, ds[n].totalAmount);
    }
  }

  /** Spreading reaches the target when the amounts allow it, and otherwise exhausts them. */
  lemma {:induction false} AdjustedSum(amounts: seq<int>, shares: seq<int>, rest: int)
    requires Below(shares, amounts) && (shares == [] ==> rest >= 0)
    ensures Sum(Adjusted(amounts, shares, rest))
         == if Sum(shares) + rest <= Sum(amounts) then Sum(shares) + rest else Sum(amounts)
  {
    SumsBelow(shares, amounts);
    if shares != [] && rest != 0 {
      var n := |shares| - 1;
      SumsBelow(shares[..n], amounts[..n]);
      if amounts[n] >= shares[n] + rest {
        SumConcat(shares[..n], [shares[n] + rest]);
        assert [shares[n] + rest][..0] == [];
      } else {
        var rest' := rest - (amounts[n] - shares[n]);
        AdjustedSum(amounts[..n], shares[..n], rest');
        SumConcat(Adjusted(amounts[..n], shares[..n], rest'), [amounts[n]]);
        assert [amounts[n]][..0] == [];
      }
    }
  }

  lemma {:induction false} SumsBelow(a: seq<int>, b: seq<int>)
    requires Below(a, b)
    ensures Sum(a) <= Sum(b)
  {
    if a != [] {
      SumsBelow(a[..|a| - 1], b[..|b| - 1]);
    }
  }

  lemma {:induction false} AdjustedWithin(amounts: seq<int>, shares: seq<int>, rest: nat)
    requires Below(shares, amounts)
    ensures Below(shares, Adjusted(amounts, shares, rest))
    ensures Below(Adjusted(amounts, shares, rest), amounts)
  {
    if shares != [] && rest != 0 {
      var n := |shares| - 1;
      if amounts[n] < shares[n] + rest {
        AdjustedWithin(amounts[..n], shares[..n], rest - (amounts[n] - shares[n]));
      }
    }
  }

  /** The rest goes to the last items first: where a share is raised, all later items have
      been raised to their amounts. */
  lemma {:induction false} AdjustedFillsFromTheEnd(amounts: seq<int>, shares: seq<int>, rest: nat, i: nat, k: nat)
    requires Below(shares, amounts) && i < k < |shares| && Adjusted(amounts, shares, rest)[i] != shares[i]
    ensures Adjusted(amounts, shares, rest)[k] == amounts[k]
  {
    var n := |shares| - 1;
    if k < n {
      AdjustedFillsFromTheEnd(amounts[..n], shares[..n], rest - (amounts[n] - shares[n]), i, k);
    }
  }

  /** The run-time assertion holds exactly when the amounts cover the excess. */
  lemma AssertionIsExact(ds: seq<Summary>, excess: nat, used: nat)
    requires 0 < excess <= used
    ensures Sum(Shares(ds, excess, used)) == excess <==> Sum(Amounts(ds)) >= excess
  {
    FloorsWithin(ds, excess, used);
    var floors := FloorShares(ds, excess, used);
    AdjustedSum(Amounts(ds), floors, excess - Sum(floors));
  }

  lemma RestIsNatural(ds: seq<Summary>, excess: nat, used: nat)
    requires 0 < excess <= used && Sum(Amounts(ds)) <= used
    ensures Sum(FloorShares(ds, excess, used)) <= excess
  {
    FloorSums(ds, excess, used);
    ProductMonotone(excess, Sum(Amounts(ds)), used);
    CancelProduct(used, Sum(FloorShares(ds, excess, used)), excess);
  }

  // Only the last share can go below zero, by a negative rest.
  lemma AdjustedNatural(amounts: seq<int>, shares: seq<int>, rest: int)
    requires WithinAmounts(shares, amounts) && shares != []
    ensures WithinAmounts(Adjusted(amounts, shares, rest), amounts) <==> shares[|shares| - 1] + rest >= 0
  {
  }

  /** No share is negative or beyond its amount exactly when the floors of all items but
      the last sum to at most the excess. */
  lemma SharesWithinWhen(ds: seq<Summary>, excess: nat, used: nat)
    requires 0 < excess <= used
    ensures WithinAmounts(Shares(ds, excess, used), Amounts(ds))
       <==> ds == [] || Sum(FloorShares(ds[..|ds| - 1], excess, used)) <= excess
  {
    if ds != [] {
      var floors := FloorShares(ds, excess, used);
      FloorsWithin(ds, excess, used);
      LastFloor(ds, excess, used);
      AdjustedNatural(Amounts(ds), floors, excess - Sum(floors));
    }
  }

  lemma LastFloor(ds: seq<Summary>, excess: nat, used: nat)
    requires used > 0 && ds != []
    ensures var floors := FloorShares(ds, excess, used);
      Sum(floors) - floors[|ds| - 1] == Sum(FloorShares(ds[..|ds| - 1], excess, used))
  {
    SumsOneMore(ds, excess, used);
  }

  /** When the amounts sum to at most `used`, no share is negative or beyond its amount. */
  lemma SharesWithinAmounts(ds: seq<Summary>, excess: nat, used: nat)
    requires 0 < excess <= used && Sum(Amounts(ds)) <= used
    ensures WithinAmounts(Shares(ds, excess, used), Amounts(ds))
  {
    FloorsWithin(ds, excess, used);
    RestIsNatural(ds, excess, used);
    var floors := FloorShares(ds, excess, used);
    AdjustedWithin(Amounts(ds), floors, excess - Sum(floors));
  }

  /** Amounts that sum to more than `used` can make a share negative. */
  lemma SharesMayBeNegative() returns (ds: seq<Summary>)
    ensures Sum(Amounts(ds)) > 2 && Shares(ds, 1, 2) == [1, 1, -1]
    ensures Sum(Shares(ds, 1, 2)) == 1
  {
    var d := Summary("", 2);
    ds := [d, d, d];
    assert ds[..2] == [d, d] && ds[..2][..1] == [d] && ds[..2][..1][..0] == [];
    assert FloorShares(ds[..2][..1], 1, 2) == [1];
    assert FloorShares(ds[..2], 1, 2) == [1, 1];
    assert FloorShares(ds, 1, 2) == [1, 1, 1];
    SumOfThree(1, 1, 1);
    SumOfThree(2, 2, 2);
    SumOfThree(1, 1, -1);
    assert Amounts(ds) == [2, 2, 2];
    assert [1, 1, 1][..2] + [1 - 2] == [1, 1, -1];
  }

  lemma SumOfThree(x: int, y: int, z: int)
    ensures Sum([x, y, z]) == x + y + z
  {
    SumConcat([x], [y]);
    SumConcat([x] + [y], [z]);
    assert [x, y, z] == [x] + [y] + [z];
    assert forall v: int :: [v][..0] == [];
  }

  /** When the amounts sum to exactly `used`, the rounding remainder is smaller than the
      number of deployments; it is what the shares gain over the floors, each gaining or
      keeping. */
  lemma RemainderIsSmall(ds: seq<Summary>, excess: nat, used: nat)
    requires 0 < excess <= used && Sum(Amounts(ds)) == used
    ensures var floors, shares := FloorShares(ds, excess, used), Shares(ds, excess, used);
      && 0 <= excess - Sum(floors) < |ds|
      && Sum(shares) - Sum(floors) == excess - Sum(floors)
      && Below(floors, shares)
  {
    var floors := FloorShares(ds, excess, used);
    FloorsWithin(ds, excess, used);
    RestIsNatural(ds, excess, used);
    RestIsBelowCount(ds, excess, used);
    AssertionIsExact(ds, excess, used);
    AdjustedWithin(Amounts(ds), floors, excess - Sum(floors));
  }

  lemma RestIsBelowCount(ds: seq<Summary>, excess: nat, used: nat)
    requires 0 < excess <= used && Sum(Amounts(ds)) == used
    ensures excess - Sum(FloorShares(ds, excess, used)) < |ds|
  {
    FloorSums(ds, excess, used);
    RestBelow(excess, used, Sum(FloorShares(ds, excess, used)), |ds|);
  }

  lemma RestBelow(excess: nat, used: nat, floors: int, n: nat)
    requires used > 0 && excess * used < used * floors + used * n
    ensures excess - floors < n
  {
    Distribute(used, floors, n);
    if floors + n <= excess {
      ProductMonotone(used, floors + n, excess);
    }
  }

  // Plans and their removals

  // `pending` is the service's lastTotalReduce, `entries` its lastSingleReduce.
  datatype Plan = Plan(entries: seq<DeploymentReduce>, pending: int)

  const NO_PLAN := Plan([], 0)

  function Entries(ds: seq<Summary>, shares: seq<int>): (es: seq<DeploymentReduce>)
    requires |ds| == |shares|
    ensures |es| == |ds|
  {
    seq(|ds|, i requires 0 <= i < |ds| => DeploymentReduce(ds[i].deploymentId, shares[i], Pending))
  }

  lemma EntriesExtended(ds: seq<Summary>, shares: seq<int>, d: Summary, x: int)
    requires |ds| == |shares|
    ensures Entries(ds + [d], shares + [x]) == Entries(ds, shares) + [DeploymentReduce(d.deploymentId, x, Pending)]
  {
  }

  predicate Shows(plan: seq<DeploymentReduce>, ds: seq<Summary>, shares: seq<int>) {
    |plan| == |ds| == |shares| && forall i | 0 <= i < |plan| ::
      plan[i] == DeploymentReduce(ds[i].deploymentId, shares[i], Pending)
  }

  // Raising one item's share, and where that leaves the list of shares
  lemma ShowsRaised(plan: seq<DeploymentReduce>, ds: seq<Summary>, floors: seq<int>, i: nat, tail: seq<int>, x: int)
    requires i < |floors| && Shows(plan, ds, floors[..i + 1] + tail)
    ensures plan[i].toReduce == floors[i]
    ensures Shows(plan[i := plan[i].(toReduce := x)], ds, floors[..i] + [x] + tail)
    ensures Shows(plan[i := plan[i].(toReduce := x)], ds, floors[..i] + ([x] + tail))
  {
  }

  lemma ShowsEntries(plan: seq<DeploymentReduce>, ds: seq<Summary>, shares: seq<int>)
    requires |ds| == |shares|
    ensures Shows(plan, ds, shares) <==> plan == Entries(ds, shares)
  {
  }

  datatype Removal = Removal(plan: Plan, removed: seq<nat>, failed: bool)

  // The plan after entry `i` has been removed
  function Done(plan: Plan, i: nat): Plan
    requires i < |plan.entries|
  {
    var e := plan.entries[i];
    Plan(plan.entries[i := e.(status := Success)], plan.pending - e.toReduce)
  }

  // Carry out the entries from `i` on that have not succeeded, up to the first failure.
  // `accepts` answers whether the removal of an entry goes through.
  function RemoveFrom(plan: Plan, i: nat, accepts: nat -> bool): Removal
    requires i <= |plan.entries|
    decreases |plan.entries| - i
  {
    if i == |plan.entries| then Removal(plan, [], false)
    else
      var e := plan.entries[i];
      if e.status == Success then RemoveFrom(plan, i + 1, accepts)
      else if !accepts(i) then Removal(plan.(entries := plan.entries[i := e.(status := Failed)]), [], true)
      else
        var r := RemoveFrom(Done(plan, i), i + 1, accepts);
        r.(removed := [i] + r.removed)
  }

  datatype Request = Request(used: nat, total: nat, summaries: seq<Summary>)

  // The plan a run works on: the kept one if the excess is what is still pending, else a
  // fresh one, whose shares must sum to the excess.
  function Planned(plan: Plan, q: Request): Result<Plan>
    requires q.used > q.total
  {
    var excess := q.used - q.total;
    if excess == plan.pending then Ok(plan)
    else
      var shares := Shares(q.summaries, excess, q.used);
      if Sum(shares) == excess then Ok(Plan(Entries(q.summaries, shares), excess)) else Err(Panic)
  }

  function Reduced(plan: Plan, q: Request, accepts: nat -> bool): Result<Removal> {
    if q.used <= q.total then Ok(Removal(plan, [], false))
    else
      var planned :- Planned(plan, q);
      Ok(RemoveFrom(planned, 0, accepts))
  }

  // What is still to be removed

  function PendingSum(entries: seq<DeploymentReduce>): int {
    if entries == [] then 0
    else
      var n := |entries| - 1;
      PendingSum(entries[..n]) + if entries[n].status == Success then 0 else entries[n].toReduce
  }

  predicate Consistent(plan: Plan) {
    plan.pending == PendingSum(plan.entries)
  }

  lemma {:induction false} PendingSumUpdated(entries: seq<DeploymentReduce>, i: nat, status: Status)
    requires i < |entries| && entries[i].status != Success
    ensures PendingSum(entries[i := entries[i].(status := status)])
         == PendingSum(entries) - if status == Success then entries[i].toReduce else 0
  {
    var n := |entries| - 1;
    var entries' := entries[i := entries[i].(status := status)];
    if i == n {
      assert entries'[..n] == entries[..n];
    } else {
      PendingSumUpdated(entries[..n], i, status);
      assert entries'[..n] == entries[..n][i := entries[i].(status := status)];
    }
  }

  lemma {:induction false} FreshPendingSum(ds: seq<Summary>, shares: seq<int>)
    requires |ds| == |shares|
    ensures PendingSum(Entries(ds, shares)) == Sum(shares)
  {
    if ds != [] {
      var n := |ds| - 1;
      FreshPendingSum(ds[..n], shares[..n]);
      assert Entries(ds, shares)[..n] == Entries(ds[..n], shares[..n]);
    }
  }

  predicate Fits(indices: seq<nat>, plan: Plan) {
    forall j | 0 <= j < |indices| :: indices[j] < |plan.entries|
  }

  // Amounts of the entries with the given indices
  function Removed(plan: Plan, indices: seq<nat>): int
    requires Fits(indices, plan)
  {
    if indices == [] then 0 else plan.entries[indices[0]].toReduce + Removed(plan, indices[1..])
  }

  predicate SameShares(a: Plan, b: Plan) {
    |a.entries| == |b.entries| && forall i | 0 <= i < |a.entries| ::
      a.entries[i].toReduce == b.entries[i].toReduce && a.entries[i].deploymentId == b.entries[i].deploymentId
  }

  lemma {:induction false} RemovedDependsOnShares(a: Plan, b: Plan, indices: seq<nat>)
    requires SameShares(a, b) && Fits(indices, a)
    ensures Removed(a, indices) == Removed(b, indices)
  {
    if indices != [] {
      RemovedDependsOnShares(a, b, indices[1..]);
    }
  }

  predicate Increasing(s: seq<nat>) {
    forall i, j | 0 <= i < j < |s| :: s[i] < s[j]
  }

  // What carrying out a plan from entry `i` on may change
  predicate Touched(plan: Plan, i: nat, r: Removal) {
    && SameShares(plan, r.plan)
    && Increasing(r.removed)
    && (forall j | 0 <= j < |r.removed| ::
          i <= r.removed[j] < |plan.entries| && plan.entries[r.removed[j]].status != Success)
    && (forall k | 0 <= k < |plan.entries| ::
          r.plan.entries[k].status == Success <==> plan.entries[k].status == Success || k in r.removed)
    && (!r.failed ==> forall k | i <= k < |plan.entries| :: r.plan.entries[k].status == Success)
  }

  /** Exactly the removed entries turn to success, none that had succeeded is removed, and
      without a failure all have succeeded. */
  lemma {:induction false} RemovalTouchesPending(plan: Plan, i: nat, accepts: nat -> bool)
    requires i <= |plan.entries|
    ensures Touched(plan, i, RemoveFrom(plan, i, accepts))
    decreases |plan.entries| - i
  {
    if i < |plan.entries| {
      var e := plan.entries[i];
      if e.status == Success {
        RemovalTouchesPending(plan, i + 1, accepts);
      } else if accepts(i) {
        RemovalTouchesPending(Done(plan, i), i + 1, accepts);
        TouchedOneMore(plan, i, RemoveFrom(Done(plan, i), i + 1, accepts));
      }
    }
  }

  lemma TouchedOneMore(plan: Plan, i: nat, r: Removal)
    requires i < |plan.entries| && plan.entries[i].status != Success
    requires Touched(Done(plan, i), i + 1, r)
    ensures Touched(plan, i, r.(removed := [i] + r.removed))
  {
  }

  // Every entry from `i` up to `k` that has not succeeded is accepted.
  predicate AcceptedUpTo(plan: Plan, i: nat, k: nat, accepts: nat -> bool) {
    forall j | i <= j <= k && j < |plan.entries| :: plan.entries[j].status == Success || accepts(j)
  }

  /** A run removes entries in order up to the first that is not accepted; that one is marked
      as failed, and nothing after it is touched. */
  lemma {:induction false} RunStopsAtFirstFailure(plan: Plan, i: nat, accepts: nat -> bool)
    requires i <= |plan.entries|
    ensures var r := RemoveFrom(plan, i, accepts);
      && |r.plan.entries| == |plan.entries|
      && (forall k: nat :: k in r.removed <==>
            i <= k < |plan.entries| && plan.entries[k].status != Success && AcceptedUpTo(plan, i, k, accepts))
      && (r.failed <==> !AcceptedUpTo(plan, i, |plan.entries|, accepts))
      && (forall k | 0 <= k < |plan.entries| :: r.plan.entries[k].status ==
            if k in r.removed then Success
            else if k >= i && plan.entries[k].status != Success && (k == 0 || AcceptedUpTo(plan, i, k - 1, accepts))
            then Failed else plan.entries[k].status)
    decreases |plan.entries| - i
  {
    if i < |plan.entries| {
      if plan.entries[i].status == Success {
        RunStopsAtFirstFailure(plan, i + 1, accepts);
        forall k: nat ensures AcceptedUpTo(plan, i, k, accepts) <==> AcceptedUpTo(plan, i + 1, k, accepts) {
        }
      } else if accepts(i) {
        RunStopsAtFirstFailure(Done(plan, i), i + 1, accepts);
        forall k: nat ensures AcceptedUpTo(plan, i, k, accepts) <==> AcceptedUpTo(Done(plan, i), i + 1, k, accepts) {
        }
      } else {
        assert forall k: nat | k >= i :: !AcceptedUpTo(plan, i, k, accepts);
      }
    }
  }

  // The books of a removal: its plan is consistent, and what it removed left `pending`.
  predicate Conserved(plan: Plan, r: Removal) {
    && Consistent(r.plan)
    && Fits(r.removed, plan)
    && r.plan.pending + Removed(plan, r.removed) == plan.pending
  }

  lemma ConservedOneMore(plan: Plan, i: nat, r: Removal)
    requires i < |plan.entries| && Conserved(Done(plan, i), r)
    ensures Conserved(plan, r.(removed := [i] + r.removed))
  {
    var all := [i] + r.removed;
    assert all[1..] == r.removed;
    RemovedDependsOnShares(plan, Done(plan, i), r.removed);
  }

  /** What was removed leaves `pending`, which stays the sum of the entries still to do. */
  lemma {:induction false} RemovalConserves(plan: Plan, i: nat, accepts: nat -> bool)
    requires i <= |plan.entries| && Consistent(plan)
    ensures Conserved(plan, RemoveFrom(plan, i, accepts))
    decreases |plan.entries| - i
  {
    if i < |plan.entries| {
      if plan.entries[i].status == Success {
        RemovalConserves(plan, i + 1, accepts);
      } else if !accepts(i) {
        PendingSumUpdated(plan.entries, i, Failed);
      } else {
        PendingSumUpdated(plan.entries, i, Success);
        RemovalConserves(Done(plan, i), i + 1, accepts);
        ConservedOneMore(plan, i, RemoveFrom(Done(plan, i), i + 1, accepts));
      }
    }
  }

  lemma PlannedIsConsistent(plan: Plan, q: Request)
    requires Consistent(plan) && q.used > q.total && Planned(plan, q).Ok?
    ensures Consistent(Planned(plan, q).value) && Planned(plan, q).value.pending == q.used - q.total
  {
    FreshPendingSum(q.summaries, Shares(q.summaries, q.used - q.total, q.used));
  }

  /** Which plan a run works on: none without an excess; the kept one if that is what is still
      pending; and otherwise a fresh one that lists every deployment with its share. */
  lemma PlanIsChosen(plan: Plan, q: Request, accepts: nat -> bool)
    ensures q.used <= q.total ==> Reduced(plan, q, accepts) == Ok(Removal(plan, [], false))
    ensures q.used > q.total && q.used - q.total == plan.pending ==> Planned(plan, q) == Ok(plan)
    ensures q.used > q.total && q.used - q.total != plan.pending ==>
      var planned := Planned(plan, q);
      && (planned.Ok? <==> Sum(Amounts(q.summaries)) >= q.used - q.total)
      && (planned.Ok? ==> |planned.value.entries| == |q.summaries| && forall i | 0 <= i < |q.summaries| ::
            planned.value.entries[i] == DeploymentReduce(
              q.summaries[i].deploymentId, Shares(q.summaries, q.used - q.total, q.used)[i], Pending))
  {
    if q.used > q.total {
      AssertionIsExact(q.summaries, q.used - q.total, q.used);
    }
  }

  /** Every run keeps the books, whether it plans afresh or goes on, fails or not; what it
      removes and what stays pending make up the excess; without a failure it removes the
      whole excess. */
  lemma RunKeepsBooks(plan: Plan, q: Request, accepts: nat -> bool)
    requires Consistent(plan) && q.used > q.total && Reduced(plan, q, accepts).Ok?
    ensures var planned, r := Planned(plan, q).value, Reduced(plan, q, accepts).value;
      && Consistent(r.plan)
      && Touched(planned, 0, r)
      && Removed(planned, r.removed) + r.plan.pending == q.used - q.total
      && (!r.failed ==> r.plan.pending == 0 && Removed(planned, r.removed) == q.used - q.total)
  {
    PlannedIsConsistent(plan, q);
    var planned := Planned(plan, q).value;
    RemovalTouchesPending(planned, 0, accepts);
    RemovalConserves(planned, 0, accepts);
    var r := RemoveFrom(planned, 0, accepts);
    if !r.failed {
      AllSucceeded(r.plan.entries);
    }
  }

  lemma {:induction false} AllSucceeded(entries: seq<DeploymentReduce>)
    requires forall e <- entries :: e.status == Success
    ensures PendingSum(entries) == 0
  {
    if entries != [] {
      AllSucceeded(entries[..|entries| - 1]);
    }
  }

  // Scheduled runs while the chain's excess falls only by their own removals

  datatype Call = Call(total: nat, summaries: seq<Summary>, accepts: nat -> bool)

  // `log` holds the indices of the plan's entries removed so far, over all runs.
  datatype World = World(plan: Plan, excess: int, removed: int, log: seq<nat>)

  function AfterCall(w: World, c: Call): World {
    if w.excess <= 0 then w
    else
      var q := Request(c.total + w.excess, c.total, c.summaries);
      var r := Reduced(w.plan, q, c.accepts);
      if r.Err? then w
      else
        RemovedIndicesFit(w.plan, q, c.accepts);
        Settled(w, r.value)
  }

  // The chain's excess falls by what was removed.
  function Settled(w: World, r: Removal): World
    requires Fits(r.removed, r.plan)
  {
    var amount := Removed(r.plan, r.removed);
    World(r.plan, w.excess - amount, w.removed + amount, w.log + r.removed)
  }

  lemma RemovedIndicesFit(plan: Plan, q: Request, accepts: nat -> bool)
    requires Reduced(plan, q, accepts).Ok?
    ensures var r := Reduced(plan, q, accepts).value; Fits(r.removed, r.plan)
  {
    if q.used > q.total {
      RemovalTouchesPending(Planned(plan, q).value, 0, accepts);
    }
  }

  function RunCalls(w: World, cs: seq<Call>): World
    decreases |cs|
  {
    if cs == [] then w else RunCalls(AfterCall(w, cs[0]), cs[1..])
  }

  predicate Distinct(s: seq<nat>) {
    forall i, j | 0 <= i < j < |s| :: s[i] != s[j]
  }

  // Either no plan has been made, or the plan on record accounts for the excess.
  predicate WorldInvariant(w: World, original: int) {
    && Consistent(w.plan)
    && w.removed + w.excess == original
    && Distinct(w.log)
    && (w.plan == NO_PLAN ==> w.log == [] && w.removed == 0)
    && (w.plan != NO_PLAN ==> w.plan.pending == w.excess)
    && (forall j | 0 <= j < |w.log| :: w.log[j] < |w.plan.entries| && w.plan.entries[w.log[j]].status == Success)
  }

  lemma LogStaysDistinct(log: seq<nat>, planned: Plan, r: Removal)
    requires Distinct(log) && Touched(planned, 0, r)
    requires forall j | 0 <= j < |log| :: log[j] < |planned.entries| && planned.entries[log[j]].status == Success
    ensures var log' := log + r.removed;
      && Distinct(log')
      && forall j | 0 <= j < |log'| :: log'[j] < |r.plan.entries| && r.plan.entries[log'[j]].status == Success
  {
  }

  lemma CallKeepsInvariant(w: World, c: Call, original: int)
    requires WorldInvariant(w, original)
    ensures WorldInvariant(AfterCall(w, c), original)
    ensures w.plan != NO_PLAN ==> SameShares(w.plan, AfterCall(w, c).plan)
  {
    if w.excess > 0 {
      var q := Request(c.total + w.excess, c.total, c.summaries);
      if Reduced(w.plan, q, c.accepts).Ok? {
        PlannedCallKeepsInvariant(w, c, original, q);
      }
    }
  }

  lemma PlannedCallKeepsInvariant(w: World, c: Call, original: int, q: Request)
    requires WorldInvariant(w, original) && w.excess > 0
    requires q == Request(c.total + w.excess, c.total, c.summaries) && Reduced(w.plan, q, c.accepts).Ok?
    ensures WorldInvariant(AfterCall(w, c), original)
    ensures w.plan != NO_PLAN ==> SameShares(w.plan, AfterCall(w, c).plan)
  {
    PlannedBooks(w.plan, q, c.accepts);
    SettledKeepsInvariant(w, Planned(w.plan, q).value, Reduced(w.plan, q, c.accepts).value, original);
  }

  // What the invariant needs to know about a run
  lemma PlannedBooks(plan: Plan, q: Request, accepts: nat -> bool)
    requires Consistent(plan) && q.used > q.total && Reduced(plan, q, accepts).Ok?
    requires plan != NO_PLAN ==> plan.pending == q.used - q.total
    ensures var planned, r := Planned(plan, q).value, Reduced(plan, q, accepts).value;
      && planned.entries != [] && (plan != NO_PLAN ==> planned == plan)
      && Touched(planned, 0, r) && Fits(r.removed, r.plan)
      && Consistent(r.plan) && Removed(r.plan, r.removed) + r.plan.pending == q.used - q.total
  {
    var planned, r := Planned(plan, q).value, Reduced(plan, q, accepts).value;
    RunKeepsBooks(plan, q, accepts);
    RemovedDependsOnShares(planned, r.plan, r.removed);
    PlannedIsNew(plan, q);
  }

  lemma SettledKeepsInvariant(w: World, planned: Plan, r: Removal, original: int)
    requires WorldInvariant(w, original) && Touched(planned, 0, r) && Fits(r.removed, r.plan)
    requires planned.entries != [] && (w.plan != NO_PLAN ==> planned == w.plan)
    requires Consistent(r.plan) && Removed(r.plan, r.removed) + r.plan.pending == w.excess
    ensures WorldInvariant(Settled(w, r), original)
  {
    LogStaysDistinct(w.log, planned, r);
    assert r.plan.entries != [];
  }

  lemma PlannedIsNew(plan: Plan, q: Request)
    requires Consistent(plan) && q.used > q.total && Planned(plan, q).Ok?
    requires plan != NO_PLAN ==> plan.pending == q.used - q.total
    ensures plan != NO_PLAN ==> Planned(plan, q).value == plan
    ensures Planned(plan, q).value.entries != []
  {
  }

  /** However many runs fail, and wherever: the total removed and the excess left make up
      the original excess, no entry of the plan is removed twice, and once a plan exists
      its pending total is the excess left. */
  lemma {:induction false} RetriesConserveExcess(w: World, cs: seq<Call>, original: int)
    requires WorldInvariant(w, original)
    ensures WorldInvariant(RunCalls(w, cs), original)
    decreases |cs|
  {
    if cs != [] {
      CallKeepsInvariant(w, cs[0], original);
      RetriesConserveExcess(AfterCall(w, cs[0]), cs[1..], original);
    }
  }

  /** From the start: removed and pending add up to the original excess after every run
      that has made a plan. */
  lemma RetrySafety(original: nat, cs: seq<Call>)
    ensures var w := RunCalls(World(NO_PLAN, original, 0, []), cs);
      && Distinct(w.log)
      && w.removed + w.excess == original
      && (w.plan != NO_PLAN ==> w.removed + w.plan.pending == original)
  {
    RetriesConserveExcess(World(NO_PLAN, original, 0, []), cs, original);
  }

  /** A plan that exists is completed, unchanged, by the next run without a failure. */
  lemma OneGoodRunFinishes(w: World, c: Call, original: int)
    requires WorldInvariant(w, original) && w.plan != NO_PLAN && w.excess > 0 && forall i :: c.accepts(i)
    ensures AfterCall(w, c).excess == 0 && AfterCall(w, c).removed == original
    ensures SameShares(w.plan, AfterCall(w, c).plan)
  {
    CallKeepsInvariant(w, c, original);
    var q := Request(c.total + w.excess, c.total, c.summaries);
    assert Planned(w.plan, q) == Ok(w.plan);
    AcceptedNeverFails(w.plan, 0, c.accepts);
    RunKeepsBooks(w.plan, q, c.accepts);
    var r := Reduced(w.plan, q, c.accepts).value;
    RemovedDependsOnShares(w.plan, r.plan, r.removed);
  }

  lemma {:induction false} AcceptedNeverFails(plan: Plan, i: nat, accepts: nat -> bool)
    requires i <= |plan.entries| && forall i :: accepts(i)
    ensures !RemoveFrom(plan, i, accepts).failed
    decreases |plan.entries| - i
  {
    if i < |plan.entries| {
      AcceptedNeverFails(plan, i + 1, accepts);
      AcceptedNeverFails(Done(plan, i), i + 1, accepts);
    }
  }

  class RewardService {
    var lastSingleReduce: seq<DeploymentReduce>
    var lastTotalReduce: int
    var reduceOngoing: bool

    constructor ()
      ensures Stored() == NO_PLAN && !reduceOngoing
    {
      lastSingleReduce := [];
      lastTotalReduce := 0;
      reduceOngoing := false;
    }

    ghost function Stored(): Plan
      reads this
    {
      Plan(lastSingleReduce, lastTotalReduce)
    }

    method FloorPlan(ds: seq<Summary>, expectTotalReduce: nat, used: nat)
      returns (plan: seq<DeploymentReduce>, calcTotalReduce: int)
      requires used > 0
      ensures var floors := FloorShares(ds, expectTotalReduce, used);
        plan == Entries(ds, floors) && calcTotalReduce == Sum(floors)
    {
      calcTotalReduce := 0;
      plan := [];
      ghost var floors: seq<int> := [];
      for i := 0 to |ds|
        invariant floors == FloorShares(ds[..i], expectTotalReduce, used)
        invariant plan == Entries(ds[..i], floors)
        invariant calcTotalReduce == Sum(floors)
      {
        var toReduce := FloorShare(expectTotalReduce, ds[i].totalAmount, used);
        calcTotalReduce := calcTotalReduce + toReduce;
        plan := plan + [DeploymentReduce(ds[i].deploymentId, toReduce, Pending)];
        assert ds[..i + 1] == ds[..i] + [ds[i]] && ds[..i + 1][..i] == ds[..i];
        assert (floors + [toReduce])[..i] == floors;
        EntriesExtended(ds[..i], floors, ds[i], toReduce);
        floors := floors + [toReduce];
      }
      assert ds[..|ds|] == ds;
    }

    method TotalOf(plan: seq<DeploymentReduce>, ghost shares: seq<int>) returns (total: int)
      requires |plan| == |shares| && forall i | 0 <= i < |plan| :: plan[i].toReduce == shares[i]
      ensures total == Sum(shares)
    {
      total := 0;
      for i := 0 to |plan|
        invariant total == Sum(shares[..i])
      {
        assert shares[..i + 1][..i] == shares[..i];
        total := total + plan[i].toReduce;
      }
      assert shares[..|plan|] == shares;
    }

    method MakePlan(ds: seq<Summary>, expectTotalReduce: nat, used: nat) returns (r: Result<seq<DeploymentReduce>>)
      requires 0 < expectTotalReduce <= used
      ensures var shares := Shares(ds, expectTotalReduce, used);
        r == if Sum(shares) == expectTotalReduce then Ok(Entries(ds, shares)) else Err(Panic)
    {
      var plan, calcTotalReduce := FloorPlan(ds, expectTotalReduce, used);
      var rest := expectTotalReduce - calcTotalReduce;
      ShowsEntries(plan, ds, FloorShares(ds, expectTotalReduce, used));
      plan := Adjust(ds, plan, FloorShares(ds, expectTotalReduce, used), rest);
      ShowsEntries(plan, ds, Shares(ds, expectTotalReduce, used));
      var adjustedTotalReduce := TotalOf(plan, Shares(ds, expectTotalReduce, used));
      if expectTotalReduce != adjustedTotalReduce {
        return Err(Panic);
      }
      r := Ok(plan);
    }

    method Adjust(ds: seq<Summary>, plan: seq<DeploymentReduce>, ghost floors: seq<int>, total: int)
      returns (calSingleReduce: seq<DeploymentReduce>)
      requires |floors| == |ds| && Shows(plan, ds, floors)
      ensures Shows(calSingleReduce, ds, Adjusted(Amounts(ds), floors, total))
    {
      var rest := total;
      calSingleReduce := plan;
      ghost var amounts, goal := Amounts(ds), Adjusted(Amounts(ds), floors, total);
      ghost var tail: seq<int> := [];
      var i := |ds| - 1;
      assert amounts[..i + 1] == amounts && floors[..i + 1] == floors && floors + [] == floors;
      while i >= 0
        invariant -1 <= i < |ds| && |tail| == |ds| - 1 - i
        invariant Shows(calSingleReduce, ds, floors[..i + 1] + tail)
        invariant goal == Adjusted(amounts[..i + 1], floors[..i + 1], rest) + tail
      {
        if rest == 0 {
          break;
        }
        var done: bool;
        calSingleReduce, rest, done := AdjustItem(ds, calSingleReduce, floors, i, rest, tail);
        if done {
          return;
        }
        tail := [amounts[i]] + tail;
        i := i - 1;
      }
    }

    // One item takes the whole rest if it can, and otherwise all it has left.
    method AdjustItem(
        ds: seq<Summary>, plan: seq<DeploymentReduce>, ghost floors: seq<int>, i: nat, total: int, ghost tail: seq<int>)
      returns (calSingleReduce: seq<DeploymentReduce>, rest: int, done: bool)
      requires |floors| == |ds| && i < |ds| && total != 0
      requires Shows(plan, ds, floors[..i + 1] + tail)
      ensures var amounts := Amounts(ds);
        var goal := Adjusted(amounts[..i + 1], floors[..i + 1], total) + tail;
        if done then Shows(calSingleReduce, ds, goal)
        else
          && Shows(calSingleReduce, ds, floors[..i] + ([amounts[i]] + tail))
          && goal == Adjusted(amounts[..i], floors[..i], rest) + ([amounts[i]] + tail)
    {
      rest := total;
      calSingleReduce := plan;
      ghost var amounts := Amounts(ds);
      AdjustedStep(amounts, floors, i, rest);
      ShowsRaised(plan, ds, floors, i, tail, floors[i] + rest);
      ShowsRaised(plan, ds, floors, i, tail, amounts[i]);
      if ds[i].totalAmount >= calSingleReduce[i].toReduce + rest {
        calSingleReduce := calSingleReduce[i := calSingleReduce[i].(toReduce := calSingleReduce[i].toReduce + rest)];
        done := true;
      } else {
        var diff := ds[i].totalAmount - calSingleReduce[i].toReduce;
        calSingleReduce := calSingleReduce[i := calSingleReduce[i].(toReduce := calSingleReduce[i].toReduce + diff)];
        rest := rest - diff;
        done := false;
        ghost var head := Adjusted(amounts[..i], floors[..i], rest);
        assert head + [amounts[i]] + tail == head + ([amounts[i]] + tail);
      }
    }

    /** Returns the indices of the entries it removed. `fetched` is none without an indexer or
        without its allocation. */
    method ReduceAllocation(fetched: Option<Request>, accepts: nat -> bool) returns (r: Result<seq<nat>>)
      modifies this
      ensures fetched.None? ==> r == Ok([]) && Stored() == old(Stored()) && reduceOngoing == old(reduceOngoing)
      ensures fetched.Some? ==>
        var reduced := Reduced(old(Stored()), fetched.value, accepts);
        if reduced.Err? then r == Err(reduced.error) && Stored() == old(Stored()) && !reduceOngoing
        else
          && r == Ok(reduced.value.removed)
          && Stored() == reduced.value.plan
          && reduceOngoing == reduced.value.failed
    {
      if fetched.None? {
        return Ok([]);
      }
      var q := fetched.value;
      reduceOngoing := false;
      var expectTotalReduce := q.used - q.total;
      var refetch := true;
      if expectTotalReduce == lastTotalReduce {
        refetch := false;
      }
      if expectTotalReduce <= 0 {
        return Ok([]);
      }
      var calSingleReduce := lastSingleReduce;
      if refetch {
        var made := MakePlan(q.summaries, expectTotalReduce, q.used);
        if made.Err? {
          return Err(made.error);
        }
        calSingleReduce := made.value;
      }
      lastSingleReduce := calSingleReduce;
      lastTotalReduce := expectTotalReduce;
      var removed := CarryOut(accepts);
      r := Ok(removed);
    }

    method CarryOut(accepts: nat -> bool) returns (removed: seq<nat>)
      requires !reduceOngoing
      modifies this
      ensures var done := RemoveFrom(old(Stored()), 0, accepts);
        removed == done.removed && Stored() == done.plan && reduceOngoing == done.failed
    {
      ghost var planned := Stored();
      removed := [];
      for i := 0 to |lastSingleReduce|
        invariant |lastSingleReduce| == |planned.entries| && !reduceOngoing
        invariant RemoveFrom(planned, 0, accepts)
               == var rest := RemoveFrom(Stored(), i, accepts); rest.(removed := removed + rest.removed)
      {
        var d := lastSingleReduce[i];
        if d.status == Success {
          continue;
        }
        if !accepts(i) {
          lastSingleReduce := lastSingleReduce[i := d.(status := Failed)];
          reduceOngoing := true;
          break;
        }
        lastSingleReduce := lastSingleReduce[i := d.(status := Success)];
        lastTotalReduce := lastTotalReduce - d.toReduce;
        ghost var rest := RemoveFrom(Stored(), i + 1, accepts);
        assert removed + ([i] + rest.removed) == removed + [i] + rest.removed;
        removed := removed + [i];
      }
      assert removed + [] == removed;
    }
  }
}
