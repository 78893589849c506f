/** Who may spend what: admission of provider attempts, the shares granted to
    delegated children, and the two ledgers that keep both within the run's limits. */
module Ledger {
  import opened Prelude
  import opened RunModel
  import opened CommitLaws

  // ---------- The two budgets seen alike ----------

  datatype Resource = Calls | Tokens

  /** What is left to hand out; a run without a token limit has no tokens to hand out. */
  function Remaining(s: RunState, r: Resource): nat {
    match r
    case Calls => RemainingCalls(s)
    case Tokens => if s.plan.tokenLimit.None? then 0 else RemainingTokens(s, s.plan.tokenLimit.value)
  }

  function Reserved(s: RunState, r: Resource): nat {
    match r
    case Calls => s.reservedChildCalls
    case Tokens => s.reservedTokens
  }

  function Granted(budget: DelegationBudget, r: Resource): nat {
    match r
    case Calls => budget.modelCallLimit
    case Tokens => if budget.tokenLimit.None? then 0 else budget.tokenLimit.value
  }

  function GrantedIfAny(budget: Option<DelegationBudget>, r: Resource): nat {
    if budget.None? then 0 else Granted(budget.value, r)
  }

  function Delegations(s: RunState): nat {
    DelegationCount(s.plan, s.pending)
  }

  lemma BudgetIsAShare(s: RunState, call: ModelToolCall, r: Resource)
    ensures GrantedIfAny(DelegationBudgetFor(s, call), r) ==
            if s.plan.IsDelegation(call.name) then Share(Remaining(s, r), Divisor(s)) else 0
  {
    if r.Tokens? && s.plan.tokenLimit.None? {
      assert Share(0, Divisor(s)) == 0;
    }
  }

  /** Reserving no more than what is left never saturates: the ledger grows, and the
      remainder shrinks, by exactly the grant. */
  lemma ReservationIsExact(s: RunState, budget: Option<DelegationBudget>, r: Resource)
    requires GrantedIfAny(budget, r) <= Remaining(s, r)
    ensures var next := ReserveChild(s, budget);
      && Reserved(next, r) == Reserved(s, r) + GrantedIfAny(budget, r)
      && Remaining(next, r) == Remaining(s, r) - GrantedIfAny(budget, r)
  {
  }

  // ---------- Fair division of one round ----------

  /** `left` lies between `k + 1` parts of size `q` and `k + 1` parts of size `q + 1`. */
  predicate Balanced(q: nat, left: nat, k: nat) {
    Product(q, k + 1) <= left <= Product(q + 1, k + 1)
  }

  lemma ProductNext(a: nat, b: nat)
    ensures Product(a, b + 1) == Product(a, b) + a
    ensures Product(a + 1, b) == Product(a, b) + b
  {
    ProductSplit(a, 1, b);
    ProductOfOne(b);
  }

  lemma SharesAreAtLeast(q: nat, left: nat, parts: nat)
    requires parts > 0 && Product(q, parts) <= left
    ensures q <= Share(left, parts)
  {
    var share := Share(left, parts);
    if share < q {
      ProductMonotone(share + 1, q, parts);
      ProductNext(share, parts);
    }
  }

  lemma SharesAreAtMost(q: nat, left: nat, parts: nat)
    requires parts > 0 && left <= Product(q, parts)
    ensures Share(left, parts) <= q
  {
    var share := Share(left, parts);
    if q < share {
      ProductMonotone(q + 1, share, parts);
      ProductNext(q, parts);
    }
  }

  /** One serial grant: it is `q` or `q + 1`, and the rest is balanced for `k - 1` children. */
  lemma SerialGrant(q: nat, left: nat, k: nat)
    requires k > 0 && Balanced(q, left, k)
    ensures var share := Share(left, k + 1);
      && q <= share <= q + 1 && share <= left
      && Balanced(q, left - share, k - 1)
      && (left > Product(q, k + 1) ==> left - share > Product(q, k))
  {
    SharesAreAtLeast(q, left, k + 1);
    SharesAreAtMost(q + 1, left, k + 1);
    var share := Share(left, k + 1);
    ProductNext(q, k);
    ProductNext(q + 1, k);
    ProductNext(q, k + 1);
  }

  /** A batch of `k` equal grants leaves a parent share, rounded up if anything is uneven. */
  lemma BatchGrant(q: nat, left: nat, k: nat)
    requires Balanced(q, left, k)
    ensures var share := Share(left, k + 1);
      && q <= share <= q + 1
      && Product(share, k) <= left
      && left - Product(share, k) >= q
      && (left > Product(q, k + 1) ==> left - Product(share, k) >= q + 1)
  {
    ProductSplit(q, 1, k + 1);
    ProductOfOne(k + 1);
    if k == 0 {
      assert Product(q, 1) == q && Product(q + 1, 1) == q + 1;
      assert Product(Share(left, 1), 1) == Share(left, 1);
    } else {
      SerialGrant(q, left, k);
      ProductSplit(q, 1, k);
      ProductOfOne(k);
    }
  }

  /** The part sizes a round starts from are balanced. */
  lemma SharesStartBalanced(left: nat, k: nat)
    ensures Balanced(Share(left, k + 1), left, k)
  {
    ProductSplit(Share(left, k + 1), 1, k + 1);
    ProductOfOne(k + 1);
  }

  /** The budgets handed to the delegated children along the way, in order. */
  function Grants(serde: Serde, s: RunState, results: seq<ToolEffectResult>): seq<DelegationBudget>
    requires IsActive(s.status) && |results| == |s.pending|
    decreases |results|
  {
    if s.pending == [] then []
    else if Batchable(s) then Present(BatchReservations(s))
    else
      Present([DelegationBudgetFor(s, s.pending[0])]) +
      Grants(serde, Commit(serde, s, NextEffect(s).value.id, Outcome.Tool(results[0])).value, results[1..])
  }

  function Present(budgets: seq<Option<DelegationBudget>>): seq<DelegationBudget> {
    if budgets == [] then []
    else (if budgets[0].Some? then [budgets[0].value] else []) + Present(budgets[1..])
  }

  function Total(budgets: seq<DelegationBudget>, r: Resource): nat {
    if budgets == [] then 0 else Granted(budgets[0], r) + Total(budgets[1..], r)
  }

  lemma {:induction false} TotalOfConcat(a: seq<DelegationBudget>, b: seq<DelegationBudget>, r: Resource)
    ensures Total(a + b, r) == Total(a, r) + Total(b, r)
  {
    if a == [] {
      assert a + b == b;
    } else {
      assert (a + b)[1..] == a[1..] + b;
      TotalOfConcat(a[1..], b, r);
    }
  }

  lemma PresentCons(budgets: seq<Option<DelegationBudget>>, r: Resource)
    requires budgets != []
    ensures Total(Present(budgets), r) == GrantedIfAny(budgets[0], r) + Total(Present(budgets[1..]), r)
  {
    if budgets[0].Some? {
      TotalOfConcat([budgets[0].value], Present(budgets[1..]), r);
      assert [budgets[0].value][1..] == [];
    } else {
      assert Present(budgets) == Present(budgets[1..]);
    }
  }

  function BudgetsFor(s: RunState, calls: seq<ModelToolCall>): seq<Option<DelegationBudget>> {
    seq(|calls|, i requires 0 <= i < |calls| => DelegationBudgetFor(s, calls[i]))
  }

  /** All the budgets of one batch are the same share. */
  lemma {:induction false} BatchTotal(s: RunState, calls: seq<ModelToolCall>, r: Resource)
    ensures var share := Share(Remaining(s, r), Divisor(s));
      && Total(Present(BudgetsFor(s, calls)), r) == Product(share, DelegationCount(s.plan, calls))
      && (forall g :: g in Present(BudgetsFor(s, calls)) ==> Granted(g, r) == share)
      && |Present(BudgetsFor(s, calls))| == DelegationCount(s.plan, calls)
  {
    if calls != [] {
      var share := Share(Remaining(s, r), Divisor(s));
      assert BudgetsFor(s, calls)[1..] == BudgetsFor(s, calls[1..]);
      BudgetIsAShare(s, calls[0], r);
      BatchTotal(s, calls[1..], r);
      PresentCons(BudgetsFor(s, calls), r);
    }
  }

  /** Resolving calls charges exactly the listed budgets, as long as they fit. */
  lemma {:induction false} ResolveAllReserves(
    serde: Serde, s: RunState, results: seq<ToolEffectResult>, budgets: seq<Option<DelegationBudget>>, r: Resource)
    requires |results| == |budgets| <= |s.pending|
    requires Total(Present(budgets), r) <= Remaining(s, r)
    ensures var next := ResolveAll(serde, s, results, budgets);
      && Reserved(next, r) == Reserved(s, r) + Total(Present(budgets), r)
      && Remaining(next, r) == Remaining(s, r) - Total(Present(budgets), r)
    decreases |results|
  {
    if results != [] {
      PresentCons(budgets, r);
      ReservationIsExact(s, budgets[0], r);
      var next := ResolveFirst(serde, s, results[0], budgets[0]);
      assert Reserved(next, r) == Reserved(ReserveChild(s, budgets[0]), r);
      assert Remaining(next, r) == Remaining(ReserveChild(s, budgets[0]), r);
      ResolveAllReserves(serde, next, results[1..], budgets[1..], r);
    }
  }

  /** A whole round conserves the resource, gives every child `q` or `q + 1`, and leaves
      the parent its own share, rounded up when the division is uneven. */
  ghost predicate RoundIsFair(s: RunState, end: RunState, grants: seq<DelegationBudget>, q: nat, r: Resource) {
    && Reserved(end, r) == Reserved(s, r) + Total(grants, r)
    && Remaining(end, r) == Remaining(s, r) - Total(grants, r)
    && Total(grants, r) >= Product(q, Delegations(s))
    && |grants| == Delegations(s)
    && (forall g :: g in grants ==> q <= Granted(g, r) <= q + 1)
    && Remaining(end, r) >= q
    && (Remaining(s, r) > Product(q, Delegations(s) + 1) ==> Remaining(end, r) >= q + 1)
  }

  lemma BatchRound(serde: Serde, s: RunState, results: seq<ToolEffectResult>)
    requires IsActive(s.status) && |results| == |s.pending| && Batchable(s)
    ensures FinishRound(serde, s, results) == ResolveAll(serde, s, results, BatchReservations(s))
    ensures Grants(serde, s, results) == Present(BatchReservations(s))
  {
  }

  lemma BatchRoundIsFair(serde: Serde, s: RunState, results: seq<ToolEffectResult>, q: nat, r: Resource)
    requires IsActive(s.status) && |results| == |s.pending| && Delegations(s) < U32_MAX
    requires Batchable(s) && Balanced(q, Remaining(s, r), Delegations(s))
    ensures RoundIsFair(s, FinishRound(serde, s, results), Grants(serde, s, results), q, r)
  {
    var k := Delegations(s);
    assert BatchReservations(s) == BudgetsFor(s, s.pending);
    BatchTotal(s, s.pending, r);
    BatchGrant(q, Remaining(s, r), k);
    ResolveAllReserves(serde, s, results, BatchReservations(s), r);
    ProductMonotone(q, Share(Remaining(s, r), k + 1), k);
    BatchRound(serde, s, results);
  }

  /** What one serial tool commit does to the queue and to either ledger. */
  lemma SerialStep(serde: Serde, s: RunState, result: ToolEffectResult, r: Resource)
    requires IsActive(s.status) && s.pending != [] && !Batchable(s)
    ensures var budget := DelegationBudgetFor(s, s.pending[0]);
      var next := ResolveFirst(serde, s, result, budget);
      && Commit(serde, s, NextEffect(s).value.id, Outcome.Tool(result)) == Ok(next)
      && next.status == s.status && next.pending == s.pending[1..] && next.plan == s.plan
      && Delegations(s) == Delegations(next) + (if budget.Some? then 1 else 0)
      && GrantedIfAny(budget, r) <= Remaining(s, r)
      && GrantedIfAny(budget, r) == (if budget.Some? then Share(Remaining(s, r), Divisor(s)) else 0)
      && Reserved(next, r) == Reserved(s, r) + GrantedIfAny(budget, r)
      && Remaining(next, r) == Remaining(s, r) - GrantedIfAny(budget, r)
  {
    var budget := DelegationBudgetFor(s, s.pending[0]);
    var next := ResolveFirst(serde, s, result, budget);
    BudgetIsAShare(s, s.pending[0], r);
    ReservationIsExact(s, budget, r);
    assert Reserved(next, r) == Reserved(ReserveChild(s, budget), r);
    assert Remaining(next, r) == Remaining(ReserveChild(s, budget), r);
  }

  lemma {:induction false} RoundIsFairFrom(
    serde: Serde, s: RunState, results: seq<ToolEffectResult>, q: nat, r: Resource)
    requires IsActive(s.status) && |results| == |s.pending| && Delegations(s) < U32_MAX
    requires Balanced(q, Remaining(s, r), Delegations(s))
    ensures RoundIsFair(s, FinishRound(serde, s, results), Grants(serde, s, results), q, r)
    decreases |results|
  {
    if s.pending == [] {
      assert Product(q, 0) == 0 && Product(q, 1) == q;
    } else if Batchable(s) {
      BatchRoundIsFair(serde, s, results, q, r);
    } else {
      SerialStep(serde, s, results[0], r);
      SerialStepIsBalanced(serde, s, results[0], q, r);
      var next := ResolveFirst(serde, s, results[0], DelegationBudgetFor(s, s.pending[0]));
      RoundIsFairFrom(serde, next, results[1..], q, r);
      SerialRoundIsFair(serde, s, results, q, r);
    }
  }

  lemma SerialStepIsBalanced(serde: Serde, s: RunState, result: ToolEffectResult, q: nat, r: Resource)
    requires IsActive(s.status) && s.pending != [] && !Batchable(s) && Delegations(s) < U32_MAX
    requires Balanced(q, Remaining(s, r), Delegations(s))
    ensures var budget := DelegationBudgetFor(s, s.pending[0]);
      var next := ResolveFirst(serde, s, result, budget);
      && Balanced(q, Remaining(next, r), Delegations(next))
      && (budget.Some? ==> q <= Granted(budget.value, r) <= q + 1)
      && (Remaining(s, r) > Product(q, Delegations(s) + 1) ==> Remaining(next, r) > Product(q, Delegations(next) + 1))
  {
    SerialStep(serde, s, result, r);
    if DelegationBudgetFor(s, s.pending[0]).Some? {
      SerialGrant(q, Remaining(s, r), Delegations(s));
    }
  }

  /** A round that starts with a serial commit is fair if the rest of it is. */
  lemma SerialRoundIsFair(serde: Serde, s: RunState, results: seq<ToolEffectResult>, q: nat, r: Resource)
    requires IsActive(s.status) && |results| == |s.pending| && s.pending != [] && !Batchable(s)
    requires Delegations(s) < U32_MAX
    requires Balanced(q, Remaining(s, r), Delegations(s))
    requires var next := ResolveFirst(serde, s, results[0], DelegationBudgetFor(s, s.pending[0]));
      RoundIsFair(next, FinishRound(serde, next, results[1..]), Grants(serde, next, results[1..]), q, r)
    ensures RoundIsFair(s, FinishRound(serde, s, results), Grants(serde, s, results), q, r)
  {
    var budget := DelegationBudgetFor(s, s.pending[0]);
    var next := ResolveFirst(serde, s, results[0], budget);
    SerialStep(serde, s, results[0], r);
    SerialStepIsBalanced(serde, s, results[0], q, r);
    PrependGrant(s, next, FinishRound(serde, next, results[1..]), budget, Grants(serde, next, results[1..]), q, r);
  }

  lemma PrependGrant(
    s: RunState, next: RunState, end: RunState, budget: Option<DelegationBudget>, grants: seq<DelegationBudget>,
    q: nat, r: Resource)
    requires RoundIsFair(next, end, grants, q, r)
    requires Delegations(s) == Delegations(next) + (if budget.Some? then 1 else 0)
    requires GrantedIfAny(budget, r) <= Remaining(s, r)
    requires Reserved(next, r) == Reserved(s, r) + GrantedIfAny(budget, r)
    requires Remaining(next, r) == Remaining(s, r) - GrantedIfAny(budget, r)
    requires budget.Some? ==> q <= Granted(budget.value, r) <= q + 1
    requires Remaining(s, r) > Product(q, Delegations(s) + 1) ==> Remaining(next, r) > Product(q, Delegations(next) + 1)
    ensures RoundIsFair(s, end, Present([budget]) + grants, q, r)
  {
    if budget.Some? {
      assert Present([budget]) == [budget.value];
      assert [budget.value][1..] == [];
      TotalOfConcat(Present([budget]), grants, r);
    } else {
      assert Present([budget]) + grants == grants;
    }
  }

  /** With `R` units left and `k` delegations pending, every child of the round gets at
      least `R / (k + 1)`, no two children differ by more than one, and the parent keeps
      at least its share rounded up, so one unit left always leaves it a unit. */
  lemma DelegationRoundIsFair(serde: Serde, s: RunState, results: seq<ToolEffectResult>, r: Resource)
    requires IsActive(s.status) && |results| == |s.pending| && Delegations(s) < U32_MAX
    ensures var end, grants := FinishRound(serde, s, results), Grants(serde, s, results);
      var q := Share(Remaining(s, r), Delegations(s) + 1);
      && RoundIsFair(s, end, grants, q, r)
      && (Remaining(s, r) > 0 ==> Remaining(end, r) > 0)
      && (forall a, b :: a in grants && b in grants ==> Granted(a, r) <= Granted(b, r) + 1)
  {
    var q := Share(Remaining(s, r), Delegations(s) + 1);
    SharesStartBalanced(Remaining(s, r), Delegations(s));
    RoundIsFairFrom(serde, s, results, q, r);
    FairRoundsAreEven(s, FinishRound(serde, s, results), Grants(serde, s, results), q, r);
  }

  lemma FairRoundsAreEven(s: RunState, end: RunState, grants: seq<DelegationBudget>, q: nat, r: Resource)
    requires RoundIsFair(s, end, grants, q, r)
    ensures Remaining(s, r) > 0 ==> Remaining(end, r) > 0
    ensures forall a, b :: a in grants && b in grants ==> Granted(a, r) <= Granted(b, r) + 1
  {
    ProductOfOne(Delegations(s) + 1);
  }

  // ---------- Batch against serial ----------

  function SerialTools(tools: seq<ToolPolicy>): seq<ToolPolicy> {
    seq(|tools|, i requires 0 <= i < |tools| => tools[i].(parallelSafe := false))
  }

  /** The same run under a plan that allows no parallel execution. */
  function Serialised(s: RunState): RunState {
    s.(plan := s.plan.(tools := SerialTools(s.plan.tools)))
  }

  lemma {:induction false} SerialisedPolicy(tools: seq<ToolPolicy>, name: string)
    ensures var p, q := FindPolicy(tools, name), FindPolicy(SerialTools(tools), name);
      q == if p.Some? then Some(p.value.(parallelSafe := false)) else None
  {
    if tools != [] {
      assert SerialTools(tools)[1..] == SerialTools(tools[1..]);
      SerialisedPolicy(tools[1..], name);
    }
  }

  lemma {:induction false} SerialisedCount(plan: Plan, calls: seq<ModelToolCall>)
    ensures DelegationCount(plan.(tools := SerialTools(plan.tools)), calls) == DelegationCount(plan, calls)
  {
    if calls != [] {
      SerialisedPolicy(plan.tools, calls[0].name);
      SerialisedCount(plan, calls[1..]);
    }
  }

  /** Equal up to the plan and the two child ledgers. */
  predicate SameProgress(a: RunState, b: RunState) {
    a == b.(plan := a.plan, reservedChildCalls := a.reservedChildCalls, reservedTokens := a.reservedTokens)
  }

  lemma {:induction false} SerialProgress(
    serde: Serde, a: RunState, b: RunState, results: seq<ToolEffectResult>, budgets: seq<Option<DelegationBudget>>)
    requires SameProgress(a, b) && IsActive(b.status)
    requires |results| == |budgets| == |a.pending|
    requires forall name :: !b.plan.IsParallelSafe(name)
    ensures SameProgress(ResolveAll(serde, a, results, budgets), FinishRound(serde, b, results))
    decreases |results|
  {
    if results != [] {
      SerialProgress(
        serde,
        ResolveFirst(serde, a, results[0], budgets[0]),
        ResolveFirst(serde, b, results[0], DelegationBudgetFor(b, b.pending[0])),
        results[1..], budgets[1..]);
    }
  }

  /** Committing `n` results as one batch gives the same history, queue, usage, status and
      every other field as `n` one-at-a-time commits, and, unless the divisor clamps,
      reserves no more. */
  lemma BatchRefinesSerial(serde: Serde, s: RunState, results: seq<ToolEffectResult>)
    requires IsActive(s.status) && Batchable(s) && |results| == |s.pending|
    ensures var batched := Commit(serde, s, NextEffect(s).value.id, Outcome.Batch(results));
      var serial := FinishRound(serde, Serialised(s), results);
      && batched.Ok?
      && SameProgress(batched.value, serial)
      && serial.pending == []
      && (Delegations(s) < U32_MAX ==>
            && batched.value.reservedChildCalls <= serial.reservedChildCalls
            && batched.value.reservedTokens <= serial.reservedTokens)
  {
    var t := Serialised(s);
    forall name ensures !t.plan.IsParallelSafe(name) {
      SerialisedPolicy(s.plan.tools, name);
    }
    SerialProgress(serde, s, t, results, BatchReservations(s));
    ResolveAllFrame(serde, s, results, BatchReservations(s));
    if Delegations(s) < U32_MAX {
      BatchReservesNoMore(serde, s, results, Calls);
      BatchReservesNoMore(serde, s, results, Tokens);
    }
  }

  lemma BatchReservesNoMore(serde: Serde, s: RunState, results: seq<ToolEffectResult>, r: Resource)
    requires IsActive(s.status) && Batchable(s) && |results| == |s.pending| && Delegations(s) < U32_MAX
    ensures Reserved(ResolveAll(serde, s, results, BatchReservations(s)), r) <=
            Reserved(FinishRound(serde, Serialised(s), results), r)
  {
    var t, k, left := Serialised(s), Delegations(s), Remaining(s, r);
    assert BatchReservations(s) == BudgetsFor(s, s.pending);
    SerialisedCount(s.plan, s.pending);
    BatchTotal(s, s.pending, r);
    SharesStartBalanced(left, k);
    BatchGrant(Share(left, k + 1), left, k);
    ResolveAllReserves(serde, s, results, BatchReservations(s), r);
    assert Remaining(t, r) == left && Reserved(t, r) == Reserved(s, r);
    RoundIsFairFrom(serde, t, results, Share(left, k + 1), r);
  }

  // ---------- Where the divisor clamps ----------

  /** The divisor for a batch of `k` delegations. */
  function ClampedDivisor(k: nat): (d: nat)
    ensures d > 0
  {
    Min(k + 1, U32_MAX)
  }

  lemma SmallTotalsShareNothing(total: nat, parts: nat)
    requires total < parts
    ensures Share(total, parts) == 0
  {
    ProductOfOne(parts);
    if Share(total, parts) > 0 {
      ProductMonotone(1, Share(total, parts), parts);
    }
  }

  lemma {:induction false} ProductGrows(a: nat, b: nat, c: nat)
    requires b <= c
    ensures Product(a, b) <= Product(a, c)
    decreases c
  {
    if b < c {
      ProductGrows(a, b, c - 1);
    }
  }

  /** `k` equal shares fit if the divisor does not clamp below `k`, or if what is left is too
      little to share at all. */
  lemma ClampedSharesFit(left: nat, k: nat)
    requires k <= U32_MAX || left < U32_MAX
    ensures Product(Share(left, ClampedDivisor(k)), k) <= left
  {
    var d := ClampedDivisor(k);
    if k <= U32_MAX {
      ProductGrows(Share(left, d), k, d);
    } else {
      SmallTotalsShareNothing(left, U32_MAX);
      ProductOfOne(k);
    }
  }

  /** The clamp is harmless for up to `U32_MAX` delegations in one batch and for no more:
      beyond, some remainder is overdrawn; and from `U32_MAX` on, some positive remainder
      leaves the parent nothing. */
  lemma ClampIsHarmlessIff(k: nat)
    ensures (forall left: nat :: Product(Share(left, ClampedDivisor(k)), k) <= left) <==> k <= U32_MAX
    ensures (forall left: nat :: left > 0 ==> Product(Share(left, ClampedDivisor(k)), k) < left) <==> k < U32_MAX
  {
    if k <= U32_MAX {
      forall left: nat ensures Product(Share(left, ClampedDivisor(k)), k) <= left {
        ClampedSharesFit(left, k);
      }
    }
    if k < U32_MAX {
      forall left: nat | left > 0 ensures Product(Share(left, ClampedDivisor(k)), k) < left {
        SharesStartBalanced(left, k);
        BatchGrant(Share(left, k + 1), left, k);
        ProductOfOne(k);
      }
    } else {
      ProductOfOne(k);
      ProductOfOne(U32_MAX);
      var share := Share(U32_MAX, ClampedDivisor(k));
      OneWholeShare(U32_MAX);
      assert share == 1 && Product(share, k) == k;
    }
  }

  lemma OneWholeShare(n: nat)
    requires n > 0
    ensures Share(n, n) == 1
  {
    assert n / n == 1;
  }
}
