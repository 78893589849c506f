/** The limits of one run: how many attempts the executor admits, that committing them
    keeps both ledgers within the run's limits, and that every run ends. */
module Limits {
  import opened Prelude
  import opened Json
  import opened RunModel
  import opened CommitLaws
  import opened Ledger
  import Decimal

  // ---------- Admission ----------

  /** One attempt must fit what is left of a hard token limit. */
  predicate Admitted(s: RunState, reservation: U64) {
    s.plan.tokenLimit.Some? ==> reservation <= RemainingTokens(s, s.plan.tokenLimit.value)
  }

  function TokenAttempts(s: RunState, reservation: U64): nat {
    if s.plan.tokenLimit.None? then U32_MAX
    else Min(Share(RemainingTokens(s, s.plan.tokenLimit.value), Max(reservation, 1)), U32_MAX)
  }

  function AllowedAttempts(s: RunState, reservation: U64): nat {
    Min(Min(s.plan.providerMaxAttempts, RemainingCalls(s)), TokenAttempts(s, reservation))
  }

  /** What the executor reports for one provider effect: at least one attempt, no more
      than admitted, each carrying the same reservation. */
  predicate ExecutedAttempts(s: RunState, reservation: U64, attempts: seq<ProviderAttempt>) {
    && Admitted(s, reservation)
    && 1 <= |attempts| <= Max(1, AllowedAttempts(s, reservation))
    && forall i :: 0 <= i < |attempts| ==> attempts[i].reservedTokens == reservation
  }

  predicate ProviderReady(s: RunState) {
    IsActive(s.status) && s.pending == [] && !NoProviderBudget(s)
  }

  /** `n` admitted attempts fit both what is left of the call limit and of the token limit. */
  lemma AdmittedAttemptsFit(s: RunState, reservation: U64, n: nat)
    requires ProviderReady(s) && Admitted(s, reservation)
    requires 1 <= n <= Max(1, AllowedAttempts(s, reservation))
    ensures n <= RemainingCalls(s) && n <= U8_MAX
    ensures s.plan.tokenLimit.Some? ==>
      Product(reservation, n) <= RemainingTokens(s, s.plan.tokenLimit.value)
  {
    if s.plan.tokenLimit.Some? {
      var left := RemainingTokens(s, s.plan.tokenLimit.value);
      if n == 1 {
        assert Product(reservation, 1) == Product(reservation, 0) + reservation;
      } else if reservation == 0 {
        ProductOfOne(n);
      } else {
        ProductMonotone(n, Share(left, reservation), reservation);
        ProductIsTimes(n, reservation);
        ProductIsTimes(reservation, n);
      }
    }
  }

  lemma {:induction false} FoldOfEqualReservations(attempts: seq<ProviderAttempt>, reservation: U64, total: U64)
    requires forall i :: 0 <= i < |attempts| ==> attempts[i].reservedTokens == reservation
    ensures reservation > 0 || attempts == [] ==>
      FoldReservations(attempts, total) == Some(SatAdd64(total, Product(reservation, |attempts|)))
    ensures reservation == 0 && attempts != [] ==> FoldReservations(attempts, total).None?
  {
    if attempts != [] && reservation > 0 {
      FoldOfEqualReservations(attempts[1..], reservation, SatAdd64(total, reservation));
    }
  }

  // ---------- Provider commits ----------

  /** The exact number of provider calls a run has started or promised away. */
  function CallLedger(s: RunState): nat {
    Max(s.callsStarted, s.modelCalls) + s.reservedChildCalls
  }

  predicate WithinLimit(s: RunState, r: Resource) {
    match r
    case Calls => CallLedger(s) <= s.limit
    case Tokens => s.plan.tokenLimit.Some? ==> s.reservedTokens <= s.plan.tokenLimit.value
  }

  function AttemptsOf(outcome: RunModel.Outcome): seq<ProviderAttempt> {
    match outcome
    case Provider(_, attempts) => attempts
    case ProviderFailed(_, attempts) => attempts
    case _ => []
  }

  predicate IsProviderResult(outcome: RunModel.Outcome) {
    outcome.Provider? || outcome.ProviderFailed?
  }

  /** A provider commit charges the call ledger with exactly the attempts made. */
  lemma ProviderCommitChargesCalls(
    serde: Serde, s: RunState, id: string, outcome: RunModel.Outcome, reservation: U64)
    requires Expects(s, id, outcome) && IsProviderResult(outcome)
    requires ExecutedAttempts(s, reservation, AttemptsOf(outcome))
    requires WithinLimit(s, Calls)
    ensures var next := Commit(serde, s, id, outcome).value;
      CallLedger(next) == CallLedger(s) + |AttemptsOf(outcome)| && WithinLimit(next, Calls)
  {
    AdmittedAttemptsFit(s, reservation, |AttemptsOf(outcome)|);
  }

  /** The amount a provider commit adds to the token ledger. */
  function TokenCharge(serde: Serde, s: RunState, reservation: U64, n: nat): nat {
    Product(if reservation > 0 then reservation else NextModelTokenReservation(serde, s), n)
  }

  lemma ProviderCommitChargesTokens(
    serde: Serde, s: RunState, id: string, outcome: RunModel.Outcome, reservation: U64)
    requires Expects(s, id, outcome) && IsProviderResult(outcome)
    requires ExecutedAttempts(s, reservation, AttemptsOf(outcome))
    ensures var next := Commit(serde, s, id, outcome).value;
      next.reservedTokens == SatAdd64(s.reservedTokens, TokenCharge(serde, s, reservation, |AttemptsOf(outcome)|))
  {
    var attempts := AttemptsOf(outcome);
    AdmittedAttemptsFit(s, reservation, |attempts|);
    FoldOfEqualReservations(attempts, reservation, 0);
    assert NextModelTokenReservation(serde, s.(status := RunStatus.Running)) == NextModelTokenReservation(serde, s);
    assert ProviderCallCount(attempts) == |attempts|;
  }

  /** A hard token limit survives a provider commit exactly when the attempts carried a
      positive provider-derived reservation, or the byte-length fallback happens to fit
      (or the limit is the largest representable one). */
  lemma TokenLimitSurvivesIff(
    serde: Serde, s: RunState, id: string, outcome: RunModel.Outcome, reservation: U64)
    requires Expects(s, id, outcome) && IsProviderResult(outcome)
    requires ExecutedAttempts(s, reservation, AttemptsOf(outcome))
    requires s.plan.tokenLimit.Some? && WithinLimit(s, Tokens)
    ensures var limit := s.plan.tokenLimit.value;
      WithinLimit(Commit(serde, s, id, outcome).value, Tokens) <==>
        || reservation > 0
        || limit == U64_MAX
        || Product(NextModelTokenReservation(serde, s), |AttemptsOf(outcome)|) <= RemainingTokens(s, limit)
  {
    AdmittedAttemptsFit(s, reservation, |AttemptsOf(outcome)|);
    ProviderCommitChargesTokens(serde, s, id, outcome, reservation);
  }

  /** Without a positive reservation the limit can be overrun: a provider that counts no
      prompt tokens and a plan that reserves no output, against a hundred-byte request. */
  lemma ZeroReservationOverrunsTokenLimit() returns (serde: Serde, s: RunState, outcome: RunModel.Outcome)
    ensures s == WithPlan("run", [], 1, Plan([], 0, 1, 1, None, 0, 4, Some(10)))
    ensures Expects(s, ProviderEffectId("run", 0), outcome) && IsProviderResult(outcome)
    ensures ExecutedAttempts(s, 0, AttemptsOf(outcome))
    ensures WithinLimit(s, Tokens)
    ensures !WithinLimit(Commit(serde, s, ProviderEffectId("run", 0), outcome).value, Tokens)
  {
    serde := Serde(v => "", t => true, r => 100);
    s := WithPlan("run", [], 1, Plan([], 0, 1, 1, None, 0, 4, Some(10)));
    outcome := RunModel.Outcome.Provider(ModelResponse(Some("done"), [], None, Stop), [ProviderAttempt(1, None, 0)]);
    ProviderCommitChargesTokens(serde, s, ProviderEffectId("run", 0), outcome, 0);
    assert Product(100, 1) == Product(100, 0) + 100;
  }

  // ---------- Tool commits ----------

  /** Every child budget of the next tool effect, in call order. */
  function EffectBudgets(s: RunState): seq<Option<DelegationBudget>> {
    if s.pending == [] then []
    else if Batchable(s) then BatchReservations(s)
    else [DelegationBudgetFor(s, s.pending[0])]
  }

  /** The equal shares of a batch fit what is left; one share alone always does. */
  predicate GrantsFit(s: RunState, r: Resource) {
    Batchable(s) ==>
      var k := Delegations(s);
      Product(Share(Remaining(s, r), ClampedDivisor(k)), k) <= Remaining(s, r)
  }

  lemma EffectBudgetsFitIff(s: RunState, r: Resource)
    ensures Total(Present(EffectBudgets(s)), r) <= Remaining(s, r) <==> GrantsFit(s, r)
  {
    if s.pending == [] {
    } else if Batchable(s) {
      assert BatchReservations(s) == BudgetsFor(s, s.pending);
      BatchTotal(s, s.pending, r);
    } else {
      var budget := DelegationBudgetFor(s, s.pending[0]);
      BudgetIsAShare(s, s.pending[0], r);
      PresentCons([budget], r);
      assert [budget][1..] == [];
    }
  }

  /** They do unless the divisor clamps and there is enough left to share. */
  lemma UnclampedGrantsFit(s: RunState, r: Resource)
    requires Delegations(s) <= U32_MAX || Remaining(s, r) < U32_MAX
    ensures GrantsFit(s, r)
  {
    ClampedSharesFit(Remaining(s, r), Delegations(s));
  }

  predicate IsToolResult(outcome: RunModel.Outcome) {
    outcome.Tool? || outcome.Batch?
  }

  /** A tool commit charges either ledger with exactly the budgets its effect offered. */
  lemma ToolCommitCharges(serde: Serde, s: RunState, id: string, outcome: RunModel.Outcome, r: Resource)
    requires Expects(s, id, outcome) && IsToolResult(outcome) && GrantsFit(s, r)
    ensures var next := Commit(serde, s, id, outcome).value;
      && Reserved(next, r) == Reserved(s, r) + Total(Present(EffectBudgets(s)), r)
      && Remaining(next, r) == Remaining(s, r) - Total(Present(EffectBudgets(s)), r)
      && next.modelCalls == s.modelCalls && next.callsStarted == s.callsStarted
  {
    EffectBudgetsFitIff(s, r);
    match outcome {
      case Batch(outputs) =>
        ResolveAllReserves(serde, s, outputs, BatchReservations(s), r);
        ResolveAllFrame(serde, s, outputs, BatchReservations(s));
      case Tool(result) =>
        var budget := DelegationBudgetFor(s, s.pending[0]);
        SerialStep(serde, s, result, r);
        PresentCons([budget], r);
        assert [budget][1..] == [];
    }
  }

  lemma {:induction false} ResolveAllSaturates(
    serde: Serde, s: RunState, results: seq<ToolEffectResult>, budgets: seq<Option<DelegationBudget>>)
    requires |results| == |budgets| <= |s.pending|
    ensures ResolveAll(serde, s, results, budgets).reservedTokens ==
            SatAdd64(s.reservedTokens, Total(Present(budgets), Tokens))
    decreases |results|
  {
    if results != [] {
      PresentCons(budgets, Tokens);
      ResolveAllSaturates(serde, ResolveFirst(serde, s, results[0], budgets[0]), results[1..], budgets[1..]);
    }
  }

  /** Without any condition, the token ledger gains what the effect offered, saturating. */
  lemma ToolCommitChargesTokens(serde: Serde, s: RunState, id: string, outcome: RunModel.Outcome)
    requires Expects(s, id, outcome) && IsToolResult(outcome)
    ensures Commit(serde, s, id, outcome).value.reservedTokens ==
            SatAdd64(s.reservedTokens, Total(Present(EffectBudgets(s)), Tokens))
  {
    match outcome {
      case Batch(outputs) =>
        ResolveAllSaturates(serde, s, outputs, BatchReservations(s));
      case Tool(result) =>
        var budget := DelegationBudgetFor(s, s.pending[0]);
        PresentCons([budget], Tokens);
        assert [budget][1..] == [];
    }
  }

  lemma ToolCommitKeepsLimit(serde: Serde, s: RunState, id: string, outcome: RunModel.Outcome, r: Resource)
    requires Expects(s, id, outcome) && IsToolResult(outcome) && GrantsFit(s, r)
    requires WithinLimit(s, r)
    ensures WithinLimit(Commit(serde, s, id, outcome).value, r)
  {
    ToolCommitCharges(serde, s, id, outcome, r);
    EffectBudgetsFitIff(s, r);
    ApplyFrame(serde, s, Complete(id, outcome));
  }

  // ---------- Where the divisor clamps ----------

  lemma {:induction false} AllDelegate(plan: Plan, calls: seq<ModelToolCall>)
    requires forall i :: 0 <= i < |calls| ==> plan.IsDelegation(calls[i].name)
    ensures DelegationCount(plan, calls) == |calls|
  {
    if calls != [] {
      AllDelegate(plan, calls[1..]);
    }
  }

  function NumberedCalls(n: nat): seq<ModelToolCall> {
    seq(n, i requires 0 <= i < n => ModelToolCall(Decimal.Render(i), "d", Object([]), None))
  }

  lemma NumberedCallsAreDistinct(n: nat)
    ensures DistinctIds(NumberedCalls(n))
  {
    forall i, j | 0 <= i < j < n ensures Decimal.Render(i) != Decimal.Render(j) {
      if Decimal.Render(i) == Decimal.Render(j) {
        Decimal.RenderInjective(i, j);
      }
    }
  }

  /** A hard token limit survives a tool commit exactly when the shares fit what is left (or
      the limit is the largest representable one). */
  lemma TokenLimitSurvivesToolsIff(serde: Serde, s: RunState, id: string, outcome: RunModel.Outcome)
    requires Expects(s, id, outcome) && IsToolResult(outcome)
    requires s.plan.tokenLimit.Some? && WithinLimit(s, Tokens)
    ensures WithinLimit(Commit(serde, s, id, outcome).value, Tokens) <==>
            GrantsFit(s, Tokens) || s.plan.tokenLimit.value == U64_MAX
  {
    ToolCommitChargesTokens(serde, s, id, outcome);
    EffectBudgetsFitIff(s, Tokens);
    ApplyFrame(serde, s, Complete(id, outcome));
  }

  function DelegatingStart(tokenLimit: U64): RunState {
    WithPlan("run", [], 2, Plan([ToolPolicy("d", true, 1, true, true)], 0, 1, 1, None, 0, 4, Some(tokenLimit)))
  }

  /** That run after one response, for one reserved token, that asks for `n` delegations. */
  function AskedToDelegate(serde: Serde, n: nat, tokenLimit: U64): Result<RunState, TransitionError> {
    Commit(
      serde, DelegatingStart(tokenLimit), ProviderEffectId("run", 0),
      RunModel.Outcome.Provider(
        ModelResponse(None, NumberedCalls(n), None, ToolCalls), [ProviderAttempt(1, None, 1)]))
  }

  lemma DelegationsAreBatched(serde: Serde, n: nat, tokenLimit: U64)
    requires n > 1 && tokenLimit > 0
    ensures ExecutedAttempts(DelegatingStart(tokenLimit), 1, [ProviderAttempt(1, None, 1)])
    ensures AskedToDelegate(serde, n, tokenLimit).Ok?
    ensures var s := AskedToDelegate(serde, n, tokenLimit).value;
      && s.runId == "run" && s.pending == NumberedCalls(n)
      && s.plan.tokenLimit == Some(tokenLimit) && s.reservedTokens == 1
      && IsActive(s.status) && Batchable(s) && Delegations(s) == n
  {
    var start := DelegatingStart(tokenLimit);
    assert FindPolicy(start.plan.tools, "d") == Some(start.plan.tools[0]);
    AllDelegate(start.plan, NumberedCalls(n));
    assert [ProviderAttempt(1, None, 1)][1..] == [];
    assert FoldReservations([ProviderAttempt(1, None, 1)], 0) == Some(1);
  }

  /** A batch beyond the clamp: so many delegations with distinct ids, each granted one token,
      that the ledger ends above the hard limit. */
  lemma ClampedBatchOverrunsTokenLimit(serde: Serde, results: seq<ToolEffectResult>) returns (s: RunState, id: string)
    requires |results| == U32_MAX + 1
    ensures AskedToDelegate(serde, U32_MAX + 1, U32_MAX + 1) == Ok(s) && DistinctIds(s.pending)
    ensures Expects(s, id, RunModel.Outcome.Batch(results)) && !GrantsFit(s, Tokens)
    ensures WithinLimit(s, Tokens)
    ensures !WithinLimit(Commit(serde, s, id, RunModel.Outcome.Batch(results)).value, Tokens)
  {
    DelegationsAreBatched(serde, U32_MAX + 1, U32_MAX + 1);
    s := AskedToDelegate(serde, U32_MAX + 1, U32_MAX + 1).value;
    id := BatchEffectId("run", s.pending[0].callId);
    NumberedCallsAreDistinct(U32_MAX + 1);
    OneWholeShare(U32_MAX);
    ProductOfOne(U32_MAX + 1);
    assert !GrantsFit(s, Tokens);
    TokenLimitSurvivesToolsIff(serde, s, id, RunModel.Outcome.Batch(results));
  }

  // ---------- Whole runs ----------

  /** Pending calls are those of a round that has been counted. */
  predicate RoundCounted(s: RunState) {
    s.pending != [] ==> s.modelCalls > 0
  }

  /** So a run with pending calls has started one, and there are never enough calls left for
      a clamped divisor to share any. */
  lemma CallGrantsFit(s: RunState)
    requires RoundCounted(s) && s.pending != []
    ensures RemainingCalls(s) < U32_MAX && GrantsFit(s, Calls)
  {
    UnclampedGrantsFit(s, Calls);
  }

  lemma ApplyKeepsRoundCounted(serde: Serde, s: RunState, t: Transition)
    requires RoundCounted(s)
    ensures RoundCounted(Apply(serde, s, t))
  {
    ApplyFrame(serde, s, t);
    if Accepted(s, t) && t.outcome.Batch? {
      ResolveAllFrame(serde, s, t.outcome.outputs, BatchReservations(s));
    }
  }

  /** A transition a runtime makes with what its executor produced. Token safety also asks
      for a positive reservation and shares that fit. */
  ghost predicate ByExecutor(s: RunState, t: Transition, r: Resource) {
    Accepted(s, t) ==>
      && (IsToolResult(t.outcome) && r.Tokens? ==> GrantsFit(s, Tokens))
      && (IsProviderResult(t.outcome) ==>
            exists reservation: U64 ::
              && ExecutedAttempts(s, reservation, AttemptsOf(t.outcome))
              && (r.Tokens? ==> reservation > 0))
  }

  lemma ExecutorStepKeepsLimit(serde: Serde, s: RunState, t: Transition, r: Resource)
    requires RoundCounted(s) && WithinLimit(s, r) && ByExecutor(s, t, r)
    ensures WithinLimit(Apply(serde, s, t), r)
  {
    if Accepted(s, t) {
      if IsProviderResult(t.outcome) {
        var reservation: U64 :|
          ExecutedAttempts(s, reservation, AttemptsOf(t.outcome)) && (r.Tokens? ==> reservation > 0);
        match r {
          case Calls => ProviderCommitChargesCalls(serde, s, t.id, t.outcome, reservation);
          case Tokens =>
            if s.plan.tokenLimit.Some? {
              TokenLimitSurvivesIff(serde, s, t.id, t.outcome, reservation);
            }
            ApplyFrame(serde, s, t);
        }
      } else if IsToolResult(t.outcome) {
        CallGrantsFit(s);
        ToolCommitKeepsLimit(serde, s, t.id, t.outcome, r);
      }
    }
  }

  /** In every state an executor-driven run reaches, started plus promised calls stay
      within the call limit, and reserved tokens within a hard token limit. */
  lemma {:induction false} LedgersStayWithinLimits(
    serde: Serde, runId: string, history: seq<Message>, limit: U32, plan: Plan, ts: seq<Transition>, r: Resource)
    requires forall i :: 0 <= i < |ts| ==>
      ByExecutor(Run(serde, WithPlan(runId, history, limit, plan), ts[..i]), ts[i], r)
    ensures var s := Run(serde, WithPlan(runId, history, limit, plan), ts);
      WithinLimit(s, r) && RoundCounted(s)
  {
    if ts != [] {
      var n := |ts| - 1;
      var start := WithPlan(runId, history, limit, plan);
      forall i | 0 <= i < n
        ensures ByExecutor(Run(serde, start, ts[..n][..i]), ts[..n][i], r)
      {
        assert ts[..n][..i] == ts[..i];
      }
      LedgersStayWithinLimits(serde, runId, history, limit, plan, ts[..n], r);
      ExecutorStepKeepsLimit(serde, Run(serde, start, ts[..n]), ts[n], r);
      ApplyKeepsRoundCounted(serde, Run(serde, start, ts[..n]), ts[n]);
    }
  }

  // ---------- Termination ----------

  /** Any accepted completion, whatever its attempts, ends the run, uses up a call, or
      leaves the calls alone and shortens the queue. */
  lemma CommitMakesProgress(serde: Serde, s: RunState, id: string, outcome: RunModel.Outcome)
    requires Expects(s, id, outcome)
    ensures var next := Commit(serde, s, id, outcome).value;
      || !IsActive(next.status)
      || RemainingCalls(next) < RemainingCalls(s)
      || (RemainingCalls(next) == RemainingCalls(s) && |next.pending| < |s.pending|)
    ensures NextEffect(s).value.ProviderCall? && IsActive(Commit(serde, s, id, outcome).value.status) ==>
      RemainingCalls(Commit(serde, s, id, outcome).value) < RemainingCalls(s)
    ensures RemainingCalls(Commit(serde, s, id, outcome).value) <= RemainingCalls(s)
  {
    if IsToolResult(outcome) {
      ToolCommitShortensQueue(serde, s, id, outcome);
    } else {
      ProviderCommitUsesCall(serde, s, id, outcome);
    }
  }

  lemma ProviderCommitUsesCall(serde: Serde, s: RunState, id: string, outcome: RunModel.Outcome)
    requires Expects(s, id, outcome) && !IsToolResult(outcome)
    ensures NextEffect(s).value.ProviderCall?
    ensures var next := Commit(serde, s, id, outcome).value;
      && RemainingCalls(next) <= RemainingCalls(s)
      && (IsActive(next.status) ==> RemainingCalls(next) < RemainingCalls(s))
  {
  }

  lemma ToolCommitShortensQueue(serde: Serde, s: RunState, id: string, outcome: RunModel.Outcome)
    requires Expects(s, id, outcome) && IsToolResult(outcome)
    ensures !NextEffect(s).value.ProviderCall?
    ensures var next := Commit(serde, s, id, outcome).value;
      RemainingCalls(next) <= RemainingCalls(s) && |next.pending| < |s.pending|
  {
    if outcome.Batch? {
      ResolveAllFrame(serde, s, outcome.outputs, BatchReservations(s));
      ResolveAllOnlyReserves(serde, s, outcome.outputs, BatchReservations(s));
    }
  }

  lemma {:induction false} ResolveAllOnlyReserves(
    serde: Serde, s: RunState, results: seq<ToolEffectResult>, budgets: seq<Option<DelegationBudget>>)
    requires |results| == |budgets| <= |s.pending|
    ensures s.reservedChildCalls <= ResolveAll(serde, s, results, budgets).reservedChildCalls
    decreases |results|
  {
    if results != [] {
      ResolveAllOnlyReserves(serde, ResolveFirst(serde, s, results[0], budgets[0]), results[1..], budgets[1..]);
    }
  }

  function ProviderCommits(serde: Serde, s: RunState, ts: seq<Transition>): nat {
    if ts == [] then 0
    else
      ProviderCommits(serde, s, ts[..|ts| - 1]) +
      if AcceptsProvider(Run(serde, s, ts[..|ts| - 1]), ts[|ts| - 1]) then 1 else 0
  }

  /** No history of transitions, however it was produced, commits more provider effects
      than the calls the run had left. */
  lemma {:induction false} ProviderCommitsAreBounded(serde: Serde, s: RunState, ts: seq<Transition>)
    ensures ProviderCommits(serde, s, ts) <= RemainingCalls(s) <= s.limit
    ensures IsActive(Run(serde, s, ts).status) ==>
      ProviderCommits(serde, s, ts) + RemainingCalls(Run(serde, s, ts)) <= RemainingCalls(s)
  {
    if ts != [] {
      var before, last := Run(serde, s, ts[..|ts| - 1]), ts[|ts| - 1];
      ProviderCommitsAreBounded(serde, s, ts[..|ts| - 1]);
      if Accepted(before, last) {
        CommitMakesProgress(serde, before, last.id, last.outcome);
      }
    }
  }
}
