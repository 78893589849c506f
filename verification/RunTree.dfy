/** Whole local runs, with registered delegation nesting further runs inside tool effects:
    what a run and all its descendants together may spend. */
module RunTree {
  import opened Prelude
  import opened Json
  import opened Usage
  import opened RunModel
  import opened CommitLaws
  import opened Ledger
  import opened Limits
  import opened History
  import opened AgentRun
  import opened Drivers
  import opened Executor
  import Decimal

  // ---------- Agents and options ----------

  /** A registered tool; one with a child is a registered delegation. */
  datatype Tool = Tool(
    name: string, idempotent: bool, maxAttempts: U8, parallelSafe: bool, child: Option<Agent>)

  datatype Agent = Agent(name: string, routingAttempts: U8, tools: seq<Tool>)

  function RuntimePolicy(tool: Tool): ToolPolicy {
    ToolPolicy(tool.name, tool.idempotent, tool.maxAttempts, tool.parallelSafe, tool.child.Some?)
  }

  function Policies(tools: seq<Tool>): seq<ToolPolicy> {
    seq(|tools|, i requires 0 <= i < |tools| => RuntimePolicy(tools[i]))
  }

  datatype RunOptions = RunOptions(
    history: seq<Message>,
    modelCallLimit: nat,
    outputTokenReserve: U64,
    tokenLimit: Option<U64>,
    providerMaxAttempts: U8,
    maxParallelToolCalls: nat,
    deadlineMs: Option<U64>,
    maxDelegationDepth: U8,
    delegationDepth: U8)

  /** The state `prepare_state` builds for an accepted history. */
  function StartState(agent: Agent, runId: string, history: seq<Message>, options: RunOptions): RunState {
    WithPlan(
      runId, history, Min(options.modelCallLimit, U32_MAX),
      Plan(Policies(agent.tools),
           options.outputTokenReserve,
           Max(Max(options.providerMaxAttempts, agent.routingAttempts), 1),
           Max(options.maxParallelToolCalls, 1),
           options.deadlineMs,
           options.delegationDepth,
           options.maxDelegationDepth,
           options.tokenLimit))
  }

  function FindTool(tools: seq<Tool>, name: string): (tool: Option<Tool>)
    ensures tool.Some? ==> tool.value in tools
  {
    if tools == [] then None
    else if tools[0].name == name then Some(tools[0])
    else FindTool(tools[1..], name)
  }

  function RemainingTime(s: RunState): Option<U64> {
    if s.plan.deadlineMs.None? then None else Some(SatSub(s.plan.deadlineMs.value, s.elapsedMs))
  }

  /** The options of a delegated run: the budget it was granted, one level further down,
      and defaults for everything else. */
  function ChildOptions(s: RunState, budget: DelegationBudget): RunOptions {
    RunOptions(
      [], budget.modelCallLimit, 256, budget.tokenLimit, 1, s.plan.maxParallelToolCalls, RemainingTime(s),
      s.plan.maxDelegationDepth, Min(s.plan.delegationDepth + 1, U8_MAX))
  }

  // ---------- What one effect may spend ----------

  /** What a child may really spend of its budget: without a model call it never starts. */
  function Spendable(budget: Option<DelegationBudget>, r: Resource): nat {
    if budget.None? || budget.value.modelCallLimit == 0 then 0 else Granted(budget.value, r)
  }

  /** What the budgets allow in all, but for the calls still waiting to start. */
  function Spent(budgets: seq<Option<DelegationBudget>>, waiting: set<nat>, r: Resource): nat {
    if budgets == [] then 0
    else
      var n := |budgets| - 1;
      Spent(budgets[..n], waiting, r) + if n in waiting then 0 else Spendable(budgets[n], r)
  }

  /** The most an effect of this state may cost the tree, whether or not it completes. */
  function Allowance(s: RunState, r: Resource): nat {
    if s.pending == [] then Remaining(s, r) else Spent(EffectBudgets(s), {}, r)
  }

  function TokenBound(budget: Option<DelegationBudget>): Option<nat> {
    if budget.None? || budget.value.modelCallLimit == 0 then Some(0)
    else if budget.value.tokenLimit.None? then None
    else Some(budget.value.tokenLimit.value)
  }

  lemma {:induction false} StartingSpends(budgets: seq<Option<DelegationBudget>>, waiting: set<nat>, i: nat, r: Resource)
    requires i in waiting
    ensures Spent(budgets, waiting - {i}, r) ==
            Spent(budgets, waiting, r) + if i < |budgets| then Spendable(budgets[i], r) else 0
  {
    if budgets != [] {
      StartingSpends(budgets[..|budgets| - 1], waiting, i, r);
    }
  }

  lemma {:induction false} WaitingSpendsNothing(budgets: seq<Option<DelegationBudget>>, waiting: set<nat>, r: Resource)
    requires forall i: nat :: i < |budgets| ==> i in waiting
    ensures Spent(budgets, waiting, r) == 0
  {
    if budgets != [] {
      WaitingSpendsNothing(budgets[..|budgets| - 1], waiting, r);
    }
  }

  lemma {:induction false} SpentAtMost(budgets: seq<Option<DelegationBudget>>, waiting: set<nat>, r: Resource)
    ensures Spent(budgets, waiting, r) <= Spent(budgets, {}, r)
  {
    if budgets != [] {
      SpentAtMost(budgets[..|budgets| - 1], waiting, r);
    }
  }

  lemma {:induction false} SpentWithinTotal(budgets: seq<Option<DelegationBudget>>, r: Resource)
    ensures Spent(budgets, {}, r) <= Total(Present(budgets), r)
  {
    if budgets != [] {
      var n := |budgets| - 1;
      SpentWithinTotal(budgets[..n], r);
      assert budgets[..n] + [budgets[n]] == budgets;
      TotalOfAppend(budgets[..n], budgets[n], r);
    }
  }

  lemma {:induction false} NoCallsNoSpending(budgets: seq<Option<DelegationBudget>>, r: Resource)
    requires forall i :: 0 <= i < |budgets| && budgets[i].Some? ==> budgets[i].value.modelCallLimit == 0
    ensures Spent(budgets, {}, r) == 0
  {
    if budgets != [] {
      NoCallsNoSpending(budgets[..|budgets| - 1], r);
    }
  }

  /** No run was started deeper than the bound since the first of two moments. */
  predicate DepthKept(before: nat, bound: nat, after: nat) {
    before <= after <= Max(before, bound)
  }

  /** The tree spent no more than the budget between two moments. */
  predicate BudgetKept(budget: Option<DelegationBudget>, before: Cost, after: Cost) {
    && before.attempts <= after.attempts <= before.attempts + GrantedIfAny(budget, Calls)
    && before.tokens <= after.tokens
    && (TokenBound(budget).Some? ==> after.tokens <= before.tokens + TokenBound(budget).value)
    && before.log <= after.log
  }

  ghost predicate ToolDone(
    call: ToolEffectCall, r: Result<ToolEffectResult, RunError>, before: Cost, after: Cost)
  {
    && BudgetKept(call.budget, before, after)
    && (r.Ok? ==> Reported([r.value], after.attempts - before.attempts))
    && (r.Err? ==> !r.error.InvalidHistory?)
    && before.log < after.log && after.log[|after.log| - 1] == ToolRun(call, r)
  }

  /** Usage reported by children is accurate and covers no more calls than were made. */
  ghost predicate Reported(results: seq<ToolEffectResult>, attempts: int) {
    ChildrenAccurate(results) && ChildEntries(results) <= attempts
  }

  /** The entries the results finished so far report, counting the first `n` calls. */
  function FinishedEntries(finished: map<nat, ToolEffectResult>, n: nat): nat {
    if n == 0 then 0
    else FinishedEntries(finished, n - 1) + if n - 1 in finished then ChildEntries([finished[n - 1]]) else 0
  }

  lemma {:induction false} FinishingAddsEntries(
    finished: map<nat, ToolEffectResult>, i: nat, result: ToolEffectResult, n: nat)
    requires i !in finished
    ensures FinishedEntries(finished[i := result], n) ==
            FinishedEntries(finished, n) + if i < n then ChildEntries([result]) else 0
  {
    if n > 0 {
      FinishingAddsEntries(finished, i, result, n - 1);
    }
  }

  lemma {:induction false} NothingFinished(n: nat)
    ensures FinishedEntries(map[], n) == 0
  {
    if n > 0 {
      NothingFinished(n - 1);
    }
  }

  function InOrder(finished: map<nat, ToolEffectResult>, n: nat): seq<ToolEffectResult>
    requires forall i: nat :: i < n ==> i in finished
  {
    seq(n, i requires 0 <= i < n => finished[i])
  }

  lemma {:induction false} ChildEntriesOfAppend(results: seq<ToolEffectResult>, last: ToolEffectResult)
    ensures ChildEntries(results + [last]) == ChildEntries(results) + ChildEntries([last])
  {
    if results == [] {
      assert [] + [last] == [last];
    } else {
      assert (results + [last])[1..] == results[1..] + [last];
      ChildEntriesOfAppend(results[1..], last);
    }
  }

  lemma {:induction false} EntriesInOrder(finished: map<nat, ToolEffectResult>, n: nat)
    requires forall i: nat :: i < n ==> i in finished
    ensures ChildEntries(InOrder(finished, n)) == FinishedEntries(finished, n)
  {
    if n > 0 {
      EntriesInOrder(finished, n - 1);
      assert InOrder(finished, n) == InOrder(finished, n - 1) + [finished[n - 1]];
      ChildEntriesOfAppend(InOrder(finished, n - 1), finished[n - 1]);
    }
  }

  lemma {:induction false} TotalOfAppend(
    budgets: seq<Option<DelegationBudget>>, last: Option<DelegationBudget>, r: Resource)
    ensures Total(Present(budgets + [last]), r) == Total(Present(budgets), r) + GrantedIfAny(last, r)
  {
    if budgets == [] {
      assert [] + [last] == [last] && [last][1..] == [];
      PresentCons([last], r);
    } else {
      assert (budgets + [last])[1..] == budgets[1..] + [last];
      PresentCons(budgets, r);
      PresentCons(budgets + [last], r);
      TotalOfAppend(budgets[1..], last, r);
    }
  }

  // ---------- Delegation and tools ----------

  function StatusName(status: RunStatus): string {
    match status
    case Pending => "Pending"
    case Running => "Running"
    case Completed => "Completed"
    case Incomplete => "Incomplete"
    case Failed => "Failed"
    case Cancelled => "Cancelled"
  }

  function CountJson(count: Option<U64>): Json {
    if count.Some? then Number(Decimal.Render(count.value)) else Null
  }

  function TokensJson(u: TokenUsage): Json {
    Object([Member("input", CountJson(u.input)),
            Member("output", CountJson(u.output)),
            Member("cached_input", CountJson(u.cachedInput)),
            Member("reasoning", CountJson(u.reasoning)),
            Member("provider_total", CountJson(u.providerTotal))])
  }

  function CallJson(call: CallUsage): Json {
    Object([Member("model", Json.String(call.model)), Member("usage", TokensJson(call.usage))])
  }

  function CallsJson(calls: seq<CallUsage>): Json {
    Array(seq(|calls|, i requires 0 <= i < |calls| => CallJson(calls[i])))
  }

  function UsageJson(u: RunUsage): Json {
    Object([Member("aggregate", TokensJson(u.aggregate)),
            Member("complete", Bool(u.complete)),
            Member("model_calls", CallsJson(u.modelCalls))])
  }

  /** The model-visible summary of a child run; its history never leaves the child. */
  function DelegationResult(child: Agent, runId: string, s: RunState): Json {
    Object([Member("agent", Json.String(child.name)),
            Member("run_id", Json.String(runId)),
            Member("status", Json.String(StatusName(s.status))),
            Member("text", if s.text.Some? then Json.String(s.text.value) else Null),
            Member("usage", UsageJson(s.usage))])
  }

  /** A child is started only below the depth limit and with something left to spend. */
  predicate MayDelegate(s: RunState, budget: Option<DelegationBudget>) {
    && s.plan.delegationDepth < s.plan.maxDelegationDepth
    && budget.Some? && budget.value.modelCallLimit > 0 && budget.value.tokenLimit != Some(0)
  }

  predicate Succeeded(end: LocalEnd) {
    end.Finished? && (end.state.status.Completed? || end.state.status.Incomplete?)
  }

  /** What a parent hears of a child that ran: always its usage, and its summary only if it
      succeeded and the parent was not cancelled. */
  predicate Reports(child: Agent, runId: string, end: LocalEnd, result: ToolEffectResult) {
    && result.attempts == 1
    && result.childUsage == Some(end.state.usage)
    && (|| (Succeeded(end) && result.output == DelegationResult(child, runId, end.state))
        || (!Succeeded(end) && result.output == ErrorJson("delegation_failed", "delegated agent failed"))
        || result.output == ErrorJson("delegation_cancelled", "delegation was cancelled"))
  }

  datatype ChildRun = ChildRun(runId: string, end: LocalEnd)

  method ExecuteDelegation(
    serde: Serde, child: Agent, s: RunState, budget: Option<DelegationBudget>, world: World)
    returns (r: Result<ToolEffectResult, RunError>, ghost ran: Option<ChildRun>)
    modifies world
    ensures !MayDelegate(s, budget) ==> ran.None?
    ensures ran.None? ==> world.cost == old(world.cost)
    ensures r.Err? ==> r.error == ProtocolError
    ensures ran.Some? ==> r.Ok? && Reports(child, ran.value.runId, ran.value.end, r.value)
    ensures BudgetKept(budget, old(world.cost), world.cost)
    ensures DepthKept(old(world.deepest), s.plan.maxDelegationDepth, world.deepest)
    ensures r.Ok? ==> Reported([r.value], world.cost.attempts - old(world.cost).attempts)
    decreases child, 7
  {
    ran := None;
    var o := world.Observe();
    if o.task.None? {
      return Err(ProtocolError), ran;
    }
    if Blank(o.task.value) {
      return Ok(ErrorResult("invalid_arguments", "delegation task must not be blank", 1, None)), ran;
    }
    if s.plan.delegationDepth >= s.plan.maxDelegationDepth {
      return Ok(ErrorResult("delegation_depth_exceeded", "delegation depth limit reached", 1, None)), ran;
    }
    if budget.None? {
      return Ok(ErrorResult("delegation_budget_exceeded", "delegation budget is unavailable", 1, None)), ran;
    }
    if budget.value.modelCallLimit == 0 || budget.value.tokenLimit == Some(0) {
      return Ok(ErrorResult("delegation_budget_exceeded", "delegation budget is exhausted", 1, None)), ran;
    }
    var answer;
    answer, ran := RunChild(serde, child, o.runId, o.task.value, s, budget, world);
    return Ok(answer), ran;
  }

  /** Runs an admitted child under its budget, and answers for it. */
  method RunChild(
    serde: Serde, child: Agent, runId: string, task: string, s: RunState, budget: Option<DelegationBudget>, world: World)
    returns (answer: ToolEffectResult, ghost ran: Option<ChildRun>)
    requires MayDelegate(s, budget)
    modifies world
    ensures ran.None? ==> world.cost == old(world.cost)
    ensures ran.Some? ==> Reports(child, ran.value.runId, ran.value.end, answer)
    ensures BudgetKept(budget, old(world.cost), world.cost)
    ensures DepthKept(old(world.deepest), s.plan.maxDelegationDepth, world.deepest)
    ensures Reported([answer], world.cost.attempts - old(world.cost).attempts)
    decreases child, 6
  {
    var end := RunUnderBudget(serde, child, runId, task, s, budget.value, world);
    ran := if end.Ok? then Some(ChildRun(runId, end.value)) else None;
    answer := AnswerForChild(child, runId, end, world);
    NewUsageIsAccurate();
    ChildUsageIsReported(
      answer, if end.Ok? then end.value.state.usage else RunUsage.New(), world.cost.attempts - old(world.cost).attempts);
  }

  method RunUnderBudget(
    serde: Serde, child: Agent, runId: string, task: string, s: RunState, budget: DelegationBudget, world: World)
    returns (end: Result<LocalEnd, RunError>)
    requires MayDelegate(s, Some(budget))
    modifies world
    ensures BudgetKept(Some(budget), old(world.cost), world.cost)
    ensures DepthKept(old(world.deepest), s.plan.maxDelegationDepth, world.deepest)
    ensures end.Err? ==> world.cost == old(world.cost)
    ensures end.Ok? ==> UsageKept(end.value.state, old(world.cost), world.cost)
    decreases child, 5
  {
    ghost var start, reports;
    end, start, reports := ExecuteRun(serde, child, runId, task, ChildOptions(s, budget), world);
  }

  /** What a parent is told once its child has ended, unless it was cancelled meanwhile. */
  method AnswerForChild(child: Agent, runId: string, end: Result<LocalEnd, RunError>, world: World)
    returns (answer: ToolEffectResult)
    modifies world`clock
    ensures end.Ok? ==> Reports(child, runId, end.value, answer)
    ensures end.Err? ==> answer.childUsage == Some(RunUsage.New())
  {
    var usage := if end.Ok? then end.value.state.usage else RunUsage.New();
    var parent := world.Observe();
    if parent.cancelled {
      return ErrorResult("delegation_cancelled", "delegation was cancelled", 1, Some(usage));
    }
    if end.Ok? && Succeeded(end.value) {
      return ToolEffectResult(DelegationResult(child, runId, end.value.state), 1, Some(usage));
    }
    return ErrorResult("delegation_failed", "delegated agent failed", 1, Some(usage));
  }

  lemma ChildUsageIsReported(answer: ToolEffectResult, usage: RunUsage, attempts: int)
    requires answer.childUsage == Some(usage) && Accurate(usage) && |usage.modelCalls| <= attempts
    ensures Reported([answer], attempts)
  {
  }

  /** One tool execution spends at most the budget its call carries, and leaves exactly its
      own result as the newest entry of the log. */
  method ExecuteOneTool(serde: Serde, agent: Agent, s: RunState, call: ToolEffectCall, world: World)
    returns (r: Result<ToolEffectResult, RunError>)
    modifies world
    ensures ToolDone(call, r, old(world.cost), world.cost)
    ensures DepthKept(old(world.deepest), s.plan.maxDelegationDepth, world.deepest)
    ensures call.policy.None? ==> r == Ok(NotFound())
    decreases agent, 2
  {
    var tool := FindTool(agent.tools, call.invocation.toolName);
    if call.policy.None? || tool.None? {
      r := Ok(NotFound());
    } else {
      var o := world.Observe();
      if !o.argumentsMatch {
        r := Ok(InvalidArguments());
      } else if tool.value.child.Some? {
        assert tool.value in agent.tools && tool.value < agent;
        var delegated, _ := ExecuteDelegation(serde, tool.value.child.value, s, call.budget, world);
        r := delegated;
      } else {
        var result, _ := ExecuteToolEffect(call.policy.value, world);
        r := result;
      }
    }
    world.cost := world.cost.(log := world.cost.log + [ToolRun(call, r)]);
  }

  predicate InRange(i: nat, lo: nat, hi: nat) {
    lo <= i < hi
  }

  function Range(lo: nat, hi: nat): set<nat> {
    set i: nat | i < hi && InRange(i, lo, hi)
  }

  /** Where the log recorded which call: `at` by call, `whose` by log position. */
  datatype Places = Places(at: map<nat, nat>, whose: map<nat, nat>)
  {
    function Add(call: nat, position: nat): Places {
      Places(at[call := position], whose[position := call])
    }
  }

  /** Every finished result is one the log recorded for that very call, and no log entry
      stands for two calls. */
  ghost predicate Recorded(
    calls: seq<ToolEffectCall>, finished: map<nat, ToolEffectResult>, places: Places, from: nat, log: seq<ToolRun>)
  {
    && finished.Keys == places.at.Keys
    && (forall k :: k in finished ==> k < |calls|)
    && (forall k :: k in finished ==>
          from <= places.at[k] < |log| && log[places.at[k]] == ToolRun(calls[k], Ok(finished[k])))
    && (forall k :: k in finished ==> places.at[k] in places.whose && places.whose[places.at[k]] == k)
    && (forall p :: p in places.whose ==> p < |log|)
  }

  ghost predicate Logged(
    calls: seq<ToolEffectCall>, finished: map<nat, ToolEffectResult>, from: nat, log: seq<ToolRun>)
  {
    exists places :: Recorded(calls, finished, places, from, log)
  }

  /** The outputs stand in call order: output `k` is what the log recorded for call `k`. */
  ghost predicate LinedUp(
    calls: seq<ToolEffectCall>, outputs: seq<ToolEffectResult>, from: nat, log: seq<ToolRun>)
  {
    exists places :: LinedUpAt(calls, outputs, places, from, log)
  }

  ghost predicate LinedUpAt(
    calls: seq<ToolEffectCall>, outputs: seq<ToolEffectResult>, places: map<nat, nat>, from: nat, log: seq<ToolRun>)
  {
    && |outputs| == |calls|
    && (forall k: nat :: k < |calls| ==>
          && k in places
          && from <= places[k] < |log|
          && log[places[k]] == ToolRun(calls[k], Ok(outputs[k])))
    && (forall j: nat, k: nat :: j < k < |calls| ==> places[j] != places[k])
  }

  /** The calls of a batch that are not waiting, whatever their results, spent no more than
      their budgets. */
  ghost predicate BatchKept(s: RunState, waiting: set<nat>, start: Cost, now: Cost) {
    && start.attempts <= now.attempts <= start.attempts + Spent(BatchReservations(s), waiting, Calls)
    && start.tokens <= now.tokens
    && (s.plan.tokenLimit.Some? ==> now.tokens <= start.tokens + Spent(BatchReservations(s), waiting, Tokens))
    && start.log <= now.log
  }

  ghost predicate UsageReported(finished: map<nat, ToolEffectResult>, n: nat, attempts: int) {
    && (forall k :: k in finished ==> ChildrenAccurate([finished[k]]))
    && FinishedEntries(finished, n) <= attempts
  }

  /** Where a batch stands: some calls finished, some waiting, the others gone wrong. */
  ghost predicate BatchAt(
    s: RunState, calls: seq<ToolEffectCall>, waiting: set<nat>, finished: map<nat, ToolEffectResult>,
    start: Cost, now: Cost)
  {
    && BatchKept(s, waiting, start, now)
    && waiting !! finished.Keys
    && Logged(calls, finished, |start.log|, now.log)
    && UsageReported(finished, |calls|, now.attempts - start.attempts)
  }

  lemma BatchKeptNext(
    s: RunState, call: ToolEffectCall, waiting: set<nat>, i: nat, start: Cost, before: Cost, after: Cost,
    r: Result<ToolEffectResult, RunError>)
    requires i < |s.pending| && i in waiting && call == EffectCall(s, s.pending[i])
    requires BatchKept(s, waiting, start, before) && ToolDone(call, r, before, after)
    ensures BatchKept(s, waiting - {i}, start, after)
  {
    var budgets := BatchReservations(s);
    assert budgets[i] == call.budget;
    StartingSpends(budgets, waiting, i, Calls);
    StartingSpends(budgets, waiting, i, Tokens);
    assert before.log <= after.log;
  }

  lemma StillLogged(
    calls: seq<ToolEffectCall>, finished: map<nat, ToolEffectResult>, from: nat, log: seq<ToolRun>, longer: seq<ToolRun>)
    requires Logged(calls, finished, from, log) && log <= longer
    ensures Logged(calls, finished, from, longer)
  {
    var places :| Recorded(calls, finished, places, from, log);
    assert Recorded(calls, finished, places, from, longer);
  }

  lemma NewlyLogged(
    calls: seq<ToolEffectCall>, finished: map<nat, ToolEffectResult>, from: nat,
    log: seq<ToolRun>, longer: seq<ToolRun>, i: nat, result: ToolEffectResult)
    requires Logged(calls, finished, from, log) && from <= |log| && log < longer
    requires i < |calls| && i !in finished && longer[|longer| - 1] == ToolRun(calls[i], Ok(result))
    ensures Logged(calls, finished[i := result], from, longer)
  {
    var places :| Recorded(calls, finished, places, from, log);
    assert Recorded(calls, finished, places, from, longer);
    OneMoreRecorded(calls, finished, places, from, longer, i, result);
  }

  lemma OneMoreRecorded(
    calls: seq<ToolEffectCall>, finished: map<nat, ToolEffectResult>, places: Places, from: nat,
    log: seq<ToolRun>, i: nat, result: ToolEffectResult)
    requires Recorded(calls, finished, places, from, log) && from < |log| && |log| - 1 !in places.whose
    requires i < |calls| && i !in finished && log[|log| - 1] == ToolRun(calls[i], Ok(result))
    ensures Recorded(calls, finished[i := result], places.Add(i, |log| - 1), from, log)
  {
  }

  /** One more call of a batch has run, well or not. */
  lemma BatchNext(
    s: RunState, calls: seq<ToolEffectCall>, waiting: set<nat>, finished: map<nat, ToolEffectResult>,
    i: nat, start: Cost, before: Cost, after: Cost, r: Result<ToolEffectResult, RunError>)
    requires i < |calls| == |s.pending| && i in waiting && calls[i] == EffectCall(s, s.pending[i])
    requires BatchAt(s, calls, waiting, finished, start, before) && ToolDone(calls[i], r, before, after)
    ensures BatchAt(s, calls, waiting - {i}, if r.Err? then finished else finished[i := r.value], start, after)
  {
    BatchKeptNext(s, calls[i], waiting, i, start, before, after, r);
    assert before.log < after.log;
    if r.Err? {
      StillLogged(calls, finished, |start.log|, before.log, after.log);
    } else {
      NewlyLogged(calls, finished, |start.log|, before.log, after.log, i, r.value);
      FinishingAddsEntries(finished, i, r.value, |calls|);
    }
  }

  lemma StartOne(left: set<nat>, i: nat, stop: nat, n: nat)
    requires i < stop
    ensures left + Range(stop, n) - {i} == left - {i} + Range(stop, n)
  {
  }

  /** What else a chunk may do once a member has failed: any of the members that have not
      started may still run, in any order, and the others are dropped. */
  method DrainChunk(
    serde: Serde, agent: Agent, s: RunState, calls: seq<ToolEffectCall>, started: set<nat>, stop: nat, world: World,
    ghost base: Cost)
    requires stop <= |calls| == |s.pending|
    requires forall i :: 0 <= i < |calls| ==> calls[i] == EffectCall(s, s.pending[i])
    requires started <= Range(0, stop)
    requires BatchKept(s, started + Range(stop, |calls|), base, world.cost)
    modifies world
    ensures BatchKept(s, {}, base, world.cost)
    ensures DepthKept(old(world.deepest), s.plan.maxDelegationDepth, world.deepest)
    decreases agent, 3, 0
  {
    var left := started;
    while left != {}
      invariant left <= Range(0, stop)
      invariant BatchKept(s, left + Range(stop, |calls|), base, world.cost)
      invariant DepthKept(old(world.deepest), s.plan.maxDelegationDepth, world.deepest)
      decreases |left|
    {
      if * {
        break;
      }
      var i :| i in left;
      ghost var before := world.cost;
      var result := ExecuteOneTool(serde, agent, s, calls[i], world);
      BatchKeptNext(s, calls[i], left + Range(stop, |calls|), i, base, before, world.cost, result);
      StartOne(left, i, stop, |calls|);
      left := left - {i};
    }
    BatchKeptToTheEnd(s, left + Range(stop, |calls|), base, world.cost);
  }

  /** One member of a chunk, whichever is next to run. */
  method ExecuteMember(
    serde: Serde, agent: Agent, s: RunState, calls: seq<ToolEffectCall>, i: nat, ghost left: set<nat>,
    ghost stop: nat, finished: map<nat, ToolEffectResult>, world: World, ghost base: Cost)
    returns (r: Result<map<nat, ToolEffectResult>, RunError>)
    requires i in left && i < stop <= |calls| == |s.pending| && calls[i] == EffectCall(s, s.pending[i])
    requires ChunkAt(s, calls, left, stop, finished, base, world.cost)
    modifies world
    ensures MemberDone(s, calls, left - {i}, stop, r, base, world.cost)
    ensures DepthKept(old(world.deepest), s.plan.maxDelegationDepth, world.deepest)
    decreases agent, 3, 0
  {
    ghost var before := world.cost;
    var result := ExecuteOneTool(serde, agent, s, calls[i], world);
    if result.Err? {
      MemberFailed(s, calls, left, stop, i, base, before, world.cost, result);
      return Err(result.error);
    }
    ChunkNext(s, calls, left, stop, finished, i, base, before, world.cost, result.value);
    return Ok(finished[i := result.value]);
  }

  /** Where a chunk stands after one more member: a step on, or failed but within budget. */
  ghost predicate MemberDone(
    s: RunState, calls: seq<ToolEffectCall>, left: set<nat>, stop: nat, r: Result<map<nat, ToolEffectResult>, RunError>,
    base: Cost, now: Cost)
  {
    match r
    case Ok(finished) => ChunkAt(s, calls, left, stop, finished, base, now)
    case Err(error) => BatchKept(s, left + Range(stop, |calls|), base, now) && !error.InvalidHistory?
  }

  /** One chunk. Its members run together and finish in any order; each result is kept under
      its call's place. The first failure fails the chunk. */
  method ExecuteChunk(
    serde: Serde, agent: Agent, s: RunState, calls: seq<ToolEffectCall>, from: nat, stop: nat,
    done: map<nat, ToolEffectResult>, world: World, ghost base: Cost)
    returns (r: Result<map<nat, ToolEffectResult>, RunError>)
    requires from <= stop <= |calls| == |s.pending|
    requires forall i :: 0 <= i < |calls| ==> calls[i] == EffectCall(s, s.pending[i])
    requires done.Keys == Range(0, from)
    requires BatchAt(s, calls, Range(from, |calls|), done, base, world.cost)
    modifies world
    ensures BatchKept(s, {}, base, world.cost)
    ensures r.Err? ==> !r.error.InvalidHistory?
    ensures r.Ok? ==>
      && r.value.Keys == Range(0, stop)
      && BatchAt(s, calls, Range(stop, |calls|), r.value, base, world.cost)
    ensures DepthKept(old(world.deepest), s.plan.maxDelegationDepth, world.deepest)
    decreases agent, 3, 1
  {
    var finished, left := done, Range(from, stop);
    ChunkStarts(s, calls, from, stop, done, base, world.cost);
    while left != {}
      invariant ChunkAt(s, calls, left, stop, finished, base, world.cost)
      invariant DepthKept(old(world.deepest), s.plan.maxDelegationDepth, world.deepest)
      decreases |left|
    {
      var i :| i in left;
      var member := ExecuteMember(serde, agent, s, calls, i, left, stop, finished, world, base);
      left := left - {i};
      if member.Err? {
        DrainChunk(serde, agent, s, calls, left, stop, world, base);
        return Err(member.error);
      }
      finished := member.value;
    }
    ChunkEnds(s, calls, stop, finished, base, world.cost);
    return Ok(finished);
  }

  /** Where a chunk stands while no member has failed: `left` have not started. */
  ghost predicate ChunkAt(
    s: RunState, calls: seq<ToolEffectCall>, left: set<nat>, stop: nat, finished: map<nat, ToolEffectResult>, base: Cost,
    now: Cost)
  {
    && left <= Range(0, stop)
    && finished.Keys == Range(0, stop) - left
    && BatchAt(s, calls, left + Range(stop, |calls|), finished, base, now)
  }

  lemma ChunkStarts(
    s: RunState, calls: seq<ToolEffectCall>, from: nat, stop: nat, done: map<nat, ToolEffectResult>,
    base: Cost, now: Cost)
    requires from <= stop <= |calls| && done.Keys == Range(0, from)
    requires BatchAt(s, calls, Range(from, |calls|), done, base, now)
    ensures ChunkAt(s, calls, Range(from, stop), stop, done, base, now)
  {
    assert Range(from, stop) + Range(stop, |calls|) == Range(from, |calls|);
    assert Range(0, stop) - Range(from, stop) == Range(0, from);
  }

  lemma ChunkNext(
    s: RunState, calls: seq<ToolEffectCall>, left: set<nat>, stop: nat, finished: map<nat, ToolEffectResult>,
    i: nat, base: Cost, before: Cost, after: Cost, result: ToolEffectResult)
    requires i in left && i < stop <= |calls| == |s.pending| && calls[i] == EffectCall(s, s.pending[i])
    requires ChunkAt(s, calls, left, stop, finished, base, before)
    requires ToolDone(calls[i], Ok(result), before, after)
    ensures ChunkAt(s, calls, left - {i}, stop, finished[i := result], base, after)
  {
    BatchNext(s, calls, left + Range(stop, |calls|), finished, i, base, before, after, Ok(result));
    StartOne(left, i, stop, |calls|);
    assert finished[i := result].Keys == finished.Keys + {i};
    assert Range(0, stop) - (left - {i}) == Range(0, stop) - left + {i};
  }

  lemma MemberFailed(
    s: RunState, calls: seq<ToolEffectCall>, left: set<nat>, stop: nat, i: nat, base: Cost, before: Cost, after: Cost,
    r: Result<ToolEffectResult, RunError>)
    requires i in left && i < stop <= |calls| == |s.pending| && calls[i] == EffectCall(s, s.pending[i])
    requires BatchKept(s, left + Range(stop, |calls|), base, before) && ToolDone(calls[i], r, before, after)
    ensures BatchKept(s, left - {i} + Range(stop, |calls|), base, after)
  {
    BatchKeptNext(s, calls[i], left + Range(stop, |calls|), i, base, before, after, r);
    StartOne(left, i, stop, |calls|);
  }

  lemma ChunkEnds(
    s: RunState, calls: seq<ToolEffectCall>, stop: nat, finished: map<nat, ToolEffectResult>, base: Cost,
    now: Cost)
    requires ChunkAt(s, calls, {}, stop, finished, base, now)
    ensures BatchKept(s, {}, base, now) && finished.Keys == Range(0, stop)
    ensures BatchAt(s, calls, Range(stop, |calls|), finished, base, now)
  {
    assert {} + Range(stop, |calls|) == Range(stop, |calls|);
    assert Range(0, stop) - {} == Range(0, stop);
    BatchKeptToTheEnd(s, Range(stop, |calls|), base, now);
  }

  lemma BatchKeptToTheEnd(s: RunState, waiting: set<nat>, start: Cost, now: Cost)
    requires BatchKept(s, waiting, start, now)
    ensures BatchKept(s, {}, start, now)
  {
    SpentAtMost(BatchReservations(s), waiting, Calls);
    SpentAtMost(BatchReservations(s), waiting, Tokens);
  }

  lemma BatchStarts(s: RunState, calls: seq<ToolEffectCall>, now: Cost)
    requires |calls| == |s.pending|
    ensures BatchAt(s, calls, Range(0, |calls|), map[], now, now) && Range(0, 0) == {}
  {
    WaitingSpendsNothing(BatchReservations(s), Range(0, |calls|), Calls);
    WaitingSpendsNothing(BatchReservations(s), Range(0, |calls|), Tokens);
    NothingFinished(|calls|);
    assert Recorded(calls, map[], Places(map[], map[]), |now.log|, now.log);
  }

  lemma LoggedIsLinedUp(
    calls: seq<ToolEffectCall>, finished: map<nat, ToolEffectResult>, from: nat, log: seq<ToolRun>)
    requires finished.Keys == Range(0, |calls|) && Logged(calls, finished, from, log)
    ensures LinedUp(calls, InOrder(finished, |calls|), from, log)
  {
    var places :| Recorded(calls, finished, places, from, log);
    assert LinedUpAt(calls, InOrder(finished, |calls|), places.at, from, log);
  }

  lemma BatchEnds(
    s: RunState, calls: seq<ToolEffectCall>, finished: map<nat, ToolEffectResult>, outputs: seq<ToolEffectResult>,
    start: Cost, now: Cost)
    requires finished.Keys == Range(0, |calls|) && outputs == InOrder(finished, |calls|)
    requires BatchAt(s, calls, Range(|calls|, |calls|), finished, start, now)
    ensures BatchKept(s, {}, start, now)
    ensures LinedUp(calls, outputs, |start.log|, now.log)
    ensures Reported(outputs, now.attempts - start.attempts)
  {
    assert Range(|calls|, |calls|) == {};
    EntriesInOrder(finished, |calls|);
    LoggedIsLinedUp(calls, finished, |start.log|, now.log);
    forall i | 0 <= i < |calls| && finished[i].childUsage.Some? ensures Accurate(finished[i].childUsage.value) {
      assert [finished[i]][0] == finished[i];
    }
  }

  function ChunkStop(plan: Plan, from: nat, total: nat): (stop: nat)
    requires from < total
    ensures from < stop <= total
  {
    Min(from + Max(plan.maxParallelToolCalls, 1), total)
  }

  /** A batch runs chunk by chunk; once a chunk has failed no later chunk starts. */
  method ExecuteBatch(serde: Serde, agent: Agent, s: RunState, calls: seq<ToolEffectCall>, world: World)
    returns (r: Result<seq<ToolEffectResult>, RunError>)
    requires |calls| == |s.pending|
    requires forall i :: 0 <= i < |calls| ==> calls[i] == EffectCall(s, s.pending[i])
    modifies world
    ensures BatchKept(s, {}, old(world.cost), world.cost)
    ensures DepthKept(old(world.deepest), s.plan.maxDelegationDepth, world.deepest)
    ensures r.Err? ==> !r.error.InvalidHistory?
    ensures r.Ok? ==>
      && LinedUp(calls, r.value, |old(world.cost).log|, world.cost.log)
      && Reported(r.value, world.cost.attempts - old(world.cost).attempts)
    decreases agent, 3, 2
  {
    var finished: map<nat, ToolEffectResult> := map[];
    var from := 0;
    BatchStarts(s, calls, world.cost);
    while from < |calls|
      invariant from <= |calls| && finished.Keys == Range(0, from)
      invariant BatchAt(s, calls, Range(from, |calls|), finished, old(world.cost), world.cost)
      invariant DepthKept(old(world.deepest), s.plan.maxDelegationDepth, world.deepest)
      decreases |calls| - from
    {
      var stop := ChunkStop(s.plan, from, |calls|);
      var chunk := ExecuteChunk(serde, agent, s, calls, from, stop, finished, world, old(world.cost));
      if chunk.Err? {
        return Err(chunk.error);
      }
      finished, from := chunk.value, stop;
    }
    var outputs := InOrder(finished, |calls|);
    BatchEnds(s, calls, finished, outputs, old(world.cost), world.cost);
    return Ok(outputs);
  }

  // ---------- Results that can be read back ----------

  predicate Shallow(result: ToolEffectResult) {
    Nesting(result.output) <= MAX_NESTING
  }

  lemma ErrorsAreShallow(code: string, message: string)
    ensures Nesting(ErrorJson(code, message)) <= 2
  {
    var inner := Object([Member("code", Json.String(code)), Member("message", Json.String(message))]);
    MembersNestAtMost(inner.members, 0);
    MembersNestAtMost([Member("error", inner)], 1);
  }

  lemma TokensAreShallow(u: TokenUsage)
    ensures Nesting(TokensJson(u)) <= 1
  {
    MembersNestAtMost(TokensJson(u).members, 0);
  }

  lemma CallsAreShallow(calls: seq<CallUsage>)
    ensures Nesting(CallsJson(calls)) <= 3
  {
    forall i | 0 <= i < |calls| ensures Nesting(CallJson(calls[i])) <= 2 {
      TokensAreShallow(calls[i].usage);
      MembersNestAtMost(CallJson(calls[i]).members, 1);
    }
    ItemsNestAtMost(CallsJson(calls).items, 2);
  }

  lemma UsageIsShallow(u: RunUsage)
    ensures Nesting(UsageJson(u)) <= 4
  {
    TokensAreShallow(u.aggregate);
    CallsAreShallow(u.modelCalls);
    MembersNestAtMost(UsageJson(u).members, 3);
  }

  /** Whatever a parent hears of a child, it can read it back. */
  lemma DelegationsAnswerShallowly(child: Agent, runId: string, end: LocalEnd, result: ToolEffectResult)
    requires Reports(child, runId, end, result)
    ensures Shallow(result)
  {
    ErrorsAreShallow("delegation_failed", "delegated agent failed");
    ErrorsAreShallow("delegation_cancelled", "delegation was cancelled");
    UsageIsShallow(end.state.usage);
    MembersNestAtMost(DelegationResult(child, runId, end.state).members, 4);
  }

  /** No tool result logged since a moment is nested too deeply to be read back. */
  ghost predicate ShallowSince(before: Cost, log: seq<ToolRun>) {
    forall i :: |before.log| <= i < |log| && log[i].result.Ok? ==> Shallow(log[i].result.value)
  }

  /** Nothing seen since a moment can have cost a history its alignment. */
  ghost predicate PlainSince(serde: Serde, world: World, before: Cost)
    reads world
  {
    serde.Lawful() && world.AsksWithObjects() && ShallowSince(before, world.cost.log)
  }

  lemma LoggedResultsKeep(
    serde: Serde, calls: seq<ToolEffectCall>, outputs: seq<ToolEffectResult>,
    before: Cost, log: seq<ToolRun>)
    requires LinedUp(calls, outputs, |before.log|, log)
    requires serde.Lawful() && ShallowSince(before, log)
    ensures KeepsHistory(serde, RunModel.Outcome.Batch(outputs))
  {
    var places :| LinedUpAt(calls, outputs, places, |before.log|, log);
    forall k | 0 <= k < |outputs| ensures serde.Reads(outputs[k].output) {
      assert log[places[k]] == ToolRun(calls[k], Ok(outputs[k]));
    }
  }

  // ---------- One effect ----------

  /** The tree spent no more than the effect's allowance. */
  ghost predicate AllowanceKept(s: RunState, before: Cost, after: Cost) {
    && before.attempts <= after.attempts <= before.attempts + Allowance(s, Calls)
    && before.tokens <= after.tokens
    && (s.plan.tokenLimit.Some? ==> after.tokens <= before.tokens + Allowance(s, Tokens))
    && before.log <= after.log
  }

  /** What a produced outcome of `s` says agrees with what the tree spent producing it. */
  ghost predicate Charged(s: RunState, outcome: RunModel.Outcome, before: Cost, after: Cost) {
    var attempts := after.attempts - before.attempts;
    if IsProviderResult(outcome) then
      exists reservation: U64 ::
        && ExecutedAttempts(s, reservation, AttemptsOf(outcome))
        && attempts == |AttemptsOf(outcome)|
        && after.tokens - before.tokens == Product(reservation, |AttemptsOf(outcome)|)
    else
      && (outcome.ProviderBudgetExhausted? ==> attempts == 0 && after.tokens == before.tokens)
      && (outcome.Tool? ==> Reported([outcome.result], attempts))
      && (outcome.Batch? ==> Reported(outcome.outputs, attempts))
  }

  /** An executed effect of `s`: within its allowance, with an outcome the state expects. */
  ghost predicate Performed(s: RunState, id: string, r: Result<RunModel.Outcome, RunError>, before: Cost, after: Cost) {
    && AllowanceKept(s, before, after)
    && match r
       case Ok(outcome) =>
         && Expects(s, id, outcome)
         && Charged(s, outcome, before, after)
         && (outcome.Provider? ==> ValidResponse(outcome.response, id))
       case Err(error) => !error.InvalidHistory?
  }

  method ExecuteProviderEffect(serde: Serde, s: RunState, effect: Effect, world: World)
    returns (r: Result<RunModel.Outcome, RunError>)
    requires effect.ProviderCall? && NextEffect(s) == Some(effect)
    modifies world`clock, world`cost
    ensures Performed(s, effect.id, r, old(world.cost), world.cost)
    ensures r.Ok? && r.value.Provider? && world.AsksWithObjects() ==> ObjectArguments(r.value.response.toolCalls)
  {
    ghost var seen, reservation;
    r, seen, reservation := ExecuteProvider(serde, s, effect, world);
    ProviderAllowanceKept(s, seen, reservation, old(world.cost), world.cost);
    if r.Ok? {
      ProviderCharged(s, r.value, seen, reservation, effect.id, old(world.cost), world.cost);
    }
  }

  method ExecuteToolCall(serde: Serde, agent: Agent, s: RunState, effect: Effect, world: World)
    returns (r: Result<RunModel.Outcome, RunError>)
    requires effect.ToolCallEffect? && NextEffect(s) == Some(effect)
    modifies world
    ensures Performed(s, effect.id, r, old(world.cost), world.cost)
    ensures r.Ok? ==> r.value.Tool?
    ensures PlainSince(serde, world, old(world.cost)) && r.Ok? ==> KeepsHistory(serde, r.value)
    ensures DepthKept(old(world.deepest), s.plan.maxDelegationDepth, world.deepest)
    decreases agent, 3, 2
  {
    EffectBudgetsOfOne(s);
    var result := ExecuteOneTool(serde, agent, s, effect.call, world);
    return if result.Ok? then Ok(RunModel.Outcome.Tool(result.value)) else Err(result.error);
  }

  method ExecuteToolBatch(serde: Serde, agent: Agent, s: RunState, effect: Effect, world: World)
    returns (r: Result<RunModel.Outcome, RunError>)
    requires effect.ToolBatch? && NextEffect(s) == Some(effect)
    modifies world
    ensures Performed(s, effect.id, r, old(world.cost), world.cost)
    ensures r.Ok? ==> r.value.Batch?
    ensures PlainSince(serde, world, old(world.cost)) && r.Ok? ==> KeepsHistory(serde, r.value)
    ensures DepthKept(old(world.deepest), s.plan.maxDelegationDepth, world.deepest)
    decreases agent, 3, 3
  {
    var results := ExecuteBatch(serde, agent, s, effect.calls, world);
    if results.Ok? && PlainSince(serde, world, old(world.cost)) {
      LoggedResultsKeep(serde, effect.calls, results.value, old(world.cost), world.cost.log);
    }
    return if results.Ok? then Ok(RunModel.Outcome.Batch(results.value)) else Err(results.error);
  }

  method ExecuteEffect(serde: Serde, agent: Agent, s: RunState, effect: Effect, world: World)
    returns (r: Result<RunModel.Outcome, RunError>)
    modifies world
    ensures AllowanceKept(s, old(world.cost), world.cost)
    ensures DepthKept(old(world.deepest), s.plan.maxDelegationDepth, world.deepest)
    ensures r.Ok? ==>
      && NextEffect(s) == Some(effect)
      && ValidateEffectState(serde, s).Ok?
      && Performed(s, effect.id, r, old(world.cost), world.cost)
    ensures PlainSince(serde, world, old(world.cost)) && r.Ok? ==> KeepsHistory(serde, r.value)
    ensures r.Err? && r.error.InvalidHistory? ==> ValidateEffectState(serde, s) == Err(r.error.reason)
    decreases agent, 3, 4
  {
    var valid := ValidateEffectState(serde, s);
    if valid.Err? {
      return Err(InvalidHistory(valid.error));
    }
    if s.plan.tools != Policies(agent.tools) {
      return Err(ConfigError);
    }
    if NextEffect(s) != Some(effect) {
      return Err(ProtocolError);
    }
    match effect {
      case ProviderCall(_, _, _) => r := ExecuteProviderEffect(serde, s, effect, world);
      case ToolCallEffect(_, _) => r := ExecuteToolCall(serde, agent, s, effect, world);
      case ToolBatch(_, _) => r := ExecuteToolBatch(serde, agent, s, effect, world);
    }
  }

  lemma ProviderAllowanceKept(s: RunState, seen: seq<Attempt>, reservation: U64, before: Cost, after: Cost)
    requires s.pending == [] && AttemptsCost(seen, reservation, before, after)
    requires |seen| <= RemainingCalls(s)
    requires s.plan.tokenLimit.Some? ==> Product(reservation, |seen|) <= RemainingTokens(s, s.plan.tokenLimit.value)
    ensures AllowanceKept(s, before, after)
  {
  }

  lemma ProviderCharged(
    s: RunState, outcome: RunModel.Outcome, seen: seq<Attempt>, reservation: U64, id: string, before: Cost, after: Cost)
    requires AttemptsCost(seen, reservation, before, after)
    requires IsProviderResult(outcome) ==>
      Decided(s, seen, reservation, id, outcome) && ExecutedAttempts(s, reservation, AttemptsOf(outcome))
    requires !IsProviderResult(outcome) ==> outcome.ProviderBudgetExhausted? && seen == []
    ensures Charged(s, outcome, before, after)
  {
    assert Product(reservation, 0) == 0;
  }

  lemma EffectBudgetsOfOne(s: RunState)
    requires s.pending != [] && !Batchable(s)
    ensures var budget := DelegationBudgetFor(s, s.pending[0]);
      && (forall r: Resource :: Spent(EffectBudgets(s), {}, r) == Spendable(budget, r))
      && (s.plan.tokenLimit.Some? ==> TokenBound(budget) == Some(Spendable(budget, Tokens)))
  {
    assert EffectBudgets(s)[..0] == [];
  }

  // ---------- Whole runs ----------

  ghost predicate Extends(tape: Tape, reports: seq<Report>) {
    forall i :: 0 <= i < |reports| ==> tape(i) == reports[i]
  }

  /** What the loop knows of a run that has cost the tree the difference of two costs. */
  ghost predicate OnBudget(s: RunState, start: Cost, now: Cost) {
    && start.attempts <= now.attempts <= start.attempts + CallLedger(s)
    && CallLedger(s) <= s.limit
    && start.tokens <= now.tokens
    && (s.plan.tokenLimit.Some? ==>
          && now.tokens <= start.tokens + s.plan.tokenLimit.value
          && now.tokens <= start.tokens + s.reservedTokens)
    && RoundCounted(s)
    && start.log <= now.log
    && UsageKept(s, start, now)
  }

  ghost predicate UsageKept(s: RunState, start: Cost, now: Cost) {
    Accurate(s.usage) && |s.usage.modelCalls| <= now.attempts - start.attempts
  }

  /** An ended run: within its limits, with usage that covers no call that was not made. */
  ghost predicate EndedOnBudget(s: RunState, start: Cost, now: Cost) {
    && start.attempts <= now.attempts <= start.attempts + s.limit
    && start.tokens <= now.tokens
    && (s.plan.tokenLimit.Some? ==> now.tokens <= start.tokens + s.plan.tokenLimit.value)
    && start.log <= now.log
    && UsageKept(s, start, now)
  }

  lemma ProviderCommitStaysOnBudget(
    serde: Serde, s: RunState, id: string, outcome: RunModel.Outcome, start: Cost, before: Cost, after: Cost)
    requires OnBudget(s, start, before) && IsProviderResult(outcome)
    requires Expects(s, id, outcome) && Charged(s, outcome, before, after) && AllowanceKept(s, before, after)
    ensures OnBudget(Commit(serde, s, id, outcome).value, start, after)
  {
    ApplyFrame(serde, s, Complete(id, outcome));
    CommittedUsageIsAccurate(serde, s, id, outcome);
    AllowanceFits(s);
    ProviderTokensStayOnBudget(serde, s, id, outcome, before, after);
    var reservation: U64 :| ExecutedAttempts(s, reservation, AttemptsOf(outcome));
    ProviderCommitChargesCalls(serde, s, id, outcome, reservation);
  }

  /** The token ledger never grows by less than what the attempts reserved. */
  lemma ProviderTokensStayOnBudget(
    serde: Serde, s: RunState, id: string, outcome: RunModel.Outcome, before: Cost, after: Cost)
    requires IsProviderResult(outcome) && Expects(s, id, outcome) && Charged(s, outcome, before, after)
    ensures Commit(serde, s, id, outcome).value.reservedTokens >= Min(s.reservedTokens + (after.tokens - before.tokens), U64_MAX)
  {
    var reservation: U64 :|
      && ExecutedAttempts(s, reservation, AttemptsOf(outcome))
      && after.tokens - before.tokens == Product(reservation, |AttemptsOf(outcome)|);
    ProviderCommitChargesTokens(serde, s, id, outcome, reservation);
    ProductOfOne(|AttemptsOf(outcome)|);
  }

  lemma ToolCommitStaysOnBudget(
    serde: Serde, s: RunState, id: string, outcome: RunModel.Outcome, start: Cost, before: Cost, after: Cost)
    requires OnBudget(s, start, before) && IsToolResult(outcome)
    requires Expects(s, id, outcome) && Charged(s, outcome, before, after) && AllowanceKept(s, before, after)
    ensures OnBudget(Commit(serde, s, id, outcome).value, start, after)
  {
    ApplyFrame(serde, s, Complete(id, outcome));
    ApplyKeepsRoundCounted(serde, s, Complete(id, outcome));
    CommittedUsageIsAccurate(serde, s, id, outcome);
    AllowanceFits(s);
    CallGrantsFit(s);
    ToolCommitCharges(serde, s, id, outcome, Calls);
    ToolCommitChargesTokens(serde, s, id, outcome);
    SpentWithinTotal(EffectBudgets(s), Calls);
    SpentWithinTotal(EffectBudgets(s), Tokens);
  }

  lemma CommitStaysOnBudget(
    serde: Serde, s: RunState, id: string, outcome: RunModel.Outcome, start: Cost, before: Cost, after: Cost)
    requires OnBudget(s, start, before)
    requires Expects(s, id, outcome) && Charged(s, outcome, before, after) && AllowanceKept(s, before, after)
    ensures OnBudget(Commit(serde, s, id, outcome).value, start, after)
  {
    if IsProviderResult(outcome) {
      ProviderCommitStaysOnBudget(serde, s, id, outcome, start, before, after);
    } else if IsToolResult(outcome) {
      ToolCommitStaysOnBudget(serde, s, id, outcome, start, before, after);
    } else {
      AbandonStaysAccurate(s.usage);
    }
  }

  /** An effect's allowance never exceeds what is left of either limit. Where the divisor
      clamps, the children are granted no calls, so their tokens cannot be spent either. */
  lemma AllowanceFits(s: RunState)
    requires RoundCounted(s)
    ensures Allowance(s, Calls) <= Remaining(s, Calls)
    ensures Allowance(s, Tokens) <= Remaining(s, Tokens)
  {
    if s.pending != [] {
      CallGrantsFit(s);
      EffectBudgetsFitIff(s, Calls);
      SpentWithinTotal(EffectBudgets(s), Calls);
      if Delegations(s) <= U32_MAX || !Batchable(s) {
        if Batchable(s) {
          UnclampedGrantsFit(s, Tokens);
        }
        EffectBudgetsFitIff(s, Tokens);
        SpentWithinTotal(EffectBudgets(s), Tokens);
      } else {
        SmallTotalsShareNothing(RemainingCalls(s), U32_MAX);
        NoCallsNoSpending(EffectBudgets(s), Tokens);
      }
    }
  }

  /** A turn that produced an outcome leaves the run on budget, however it goes on. */
  lemma TurnStaysOnBudget(
    serde: Serde, s: RunState, effect: Effect, report: Report, start: Cost, before: Cost, after: Cost)
    requires NextEffect(s) == Some(effect) && report.execution.Produced?
    requires var outcome := report.execution.outcome;
      && OnBudget(s, start, before)
      && Expects(s, effect.id, outcome) && Charged(s, outcome, before, after) && AllowanceKept(s, before, after)
    ensures OnBudget(TurnState(LocalAfter(serde, s, effect, report)), start, after)
  {
    var outcome := report.execution.outcome;
    var next := Commit(serde, s, effect.id, outcome).value;
    CommitIgnoresElapsed(serde, s, report.elapsedMs, effect.id, outcome);
    CommitStaysOnBudget(serde, s, effect.id, outcome, start, before, after);
    SmallChangesStayOnBudget(next, report.elapsedMs, start, after);
    CommittedTurnGoesOn(serde, s, effect, report, RecordElapsed(next, report.elapsedMs));
  }

  lemma SmallChangesStayOnBudget(s: RunState, ms: U64, start: Cost, now: Cost)
    requires OnBudget(s, start, now)
    ensures OnBudget(RecordElapsed(s, ms), start, now)
    ensures OnBudget(Cancel(RecordElapsed(s, ms)), start, now)
  {
    AbandonStaysAccurate(s.usage);
  }

  /** A turn that produced nothing still leaves the tree within the run's limits. */
  lemma BrokenTurnStaysOnBudget(
    serde: Serde, s: RunState, effect: Effect, report: Report, start: Cost, before: Cost, after: Cost)
    requires OnBudget(s, start, before) && AllowanceKept(s, before, after) && !report.execution.Produced?
    ensures EndedOnBudget(TurnState(LocalAfter(serde, s, effect, report)), start, after)
  {
    AllowanceFits(s);
    AbandonStaysAccurate(s.usage);
  }

  lemma IdleEndIsOnBudget(s: RunState, start: Cost, now: Cost)
    requires OnBudget(s, start, now)
    ensures EndedOnBudget(s, start, now)
    ensures EndedOnBudget(Cancel(s), start, now)
    ensures EndedOnBudget(FinishIfExhausted(s), start, now)
  {
    AbandonStaysAccurate(s.usage);
  }

  /** The second half of the loop body: record the time, commit, and decide how to go on. */
  method CommitTurn(state: AgentRunState, effect: Effect, outcome: RunModel.Outcome, elapsedMs: U64, expired: bool)
    returns (end: Option<LocalEnd>)
    modifies state, state.usage
    ensures var turn := LocalAfter(
        state.serde, old(state.Snapshot()), effect, Report(false, Produced(outcome), elapsedMs, expired));
      && state.Snapshot() == TurnState(turn)
      && end == TurnEnd(turn)
  {
    if effect.ProviderCall? && IsToolResult(outcome) {
      return Some(Aborted(state.Snapshot(), ProtocolError));
    }
    state.RecordElapsed(elapsedMs);
    var committed := state.CommitEffect(effect.id, outcome);
    if committed.Err? {
      return Some(Aborted(state.Snapshot(), ProtocolError));
    }
    if outcome.ProviderFailed? {
      return Some(Finished(state.Snapshot()));
    }
    if !effect.ProviderCall? && state.pending == [] {
      var valid := ValidateHistory(state.serde, state.history);
      if valid.Err? {
        return Some(Aborted(state.Snapshot(), InvalidHistory(valid.error)));
      }
    }
    if expired {
      state.Cancel();
      return Some(Finished(state.Snapshot()));
    }
    if state.text.Some? {
      return Some(Finished(state.Snapshot()));
    }
    return None;
  }

  /** The rest of a turn after its effect, in place, is the turn the drive makes of it. */
  method FinishTurn(
    state: AgentRunState, effect: Effect, outcome: Result<RunModel.Outcome, RunError>, elapsedMs: U64, expired: bool)
    returns (end: Option<LocalEnd>)
    modifies state, state.usage
    ensures var turn := LocalAfter(state.serde, old(state.Snapshot()), effect, ReportOf(outcome, elapsedMs, expired));
      state.Snapshot() == TurnState(turn) && end == TurnEnd(turn)
  {
    if outcome.Ok? {
      end := CommitTurn(state, effect, outcome.value, elapsedMs, expired);
    } else if outcome.error.CancelledRun? {
      state.Cancel();
      end := Some(Finished(state.Snapshot()));
    } else {
      state.Fail(ErrorText(outcome.error));
      end := Some(Aborted(state.Snapshot(), outcome.error));
    }
  }

  /** The drive from `start` has, after these reports, come to the drive from `s`. */
  ghost predicate Reached(serde: Serde, start: RunState, s: RunState, reports: seq<Report>) {
    forall tape: Tape {:trigger Extends(tape, reports)} :: Extends(tape, reports) ==>
      LocalDrive(serde, start, tape, 0) == LocalDrive(serde, s, tape, |reports|)
  }

  /** After these reports the drive from `start` is over, with this end. */
  ghost predicate Ends(serde: Serde, start: RunState, reports: seq<Report>, end: LocalEnd) {
    forall tape: Tape {:trigger Extends(tape, reports)} :: Extends(tape, reports) ==>
      LocalDrive(serde, start, tape, 0) == end
  }

  lemma ExtendsPrefix(tape: Tape, earlier: seq<Report>, report: Report)
    requires Extends(tape, earlier + [report])
    ensures Extends(tape, earlier) && tape(|earlier|) == report
  {
    var all := earlier + [report];
    assert tape(|earlier|) == all[|earlier|];
    forall i | 0 <= i < |earlier| ensures tape(i) == earlier[i] {
      assert tape(i) == all[i];
    }
  }

  /** A report that ends the loop before any effect is selected. */
  lemma EndsIdle(serde: Serde, start: RunState, s: RunState, earlier: seq<Report>, cancelled: bool)
    requires Reached(serde, start, s, earlier)
    requires cancelled || Exhausted(s) || NextEffect(s).None?
    ensures Ends(serde, start, earlier + [Report(cancelled, Interrupted, 0, false)],
                 Finished(if cancelled then Cancel(s) else FinishIfExhausted(s)))
  {
    var report := Report(cancelled, Interrupted, 0, false);
    forall tape: Tape | Extends(tape, earlier + [report])
      ensures LocalDrive(serde, start, tape, 0) == Finished(if cancelled then Cancel(s) else FinishIfExhausted(s))
    {
      ExtendsPrefix(tape, earlier, report);
    }
  }

  lemma FollowsTape(
    serde: Serde, start: RunState, s: RunState, earlier: seq<Report>, effect: Effect, report: Report, tape: Tape)
    requires Reached(serde, start, s, earlier) && Extends(tape, earlier + [report])
    requires !report.cancelledBefore && !Exhausted(s) && NextEffect(s) == Some(effect)
    ensures var turn := LocalAfter(serde, s, effect, report);
      LocalDrive(serde, start, tape, 0) ==
        if turn.Stop? then turn.end else LocalDrive(serde, turn.state, tape, |earlier + [report]|)
  {
    ExtendsPrefix(tape, earlier, report);
    DriveUnfolds(serde, s, tape, |earlier|, effect);
  }

  /** A report on a selected effect: the drive follows its turn. */
  lemma FollowsTurn(
    serde: Serde, start: RunState, s: RunState, earlier: seq<Report>, effect: Effect, report: Report)
    requires Reached(serde, start, s, earlier)
    requires !report.cancelledBefore && !Exhausted(s) && NextEffect(s) == Some(effect)
    ensures var turn := LocalAfter(serde, s, effect, report);
      && (turn.Stop? ==> Ends(serde, start, earlier + [report], turn.end))
      && (turn.Continue? ==> Reached(serde, start, turn.state, earlier + [report]))
  {
    var turn := LocalAfter(serde, s, effect, report);
    var reports := earlier + [report];
    forall tape: Tape | Extends(tape, reports)
      ensures LocalDrive(serde, start, tape, 0) ==
              if turn.Stop? then turn.end else LocalDrive(serde, turn.state, tape, |reports|)
    {
      FollowsTape(serde, start, s, earlier, effect, report, tape);
    }
  }

  /** One turn of the local loop: check for cancellation and exhaustion, select an effect,
      execute it, and commit what it produced. */
  method RunTurn(
    agent: Agent, state: AgentRunState, world: World, ghost start: RunState, ghost base: Cost,
    ghost earlier: seq<Report>)
    returns (end: Option<LocalEnd>, ghost report: Report)
    requires OnBudget(state.Snapshot(), base, world.cost)
    requires Reached(state.serde, start, state.Snapshot(), earlier)
    modifies world, state, state.usage
    ensures TurnDone(state.serde, start, old(state.Snapshot()), state.Snapshot(), base, world.cost, earlier + [report], end)
    ensures DepthKept(old(world.deepest), state.plan.maxDelegationDepth, world.deepest)
    ensures Judged(state.serde, old(state.Snapshot()), report, state.Snapshot(), end)
    ensures PlainSince(state.serde, world, old(world.cost)) ==> ReportKeeps(state.serde, report)
    ensures old(world.cost).log <= world.cost.log
    decreases agent, 3, 7
  {
    ghost var s := state.Snapshot();
    report := Report(false, Interrupted, 0, false);
    IdleEndIsOnBudget(s, base, world.cost);
    var before := world.Observe();
    if before.cancelled {
      report := Report(true, Interrupted, 0, false);
      EndsIdle(state.serde, start, s, earlier, true);
      state.Cancel();
      return Some(Finished(state.Snapshot())), report;
    }
    var exhausted := state.FinishIfExhausted();
    var effect := if exhausted then None else NextEffect(state.Snapshot());
    if effect.None? {
      EndsIdle(state.serde, start, s, earlier, false);
      return Some(Finished(state.Snapshot())), report;
    }
    end, report := ExecuteSelected(agent, state, effect.value, world, start, base, earlier);
  }

  /** Executes a selected effect, and reports on it. Whatever came of it, the turn the drive
      makes of the report leaves the run on budget and its history aligned. */
  method PerformEffect(
    serde: Serde, agent: Agent, s: RunState, effect: Effect, world: World, ghost start: RunState, ghost base: Cost,
    ghost earlier: seq<Report>)
    returns (outcome: Result<RunModel.Outcome, RunError>, elapsedMs: U64, expired: bool, ghost report: Report)
    requires OnBudget(s, base, world.cost) && Reached(serde, start, s, earlier)
    requires !Exhausted(s) && NextEffect(s) == Some(effect)
    modifies world
    ensures report == ReportOf(outcome, elapsedMs, expired)
    ensures var turn := LocalAfter(serde, s, effect, report);
      && TurnDone(serde, start, s, TurnState(turn), base, world.cost, earlier + [report], TurnEnd(turn))
      && Judged(serde, s, report, TurnState(turn), TurnEnd(turn))
    ensures PlainSince(serde, world, old(world.cost)) ==> ReportKeeps(serde, report)
    ensures old(world.cost).log <= world.cost.log
    ensures DepthKept(old(world.deepest), s.plan.maxDelegationDepth, world.deepest)
    decreases agent, 3, 5
  {
    ghost var spent := world.cost;
    outcome := ExecuteEffect(serde, agent, s, effect, world);
    ghost var cost := world.cost;
    var after := world.Observe();
    elapsedMs, expired := after.elapsedMs, after.wallClockExpired;
    report := ReportOf(outcome, elapsedMs, expired);
    if outcome.Err? {
      BrokenTurn(serde, start, s, earlier, effect, report, base, spent, cost);
      BrokenTurnIsJudged(serde, s, effect, outcome.error);
    } else {
      ProducedTurn(serde, start, s, earlier, effect, report, base, spent, cost);
      ProducedTurnIsJudged(serde, s, effect, report);
    }
  }

  function ReportOf(outcome: Result<RunModel.Outcome, RunError>, elapsedMs: U64, expired: bool): Report {
    if outcome.Ok? then Report(false, Produced(outcome.value), elapsedMs, expired)
    else Report(false, if outcome.error.CancelledRun? then Interrupted else Broken(outcome.error), 0, false)
  }

  /** The part of a turn that begins once an effect has been selected. */
  method ExecuteSelected(
    agent: Agent, state: AgentRunState, effect: Effect, world: World, ghost start: RunState, ghost base: Cost,
    ghost earlier: seq<Report>)
    returns (end: Option<LocalEnd>, ghost report: Report)
    requires OnBudget(state.Snapshot(), base, world.cost)
    requires Reached(state.serde, start, state.Snapshot(), earlier)
    requires !Exhausted(state.Snapshot()) && NextEffect(state.Snapshot()) == Some(effect)
    modifies world, state, state.usage
    ensures TurnDone(state.serde, start, old(state.Snapshot()), state.Snapshot(), base, world.cost, earlier + [report], end)
    ensures DepthKept(old(world.deepest), state.plan.maxDelegationDepth, world.deepest)
    ensures Judged(state.serde, old(state.Snapshot()), report, state.Snapshot(), end)
    ensures PlainSince(state.serde, world, old(world.cost)) ==> ReportKeeps(state.serde, report)
    ensures old(world.cost).log <= world.cost.log
    decreases agent, 3, 6
  {
    var outcome, elapsedMs, expired;
    outcome, elapsedMs, expired, report :=
      PerformEffect(state.serde, agent, state.Snapshot(), effect, world, start, base, earlier);
    end := FinishTurn(state, effect, outcome, elapsedMs, expired);
  }

  /** A turn ends the run within its limits and as the drive does, or it leaves a strictly
      smaller run that is still on budget and that the drive has reached. */
  ghost predicate TurnDone(
    serde: Serde, start: RunState, s: RunState, next: RunState, base: Cost, now: Cost, reports: seq<Report>,
    end: Option<LocalEnd>)
  {
    match end
    case Some(end) =>
      && EndedOnBudget(end.state, base, now)
      && end.state.plan == s.plan && end.state.limit == s.limit
      && Ends(serde, start, reports, end)
    case None =>
      && OnBudget(next, base, now)
      && Reached(serde, start, next, reports)
      && Below(next, s)
  }

  predicate ReportKeeps(serde: Serde, report: Report) {
    report.execution.Produced? ==> KeepsHistory(serde, report.execution.outcome)
  }

  predicate AllKeep(serde: Serde, reports: seq<Report>) {
    forall i :: 0 <= i < |reports| ==> ReportKeeps(serde, reports[i])
  }

  /** Nothing but a failed history validation can abort a run with this error. */
  predicate HistoryAborts(end: Option<LocalEnd>) {
    end.Some? && end.value.Aborted? && end.value.error.InvalidHistory?
  }

  /** A turn keeps an aligned history aligned, and is not aborted for its sake, exactly when
      what it commits keeps histories valid; a lost history stays lost. */
  ghost predicate Judged(serde: Serde, s: RunState, report: Report, next: RunState, end: Option<LocalEnd>) {
    var after := if end.Some? then end.value.state else next;
    && (Aligned(serde, s) ==>
          if ReportKeeps(serde, report) then Aligned(serde, after) && !HistoryAborts(end) else Lost(serde, after))
    && (Lost(serde, s) ==> Lost(serde, after))
  }

  lemma BrokenTurnIsJudged(serde: Serde, s: RunState, effect: Effect, error: RunError)
    requires error.InvalidHistory? ==> ValidateEffectState(serde, s).Err?
    ensures var report := ReportOf(Err(error), 0, false);
      var turn := LocalAfter(serde, s, effect, report);
      Judged(serde, s, report, TurnState(turn), TurnEnd(turn))
  {
    AlignedMeansValid(serde, s);
  }

  /** A turn whose outcome commits goes on from the committed state, cancelled at most, and
      is aborted only if the history no longer validates. */
  lemma CommittedTurnGoesOn(serde: Serde, s: RunState, effect: Effect, report: Report, next: RunState)
    requires NextEffect(s) == Some(effect) && report.execution.Produced?
    requires Expects(s, effect.id, report.execution.outcome)
    requires Commit(serde, RecordElapsed(s, report.elapsedMs), effect.id, report.execution.outcome) == Ok(next)
    ensures var turn := LocalAfter(serde, s, effect, report);
      && (TurnState(turn) == next || TurnState(turn) == Cancel(next))
      && ((next.pending == [] ==> ValidateHistory(serde, next.history).Ok?) && turn.Stop? ==> turn.end.Finished?)
  {
  }

  lemma TimedCommitIsJudged(serde: Serde, s: RunState, id: string, outcome: RunModel.Outcome, ms: U64)
    requires Expects(s, id, outcome)
    requires outcome.Provider? ==> ValidResponse(outcome.response, id)
    ensures var r := Commit(serde, RecordElapsed(s, ms), id, outcome);
      && r.Ok?
      && (Aligned(serde, s) ==>
            if KeepsHistory(serde, outcome) then
              Aligned(serde, r.value) && (r.value.pending == [] ==> ValidateHistory(serde, r.value.history).Ok?)
            else Lost(serde, r.value))
      && (Lost(serde, s) ==> Lost(serde, r.value))
  {
    CommitIgnoresElapsed(serde, s, ms, id, outcome);
    if Aligned(serde, s) {
      CommitAlignsIff(serde, s, id, outcome);
      AlignedMeansValid(serde, Commit(serde, RecordElapsed(s, ms), id, outcome).value);
    }
    if Lost(serde, s) {
      HistoriesOnlyGrow(serde, s, Complete(id, outcome));
      LostStaysLost(serde, s, Commit(serde, s, id, outcome).value);
    }
  }

  lemma ProducedTurnIsJudged(serde: Serde, s: RunState, effect: Effect, report: Report)
    requires NextEffect(s) == Some(effect) && report.execution.Produced?
    requires var outcome := report.execution.outcome;
      Expects(s, effect.id, outcome) && (outcome.Provider? ==> ValidResponse(outcome.response, effect.id))
    ensures var turn := LocalAfter(serde, s, effect, report);
      Judged(serde, s, report, TurnState(turn), TurnEnd(turn))
  {
    TimedCommitIsJudged(serde, s, effect.id, report.execution.outcome, report.elapsedMs);
    CommittedTurnGoesOn(
      serde, s, effect, report,
      Commit(serde, RecordElapsed(s, report.elapsedMs), effect.id, report.execution.outcome).value);
  }

  function TurnEnd(turn: LocalTurn): Option<LocalEnd> {
    if turn.Stop? then Some(turn.end) else None
  }

  lemma BrokenTurn(
    serde: Serde, start: RunState, s: RunState, earlier: seq<Report>, effect: Effect, report: Report,
    base: Cost, before: Cost, after: Cost)
    requires Reached(serde, start, s, earlier) && !report.cancelledBefore && !report.execution.Produced?
    requires !Exhausted(s) && NextEffect(s) == Some(effect)
    requires OnBudget(s, base, before) && AllowanceKept(s, before, after)
    ensures var turn := LocalAfter(serde, s, effect, report);
      TurnDone(serde, start, s, TurnState(turn), base, after, earlier + [report], TurnEnd(turn))
  {
    FollowsTurn(serde, start, s, earlier, effect, report);
    BrokenTurnStaysOnBudget(serde, s, effect, report, base, before, after);
  }

  lemma ProducedTurn(
    serde: Serde, start: RunState, s: RunState, earlier: seq<Report>, effect: Effect, report: Report,
    base: Cost, before: Cost, after: Cost)
    requires Reached(serde, start, s, earlier) && !report.cancelledBefore && report.execution.Produced?
    requires !Exhausted(s) && NextEffect(s) == Some(effect)
    requires var outcome := report.execution.outcome;
      && OnBudget(s, base, before)
      && Expects(s, effect.id, outcome) && Charged(s, outcome, before, after) && AllowanceKept(s, before, after)
    ensures var turn := LocalAfter(serde, s, effect, report);
      TurnDone(serde, start, s, TurnState(turn), base, after, earlier + [report], TurnEnd(turn))
  {
    var turn := LocalAfter(serde, s, effect, report);
    FollowsTurn(serde, start, s, earlier, effect, report);
    LocalTurnMakesProgress(serde, s, effect, report);
    TurnStaysOnBudget(serde, s, effect, report, base, before, after);
    IdleEndIsOnBudget(TurnState(turn), base, after);
    TurnKeepsPlan(serde, s, effect, report);
  }

  lemma TurnKeepsPlan(serde: Serde, s: RunState, effect: Effect, report: Report)
    ensures var next := TurnState(LocalAfter(serde, s, effect, report));
      next.plan == s.plan && next.limit == s.limit
  {
    if report.execution.Produced? {
      var timed := RecordElapsed(s, report.elapsedMs);
      ApplyFrame(serde, timed, Complete(effect.id, report.execution.outcome));
    }
  }

  /** The local run. Together with every run delegated beneath it, it starts at most
      `model_call_limit` provider attempts and reserves at most `token_limit` tokens; none of
      them is deeper than the delegation limit; its usage covers no more calls than were
      made; it ends exactly as `LocalDrive` says for the reports its effects produced, in the
      state a history of transitions reaches; and its own history validates if and only if
      all arguments committed are objects and all outputs can be read back. */
  method ExecuteRun(serde: Serde, agent: Agent, runId: string, message: string, options: RunOptions, world: World)
    returns (r: Result<LocalEnd, RunError>, ghost start: RunState, ghost reports: seq<Report>)
    modifies world
    ensures start == StartState(agent, runId, options.history + [UserMessage(message)], options)
    ensures 0 <= world.cost.attempts - old(world.cost).attempts <= options.modelCallLimit
    ensures old(world.cost).tokens <= world.cost.tokens
    ensures options.tokenLimit.Some? ==> world.cost.tokens - old(world.cost).tokens <= options.tokenLimit.value
    ensures old(world.cost).log <= world.cost.log
    ensures DepthKept(
              old(world.deepest), Max(options.delegationDepth, options.maxDelegationDepth), world.deepest)
    ensures r.Err? ==> world.cost == old(world.cost)
    ensures r.Ok? ==> UsageKept(r.value.state, old(world.cost), world.cost)
    ensures r.Ok? ==> Ends(serde, start, reports, r.value)
    ensures r.Ok? <==> ValidateHistory(serde, start.history).Ok?
    ensures r.Ok? ==>
      if AllKeep(serde, reports) then Aligned(serde, r.value.state) && !HistoryAborts(Some(r.value))
      else Lost(serde, r.value.state)
    ensures PlainSince(serde, world, old(world.cost)) ==> AllKeep(serde, reports)
    ensures r.Ok? ==> r.value.state == Run(serde, start, LocalTrace(serde, start, TapeOf(reports), 0))
    decreases agent, 4
  {
    var history := options.history + [UserMessage(message)];
    start := StartState(agent, runId, history, options);
    reports := [];
    world.deepest := Max(world.deepest, options.delegationDepth);
    var valid := ValidateHistory(serde, history);
    if valid.Err? {
      return Err(InvalidHistory(valid.error)), start, reports;
    }
    var initial := StartState(agent, runId, history, options);
    var state := new AgentRunState.WithPlan(serde, runId, history, initial.limit, initial.plan);
    NewUsageIsAccurate();
    AlignedMeansValid(serde, state.Snapshot());
    var end: Option<LocalEnd> := None;
    while end.None?
      invariant fresh(state) && fresh(state.usage) && state.serde == serde
      invariant state.plan == start.plan && state.limit == start.limit
      invariant DepthKept(
                  old(world.deepest), Max(options.delegationDepth, options.maxDelegationDepth), world.deepest)
      invariant end.None? ==>
        && OnBudget(state.Snapshot(), old(world.cost), world.cost)
        && Reached(serde, start, state.Snapshot(), reports)
      invariant end.Some? ==>
        && EndedOnBudget(end.value.state, old(world.cost), world.cost)
        && end.value.state.plan == start.plan && end.value.state.limit == start.limit
        && Ends(serde, start, reports, end.value)
      invariant RunJudged(serde, reports, state.Snapshot(), end)
      invariant PlainSince(serde, world, old(world.cost)) ==> AllKeep(serde, reports)
      decreases end.None?, IsActive(state.status), RemainingCalls(state.Snapshot()), |state.pending|
    {
      ghost var report;
      ghost var before := state.Snapshot();
      end, report := RunTurn(agent, state, world, start, old(world.cost), reports);
      NextReportIsJudged(serde, reports, before, report, state.Snapshot(), end);
      reports := reports + [report];
    }
    EndIsAHistory(serde, start, reports, end.value);
    return Ok(end.value), start, reports;
  }

  /** Where a run stands after these reports: its history is aligned if and only if all of
      them keep histories valid, and lost otherwise. */
  ghost predicate RunJudged(serde: Serde, reports: seq<Report>, s: RunState, end: Option<LocalEnd>) {
    var now := if end.Some? then end.value.state else s;
    if AllKeep(serde, reports) then Aligned(serde, now) && !HistoryAborts(end) else Lost(serde, now)
  }

  lemma NextReportIsJudged(
    serde: Serde, reports: seq<Report>, s: RunState, report: Report, next: RunState, end: Option<LocalEnd>)
    requires RunJudged(serde, reports, s, None) && Judged(serde, s, report, next, end)
    ensures RunJudged(serde, reports + [report], next, end)
    ensures AllKeep(serde, reports + [report]) <==> AllKeep(serde, reports) && ReportKeeps(serde, report)
  {
    var all := reports + [report];
    assert all[|reports|] == report;
    assert forall i :: 0 <= i < |reports| ==> all[i] == reports[i];
  }

  function TapeOf(reports: seq<Report>): Tape {
    (n: nat) => if n < |reports| then reports[n] else Report(true, Interrupted, 0, false)
  }

  /** A run that ended as the drive does is a history of transitions. */
  lemma EndIsAHistory(serde: Serde, start: RunState, reports: seq<Report>, end: LocalEnd)
    requires Ends(serde, start, reports, end)
    ensures end.state == Run(serde, start, LocalTrace(serde, start, TapeOf(reports), 0))
  {
    assert Extends(TapeOf(reports), reports);
    LocalRunIsAHistory(serde, start, TapeOf(reports), 0);
  }

  lemma NewUsageIsAccurate()
    ensures Accurate(RunUsage.New())
  {
    forall f: Field ensures AccurateAt(RunUsage.New(), f) {
    }
  }
}
