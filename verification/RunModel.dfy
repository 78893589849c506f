/** The durable run state as a value: what the next effect is, and what each
    completion turns the state into. `AgentRun.AgentRunState` is the in-place form. */
module RunModel {
  import opened Prelude
  import opened Json
  import opened Usage
  import Decimal

  // ---------- Data ----------

  datatype RunStatus = Pending | Running | Completed | Incomplete | Failed | Cancelled

  predicate IsActive(status: RunStatus) {
    status.Pending? || status.Running?
  }

  datatype MessageRole = System | User | Assistant | ToolRole

  datatype Content = Text(text: string) | Image(url: string)

  datatype ToolCall = ToolCall(id: string, name: string, arguments: Json)

  datatype Message = Message(
    role: MessageRole,
    content: seq<Content>,
    toolCalls: Option<seq<ToolCall>>,
    toolCallId: Option<string>,
    name: Option<string>)

  function UserMessage(text: string): Message {
    Message(User, [Text(text)], None, None, None)
  }

  function AssistantText(text: string): Message {
    Message(Assistant, [Text(text)], None, None, None)
  }

  function AssistantToolCalls(calls: seq<ToolCall>): Message {
    Message(Assistant, [], Some(calls), None, None)
  }

  function ToolResultMessage(serde: Serde, callId: string, name: string, output: Json): Message {
    Message(ToolRole, [Text(serde.render(output))], None, Some(callId), Some(name))
  }

  datatype ModelToolCall = ModelToolCall(
    callId: string, name: string, arguments: Json, providerCallId: Option<string>)

  datatype FinishReason = Stop | ToolCalls | FinishError(message: string)

  datatype ModelResponse = ModelResponse(
    text: Option<string>,
    toolCalls: seq<ModelToolCall>,
    usage: Option<TokenUsage>,
    finishReason: FinishReason)

  datatype ProviderError = ProviderError(
    message: string, usage: Option<TokenUsage>, retryable: bool, safeBeforeOutput: bool)

  datatype ProviderAttempt = ProviderAttempt(attempt: U8, usage: Option<TokenUsage>, reservedTokens: U64)

  datatype ToolPolicy = ToolPolicy(
    name: string, idempotent: bool, maxAttempts: U8, parallelSafe: bool, delegation: bool)

  datatype Plan = Plan(
    tools: seq<ToolPolicy>,
    maxOutputTokens: U64,
    providerMaxAttempts: U8,
    maxParallelToolCalls: nat,
    deadlineMs: Option<U64>,
    delegationDepth: U8,
    maxDelegationDepth: U8,
    tokenLimit: Option<U64>)
  {
    function Policy(name: string): Option<ToolPolicy> {
      FindPolicy(tools, name)
    }

    predicate IsDelegation(name: string) {
      var policy := Policy(name);
      policy.Some? && policy.value.delegation
    }

    predicate IsParallelSafe(name: string) {
      var policy := Policy(name);
      policy.Some? && policy.value.parallelSafe
    }
  }

  function FindPolicy(tools: seq<ToolPolicy>, name: string): Option<ToolPolicy> {
    if tools == [] then None
    else if tools[0].name == name then Some(tools[0])
    else FindPolicy(tools[1..], name)
  }

  datatype ModelRequest = ModelRequest(
    messages: seq<Message>, tools: seq<ToolPolicy>, maxOutputTokens: U64, invocationId: string)

  /** The JSON library as the run sees it: rendering a value, recognising JSON text,
      and the serialized size of a request. */
  datatype Serde = Serde(
    render: Json -> string,
    parses: string -> bool,
    requestBytes: ModelRequest -> nat)
  {
    /** The library can read back what it renders this value to. */
    predicate Reads(value: Json) {
      parses(render(value))
    }

    /** Rendering has no depth limit; reading refuses what is nested more deeply than its
        recursion limit allows, and nothing else that was rendered. */
    ghost predicate Lawful() {
      forall value: Json :: Reads(value) <==> Nesting(value) <= MAX_NESTING
    }
  }

  /** The reader's recursion limit is 128, and the 128th level is refused. */
  const MAX_NESTING: nat := 127

  datatype DelegationBudget = DelegationBudget(modelCallLimit: U32, tokenLimit: Option<U64>)

  datatype ToolInvocation = ToolInvocation(
    runId: string, invocationId: string, providerCallId: Option<string>, toolName: string, modelRound: U32,
    idempotencyKey: string)

  datatype ToolEffectCall = ToolEffectCall(
    invocation: ToolInvocation, arguments: Json, policy: Option<ToolPolicy>, budget: Option<DelegationBudget>)

  datatype Effect =
    | ProviderCall(id: string, round: U32, request: ModelRequest)
    | ToolCallEffect(id: string, call: ToolEffectCall)
    | ToolBatch(id: string, calls: seq<ToolEffectCall>)

  datatype ToolEffectResult = ToolEffectResult(output: Json, attempts: U8, childUsage: Option<RunUsage>)

  datatype Outcome =
    | Provider(response: ModelResponse, attempts: seq<ProviderAttempt>)
    | ProviderFailed(error: ProviderError, attempts: seq<ProviderAttempt>)
    | ProviderBudgetExhausted(requiredTokens: U64)
    | Tool(result: ToolEffectResult)
    | Batch(outputs: seq<ToolEffectResult>)

  datatype TransitionError = UnexpectedEffect(received: string, expected: Option<string>)

  datatype RunState = RunState(
    runId: string,
    plan: Plan,
    history: seq<Message>,
    usage: RunUsage,
    limit: U32,
    modelCalls: U32,
    callsStarted: U32,
    elapsedMs: U64,
    reservedChildCalls: U32,
    reservedTokens: U64,
    pending: seq<ModelToolCall>,
    status: RunStatus,
    text: Option<string>,
    error: Option<string>)

  function WithPlan(runId: string, history: seq<Message>, limit: U32, plan: Plan): RunState {
    RunState(runId, plan, history, RunUsage.New(), limit, 0, 0, 0, 0, 0, [], RunStatus.Pending, None, None)
  }

  // ---------- Effect selection ----------

  function ProviderEffectId(runId: string, round: U32): string {
    runId + ":provider:" + Decimal.Render(round)
  }

  function ToolEffectId(runId: string, callId: string): string {
    runId + ":tool:" + callId
  }

  function BatchEffectId(runId: string, callId: string): string {
    runId + ":tool-batch:" + callId
  }

  /** Provider calls started by the run itself plus calls reserved for its children. */
  function CallsCommitted(s: RunState): nat {
    SatAdd32(Max(s.callsStarted, s.modelCalls), s.reservedChildCalls)
  }

  function RemainingCalls(s: RunState): (r: nat)
    ensures r <= s.limit
  {
    SatSub(s.limit, CallsCommitted(s))
  }

  function RemainingTokens(s: RunState, limit: U64): (r: nat)
    ensures r <= limit
  {
    SatSub(limit, s.reservedTokens)
  }

  predicate NoProviderBudget(s: RunState) {
    || CallsCommitted(s) >= s.limit
    || (s.plan.tokenLimit.Some? && s.reservedTokens >= s.plan.tokenLimit.value)
  }

  function DelegationCount(plan: Plan, calls: seq<ModelToolCall>): (n: nat)
    ensures n <= |calls|
  {
    if calls == [] then 0
    else (if plan.IsDelegation(calls[0].name) then 1 else 0) + DelegationCount(plan, calls[1..])
  }

  function Divisor(s: RunState): (d: nat)
    ensures d > 0
  {
    Min(DelegationCount(s.plan, s.pending) + 1, U32_MAX)
  }

  function DelegationBudgetFor(s: RunState, call: ModelToolCall): Option<DelegationBudget> {
    if !s.plan.IsDelegation(call.name) then None
    else
      Some(DelegationBudget(
             Share(RemainingCalls(s), Divisor(s)),
             if s.plan.tokenLimit.None? then None
             else Some(Share(RemainingTokens(s, s.plan.tokenLimit.value), Divisor(s)))))
  }

  function EffectCall(s: RunState, call: ModelToolCall): ToolEffectCall {
    ToolEffectCall(
      ToolInvocation(
        s.runId,
        ToolEffectId(s.runId, call.callId),
        call.providerCallId,
        call.name,
        SatSub(s.modelCalls, 1),
        s.runId + ":" + call.callId),
      call.arguments,
      s.plan.Policy(call.name),
      DelegationBudgetFor(s, call))
  }

  predicate ParallelQueue(plan: Plan, calls: seq<ModelToolCall>) {
    |calls| > 1 && forall i :: 0 <= i < |calls| ==> plan.IsParallelSafe(calls[i].name)
  }

  predicate Batchable(s: RunState) {
    ParallelQueue(s.plan, s.pending)
  }

  function NextRequest(s: RunState, effectId: string): ModelRequest {
    ModelRequest(s.history, s.plan.tools, s.plan.maxOutputTokens, effectId)
  }

  function NextEffect(s: RunState): Option<Effect> {
    if !IsActive(s.status) then None
    else if s.pending != [] then
      if Batchable(s) then
        Some(ToolBatch(BatchEffectId(s.runId, s.pending[0].callId),
                       seq(|s.pending|, i requires 0 <= i < |s.pending| => EffectCall(s, s.pending[i]))))
      else
        Some(ToolCallEffect(ToolEffectId(s.runId, s.pending[0].callId), EffectCall(s, s.pending[0])))
    else if NoProviderBudget(s) then None
    else
      var id := ProviderEffectId(s.runId, s.modelCalls);
      Some(ProviderCall(id, s.modelCalls, NextRequest(s, id)))
  }

  // ---------- Transitions ----------

  function RecordElapsed(s: RunState, ms: U64): RunState {
    s.(elapsedMs := SatAdd64(s.elapsedMs, ms))
  }

  function Cancel(s: RunState): RunState {
    if IsActive(s.status) then
      s.(status := RunStatus.Cancelled, usage := s.usage.(complete := false))
    else s
  }

  function Fail(s: RunState, message: string): RunState {
    if IsActive(s.status) then s.(status := RunStatus.Failed, error := Some(message)) else s
  }

  function MarkIncomplete(s: RunState): RunState {
    s.(status := RunStatus.Incomplete, usage := s.usage.(complete := false))
  }

  predicate DeadlineReached(s: RunState) {
    IsActive(s.status) && s.plan.deadlineMs.Some? && s.elapsedMs >= s.plan.deadlineMs.value
  }

  predicate BudgetReached(s: RunState) {
    IsActive(s.status) && s.pending == [] && NoProviderBudget(s)
  }

  predicate Exhausted(s: RunState) {
    DeadlineReached(s) || BudgetReached(s)
  }

  function FinishIfExhausted(s: RunState): RunState {
    if DeadlineReached(s) then Cancel(s)
    else if BudgetReached(s) then MarkIncomplete(s)
    else s
  }

  function ProviderCallCount(attempts: seq<ProviderAttempt>): U32 {
    Max(Min(|attempts|, U32_MAX), 1)
  }

  /** The sum of the attempts' reservations, provided every one of them is positive. */
  function ProviderDerived(attempts: seq<ProviderAttempt>): Option<U64> {
    if attempts == [] then None else FoldReservations(attempts, 0)
  }

  function FoldReservations(attempts: seq<ProviderAttempt>, total: U64): Option<U64> {
    if attempts == [] then Some(total)
    else if attempts[0].reservedTokens > 0 then
      FoldReservations(attempts[1..], SatAdd64(total, attempts[0].reservedTokens))
    else None
  }

  function NextModelTokenReservation(serde: Serde, s: RunState): U64 {
    var request := NextRequest(s, ProviderEffectId(s.runId, s.modelCalls));
    SatAdd64(SatAdd64(0, serde.requestBytes(request)), s.plan.maxOutputTokens)
  }

  function AttemptReservation(serde: Serde, s: RunState, attempts: seq<ProviderAttempt>): U64 {
    var derived := ProviderDerived(attempts);
    if derived.Some? then derived.value
    else SatMul64(NextModelTokenReservation(serde, s), ProviderCallCount(attempts))
  }

  function AddAttempts(usage: RunUsage, attempts: seq<ProviderAttempt>): RunUsage
    decreases |attempts|
  {
    if attempts == [] then usage
    else AddAttempts(usage.AddCall("model", attempts[0].usage), attempts[1..])
  }

  function RecordAttempts(usage: RunUsage, attempts: seq<ProviderAttempt>, fallback: Option<TokenUsage>): RunUsage {
    if attempts == [] then usage.AddCall("model", fallback) else AddAttempts(usage, attempts)
  }

  /** The accounting that success and failure of a provider effect have in common. */
  function ChargeProvider(
    serde: Serde, s: RunState, attempts: seq<ProviderAttempt>, fallback: Option<TokenUsage>): RunState
  {
    s.(reservedTokens := SatAdd64(s.reservedTokens, AttemptReservation(serde, s, attempts)),
       callsStarted := SatAdd32(Max(s.callsStarted, s.modelCalls), ProviderCallCount(attempts)),
       modelCalls := SatAdd32(s.modelCalls, 1),
       usage := RecordAttempts(s.usage, attempts, fallback))
  }

  function HistoryCall(call: ModelToolCall): ToolCall {
    ToolCall(call.callId, call.name, call.arguments)
  }

  function HistoryCalls(calls: seq<ModelToolCall>): seq<ToolCall> {
    seq(|calls|, i requires 0 <= i < |calls| => HistoryCall(calls[i]))
  }

  function AcceptResponse(s: RunState, response: ModelResponse): RunState {
    if response.toolCalls != [] then
      s.(history := s.history + [AssistantToolCalls(HistoryCalls(response.toolCalls))],
         pending := response.toolCalls)
    else if response.text.Some? then
      s.(history := s.history + [AssistantText(response.text.value)],
         text := response.text,
         status := RunStatus.Completed)
    else MarkIncomplete(s)
  }

  function CommitResponse(
    serde: Serde, s: RunState, response: ModelResponse, attempts: seq<ProviderAttempt>): RunState
  {
    AcceptResponse(ChargeProvider(serde, s.(status := RunStatus.Running), attempts, response.usage), response)
  }

  function CommitFailure(
    serde: Serde, s: RunState, error: ProviderError, attempts: seq<ProviderAttempt>): RunState
  {
    Fail(ChargeProvider(serde, s, attempts, error.usage), error.message)
  }

  function ReserveChild(s: RunState, reservation: Option<DelegationBudget>): RunState {
    if reservation.None? then s
    else
      var tokens := reservation.value.tokenLimit;
      s.(reservedChildCalls := SatAdd32(s.reservedChildCalls, reservation.value.modelCallLimit),
         reservedTokens := SatAdd64(s.reservedTokens, if tokens.Some? then tokens.value else 0))
  }

  /** Resolves the first pending call with one result, charging the given reservation. */
  function ResolveFirst(
    serde: Serde, s: RunState, result: ToolEffectResult, reservation: Option<DelegationBudget>): RunState
    requires s.pending != []
  {
    var call := s.pending[0];
    var merged := if result.childUsage.Some? then s.usage.MergeChild(result.childUsage.value) else s.usage;
    ReserveChild(s.(usage := merged), reservation)
      .(history := s.history + [ToolResultMessage(serde, call.callId, call.name, result.output)],
        pending := s.pending[1..])
  }

  function ResolveAll(
    serde: Serde, s: RunState, results: seq<ToolEffectResult>, reservations: seq<Option<DelegationBudget>>): RunState
    requires |results| == |reservations| <= |s.pending|
    decreases |results|
  {
    if results == [] then s
    else ResolveAll(serde, ResolveFirst(serde, s, results[0], reservations[0]), results[1..], reservations[1..])
  }

  function BatchReservations(s: RunState): seq<Option<DelegationBudget>> {
    seq(|s.pending|, i requires 0 <= i < |s.pending| => DelegationBudgetFor(s, s.pending[i]))
  }

  function ExpectedId(s: RunState): Option<string> {
    var effect := NextEffect(s);
    if effect.Some? then Some(effect.value.id) else None
  }

  predicate Expects(s: RunState, id: string, outcome: Outcome) {
    var effect := NextEffect(s);
    && effect.Some?
    && effect.value.id == id
    && match outcome
       case Provider(_, _) => effect.value.ProviderCall?
       case ProviderFailed(_, _) => effect.value.ProviderCall?
       case ProviderBudgetExhausted(_) => effect.value.ProviderCall?
       case Tool(_) => effect.value.ToolCallEffect?
       case Batch(outputs) => effect.value.ToolBatch? && |effect.value.calls| == |outputs|
  }

  function Commit(serde: Serde, s: RunState, id: string, outcome: Outcome): Result<RunState, TransitionError> {
    if !Expects(s, id, outcome) then Err(UnexpectedEffect(id, ExpectedId(s)))
    else
      Ok(match outcome
         case Provider(response, attempts) => CommitResponse(serde, s, response, attempts)
         case ProviderFailed(error, attempts) => CommitFailure(serde, s, error, attempts)
         case ProviderBudgetExhausted(_) => MarkIncomplete(s)
         case Tool(result) => ResolveFirst(serde, s, result, DelegationBudgetFor(s, s.pending[0]))
         case Batch(outputs) => ResolveAll(serde, s, outputs, BatchReservations(s)))
  }
}
