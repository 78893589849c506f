/** The effect boundary: one object standing for providers, tools, clocks and users, and
    the two retry loops that talk to it. */
module Executor {
  import opened Prelude
  import opened Json
  import opened Usage
  import opened RunModel
  import opened Limits
  import opened History

  /** Why context admission refuses a request. */
  datatype Refusal = OverContext | Unsupported
  {
    function AsRunError(): RunError {
      if OverContext? then ContextLimit else CapabilityError
    }
  }

  /** How one provider transport attempt ended. */
  datatype Attempt =
    | Responded(response: ModelResponse)
    | Errored(error: ProviderError, visibleDelta: bool)
  {
    /** Retrying is allowed only before anything became visible. */
    predicate Retriable() {
      Errored? && error.retryable && error.safeBeforeOutput && !visibleDelta
    }

    function ReportedUsage(): Option<TokenUsage> {
      match this
      case Responded(response) => response.usage
      case Errored(error, _) => error.usage
    }
  }

  /** How one tool invocation attempt ended. */
  datatype ToolAttempt =
    | Answered(output: Json)
    | ToolErrored(code: string, message: string, retryable: bool)
    | Panicked

  /** One reading of the outside: every field is chosen freely, and code looks only at the
      fields its situation calls for. */
  datatype Observation = Observation(
    cancelled: bool,
    promptTokens: Result<Option<U64>, Refusal>,
    attempt: Attempt,
    tool: ToolAttempt,
    argumentsMatch: bool,
    task: Option<string>,
    runId: string,
    elapsedMs: U64,
    wallClockExpired: bool)

  datatype ToolRun = ToolRun(call: ToolEffectCall, result: Result<ToolEffectResult, RunError>)

  /** What a run tree has cost so far: provider transport attempts started by any of its
      runs, their reservations, and the tool executions in the order they finished. */
  datatype Cost = Cost(attempts: nat, tokens: nat, log: seq<ToolRun>)

  /** The outside of a whole run tree. Its tape is arbitrary, so whatever is proved of code
      reading from it holds for every behaviour of providers, tools, users and clocks. */
  class World {
    const tape: nat -> Observation
    var clock: nat
    ghost var cost: Cost
    /** The deepest delegation level any run of the tree was started at. */
    ghost var deepest: nat

    constructor (tape: nat -> Observation)
      ensures this.tape == tape && cost == Cost(0, 0, []) && deepest == 0
    {
      this.tape := tape;
      clock := 0;
      cost := Cost(0, 0, []);
      deepest := 0;
    }

    method Observe() returns (o: Observation)
      modifies this`clock
      ensures exists n :: o == tape(n)
    {
      o := tape(clock);
      clock := clock + 1;
    }

    method StartAttempt(reservation: U64) returns (o: Observation)
      modifies this`clock, this`cost
      ensures cost == Cost(old(cost).attempts + 1, old(cost).tokens + reservation, old(cost).log)
      ensures exists n :: o == tape(n)
    {
      cost := Cost(cost.attempts + 1, cost.tokens + reservation, cost.log);
      o := Observe();
    }

    /** Every tool call any provider asks for has a JSON object as its arguments. */
    ghost predicate AsksWithObjects() {
      forall n :: tape(n).attempt.Responded? ==> ObjectArguments(tape(n).attempt.response.toolCalls)
    }
  }

  // ---------- Provider attempts ----------

  /** The attempt records the executor reports for what it saw. */
  function AttemptRecords(seen: seq<Attempt>, reservation: U64): seq<ProviderAttempt>
    requires |seen| <= U8_MAX
  {
    seq(|seen|, i requires 0 <= i < |seen| => ProviderAttempt(i + 1, seen[i].ReportedUsage(), reservation))
  }

  /** A reported outcome fits the attempts seen: all but the last could be retried, the
      last one decided, and a retriable failure is final only once attempts ran out. */
  predicate Decided(s: RunState, seen: seq<Attempt>, reservation: U64, id: string, outcome: RunModel.Outcome) {
    && 1 <= |seen| <= U8_MAX
    && (forall i :: 0 <= i < |seen| - 1 ==> seen[i].Retriable())
    && AttemptsOf(outcome) == AttemptRecords(seen, reservation)
    && match outcome
       case Provider(response, _) => seen[|seen| - 1] == Responded(response) && ValidResponse(response, id)
       case ProviderFailed(error, _) =>
         && seen[|seen| - 1].Errored? && seen[|seen| - 1].error == error
         && (seen[|seen| - 1].Retriable() ==> AllowedAttempts(s, reservation) <= |seen|)
       case _ => false
  }

  lemma RecordsAppend(seen: seq<Attempt>, last: Attempt, reservation: U64)
    requires |seen| < U8_MAX
    ensures AttemptRecords(seen + [last], reservation) ==
            AttemptRecords(seen, reservation) + [ProviderAttempt(|seen| + 1, last.ReportedUsage(), reservation)]
  {
  }

  lemma DecidedIsExecuted(s: RunState, seen: seq<Attempt>, reservation: U64, id: string, outcome: RunModel.Outcome)
    requires Decided(s, seen, reservation, id, outcome) && Admitted(s, reservation)
    requires |seen| <= Max(1, AllowedAttempts(s, reservation))
    ensures ExecutedAttempts(s, reservation, AttemptsOf(outcome))
  {
  }

  /** What each attempt will reserve: under a hard limit the provider's own prompt bound plus
      the output reserve, without one the byte-length bound. */
  method ReservationPerAttempt(serde: Serde, s: RunState, world: World)
    returns (r: Result<U64, RunError>, ghost prompt: Result<Option<U64>, Refusal>)
    modifies world`clock
    ensures exists n :: prompt == world.tape(n).promptTokens
    ensures r == (
              if prompt.Err? then Err(prompt.error.AsRunError())
              else if s.plan.tokenLimit.None? then Ok(NextModelTokenReservation(serde, s))
              else if prompt.value.None? then Err(ContextLimit)
              else Ok(SatAdd64(prompt.value.value, s.plan.maxOutputTokens)))
  {
    var before := world.Observe();
    prompt := before.promptTokens;
    if before.promptTokens.Err? {
      return Err(before.promptTokens.error.AsRunError()), prompt;
    }
    if s.plan.tokenLimit.None? {
      return Ok(NextModelTokenReservation(serde, s)), prompt;
    }
    if before.promptTokens.value.None? {
      return Err(ContextLimit), prompt;
    }
    return Ok(SatAdd64(before.promptTokens.value.value, s.plan.maxOutputTokens)), prompt;
  }

  /** What the attempts seen so far have cost. */
  predicate AttemptsCost(seen: seq<Attempt>, reservation: U64, before: Cost, after: Cost) {
    after == Cost(before.attempts + |seen|, before.tokens + Product(reservation, |seen|), before.log)
  }

  /** An outcome of the attempts, as the state's next effect expects it. */
  predicate AttemptsOutcome(
    s: RunState, id: string, seen: seq<Attempt>, reservation: U64, r: Result<RunModel.Outcome, RunError>)
  {
    match r
    case Ok(outcome) =>
      && IsProviderResult(outcome)
      && Decided(s, seen, reservation, id, outcome)
      && ExecutedAttempts(s, reservation, AttemptsOf(outcome))
    case Err(error) => !error.InvalidHistory?
  }

  /** The attempt loop, once the reservation has been admitted. */
  method AttemptProvider(s: RunState, id: string, reserve: U64, world: World)
    returns (r: Result<RunModel.Outcome, RunError>, ghost seen: seq<Attempt>)
    requires ProviderReady(s) && Admitted(s, reserve)
    modifies world`clock, world`cost
    ensures AttemptsCost(seen, reserve, old(world.cost), world.cost)
    ensures 1 <= |seen| <= Max(1, AllowedAttempts(s, reserve))
    ensures AttemptsOutcome(s, id, seen, reserve, r)
    ensures r.Ok? && r.value.Provider? && world.AsksWithObjects() ==> ObjectArguments(r.value.response.toolCalls)
  {
    seen := [];
    var allowed := AllowedAttempts(s, reserve);
    var attempt: U8 := 1;
    var attempts: seq<ProviderAttempt> := [];
    while true
      invariant 1 <= attempt <= Max(1, allowed)
      invariant |seen| == attempt - 1
      invariant forall i :: 0 <= i < |seen| ==> seen[i].Retriable()
      invariant attempts == AttemptRecords(seen, reserve)
      invariant AttemptsCost(seen, reserve, old(world.cost), world.cost)
      decreases U8_MAX - attempt
    {
      var o := world.StartAttempt(reserve);
      RecordsAppend(seen, o.attempt, reserve);
      seen := seen + [o.attempt];
      if o.cancelled {
        return Err(CancelledRun), seen;
      }
      match o.attempt {
        case Responded(response) =>
          var valid := ValidateModelResponse(response, id);
          if valid.Err? {
            return Err(InvalidResponse(valid.error)), seen;
          }
          attempts := attempts + [ProviderAttempt(attempt, response.usage, reserve)];
          r := Ok(RunModel.Outcome.Provider(response, attempts));
          DecidedIsExecuted(s, seen, reserve, id, r.value);
          return r, seen;
        case Errored(error, visibleDelta) =>
          attempts := attempts + [ProviderAttempt(attempt, error.usage, reserve)];
          if error.retryable && error.safeBeforeOutput && !visibleDelta && attempt < allowed {
            var waiting := world.Observe();
            if waiting.cancelled {
              return Err(CancelledRun), seen;
            }
            attempt := attempt + 1;
          } else {
            r := Ok(RunModel.Outcome.ProviderFailed(error, attempts));
            DecidedIsExecuted(s, seen, reserve, id, r.value);
            return r, seen;
          }
      }
    }
  }

  method ExecuteProvider(serde: Serde, s: RunState, effect: Effect, world: World)
    returns (r: Result<RunModel.Outcome, RunError>, ghost seen: seq<Attempt>, ghost reservation: U64)
    requires effect.ProviderCall? && NextEffect(s) == Some(effect)
    modifies world`clock, world`cost
    ensures AttemptsCost(seen, reservation, old(world.cost), world.cost)
    ensures |seen| <= RemainingCalls(s)
    ensures s.plan.tokenLimit.Some? ==> Product(reservation, |seen|) <= RemainingTokens(s, s.plan.tokenLimit.value)
    ensures r.Ok? ==> Expects(s, effect.id, r.value)
    ensures r.Ok? && IsProviderResult(r.value) ==>
      Decided(s, seen, reservation, effect.id, r.value) && ExecutedAttempts(s, reservation, AttemptsOf(r.value))
    ensures r.Ok? && !IsProviderResult(r.value) ==>
      r.value == RunModel.Outcome.ProviderBudgetExhausted(reservation) && seen == [] && !Admitted(s, reservation)
    ensures r.Ok? && r.value.Provider? && world.AsksWithObjects() ==> ObjectArguments(r.value.response.toolCalls)
    ensures r.Err? ==> !r.error.InvalidHistory?
  {
    seen, reservation := [], 0;
    var bound, _ := ReservationPerAttempt(serde, s, world);
    if bound.Err? {
      return Err(bound.error), seen, reservation;
    }
    var reserve := bound.value;
    reservation := reserve;
    if s.plan.tokenLimit.Some? && reserve > RemainingTokens(s, s.plan.tokenLimit.value) {
      return Ok(RunModel.Outcome.ProviderBudgetExhausted(reserve)), seen, reservation;
    }
    r, seen := AttemptProvider(s, effect.id, reserve, world);
    AdmittedAttemptsFit(s, reserve, |seen|);
  }

  // ---------- Tool attempts ----------

  function ErrorJson(code: string, message: string): Json {
    Object([Member("error", Object([Member("code", Json.String(code)), Member("message", Json.String(message))]))])
  }

  function ErrorResult(code: string, message: string, attempts: U8, usage: Option<RunUsage>): ToolEffectResult {
    ToolEffectResult(ErrorJson(code, message), attempts, usage)
  }

  function NotFound(): ToolEffectResult {
    ErrorResult("tool_not_found", "tool not found", 0, None)
  }

  function InvalidArguments(): ToolEffectResult {
    ErrorResult("invalid_arguments", "tool arguments do not match the declared schema", 0, None)
  }

  function ToolOutput(last: ToolAttempt): Json {
    match last
    case Answered(output) => output
    case ToolErrored(code, message, _) => ErrorJson(code, message)
    case Panicked => ErrorJson("tool_panicked", "tool execution failed")
  }

  predicate Repeatable(policy: ToolPolicy, attempt: ToolAttempt) {
    attempt.ToolErrored? && attempt.retryable && policy.idempotent
  }

  /** A tool is invoked again only after a retryable error of an idempotent tool, and never
      more often than its policy allows. */
  method ExecuteToolEffect(policy: ToolPolicy, world: World)
    returns (r: Result<ToolEffectResult, RunError>, ghost seen: seq<ToolAttempt>)
    modifies world`clock
    ensures |seen| <= Max(1, policy.maxAttempts)
    ensures forall i :: 0 <= i < |seen| - 1 ==> Repeatable(policy, seen[i])
    ensures r.Err? ==> r.error == CancelledRun
    ensures r.Ok? ==>
      && seen != []
      && r.value == ToolEffectResult(ToolOutput(seen[|seen| - 1]), |seen|, None)
      && (Repeatable(policy, seen[|seen| - 1]) ==>
            policy.maxAttempts <= |seen|)
  {
    seen := [];
    var attempt: U8 := 1;
    while true
      invariant 1 <= attempt <= Max(1, policy.maxAttempts)
      invariant |seen| == attempt - 1
      invariant forall i :: 0 <= i < |seen| ==> Repeatable(policy, seen[i])
      decreases U8_MAX - attempt
    {
      var o := world.Observe();
      if o.cancelled {
        return Err(CancelledRun), seen;
      }
      ghost var retried := seen;
      seen := retried + [o.tool];
      assert forall i :: 0 <= i < |seen| - 1 ==> seen[i] == retried[i];
      match o.tool {
        case Panicked =>
          return Ok(ErrorResult("tool_panicked", "tool execution failed", attempt, None)), seen;
        case Answered(output) =>
          return Ok(ToolEffectResult(output, attempt, None)), seen;
        case ToolErrored(code, message, retryable) =>
          if retryable && policy.idempotent && attempt < policy.maxAttempts {
            var waiting := world.Observe();
            if waiting.cancelled {
              return Err(CancelledRun), seen;
            }
            attempt := attempt + 1;
          } else {
            return Ok(ErrorResult(code, message, attempt, None)), seen;
          }
      }
    }
  }
}
