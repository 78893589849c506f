/** The run state as the runtimes hold it: one object updated in place.
    Every method is proved against the transition of the same name in `RunModel`. */
module AgentRun {
  import opened Prelude
  import opened Usage
  import opened RunModel

  type Outcome = RunModel.Outcome

  class AgentRunState {
    const serde: Serde
    const runId: string
    const plan: Plan
    const limit: U32
    var history: seq<Message>
    const usage: UsageAccumulator
    var modelCalls: U32
    var callsStarted: U32
    var elapsedMs: U64
    var reservedChildCalls: U32
    var reservedTokens: U64
    var pending: seq<ModelToolCall>
    var status: RunStatus
    var text: Option<string>
    var error: Option<string>

    function Snapshot(): RunState
      reads this, usage
    {
      RunState(runId, plan, history, usage.Value(), limit, modelCalls, callsStarted, elapsedMs,
               reservedChildCalls, reservedTokens, pending, status, text, error)
    }

    constructor WithPlan(serde: Serde, runId: string, history: seq<Message>, limit: U32, plan: Plan)
      ensures this.serde == serde && fresh(usage)
      ensures Snapshot() == RunModel.WithPlan(runId, history, limit, plan)
    {
      this.serde := serde;
      this.runId := runId;
      this.plan := plan;
      this.limit := limit;
      this.history := history;
      usage := new UsageAccumulator.New();
      modelCalls := 0;
      callsStarted := 0;
      elapsedMs := 0;
      reservedChildCalls := 0;
      reservedTokens := 0;
      pending := [];
      status := RunStatus.Pending;
      text := None;
      error := None;
    }

    method RecordElapsed(ms: U64)
      modifies this`elapsedMs
      ensures Snapshot() == RunModel.RecordElapsed(old(Snapshot()), ms)
    {
      elapsedMs := SatAdd64(elapsedMs, ms);
    }

    method Cancel()
      modifies this, usage
      ensures Snapshot() == RunModel.Cancel(old(Snapshot()))
    {
      if IsActive(status) {
        status := RunStatus.Cancelled;
        usage.Abandon();
      }
    }

    method Fail(message: string)
      modifies this, usage
      ensures Snapshot() == RunModel.Fail(old(Snapshot()), message)
    {
      if IsActive(status) {
        status := RunStatus.Failed;
        error := Some(message);
      }
    }

    method FinishIfExhausted() returns (finished: bool)
      modifies this, usage
      ensures finished == Exhausted(old(Snapshot()))
      ensures Snapshot() == RunModel.FinishIfExhausted(old(Snapshot()))
    {
      if IsActive(status) && plan.deadlineMs.Some? && elapsedMs >= plan.deadlineMs.value {
        Cancel();
        return true;
      }
      if IsActive(status) && pending == [] && NoProviderBudget(Snapshot()) {
        status := RunStatus.Incomplete;
        usage.Abandon();
        return true;
      }
      return false;
    }

    method ReserveProviderAttemptTokens(attempts: seq<ProviderAttempt>)
      modifies this`reservedTokens
      ensures Snapshot() == old(Snapshot()).(
                reservedTokens := SatAdd64(old(reservedTokens), AttemptReservation(serde, old(Snapshot()), attempts)))
    {
      var total: Option<U64> := Some(0);
      var i := 0;
      while i < |attempts| && total.Some?
        invariant 0 <= i <= |attempts|
        invariant total.Some? ==> FoldReservations(attempts, 0) == FoldReservations(attempts[i..], total.value)
        invariant total.None? ==> FoldReservations(attempts, 0).None?
        decreases |attempts| - i, total.Some?
      {
        total := if attempts[i].reservedTokens > 0 then Some(SatAdd64(total.value, attempts[i].reservedTokens)) else None;
        i := i + 1;
      }
      var reservation: U64;
      if attempts != [] && total.Some? {
        reservation := total.value;
      } else {
        reservation := SatMul64(NextModelTokenReservation(serde, Snapshot()), ProviderCallCount(attempts));
      }
      reservedTokens := SatAdd64(reservedTokens, reservation);
    }

    method RecordProviderAttempts(attempts: seq<ProviderAttempt>, fallback: Option<TokenUsage>)
      modifies usage
      ensures Snapshot() == old(Snapshot()).(usage := RecordAttempts(old(usage.Value()), attempts, fallback))
    {
      if attempts == [] {
        usage.AddCall("model", fallback);
      } else {
        for i := 0 to |attempts|
          invariant AddAttempts(old(usage.Value()), attempts) == AddAttempts(usage.Value(), attempts[i..])
        {
          usage.AddCall("model", attempts[i].usage);
        }
      }
    }

    method ChargeProvider(attempts: seq<ProviderAttempt>, fallback: Option<TokenUsage>)
      modifies this`reservedTokens, this`callsStarted, this`modelCalls, usage
      ensures Snapshot() == RunModel.ChargeProvider(serde, old(Snapshot()), attempts, fallback)
    {
      ReserveProviderAttemptTokens(attempts);
      callsStarted := SatAdd32(Max(callsStarted, modelCalls), ProviderCallCount(attempts));
      modelCalls := SatAdd32(modelCalls, 1);
      RecordProviderAttempts(attempts, fallback);
    }

    method CommitProviderResponse(id: string, response: ModelResponse, attempts: seq<ProviderAttempt>)
      returns (r: Result<(), TransitionError>)
      modifies this, usage
      ensures Committed(old(Snapshot()), id, Outcome.Provider(response, attempts), r, Snapshot())
    {
      if !Expects(Snapshot(), id, Outcome.Provider(response, attempts)) {
        return Err(UnexpectedEffect(id, ExpectedId(Snapshot())));
      }
      status := RunStatus.Running;
      ChargeProvider(attempts, response.usage);
      if response.toolCalls != [] {
        history := history + [AssistantToolCalls(HistoryCalls(response.toolCalls))];
        pending := response.toolCalls;
      } else if response.text.Some? {
        history := history + [AssistantText(response.text.value)];
        text := response.text;
        status := RunStatus.Completed;
      } else {
        status := RunStatus.Incomplete;
        usage.Abandon();
      }
      return Ok(());
    }

    method CommitProviderFailure(id: string, failure: ProviderError, attempts: seq<ProviderAttempt>)
      returns (r: Result<(), TransitionError>)
      modifies this, usage
      ensures Committed(old(Snapshot()), id, Outcome.ProviderFailed(failure, attempts), r, Snapshot())
    {
      if !Expects(Snapshot(), id, Outcome.ProviderFailed(failure, attempts)) {
        return Err(UnexpectedEffect(id, ExpectedId(Snapshot())));
      }
      ChargeProvider(attempts, failure.usage);
      Fail(failure.message);
      return Ok(());
    }

    method ReserveChild(reservation: Option<DelegationBudget>)
      modifies this`reservedChildCalls, this`reservedTokens
      ensures Snapshot() == RunModel.ReserveChild(old(Snapshot()), reservation)
    {
      if reservation.Some? {
        var tokens := reservation.value.tokenLimit;
        reservedChildCalls := SatAdd32(reservedChildCalls, reservation.value.modelCallLimit);
        reservedTokens := SatAdd64(reservedTokens, if tokens.Some? then tokens.value else 0);
      }
    }

    /** One step of a tool commit: merge, reserve, append the result, drop the head. */
    method ResolveFirst(result: ToolEffectResult, reservation: Option<DelegationBudget>)
      requires pending != []
      modifies this, usage
      ensures Snapshot() == RunModel.ResolveFirst(serde, old(Snapshot()), result, reservation)
    {
      var call := pending[0];
      if result.childUsage.Some? {
        usage.MergeChild(result.childUsage.value);
      }
      ReserveChild(reservation);
      history := history + [ToolResultMessage(serde, call.callId, call.name, result.output)];
      pending := pending[1..];
    }

    method CommitToolResult(id: string, result: ToolEffectResult) returns (r: Result<(), TransitionError>)
      modifies this, usage
      ensures Committed(old(Snapshot()), id, Outcome.Tool(result), r, Snapshot())
    {
      var reservation := if pending == [] then None else DelegationBudgetFor(Snapshot(), pending[0]);
      if !Expects(Snapshot(), id, Outcome.Tool(result)) {
        return Err(UnexpectedEffect(id, ExpectedId(Snapshot())));
      }
      if pending == [] {
        assert false;
      } else {
        ResolveFirst(result, reservation);
      }
      return Ok(());
    }

    method CommitToolBatch(id: string, outputs: seq<ToolEffectResult>) returns (r: Result<(), TransitionError>)
      modifies this, usage
      ensures Committed(old(Snapshot()), id, Outcome.Batch(outputs), r, Snapshot())
    {
      var reservations := BatchReservations(Snapshot());
      if !Expects(Snapshot(), id, Outcome.Batch(outputs)) {
        return Err(UnexpectedEffect(id, ExpectedId(Snapshot())));
      }
      ghost var target := ResolveAll(serde, Snapshot(), outputs, reservations);
      for i := 0 to |outputs|
        invariant |pending| == |outputs| - i
        invariant ResolveAll(serde, Snapshot(), outputs[i..], reservations[i..]) == target
      {
        if pending == [] {
          assert false;
        } else {
          ResolveFirst(outputs[i], reservations[i]);
        }
      }
      return Ok(());
    }

    /** The accepted completion is exactly the model's; a rejected one changes no field. */
    ghost predicate Committed(
      before: RunState, id: string, outcome: Outcome, r: Result<(), TransitionError>, after: RunState)
    {
      match Commit(serde, before, id, outcome)
      case Ok(next) => r.Ok? && after == next
      case Err(error) => r == Err(error) && after == before
    }

    method CommitEffect(id: string, outcome: Outcome) returns (r: Result<(), TransitionError>)
      modifies this, usage
      ensures Committed(old(Snapshot()), id, outcome, r, Snapshot())
    {
      match outcome {
        case Provider(response, attempts) =>
          r := CommitProviderResponse(id, response, attempts);
        case ProviderFailed(failure, attempts) =>
          r := CommitProviderFailure(id, failure, attempts);
        case ProviderBudgetExhausted(_) =>
          if !Expects(Snapshot(), id, outcome) {
            return Err(UnexpectedEffect(id, ExpectedId(Snapshot())));
          }
          status := RunStatus.Incomplete;
          usage.Abandon();
          r := Ok(());
        case Tool(result) =>
          r := CommitToolResult(id, result);
        case Batch(outputs) =>
          r := CommitToolBatch(id, outputs);
      }
    }
  }
}
