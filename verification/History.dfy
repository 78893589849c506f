/** Validation of canonical histories and provider responses, and why a run that its
    executor validates never fails that validation again. */
module History {
  import opened Prelude
  import opened Json
  import opened RunModel
  import opened CommitLaws

  datatype HistoryError =
    | InvalidShape
    | SystemMessage
    | CrossedToolCalls
    | DuplicateCallId
    | MissingCorrelation
    | UnknownCorrelation
    | OutOfOrderResult
    | NameMismatch
    | UnresolvedCalls
    | PendingMismatch

  /** Why an effect, or a whole local run, ends without an outcome. */
  datatype RunError =
    | CancelledRun
    | ConfigError
    | ContextLimit
    | CapabilityError
    | InvalidHistory(reason: HistoryError)
    | InvalidResponse(flaw: ResponseError)
    | ProtocolError

  function ErrorText(error: RunError): string {
    match error
    case CancelledRun => "run cancelled"
    case ConfigError => "invalid configuration"
    case ContextLimit => "context admission failed"
    case CapabilityError => "provider capability requirement not met"
    case _ => "provider protocol invalid"
  }

  /** One tool call the history still owes a result. */
  datatype Owed = Owed(id: string, name: string)

  // ---------- Message shapes ----------

  predicate ValidCallShape(call: ToolCall) {
    !Blank(call.id) && call.arguments.IsObject()
  }

  function CallsOf(message: Message): seq<ToolCall> {
    if message.toolCalls.Some? then message.toolCalls.value else []
  }

  predicate ValidShape(serde: Serde, message: Message) {
    match message.role
    case System => false
    case User =>
      message.content != [] && message.toolCalls.None? && message.toolCallId.None? && message.name.None?
    case Assistant =>
      && message.toolCallId.None?
      && message.name.None?
      && (message.content != []) != (CallsOf(message) != [])
      && forall i :: 0 <= i < |CallsOf(message)| ==> ValidCallShape(CallsOf(message)[i])
    case ToolRole =>
      && |message.content| == 1
      && message.content[0].Text?
      && serde.parses(message.content[0].text)
      && message.toolCalls.None?
      && message.toolCallId.Some?
      && !Blank(message.toolCallId.value)
      && message.name.Some?
  }

  // ---------- The calls a history still owes ----------

  function PushCalls(queue: seq<Owed>, calls: seq<ToolCall>): Result<seq<Owed>, HistoryError>
    decreases |calls|
  {
    if calls == [] then Ok(queue)
    else if exists i :: 0 <= i < |queue| && queue[i].id == calls[0].id then Err(DuplicateCallId)
    else PushCalls(queue + [Owed(calls[0].id, calls[0].name)], calls[1..])
  }

  function AfterMessage(serde: Serde, queue: seq<Owed>, message: Message): Result<seq<Owed>, HistoryError> {
    if !ValidShape(serde, message) then
      Err(if message.role.System? then SystemMessage else InvalidShape)
    else
      match message.role
      case System => Err(SystemMessage)
      case User => if queue == [] then Ok(queue) else Err(CrossedToolCalls)
      case Assistant => if queue == [] then PushCalls(queue, CallsOf(message)) else Err(CrossedToolCalls)
      case ToolRole =>
        if message.toolCallId.None? then Err(MissingCorrelation)
        else if queue == [] then Err(UnknownCorrelation)
        else if message.toolCallId.value != queue[0].id then Err(OutOfOrderResult)
        else if message.name != Some(queue[0].name) then Err(NameMismatch)
        else Ok(queue[1..])
  }

  function OwedCalls(serde: Serde, history: seq<Message>): Result<seq<Owed>, HistoryError> {
    if history == [] then Ok([])
    else
      var before := OwedCalls(serde, history[..|history| - 1]);
      if before.Err? then before else AfterMessage(serde, before.value, history[|history| - 1])
  }

  lemma OwedAfterAppend(serde: Serde, history: seq<Message>, message: Message)
    ensures OwedCalls(serde, history + [message]) ==
            var before := OwedCalls(serde, history);
            if before.Err? then before else AfterMessage(serde, before.value, message)
  {
    assert (history + [message])[..|history|] == history;
  }

  lemma {:induction false} BrokenPrefixBreaks(serde: Serde, history: seq<Message>, i: nat)
    requires i <= |history| && OwedCalls(serde, history[..i]).Err?
    ensures OwedCalls(serde, history) == OwedCalls(serde, history[..i])
  {
    if i == |history| {
      assert history[..i] == history;
    } else {
      assert history[..|history| - 1][..i] == history[..i];
      BrokenPrefixBreaks(serde, history[..|history| - 1], i);
    }
  }

  method PushHistoryCalls(queue: seq<Owed>, calls: seq<ToolCall>) returns (r: Result<seq<Owed>, HistoryError>)
    ensures r == PushCalls(queue, calls)
  {
    var pending := queue;
    for k := 0 to |calls|
      invariant PushCalls(queue, calls) == PushCalls(pending, calls[k..])
    {
      if exists i :: 0 <= i < |pending| && pending[i].id == calls[k].id {
        return Err(DuplicateCallId);
      }
      pending := pending + [Owed(calls[k].id, calls[k].name)];
    }
    return Ok(pending);
  }

  /** The scan the runtime performs, message by message over one mutable queue. */
  method PendingHistoryCalls(serde: Serde, history: seq<Message>) returns (r: Result<seq<Owed>, HistoryError>)
    ensures r == OwedCalls(serde, history)
  {
    var pending: seq<Owed> := [];
    for i := 0 to |history|
      invariant OwedCalls(serde, history[..i]) == Ok(pending)
    {
      var message := history[i];
      assert history[..i + 1] == history[..i] + [message];
      OwedAfterAppend(serde, history[..i], message);
      var step: Result<seq<Owed>, HistoryError>;
      if !ValidShape(serde, message) {
        step := Err(if message.role.System? then SystemMessage else InvalidShape);
      } else {
        match message.role {
          case System => step := Err(SystemMessage);
          case Assistant =>
            if pending != [] {
              step := Err(CrossedToolCalls);
            } else {
              step := PushHistoryCalls(pending, CallsOf(message));
            }
          case ToolRole =>
            if message.toolCallId.None? {
              step := Err(MissingCorrelation);
            } else if pending == [] {
              step := Err(UnknownCorrelation);
            } else if message.toolCallId.value != pending[0].id {
              step := Err(OutOfOrderResult);
            } else if message.name != Some(pending[0].name) {
              step := Err(NameMismatch);
            } else {
              step := Ok(pending[1..]);
            }
          case User =>
            step := if pending != [] then Err(CrossedToolCalls) else Ok(pending);
        }
      }
      if step.Err? {
        BrokenPrefixBreaks(serde, history, i + 1);
        return step;
      }
      pending := step.value;
    }
    assert history[..|history|] == history;
    return Ok(pending);
  }

  function ValidateHistory(serde: Serde, history: seq<Message>): Result<(), HistoryError> {
    var owed := OwedCalls(serde, history);
    if owed.Err? then Err(owed.error)
    else if owed.value == [] then Ok(())
    else Err(UnresolvedCalls)
  }

  function OwedBy(calls: seq<ModelToolCall>): seq<Owed> {
    seq(|calls|, i requires 0 <= i < |calls| => Owed(calls[i].callId, calls[i].name))
  }

  /** `validate_effect_state_history`: what the history owes is what the queue holds. */
  function ValidateEffectState(serde: Serde, s: RunState): Result<(), HistoryError> {
    var owed := OwedCalls(serde, s.history);
    if owed.Err? then Err(owed.error)
    else if |owed.value| != |s.pending| then Err(PendingMismatch)
    else if exists i :: 0 <= i < |s.pending| && Owed(s.pending[i].callId, s.pending[i].name) != owed.value[i] then
      Err(PendingMismatch)
    else Ok(())
  }

  predicate Aligned(serde: Serde, s: RunState) {
    OwedCalls(serde, s.history) == Ok(OwedBy(s.pending))
  }

  /** The history itself no longer validates. Histories only grow, so this is for good. */
  predicate Lost(serde: Serde, s: RunState) {
    OwedCalls(serde, s.history).Err?
  }

  lemma AlignedMeansValid(serde: Serde, s: RunState)
    ensures Aligned(serde, s) <==> ValidateEffectState(serde, s).Ok?
    ensures Aligned(serde, s) && s.pending == [] <==> ValidateHistory(serde, s.history).Ok? && ValidateEffectState(serde, s).Ok?
  {
    var owed := OwedCalls(serde, s.history);
    if ValidateEffectState(serde, s).Ok? {
      assert owed.value == OwedBy(s.pending);
    }
  }

  // ---------- Provider responses ----------

  datatype ResponseError = BlankText | MixedContent | FinishMismatch | MissingText | InvalidCallId | ForeignCall

  /** What the executor accepts: exactly one of non-blank text and tool calls, a matching
      finish reason, distinct non-blank call ids, and no foreign correlation. */
  predicate ValidResponse(response: ModelResponse, providerCallId: string) {
    && (response.text.Some? ==> !Blank(response.text.value))
    && (response.text.Some? <==> response.toolCalls == [])
    && (response.finishReason == if response.toolCalls == [] then Stop else ToolCalls)
    && (forall i :: 0 <= i < |response.toolCalls| ==> !Blank(response.toolCalls[i].callId))
    && DistinctIds(response.toolCalls)
    && (forall i :: 0 <= i < |response.toolCalls| && response.toolCalls[i].providerCallId.Some? ==>
          response.toolCalls[i].providerCallId.value == providerCallId)
  }

  method ValidateModelResponse(response: ModelResponse, providerCallId: string)
    returns (r: Result<(), ResponseError>)
    ensures r.Ok? <==> ValidResponse(response, providerCallId)
  {
    if response.text.Some? && Blank(response.text.value) {
      return Err(BlankText);
    }
    if response.text.Some? && response.toolCalls != [] {
      return Err(MixedContent);
    }
    if (response.finishReason.ToolCalls? && response.toolCalls == [])
       || (response.finishReason.Stop? && response.toolCalls != [])
       || response.finishReason.FinishError? {
      return Err(FinishMismatch);
    }
    if response.finishReason.Stop? && response.text.None? {
      return Err(MissingText);
    }
    var ids: set<string> := {};
    for k := 0 to |response.toolCalls|
      invariant ids == set i | 0 <= i < k :: response.toolCalls[i].callId
      invariant forall i, j :: 0 <= i < j < k ==> response.toolCalls[i].callId != response.toolCalls[j].callId
      invariant forall i :: 0 <= i < k ==> !Blank(response.toolCalls[i].callId)
      invariant forall i :: 0 <= i < k && response.toolCalls[i].providerCallId.Some? ==>
        response.toolCalls[i].providerCallId.value == providerCallId
    {
      var call := response.toolCalls[k];
      if Blank(call.callId) || call.callId in ids {
        return Err(InvalidCallId);
      }
      ids := ids + {call.callId};
      if call.providerCallId.Some? && call.providerCallId.value != providerCallId {
        return Err(ForeignCall);
      }
    }
    return Ok(());
  }

  predicate ObjectArguments(calls: seq<ModelToolCall>) {
    forall i :: 0 <= i < |calls| ==> calls[i].arguments.IsObject()
  }

  // ---------- Alignment along a run ----------

  lemma {:induction false} PushDistinct(queue: seq<Owed>, calls: seq<ModelToolCall>)
    requires DistinctIds(calls)
    requires forall i, j :: 0 <= i < |queue| && 0 <= j < |calls| ==> queue[i].id != calls[j].callId
    ensures PushCalls(queue, HistoryCalls(calls)) == Ok(queue + OwedBy(calls))
    decreases |calls|
  {
    if calls == [] {
      assert queue + OwedBy(calls) == queue;
    } else {
      var pushed := queue + [Owed(calls[0].callId, calls[0].name)];
      assert HistoryCalls(calls)[1..] == HistoryCalls(calls[1..]);
      PushDistinct(pushed, calls[1..]);
      assert queue + OwedBy(calls) == pushed + OwedBy(calls[1..]);
    }
  }

  lemma CallMessageShape(serde: Serde, calls: seq<ModelToolCall>)
    requires calls != [] && forall i :: 0 <= i < |calls| ==> !Blank(calls[i].callId)
    ensures ValidShape(serde, AssistantToolCalls(HistoryCalls(calls))) <==> ObjectArguments(calls)
  {
    var message := AssistantToolCalls(HistoryCalls(calls));
    assert CallsOf(message) == HistoryCalls(calls);
    if !ObjectArguments(calls) {
      var i :| 0 <= i < |calls| && !calls[i].arguments.IsObject();
      assert !ValidCallShape(CallsOf(message)[i]);
    }
  }

  /** Appending the message of distinct, non-blank calls to a history that owes nothing. */
  lemma CallsBecomeOwed(serde: Serde, history: seq<Message>, calls: seq<ModelToolCall>)
    requires OwedCalls(serde, history) == Ok([])
    requires calls != [] && DistinctIds(calls) && forall i :: 0 <= i < |calls| ==> !Blank(calls[i].callId)
    ensures var owed := OwedCalls(serde, history + [AssistantToolCalls(HistoryCalls(calls))]);
      if ObjectArguments(calls) then owed == Ok(OwedBy(calls)) else owed.Err?
  {
    OwedAfterAppend(serde, history, AssistantToolCalls(HistoryCalls(calls)));
    CallMessageShape(serde, calls);
    PushDistinct([], calls);
    assert [] + OwedBy(calls) == OwedBy(calls);
  }

  lemma TextOwesNothing(serde: Serde, history: seq<Message>, text: string)
    requires OwedCalls(serde, history) == Ok([])
    ensures OwedCalls(serde, history + [AssistantText(text)]) == Ok([])
  {
    OwedAfterAppend(serde, history, AssistantText(text));
  }

  /** What a committed response leaves in the history and in the queue. */
  lemma CommittedResponse(serde: Serde, s: RunState, id: string, response: ModelResponse, attempts: seq<ProviderAttempt>)
    requires Expects(s, id, Outcome.Provider(response, attempts))
    ensures s.pending == []
    ensures var next := Commit(serde, s, id, Outcome.Provider(response, attempts)).value;
      && next.pending == response.toolCalls
      && next.history == s.history + (
           if response.toolCalls != [] then [AssistantToolCalls(HistoryCalls(response.toolCalls))]
           else if response.text.Some? then [AssistantText(response.text.value)]
           else [])
  {
  }

  /** A validated response keeps the history aligned exactly when every tool call carries
      a JSON object as its arguments, which the response check itself does not ask. */
  lemma ValidatedResponseAlignsIff(
    serde: Serde, s: RunState, id: string, response: ModelResponse, attempts: seq<ProviderAttempt>,
    providerCallId: string)
    requires Expects(s, id, Outcome.Provider(response, attempts))
    requires Aligned(serde, s) && ValidResponse(response, providerCallId)
    ensures var next := Commit(serde, s, id, Outcome.Provider(response, attempts)).value;
      if ObjectArguments(response.toolCalls) then Aligned(serde, next) else Lost(serde, next)
  {
    CommittedResponse(serde, s, id, response, attempts);
    assert OwedBy([]) == [];
    if response.toolCalls != [] {
      CallsBecomeOwed(serde, s.history, response.toolCalls);
    } else {
      TextOwesNothing(serde, s.history, response.text.value);
    }
  }

  /** A response that passes validation and still breaks the run: one call whose arguments
      are `null`, answered to a fresh state. */
  lemma NullArgumentsBreakAlignment(serde: Serde, attempts: seq<ProviderAttempt>) returns (s: RunState, response: ModelResponse)
    ensures s == WithPlan("run", [], 1, Plan([], 0, 1, 1, None, 0, 4, None))
    ensures ValidResponse(response, ProviderEffectId("run", 0)) && Aligned(serde, s)
    ensures Expects(s, ProviderEffectId("run", 0), Outcome.Provider(response, attempts))
    ensures !Aligned(serde, Commit(serde, s, ProviderEffectId("run", 0), Outcome.Provider(response, attempts)).value)
  {
    s := WithPlan("run", [], 1, Plan([], 0, 1, 1, None, 0, 4, None));
    response := ModelResponse(None, [ModelToolCall("a", "t", Null, None)], None, ToolCalls);
    assert !IsWhitespace("a"[0]);
    assert OwedBy(s.pending) == [];
    assert !response.toolCalls[0].arguments.IsObject();
    ValidatedResponseAlignsIff(
      serde, s, ProviderEffectId("run", 0), response, attempts, ProviderEffectId("run", 0));
  }

  lemma {:induction false} OwedIdsAreUsable(serde: Serde, history: seq<Message>)
    requires OwedCalls(serde, history).Ok?
    ensures var owed := OwedCalls(serde, history).value;
      && (forall i :: 0 <= i < |owed| ==> !Blank(owed[i].id))
      && (forall i, j :: 0 <= i < j < |owed| ==> owed[i].id != owed[j].id)
  {
    if history != [] {
      var before := history[..|history| - 1];
      var message := history[|history| - 1];
      OwedIdsAreUsable(serde, before);
      if message.role.Assistant? {
        forall i | 0 <= i < |CallsOf(message)| ensures !Blank(CallsOf(message)[i].id) {
          assert ValidCallShape(CallsOf(message)[i]);
        }
        PushKeepsUsable([], CallsOf(message));
      }
    }
  }

  lemma {:induction false} PushKeepsUsable(queue: seq<Owed>, calls: seq<ToolCall>)
    requires PushCalls(queue, calls).Ok?
    requires forall i :: 0 <= i < |queue| ==> !Blank(queue[i].id)
    requires forall i, j :: 0 <= i < j < |queue| ==> queue[i].id != queue[j].id
    requires forall i :: 0 <= i < |calls| ==> !Blank(calls[i].id)
    ensures var owed := PushCalls(queue, calls).value;
      && (forall i :: 0 <= i < |owed| ==> !Blank(owed[i].id))
      && (forall i, j :: 0 <= i < j < |owed| ==> owed[i].id != owed[j].id)
    decreases |calls|
  {
    if calls != [] {
      PushKeepsUsable(queue + [Owed(calls[0].id, calls[0].name)], calls[1..]);
    }
  }

  /** An aligned queue has distinct call ids, so its effects have distinct identities. */
  lemma AlignedQueuesAreDistinct(serde: Serde, s: RunState)
    requires Aligned(serde, s)
    ensures DistinctIds(s.pending)
    ensures forall i :: 0 <= i < |s.pending| ==> !Blank(s.pending[i].callId)
  {
    OwedIdsAreUsable(serde, s.history);
    forall i | 0 <= i < |s.pending|
      ensures OwedBy(s.pending)[i].id == s.pending[i].callId
    {
    }
  }

  // ---------- Alignment along a run, and the ways to lose it ----------

  lemma LostStaysLost(serde: Serde, s: RunState, next: RunState)
    requires Lost(serde, s) && s.history <= next.history
    ensures Lost(serde, next)
  {
    assert next.history[..|s.history|] == s.history;
    BrokenPrefixBreaks(serde, next.history, |s.history|);
  }

  predicate AllRead(serde: Serde, results: seq<ToolEffectResult>) {
    forall i :: 0 <= i < |results| ==> serde.Reads(results[i].output)
  }

  /** Resolving a call keeps the history aligned exactly when the JSON library can read back
      what it rendered the output to. */
  lemma ResolveFirstAlignsIff(
    serde: Serde, s: RunState, result: ToolEffectResult, budget: Option<DelegationBudget>)
    requires Aligned(serde, s) && s.pending != []
    ensures var next := ResolveFirst(serde, s, result, budget);
      if serde.Reads(result.output) then Aligned(serde, next) else Lost(serde, next)
  {
    var call := s.pending[0];
    var message := ToolResultMessage(serde, call.callId, call.name, result.output);
    AlignedQueuesAreDistinct(serde, s);
    OwedAfterAppend(serde, s.history, message);
    OwedByTheRest(s.pending);
  }

  lemma OwedByTheRest(pending: seq<ModelToolCall>)
    requires pending != []
    ensures OwedBy(pending) != [] && OwedBy(pending)[0] == Owed(pending[0].callId, pending[0].name)
    ensures OwedBy(pending)[1..] == OwedBy(pending[1..])
  {
  }

  lemma {:induction false} ResolveAllAlignsIff(
    serde: Serde, s: RunState, results: seq<ToolEffectResult>, budgets: seq<Option<DelegationBudget>>)
    requires Aligned(serde, s)
    requires |results| == |budgets| <= |s.pending|
    ensures var next := ResolveAll(serde, s, results, budgets);
      if AllRead(serde, results) then Aligned(serde, next) else Lost(serde, next)
    decreases |results|
  {
    if results != [] {
      var next := ResolveFirst(serde, s, results[0], budgets[0]);
      ResolveFirstAlignsIff(serde, s, results[0], budgets[0]);
      if serde.Reads(results[0].output) {
        ResolveAllAlignsIff(serde, next, results[1..], budgets[1..]);
        assert AllRead(serde, results[1..]) <==> AllRead(serde, results) by {
          assert forall i :: 0 < i < |results| ==> results[i] == results[1..][i - 1];
        }
      } else {
        ResultsAnswerTheirCalls(serde, next, results[1..], budgets[1..]);
        LostStaysLost(serde, next, ResolveAll(serde, s, results, budgets));
      }
    }
  }

  /** What an outcome must be like for the history to stay valid: object arguments, and
      outputs the JSON library reads back. Neither is checked before the commit. */
  predicate KeepsHistory(serde: Serde, outcome: RunModel.Outcome) {
    match outcome
    case Provider(response, _) => ObjectArguments(response.toolCalls)
    case Tool(result) => serde.Reads(result.output)
    case Batch(outputs) => AllRead(serde, outputs)
    case _ => true
  }

  /** The responses a runtime commits are ones its executor validated; nothing is asked of
      any other transition. */
  predicate Validated(s: RunState, t: Transition) {
    AcceptsProvider(s, t) && t.outcome.Provider? ==> ValidResponse(t.outcome.response, t.id)
  }

  lemma CommitAlignsIff(serde: Serde, s: RunState, id: string, outcome: RunModel.Outcome)
    requires Aligned(serde, s) && Expects(s, id, outcome)
    requires outcome.Provider? ==> exists accepted :: ValidResponse(outcome.response, accepted)
    ensures var next := Commit(serde, s, id, outcome).value;
      if KeepsHistory(serde, outcome) then Aligned(serde, next) else Lost(serde, next)
  {
    match outcome {
      case Provider(response, attempts) =>
        var accepted :| ValidResponse(response, accepted);
        ValidatedResponseAlignsIff(serde, s, id, response, attempts, accepted);
      case Tool(result) =>
        ResolveFirstAlignsIff(serde, s, result, DelegationBudgetFor(s, s.pending[0]));
      case Batch(outputs) =>
        ResolveAllAlignsIff(serde, s, outputs, BatchReservations(s));
      case _ =>
    }
  }

  lemma HistoriesOnlyGrow(serde: Serde, s: RunState, t: Transition)
    ensures s.history <= Apply(serde, s, t).history
  {
    if Accepted(s, t) && t.outcome.Batch? {
      ResultsAnswerTheirCalls(serde, s, t.outcome.outputs, BatchReservations(s));
    }
  }

  predicate StepKeepsHistory(serde: Serde, s: RunState, t: Transition) {
    Accepted(s, t) ==> KeepsHistory(serde, t.outcome)
  }

  lemma ValidatedStepAlignsIff(serde: Serde, s: RunState, t: Transition)
    requires Aligned(serde, s) && Validated(s, t)
    ensures var next := Apply(serde, s, t);
      if StepKeepsHistory(serde, s, t) then Aligned(serde, next) else Lost(serde, next)
  {
    if Accepted(s, t) {
      CommitAlignsIff(serde, s, t.id, t.outcome);
    }
  }

  predicate RunKeepsHistory(serde: Serde, s: RunState, ts: seq<Transition>) {
    ts == [] ||
    (var n := |ts| - 1;
     RunKeepsHistory(serde, s, ts[..n]) && StepKeepsHistory(serde, Run(serde, s, ts[..n]), ts[n]))
  }

  predicate RunValidated(serde: Serde, s: RunState, ts: seq<Transition>) {
    ts == [] ||
    (var n := |ts| - 1;
     RunValidated(serde, s, ts[..n]) && Validated(Run(serde, s, ts[..n]), ts[n]))
  }

  lemma {:induction false} RunAlignsIff(serde: Serde, start: RunState, ts: seq<Transition>)
    requires Aligned(serde, start) && RunValidated(serde, start, ts)
    ensures var s := Run(serde, start, ts);
      if RunKeepsHistory(serde, start, ts) then Aligned(serde, s) else Lost(serde, s)
  {
    if ts != [] {
      var n := |ts| - 1;
      var before := Run(serde, start, ts[..n]);
      RunAlignsIff(serde, start, ts[..n]);
      if RunKeepsHistory(serde, start, ts[..n]) {
        ValidatedStepAlignsIff(serde, before, ts[n]);
      } else {
        HistoriesOnlyGrow(serde, before, ts[n]);
        LostStaysLost(serde, before, Apply(serde, before, ts[n]));
      }
    }
  }

  /** From any history `validate_history` accepts, a state a validating runtime reaches
      re-validates, its history owing exactly the pending calls in order, if and only if
      every response accepted so far had object arguments and every output could be read
      back. Otherwise the history is lost for good. */
  lemma ValidatedRunsStayAlignedIff(
    serde: Serde, runId: string, history: seq<Message>, limit: U32, plan: Plan, ts: seq<Transition>)
    requires ValidateHistory(serde, history).Ok?
    requires RunValidated(serde, WithPlan(runId, history, limit, plan), ts)
    ensures var start := WithPlan(runId, history, limit, plan);
      var s := Run(serde, start, ts);
      && (ValidateEffectState(serde, s).Ok? <==> RunKeepsHistory(serde, start, ts))
      && (Aligned(serde, s) <==> RunKeepsHistory(serde, start, ts))
      && (RunKeepsHistory(serde, start, ts) ==>
            DistinctIds(s.pending) && (s.pending == [] ==> ValidateHistory(serde, s.history).Ok?))
      && (!RunKeepsHistory(serde, start, ts) ==> Lost(serde, s))
  {
    var start := WithPlan(runId, history, limit, plan);
    assert OwedBy(start.pending) == [];
    RunAlignsIff(serde, start, ts);
    AlignedMeansValid(serde, Run(serde, start, ts));
    if RunKeepsHistory(serde, start, ts) {
      AlignedQueuesAreDistinct(serde, Run(serde, start, ts));
    }
  }

  // ---------- An output that cannot be read back ----------

  function Nested(levels: nat): Json {
    if levels == 0 then Null else Array([Nested(levels - 1)])
  }

  lemma {:induction false} NestedNests(levels: nat)
    ensures Nesting(Nested(levels)) == levels
  {
    if levels > 0 {
      NestedNests(levels - 1);
      var items := [Nested(levels - 1)];
      assert items[1..] == [] && DeepestItem(items) == Max(Nesting(items[0]), DeepestItem([]));
    }
  }

  lemma LawfulLibrariesExist() returns (serde: Serde)
    ensures serde.Lawful()
  {
    serde := Serde(value => if Nesting(value) <= MAX_NESTING then "{}" else "", text => text != "", request => 0);
  }

  /** One call with object arguments, and the run right after it was answered. */
  function AskedOnce(serde: Serde, limit: U32, attempts: seq<ProviderAttempt>): Result<RunState, TransitionError> {
    Commit(
      serde, WithPlan("run", [], limit, Plan([], 0, 1, 1, None, 0, 4, None)), ProviderEffectId("run", 0),
      Outcome.Provider(
        ModelResponse(None, [ModelToolCall("a", "t", Object([]), None)], None, ToolCalls), attempts))
  }

  lemma AskingOnceAligns(serde: Serde, limit: U32, attempts: seq<ProviderAttempt>)
    requires limit > 0
    ensures AskedOnce(serde, limit, attempts).Ok?
    ensures var s := AskedOnce(serde, limit, attempts).value;
      && Aligned(serde, s) && s.runId == "run" && s.plan.tools == [] && IsActive(s.status)
      && s.pending == [ModelToolCall("a", "t", Object([]), None)]
  {
    var start := WithPlan("run", [], limit, Plan([], 0, 1, 1, None, 0, 4, None));
    var response := ModelResponse(None, [ModelToolCall("a", "t", Object([]), None)], None, ToolCalls);
    assert !IsWhitespace("a"[0]);
    assert OwedBy(start.pending) == [];
    assert ValidResponse(response, ProviderEffectId("run", 0));
    ValidatedResponseAlignsIff(
      serde, start, ProviderEffectId("run", 0), response, attempts, ProviderEffectId("run", 0));
  }

  /** With object arguments everywhere: a tool that answers with 128 nested arrays leaves a
      history that no lawful library validates any more. */
  lemma DeepOutputsBreakAlignment(serde: Serde, limit: U32, attempts: seq<ProviderAttempt>)
    returns (result: ToolEffectResult)
    requires serde.Lawful() && limit > 0
    ensures result == ToolEffectResult(Nested(MAX_NESTING + 1), 1, None)
    ensures AskedOnce(serde, limit, attempts).Ok? && Aligned(serde, AskedOnce(serde, limit, attempts).value)
    ensures var r := Commit(serde, AskedOnce(serde, limit, attempts).value, ToolEffectId("run", "a"), Outcome.Tool(result));
      r.Ok? && Lost(serde, r.value) && ValidateEffectState(serde, r.value).Err?
  {
    result := ToolEffectResult(Nested(MAX_NESTING + 1), 1, None);
    AskingOnceAligns(serde, limit, attempts);
    var s := AskedOnce(serde, limit, attempts).value;
    NestedNests(MAX_NESTING + 1);
    assert !serde.Reads(result.output);
    SerialCommits(serde, s, result);
    CommitAlignsIff(serde, s, ToolEffectId("run", "a"), Outcome.Tool(result));
  }
}
