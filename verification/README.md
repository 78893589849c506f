# Agentive: a verified model of the agent runtime

Agentive runs language-model agents as a durable state machine: a run state picks its next
effect (a provider call, a tool call, or a parallel batch of tool calls), an executor carries
the effect out with bounded retries, and a commit folds the outcome back into the state. The
same machine is driven by a local loop and by a Temporal workflow, and a tool may delegate to
a child agent whose whole run happens inside one tool effect. Beside it stand the external
payload pipeline of the Temporal adapter and several smaller protocols. This project models
those parts in Dafny and proves what they are for.

`dafny verify dfyconfig.toml` checks everything.

## How the project is laid out

| file | modules | part of the repository |
|---|---|---|
| `Prelude.dfy` | `Prelude`, `Decimal`, `Json` | saturating integers, decimal rendering, JSON values |
| `Usage.dfy` | `Usage` | token usage with unknown measurements |
| `RunModel.dfy` | `RunModel` | the run state as a value: next effect, every transition |
| `AgentRun.dfy` | `AgentRun` | the run state as an object updated in place, proved against `RunModel` |
| `CommitLaws.dfy` | `CommitLaws` | exactly-once, absorbing and coherent commits over all histories |
| `Ledger.dfy` | `Ledger` | fair division of budgets, batch against serial |
| `Limits.dfy` | `Limits` | admission of attempts, both hard limits, termination |
| `History.dfy` | `History` | canonical history, response validation, alignment with the queue |
| `Executor.dfy` | `Executor` | the outside world, the provider and tool retry loops |
| `Drivers.dfy` | `Drivers` | the local loop, the workflow, Continue-As-New, agreement of both |
| `RunTree.dfy` | `RunTree` | batches in chunks, delegation, whole run trees |
| `Schema.dfy` | `KeyedPaths`, `Schema` | the recursive tool-schema check |
| `Storage.dfy` | `Storage`, `ImmutableFiles` | object keys, in-memory store, the filesystem protocol |
| `Pipeline.dfy` | `Pipeline` | the codec chain, references, batches, building |
| `Cancellation.dfy` | `Cancellation` | the cancellation token |
| `CodexTurn.dfy` | `CodexTurn` | the Codex turn collector |
| `Instructions.dfy` | `Instructions` | instructions rendered as XML |

## How to read it

Code that updates an object or loops over mutable locals is a class or a method with loops
(`AgentRunState`, `UsageAccumulator`, `AgentiveWorkflow`, `PayloadPipeline`, `InMemoryStorage`,
`RefStack`, `CodexSession`, `XmlWriter`, and the loops of `Executor` and `RunTree`). Each such
method is proved equal to a specification function, and the properties are proved about that
function over every run, history, trace or input.

Everything outside a run is a tape of arbitrary observations held by `Executor.World`: what a
provider answers, whether a tool fails, whether a user cancels, how long an effect took. Nothing
is assumed about the tape, so what is proved holds for every behaviour of the outside. Whether
histories keep validating depends on what arrives; there the results are equivalences between
the outcomes committed and the history they leave. Protocols between threads or processes
(`ImmutableFiles`, `Cancellation`) are state machines whose interleaved steps are all allowed.

JSON text, request sizes, SHA-256, codecs and the pipeline fingerprint are function-valued
parameters. The only laws asked of them are stated where used. `RunModel.Serde.Lawful` says that
rendered JSON can be read back if and only if it nests at most 127 levels, since rendering has no
depth limit and reading has one; it is used only where that number matters, and everything else
about histories holds for any JSON library. Payloads and references survive their serialisation
(`Pipeline.Formats.Lawful`), and a codec's reader undoes its writer (`Pipeline.Inverts`).

## Where the code does less than one might expect

Each of these comes with the exact condition, proved, and with an input at which it happens.

* A history stops validating, for good, in two ways: a response that passes
  `validate_model_response` asks for a tool with arguments that are not a JSON object, or a tool
  answers with a value nested so deeply that its rendered text cannot be read back, 128 levels
  with the real library. `History.CommitAlignsIff` and, over whole runs,
  `History.ValidatedRunsStayAlignedIff` show that these are the only two;
  `History.NullArgumentsBreakAlignment` and `History.DeepOutputsBreakAlignment` show each
  happening. The workflow does not re-validate after tools, so there the two drivers part:
  `Drivers.DriversAgreeUnlessLost` and `Drivers.DeepOutputsPartDrivers`.
* A provider that counts zero prompt tokens under a plan that reserves no output makes the token
  ledger fall back to the request's byte length, which can overrun `token_limit`:
  `Limits.TokenLimitSurvivesIff` and `Limits.ZeroReservationOverrunsTokenLimit`.
* The divisor of a batch of delegations clamps at the largest 32-bit value, so with more
  delegations than that the shares can overdraw the token ledger. `Limits.TokenLimitSurvivesToolsIff`
  gives the exact condition for a state, `Ledger.ClampIsHarmlessIff` the exact number of delegations
  for all states, and `Limits.ClampedBatchOverrunsTokenLimit` a run. The call ledger
  never suffers (`Limits.CallGrantsFit`). In neither case does the tree spend more than its
  limits: `RunTree.ExecuteRun` needs no positive reservation and no bound on calls.
* Commits are exactly-once per round if and only if the calls that run one at a time have
  distinct ids; calls that run as one batch share one effect id and may repeat. The commit itself
  checks neither: `CommitLaws.ToolEffectsRepeatIff` and `CommitLaws.RepeatedIdsCommitTwice`.
  Validating runtimes always have distinct ids (`History.AlignedQueuesAreDistinct`).
* An encoded payload cannot be read back when an intermediate form exceeds the decoded-payload
  limit or a transformed payload is empty, and encoding accepts both.
  `Pipeline.OldReferencesStillDecode` proves these are the only ways; `Pipeline.LongFormsAreLost`
  and `Pipeline.EmptyFormsAreLost` give a pipeline for any payload.
* A `cancel` that finds a reason already recorded may return while a waiter is still parked
  (`Cancellation.LosingCancelMayReturnFirst`); the recording one may not
  (`Cancellation.ParkedIffNotNotified`).
* The schema check does not see all of a schema. An object schema without properties is asked
  nothing about what it is composed of; a schema that describes objects while its `type` is not
  just the string `object`, a nullable object for instance, is asked nothing about its properties
  and may let unknown fields in; and nothing beside a reference is looked at. Acceptance covers
  every part if and only if whatever these shapes hide, at any depth, would pass the check on its
  own (`Schema.AcceptanceCoversAllIff`); it does whenever the walk meets none of the three shapes
  (`Schema.OpenSchemasAreCovered`). `Schema.ComposedOnlyPasses`, `Schema.NullablePasses` and
  `Schema.BesideReferencePasses` show each shape passing with a part that fails on its own.

## Model

| member | source | states |
|---|---|---|
| Decimal.RenderInjective | crates/agentive/src/state/effects.rs:103-104 | Two rounds never render to the same text, so a round number inside an effect id identifies the round. |
| Usage.UsageAccumulator.AddCall | crates/agentive/src/usage.rs:97-120 | One call is recorded in place: first report taken over, later ones merged, a missing report only marks incompleteness. |
| Usage.UsageAccumulator.MergeChild | crates/agentive/src/usage.rs:123-133 | A child's usage is merged in place, an empty child or an empty parent leaving the other's aggregate as it is. |
| Usage.ReportedSumOfConcat | crates/agentive/src/usage.rs:122-133 | What two lists of calls report adds up over their concatenation. |
| Usage.AddCallStaysAccurate | crates/agentive/src/usage.rs:97-120 | Recording a call keeps every known aggregate equal to the saturated sum of what was reported, and completeness honest. |
| Usage.MergeChildStaysAccurate | crates/agentive/src/usage.rs:123-141 | Merging a child keeps the same. |
| Usage.AggregatesAreNeverWrong | crates/agentive/src/usage.rs:43-141 | Over any tree of calls, nested children and abandonments: a known field is the saturated sum of all reports in the tree, `complete` holds exactly when everything was fully reported, and each call left one entry. |
| AgentRun.AgentRunState.WithPlan | crates/agentive/src/state/effects.rs:44-66 | A fresh run is pending with empty ledgers, empty usage and an empty queue. |
| AgentRun.AgentRunState.RecordElapsed | crates/agentive/src/state/effects.rs:140-142 | Adds time, saturating, and touches nothing else. |
| AgentRun.AgentRunState.Cancel | crates/agentive/src/state/commits.rs:110-115 | An active run becomes cancelled with incomplete usage; a terminal one is left alone. |
| AgentRun.AgentRunState.Fail | crates/agentive/src/state/commits.rs:118-123 | An active run becomes failed with its error; a terminal one is left alone. |
| AgentRun.AgentRunState.FinishIfExhausted | crates/agentive/src/state/effects.rs:115-135 | Reports exactly whether the deadline or the provider budget was exhausted, cancelling on the first and ending incomplete on the second. |
| AgentRun.AgentRunState.ReserveProviderAttemptTokens | crates/agentive/src/state/commits.rs:157-171 | Adds the attempts' reservations if all are positive, and the byte-length reservation per attempt otherwise. |
| AgentRun.AgentRunState.RecordProviderAttempts | crates/agentive/src/state/commits.rs:143-155 | Records one usage entry per attempt, or the final usage when none was reported. |
| AgentRun.AgentRunState.ChargeProvider | crates/agentive/src/state/commits.rs:132-138 | Success and failure are charged alike: tokens, started calls, the round and usage, nothing else. |
| AgentRun.AgentRunState.CommitProviderResponse | crates/agentive/src/state/commits.rs:19-57 | A matching response becomes exactly the specified next state; a mismatched one changes no field and names the expected effect. |
| AgentRun.AgentRunState.CommitProviderFailure | crates/agentive/src/state/commits.rs:125-141 | The same for a final provider failure, which ends the run as failed. |
| AgentRun.AgentRunState.ReserveChild | crates/agentive/src/state/commits.rs:231-240 | Charges a child's calls and tokens to the two child ledgers only. |
| AgentRun.AgentRunState.ResolveFirst | crates/agentive/src/state/commits.rs:193-199 | Resolves the head of the queue: usage merged, budget reserved, result appended under the head's id and name. |
| AgentRun.AgentRunState.CommitToolResult | crates/agentive/src/state/commits.rs:204-229 | A matching tool result is folded in with the budget its effect offered; a rejected one changes nothing, and the inner error exit is never reached. |
| AgentRun.AgentRunState.CommitToolBatch | crates/agentive/src/state/commits.rs:173-202 | A matching batch resolves the whole queue in order, with budgets fixed before the first result; a rejected one changes nothing, and the inner error exit is never reached. |
| AgentRun.AgentRunState.CommitEffect | crates/agentive/src/state/commits.rs:60-85 | Every kind of outcome is either committed whole or rejected without changing any field. |
| CommitLaws.ApplyFrame | crates/agentive/src/state/commits.rs:60-141 | No transition changes identity, plan or limit, and rounds never go back. |
| CommitLaws.ReachableStatesAreCoherent | crates/agentive/src/state/commits.rs:48-55 | In every state any history of transitions reaches, there is final text exactly when the run completed, namely the text of the history's last message, and an error exactly when it failed. |
| CommitLaws.ResultsAnswerTheirCalls | crates/agentive/src/state/commits.rs:186-200 | A tool or batch commit appends exactly one message per result, result i under the id and name of pending call i, and drops exactly those calls. |
| CommitLaws.TerminalStatesAbsorb | crates/agentive/src/state/effects.rs:71-73 | Once terminal, whatever is offered in whatever order, only the elapsed-time counter can change and no effect is requested again. |
| CommitLaws.ProviderCommitAdvances | crates/agentive/src/state/commits.rs:28-55 | An accepted provider completion ends the run or starts the next round. |
| CommitLaws.ProviderEffectsCommitOnce | crates/agentive/src/state/commits.rs:242-255 | No provider effect id is accepted twice in one run, for every history of transitions. |
| CommitLaws.QueueOnlyShrinks | crates/agentive/src/state/commits.rs:185-228 | Within a round a transition only drops calls from the front of the queue, and an accepted tool completion drops at least one. |
| CommitLaws.QueueOnlyShrinksInRound | crates/agentive/src/state/commits.rs:185-228 | The same over any stretch of transitions of one round. |
| CommitLaws.ToolEffectsCommitOncePerRound | crates/agentive/src/state/commits.rs:242-269 | In a round whose calls have distinct ids, no tool or batch effect id is accepted twice. |
| CommitLaws.SerialRoundCommits | crates/agentive/src/state/effects.rs:91-98 | In the serial part of a round, under any plan, the n-th effect is for the n-th pending call, and its completion is accepted. |
| CommitLaws.RoundIdsFollowTheQueue | crates/agentive/src/state/effects.rs:74-99 | A round commits one effect per call that runs one at a time, under that call's id, and at most one batch for all the rest. |
| CommitLaws.ToolEffectsRepeatIff | crates/agentive/src/state/effects.rs:74-99 | Under any plan, no effect id of a round repeats if and only if the calls that run one at a time have distinct ids. |
| CommitLaws.RepeatedIdsCommitTwice | crates/agentive/src/state/commits.rs:242-255 | A fresh run, after one response that asks the same call twice: one effect id is expected, and accepted, twice, with any two results. |
| CommitLaws.CommittedUsageIsAccurate | crates/agentive/src/state/commits.rs:143-155 | A commit keeps usage accurate and adds one entry per attempt plus every entry of the children it ran. |
| CommitLaws.RunUsageCountsEveryCall | crates/agentive/src/state/commits.rs:143-195 | Over any history of a run, usage stays accurate and has exactly one entry for every attempt of its accepted completions and every entry of the children they ran. |
| Ledger.ReservationIsExact | crates/agentive/src/state/commits.rs:231-240 | Reserving no more than is left never saturates: what the ledger gains is what the remainder loses. |
| Ledger.SerialGrant | crates/agentive/src/state/effects.rs:163-189 | One serial share is the fair share or one more, and what is left is again fairly divisible among the remaining children. |
| Ledger.BatchGrant | crates/agentive/src/state/effects.rs:163-189 | Equal shares to a whole batch fit, and leave the parent its share, rounded up if the division is uneven. |
| Ledger.ResolveAllReserves | crates/agentive/src/state/commits.rs:186-200 | A batch commit charges exactly the listed budgets as long as they fit. |
| Ledger.DelegationRoundIsFair | crates/agentive/src/state/effects.rs:74-99 | For calls and for tokens, under any mix of serial and batch commits of a round with R units left and k delegations: the round conserves R, every child gets at least R/(k+1), no two differ by more than one, and the parent keeps its share rounded up, so one unit left always leaves it a follow-up. |
| Ledger.BatchRefinesSerial | crates/agentive/src/state/commits.rs:173-229 | A batch of n results gives the same history, queue, usage and status as n one-at-a-time commits under the same plan without parallelism, and, unless the divisor clamps, reserves no more calls or tokens. |
| Ledger.ClampIsHarmlessIff | crates/agentive/src/state/effects.rs:176-188 | The shares of k delegations in one batch fit every remainder if and only if k is at most the largest 32-bit value, and leave the parent something of every positive remainder if and only if k is below it. |
| Limits.AdmittedAttemptsFit | crates/agentive/src/run/effects.rs:145-176 | As many attempts as the executor admits fit what is left of both the call limit and the token limit. |
| Limits.ProviderCommitChargesCalls | crates/agentive/src/state/commits.rs:28-32 | An executed provider effect charges the call ledger with exactly its attempts and keeps it within the limit. |
| Limits.ProviderCommitChargesTokens | crates/agentive/src/state/commits.rs:157-171 | It charges the token ledger with the reservation once per attempt. |
| Limits.TokenLimitSurvivesIff | crates/agentive/src/state/commits.rs:157-171 | The hard token limit survives a provider commit if and only if the reservation was positive, the limit is the largest integer, or the byte-length fallback fits what is left. |
| Limits.ZeroReservationOverrunsTokenLimit | crates/agentive/src/state/commits.rs:166-170 | A concrete run in which a zero reservation overruns the token limit. |
| Limits.ToolCommitCharges | crates/agentive/src/state/commits.rs:173-240 | A tool or batch commit whose shares fit charges that ledger with exactly the child budgets its effect offered and starts no call of its own. |
| Limits.ToolCommitChargesTokens | crates/agentive/src/state/commits.rs:231-240 | Without any condition, the token ledger gains what the effect offered, saturating. |
| Limits.TokenLimitSurvivesToolsIff | crates/agentive/src/state/effects.rs:176-188 | The hard token limit survives a tool commit if and only if the shares offered fit what is left or the limit is the largest integer. |
| Limits.UnclampedGrantsFit | crates/agentive/src/state/effects.rs:176-188 | They fit unless the divisor clamps and at least one unit each is left for as many as it counts. |
| Limits.ClampedBatchOverrunsTokenLimit | crates/agentive/src/state/effects.rs:176-188 | A fresh run, after one response that asks for a batch with distinct ids, whose shares take the token ledger over the hard limit. |
| Limits.CallGrantsFit | crates/agentive/src/state/effects.rs:176-183 | A run with pending calls never has enough calls left for a clamped divisor to share any, so call grants always fit. |
| Limits.LedgersStayWithinLimits | crates/agentive/src/state/effects.rs:163-200 | In every state an executor-driven run reaches, started plus promised calls are within the call limit, and reserved tokens within the token limit given positive reservations and shares that fit. |
| Limits.CommitMakesProgress | crates/agentive/src/state/commits.rs:28-32 | Any accepted completion, whatever its attempts, ends the run, uses up a call, or keeps the calls and shortens the queue. |
| Limits.ProviderCommitsAreBounded | crates/agentive/src/state/effects.rs:100-111 | No history of transitions, however produced, commits more provider effects than calls were left, hence never more than the limit. |
| History.PendingHistoryCalls | crates/agentive/src/run/validation.rs:42-101 | The message-by-message scan finds exactly the calls the history still owes, in order, or the first violation. |
| History.PushHistoryCalls | crates/agentive/src/run/validation.rs:58-67 | The calls of one assistant message are queued in order, or a duplicate id is reported. |
| History.AlignedMeansValid | crates/agentive/src/run/validation.rs:11-40 | A state re-validates if and only if its history owes exactly the pending calls in order; with an empty queue that is a completed history. |
| History.ValidateModelResponse | crates/agentive/src/run/validation.rs:163-217 | The response check passes if and only if the response is one of non-blank text and tool calls, with a matching finish reason, distinct non-blank call ids and no foreign correlation. |
| History.ValidatedResponseAlignsIff | crates/agentive/src/state/commits.rs:34-51 | Committing a validated response keeps history and queue aligned if every tool call has object arguments, and otherwise leaves a history that no continuation makes valid. |
| History.NullArgumentsBreakAlignment | crates/agentive/src/run/validation.rs:199-216 | A concrete response that passes validation and, committed to a fresh run, leaves a history that fails it. |
| History.AlignedQueuesAreDistinct | crates/agentive/src/run/validation.rs:58-67 | An aligned queue has distinct non-blank call ids. |
| History.ResolveAllAlignsIff | crates/agentive/src/message.rs:293-306 | Resolving calls in queue order keeps the history aligned if every output can be read back from what it was rendered to, and otherwise loses it. |
| History.CommitAlignsIff | crates/agentive/src/run/validation.rs:126-161 | Any accepted outcome keeps an aligned history aligned if and only if its arguments are objects and its outputs can be read back. |
| History.ValidatedRunsStayAlignedIff | crates/agentive/src/run/validation.rs:22-40 | From any accepted history, a state a runtime reaches by committing validated responses and any tool outcomes re-validates, its unresolved calls being exactly the queue, if and only if all arguments committed were objects and all outputs can be read back; otherwise its history stays invalid for ever. |
| History.DeepOutputsBreakAlignment | crates/agentive/src/run/validation.rs:139-147 | With object arguments everywhere, a tool that answers with 128 nested arrays leaves a history that no longer validates. |
| Executor.ReservationPerAttempt | crates/agentive/src/run/effects.rs:135-160 | Under a hard limit the reservation is the provider's prompt bound plus the output reserve, saturating, and a missing bound is an error; without a limit it is the byte-length bound. |
| Executor.AttemptProvider | crates/agentive/src/run/effects.rs:177-259 | The attempts made stay within those allowed, all but the last were safely retryable, records carry each attempt's own number, usage and reservation, a retryable failure is final only once attempts ran out, and a response is one that passed validation. |
| Executor.ExecuteProvider | crates/agentive/src/run/effects.rs:126-260 | All attempts fit what is left of both limits, a budget refusal happens before any attempt, every outcome is one the state expects, and no error is one of history validation. |
| Executor.ExecuteToolEffect | crates/agentive/src/run/effects.rs:326-411 | A tool is invoked again only after a retryable error of an idempotent tool and never beyond its policy; the result is the last attempt's and counts the attempts. |
| Drivers.LocalTurnMakesProgress | crates/agentive/src/run/local.rs:50-180 | Every turn that goes on leaves a strictly smaller run, so the local loop ends for every behaviour of the outside. |
| Drivers.ContinuingMakesProgress | crates/temporal/src/runtime/workflow.rs:50-63 | An execution that continues as new carries on with a strictly smaller run, unless it was started already due to continue, and never loses its configuration. |
| Drivers.ContinueAsNewIsInvisible | crates/temporal/src/runtime/workflow.rs:39-115 | For every threshold of at least one and any starting counter, the chain of executions ends exactly as one uninterrupted run: same state, same cursor, same refusals; an invalid configuration or an unmarked history is refused at once. |
| Drivers.CursorCountsCommits | crates/temporal/src/runtime/workflow.rs:50-115 | A workflow run is a history of transitions: it ends in the state that history reaches, and the completed-effects cursor has grown by exactly the completions accepted along it. |
| Drivers.CommitIgnoresElapsed | crates/agentive/src/run/local.rs:135-138 | Recording time before a commit, as the local loop does, or after it, as the workflow does, accepts the same outcomes and gives the same state. |
| Drivers.CommittedTurnsAgree | crates/temporal/src/runtime/workflow.rs:103-112 | A committed outcome, whatever it is, takes both drivers to the same state; the local loop stops there only if it is final or its history no longer validates. |
| Drivers.StoppedTurnsAreFinal | crates/agentive/src/run/local.rs:141-179 | The local loop finishes on a commit only in a terminal state. |
| Drivers.DriversAgreeUnlessLost | crates/agentive/src/run/local.rs:50-180 | From the same state and the same reports, with any arguments and outputs, the local loop and the uninterrupted workflow end alike, with the same final state or both refusing, also under deadlines, cancelled effects and failing effects; unless the local loop's own re-validation fails. |
| Drivers.RevalidationSucceeds | crates/agentive/src/run/local.rs:152-155 | It never fails from an aligned state when arguments are objects and outputs can be read back. |
| Drivers.DriversAgree | crates/agentive/src/run/local.rs:50-180 | Then the two drivers end alike without exception. |
| Drivers.DeepOutputsPartDrivers | crates/agentive/src/run/local.rs:152-155 | A reachable run and an output at which the local loop aborts and the workflow returns an incomplete run. |
| Drivers.LocalRunIsAHistory | crates/agentive/src/run/local.rs:50-180 | Whatever the outside does, a local run is a history of transitions and ends in the state that history reaches, so every law of histories holds of it. |
| Drivers.AgentiveWorkflow.Run | crates/temporal/src/runtime/workflow.rs:39-116 | One execution over a mutable state ends as specified, and once begun its snapshot shows the state and cursor it ends with, whether it returns, is refused or continues as new. |
| RunTree.ExecuteDelegation | crates/agentive/src/subagent.rs:107-189 | A delegated run and everything below it spend at most the granted calls and tokens and go no deeper than the parent's depth limit, and the usage handed back is accurate and covers no call that was not made; no child starts at the depth limit or without budget, and then nothing is spent; a child that ran always reports its usage, and its summary only if it succeeded. |
| RunTree.ExecuteOneTool | crates/agentive/src/run/effects.rs:262-308 | One tool execution spends at most its call's budget, an unknown tool answers not-found, and its own result is the newest log entry. |
| RunTree.DrainChunk | crates/agentive/src/run/effects.rs:103 | After a failure any of the members not yet started may still run, in any order, within their budgets, and the others are dropped. |
| RunTree.ExecuteChunk | crates/agentive/src/run/effects.rs:83-119 | Members finish in any order, each result kept under its own call; a chunk stays within its members' budgets whether or not one fails. |
| RunTree.ExecuteBatch | crates/agentive/src/run/effects.rs:81-122 | For any chunk size, a finished batch has one output per call, output k being what the log recorded for call k; a failed one still spent no more than the batch's budgets. |
| RunTree.ExecuteEffect | crates/agentive/src/run/effects.rs:26-124 | An outcome comes only from the state's own next effect over a history that validates, is one the state expects, and if a response, a validated one; every effect, failing ones included, stays within its allowance, and what it reports matches what the tree spent. |
| RunTree.AllowanceFits | crates/agentive/src/state/effects.rs:163-189 | What an effect's children may really spend never exceeds what is left of either limit, however many there are: where the divisor clamps they are granted no calls and so spend no tokens. |
| RunTree.CommitStaysOnBudget | crates/agentive/src/state/commits.rs:19-33 | Committing what an effect reported keeps the whole tree's attempts under the call ledger and its reservations under the token ledger. |
| RunTree.TurnStaysOnBudget | crates/agentive/src/run/local.rs:77-180 | A turn that produced an outcome leaves the run on budget however the loop goes on. |
| RunTree.CommitTurn | crates/agentive/src/run/local.rs:104-179 | The second half of a turn, in place, decides exactly as the specified loop does. |
| RunTree.FinishTurn | crates/agentive/src/run/local.rs:85-179 | The same for turns whose effect failed or was cancelled. |
| RunTree.ProducedTurnIsJudged | crates/agentive/src/run/local.rs:152-155 | A turn keeps an aligned history aligned and is not aborted by history validation if and only if what it commits has object arguments and readable outputs; a lost history stays lost. |
| RunTree.DelegationsAnswerShallowly | crates/agentive/src/subagent.rs:150-189 | Whatever a parent hears of a child, its history can read back. |
| RunTree.RunTurn | crates/agentive/src/run/local.rs:50-180 | A turn ends the run within its limits and as the loop specification does, or leaves a strictly smaller run that is on budget. |
| RunTree.ExecuteRun | crates/agentive/src/run/local.rs:25-181 | A run together with all runs delegated below it, to any depth, starts at most `model_call_limit` provider attempts, retries included, and reserves at most `token_limit` tokens; none of them is nested deeper than `max_delegation_depth`; its usage is accurate and covers no more calls than were made; it terminates; it ends exactly as the loop specification does for the reports its effects produced, in the state a history of transitions reaches; and for any JSON library its history validates at the end, with no abort by history validation, if and only if all arguments committed were objects and all outputs can be read back, which for the real one holds when providers ask with objects and no logged result nests beyond 127 levels. |
| KeyedPaths.ShortenPath | crates/agentive/src/tool/schema.rs:70-73 | Any path through references can be shortened to one that enters no reference twice and has the same ends. |
| KeyedPaths.FreshBadPathFails | crates/agentive/src/tool/schema.rs:86-89 | A walk that refuses only repeated references fails from the start of every repetition-free path to a bad node. |
| Schema.Resolve | crates/agentive/src/tool/schema.rs:74-85 | Only references that name a definition of the root resolve. |
| Schema.EnteringShrinks | crates/agentive/src/tool/schema.rs:70-89 | Entering a new reference leaves strictly fewer to enter, which is why the walk terminates. |
| Schema.SoundPasses | crates/agentive/src/tool/schema.rs:65-139 | A schema all of whose reachable nodes are valid passes, whatever references are on the path. |
| Schema.BadPathFails | crates/agentive/src/tool/schema.rs:70-89 | One invalid node reachable through any number of references makes the check fail: cutting off repeated references loses nothing. |
| Schema.CheckIsExact | crates/agentive/src/tool/schema.rs:65-139 | The check accepts a schema if and only if every node its own edges can reach passes the local checks. |
| Schema.AcceptanceCoversAllIff | crates/agentive/src/tool/schema.rs:65-139 | Every part of a schema, including those the check never visits, is valid if and only if the check accepts the schema and would accept whatever any of its parts hides. |
| Schema.OpenSchemasAreCovered | crates/agentive/src/tool/schema.rs:65-139 | For schemas on whose visited nodes none of the three hiding shapes occurs, acceptance is exactly validity of every part. |
| Schema.BareObjectsHideTheirParts | crates/agentive/src/tool/schema.rs:91-117 | Every object schema without properties passes as soon as it refuses unknown fields, and all of it is valid exactly if all it is composed of is, too. |
| Schema.OtherTypesHideTheirFields | crates/agentive/src/tool/schema.rs:91-117 | A schema whose type is not just `object` is checked for its composition alone; all of it is valid exactly if its properties are as well, and it refuses unknown fields if it describes objects. |
| Schema.ReferencesHideTheirSiblings | crates/agentive/src/tool/schema.rs:70-90 | Whatever stands beside a reference changes nothing about the check. |
| Schema.ComposedOnlyPasses | crates/agentive/src/tool/schema.rs:115-117 | A concrete object schema without properties that passes with a part that fails alone. |
| Schema.NullablePasses | crates/agentive/src/tool/schema.rs:91-92 | A concrete nullable object that passes with unknown fields let in and a property that is not even described. |
| Schema.BesideReferencePasses | crates/agentive/src/tool/schema.rs:70-90 | A concrete reference that passes with a part beside it that fails alone. |
| Schema.ValidateNode | crates/agentive/src/tool/schema.rs:65-139 | The recursive walk with its mutable stack finds the first error in visiting order and restores the stack on every exit. |
| Schema.ValidateProperties | crates/agentive/src/tool/schema.rs:97-114 | Properties are checked in order, description first, and the stack is restored. |
| Schema.ValidateSchemaShape | crates/agentive/src/tool/schema.rs:58-64 | The published check is exact for the schema, or the one wrapped under `schema`, with references resolved in the whole: on what the walk reaches, and on every part when nothing bad is hidden. |
| Storage.KeysAreInjective | crates/temporal/src/storage.rs:120-126 | Distinct object ids have distinct keys. |
| Storage.InMemoryStorage.CreateImmutable | crates/temporal/src/storage.rs:169-182 | Succeeds exactly when the key is free or already holds these bytes; a conflict changes nothing; nothing stored is ever changed or lost. |
| ImmutableFiles.LinkKeeps | crates/temporal/src/storage.rs:267-273 | Publishing keeps the invariant: the key is bound only to a fully written, synced file. |
| ImmutableFiles.CrashKeeps | crates/temporal/src/storage.rs:259-274 | A crash anywhere, losing any unsynced bytes, keeps the invariant. |
| ImmutableFiles.RemoveKeeps | crates/temporal/src/storage.rs:275-282 | Cleanup, failing or not, keeps the published object and never turns an error into success. |
| ImmutableFiles.StepKeeps | crates/temporal/src/storage.rs:251-317 | Every step of any writer or reader keeps the invariant and everything that was settled. |
| ImmutableFiles.WriterStepKeeps | crates/temporal/src/storage.rs:251-283 | A writer's step that touches only its own temporary file and an unbound key, and sees to its own part, keeps everyone else's. |
| ImmutableFiles.BindingIsPermanent | crates/temporal/src/storage.rs:252-283 | In every interleaving with crashes and faults, the key is absent or holds one writer's whole bytes, from then on for ever. |
| ImmutableFiles.ReadersSeeWholeObjects | crates/temporal/src/storage.rs:285-316 | A reader that returns bytes returns one writer's whole bytes within its bound, and every later reader the same. |
| ImmutableFiles.WritersAgree | crates/temporal/src/storage.rs:239-283 | A successful writer's bytes stay published, a conflict means different bytes are, and two successful writers wrote the same. |
| ImmutableFiles.FilesystemRefinesInMemory | crates/temporal/src/storage.rs:168-283 | Unless the system failed it, a filesystem writer gets what the in-memory driver would have answered, and never a missing object. |
| Pipeline.FirstMatchIsTheOwner | crates/temporal/src/pipeline.rs:261-270 | With disjoint ownership, first-match lookup finds the one codec that owns a recorded use. |
| Pipeline.LastCodecRoundTrip | crates/temporal/src/pipeline.rs:260-277 | Undoing the last applied codec goes back to the form before it if that form fits the limit, and fails otherwise. |
| Pipeline.ChainRoundTrip | crates/temporal/src/pipeline.rs:171-184 | For any chain of reversible codecs, the backward chain returns the original bytes when every intermediate form fits, and fails otherwise. |
| Pipeline.OldReferencesStillDecode | crates/temporal/src/pipeline.rs:237-279 | A pipeline, or any later one that accepts the fingerprint, keeps the store and the readers and lowers no limit, decodes a reference to the original payload if and only if the intermediate forms fit and a transformed payload is not empty; otherwise it reports an error. |
| Pipeline.EmptyFormsAreLost | crates/temporal/src/payload.rs:228-230 | For any payload, a pipeline of perfectly reversible codecs that accepts it and whose reference no store can resolve, because the form written is empty. |
| Pipeline.LongFormsAreLost | crates/temporal/src/pipeline.rs:271-276 | The same with a form in between that exceeds the decoded-payload limit. |
| Pipeline.NonExpandingFits | crates/temporal/src/codec.rs:197-205 | A chain of codecs that never expand keeps every intermediate form within the limit. |
| Pipeline.AdmittedDecodeEach | crates/temporal/src/pipeline.rs:298-308 | Decoding admitted payloads never exceeds the aggregate limit they were admitted under. |
| Pipeline.PreparedClaimsFit | crates/temporal/src/pipeline.rs:282-297 | The references of an admitted batch pass the aggregate claim check of decoding. |
| Pipeline.BatchesClose | crates/temporal/src/pipeline.rs:213-309 | Whatever batch encoding admits and stores, batch decoding returns whole, in order, with no limit failure. |
| Pipeline.ConflictsAreNotStorable | crates/temporal/src/storage.rs:120-182 | A conflict while storing a batch means an id of the batch names an object with other bytes. |
| Pipeline.FreshIdsAreStorable | crates/temporal/src/pipeline.rs:195-211 | Distinct ids under which nothing is stored yet, as random ones are, never conflict. |
| Pipeline.PayloadPipeline.RunCodecs | crates/temporal/src/pipeline.rs:171-184 | The loop over mutable bytes applies the chain in order and signs each applied codec's writer version. |
| Pipeline.PayloadPipeline.StorePrepared | crates/temporal/src/pipeline.rs:195-211 | Storing succeeds if and only if nothing else is under the key; then the reference describes the stored bytes and only that key changed; a conflict changes nothing. |
| Pipeline.PayloadPipeline.Encode | crates/temporal/src/pipeline.rs:159-161 | One payload is encoded if and only if it is admitted and nothing else is under its key; nothing is stored when preparing fails. |
| Pipeline.PayloadPipeline.EncodeBatch | crates/temporal/src/pipeline.rs:213-233 | When any payload fails a limit or a codec, the store is unchanged; otherwise the batch succeeds if and only if no id names other bytes, in the store or in the batch, and then exactly its objects are added and referenced in order. |
| Pipeline.PayloadPipeline.EncodeThenDecode | crates/temporal/src/pipeline.rs:213-309 | Through one pipeline and its store, every admitted, storable and decodable batch comes back whole and in order. |
| Pipeline.PayloadPipeline.UndoCodecs | crates/temporal/src/pipeline.rs:260-277 | The backward loop undoes recorded uses last first, each form bounded. |
| Pipeline.PayloadPipeline.DecodeAll | crates/temporal/src/pipeline.rs:281-309 | Batch decoding checks all claims first and then decodes in order under the aggregate limit. |
| Pipeline.Build | crates/temporal/src/pipeline.rs:77-111 | Building succeeds if and only if the default store is registered, every codec reads what it writes, and no version is owned twice. |
| Pipeline.BuiltPipelinesReadThemselves | crates/temporal/src/pipeline.rs:88-102 | A built pipeline whose codecs undo themselves meets the hypotheses of the round trip for its own references. |
| Cancellation.CancelStepKeepsCancellers | crates/agentive/src/tool/context.rs:25-34 | Under the lock at most one canceller ever records, raises the flag and notifies. |
| Cancellation.StepKeeps | crates/agentive/src/tool/context.rs:25-53 | Every step of any canceller or waiter keeps the invariant, the recorded reason and every returned result. |
| Cancellation.WaitersReturnTheFirstReason | crates/agentive/src/tool/context.rs:40-53 | In every interleaving every returning waiter returns the recording canceller's reason, never the fallback, and all the same one. |
| Cancellation.FirstToRecordWins | crates/agentive/src/tool/context.rs:26-29 | The first canceller to find no reason under the lock fixes it for ever and stays the only one. |
| Cancellation.ParkedIffNotNotified | crates/agentive/src/tool/context.rs:41-51 | A sleeping waiter has nothing to wake it exactly while the recording cancel has not finished. |
| Cancellation.WaitersFinish | crates/agentive/src/tool/context.rs:40-53 | Once the recording cancel has returned and the lock is free, any waiter finishes within four steps of its own with the recorded reason. |
| Cancellation.LockIsReleased | crates/agentive/src/tool/context.rs:26-33 | Whoever holds the lock can go on and gives it up within three steps. |
| Cancellation.LosingCancelMayReturnFirst | crates/agentive/src/tool/context.rs:25-34 | A concrete interleaving in which a losing cancel has returned and a waiter is still parked. |
| CodexTurn.ForeignTrafficIsInvisible | crates/codex/src/turn.rs:62-77 | Dropping every notification of other threads or turns from any trace changes neither result, progress nor anything sent. |
| CodexTurn.AtMostOneInterrupt | crates/codex/src/turn.rs:24-36 | At most one interrupt is sent, and a turn that sent one never ends well. |
| CodexTurn.SuccessfulTurns | crates/codex/src/turn.rs:78-101 | A successful turn's text is the in-order concatenation of its matching deltas, each tool call before its end was answered by exactly one reply carrying its id, in order, and nothing else was sent. |
| CodexTurn.CodexSession.RespondToToolRequest | crates/codex/src/turn.rs:107-170 | A well-formed call of this turn is answered once under its own id; a malformed or foreign one is answered not at all. |
| CodexTurn.CodexSession.CollectTurn | crates/codex/src/turn.rs:13-105 | The loop ends with the result, the messages sent and the position that the trace determines. |
| Instructions.ReadEscaped | crates/agentive/src/message.rs:422-433 | A reader recovers any escaped value and stops exactly at its delimiter. |
| Instructions.EscapedValuesAreInert | crates/agentive/src/message.rs:422-433 | An escaped value contains no delimiter. |
| Instructions.ParseOfRender | crates/agentive/src/message.rs:397-433 | For all keys and texts, however full of markup, a parser recovers exactly the fragments. |
| Instructions.RenderIsUnambiguous | crates/agentive/src/message.rs:397-411 | Two instruction stacks render alike only if their layers are alike. |
| Instructions.XmlWriter.EscapeXml | crates/agentive/src/message.rs:422-433 | Appends the escaped value to the output and nothing else. |
| Instructions.XmlWriter.RenderInstruction | crates/agentive/src/message.rs:414-420 | Appends one fragment element. |
| Instructions.RenderXml | crates/agentive/src/message.rs:397-411 | The rendered text parses back to core, agent, run and feature layers in that order. |

## Left out

- RunTree.ExecuteChunk: members start and finish in any order, but each runs from start to end here, where the source switches between them at every wait. They share nothing but the tree's cost, which only adds up, and a tape that is arbitrary; a member cut off half-way costs no more than one that is cancelled there.
- Ledger.DelegationRoundIsFair: speaks of fewer than 2^32-1 delegations, since the parent's follow-up is lost at that number; the bound is exact by `ClampIsHarmlessIff`.
- Limits.LedgersStayWithinLimits: asks that the shares of every batch fit, for the token ledger alone; without it the limit does not survive, by `TokenLimitSurvivesToolsIff`.
- RunTree.ExecuteDelegation: waiting for the child and hearing of the parent's cancellation are one choice made after the child ended.
- Executor.ExecuteProvider: of `validate_context` only its result is modelled, any error or any prompt-token count; provider capabilities and routing are not.
- RunTree.ExecuteOneTool: whether arguments match the published JSON schema is an observation, because the schema validator is a library.
- Drivers.DriversAgree: the run's own cancellation flag and the local wall clock do not intervene, since the workflow has neither; Temporal activity redelivery is not modelled.
- ImmutableFiles.BindingIsPermanent: processes may crash anywhere and lose unsynced bytes; loss of directory entries on power failure, deletion by others, and repeated temporary names are not modelled. Comparing and reading an open file are one step each, which the invariant justifies because a bound file is never written again. A failing path check or directory creation is the fault of the first step.
- Schema.AcceptanceCoversAllIff: "every part" means what the keywords the check knows can lead to; keywords it never reads, `prefixItems` or `patternProperties` for instance, and `items` in array form, are outside both readings.
- Cancellation.WaitersReturnTheFirstReason: memory is sequentially consistent and locks are not poisoned.
- CodexTurn.SuccessfulTurns: after an interrupt the code takes any message with id 4 for the interrupt's reply, also a tool call; such turns never succeed, so this result does not speak of them.
- Pipeline.BatchesClose: totals are 64-bit; a store other than the in-memory driver enters only through the immutability proved for both drivers.
- Serialisation, SHA-256, Zstandard and the fingerprint hash: parameters with stated laws; no injectivity of the fingerprint is claimed.
- Error texts and kinds: collapsed where no caller tells them apart.
- Plan fields that no transition reads (instructions, model, output format, context precision, descriptors): they enter only through the abstract request size.
- The event bus, handle status, run records and tracing: observers of the state.
- Retry delays and timers: a wait ends normally or cancelled.
- `Tool::call` of the delegation tool: not charged to a parent's ledger.
- `validate_topology`: child agents are a finite tree by construction; agents repeating a name along a path are not excluded, which only makes the results more general.
- `validate_unknown_fields`, `validate_tool_definition`, identifier parsers, instruction compilation, legacy estimates and provider routing: easy members next to the above.
- Codex session start-up, input compilation and preflight: one-pass translations.
- The HTTP, Tower and Axum servers, the procedural macros and the scripted test provider.
