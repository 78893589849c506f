/** What holds along every history of transitions of a run, in whatever order a
    runtime applies them and whatever completions it offers: terminal states absorb,
    result fields match the status, and no effect identity is accepted twice. */
module CommitLaws {
  import opened Prelude
  import opened Usage
  import opened RunModel
  import opened Json
  import Decimal

  datatype Transition =
    | Complete(id: string, outcome: RunModel.Outcome)
    | Elapse(ms: U64)
    | Finish
    | CancelRun
    | FailRun(message: string)

  /** One transition; an unexpected completion is refused and leaves the state alone. */
  function Apply(serde: Serde, s: RunState, t: Transition): RunState {
    match t
    case Complete(id, outcome) =>
      var r := Commit(serde, s, id, outcome);
      if r.Ok? then r.value else s
    case Elapse(ms) => RecordElapsed(s, ms)
    case Finish => FinishIfExhausted(s)
    case CancelRun => Cancel(s)
    case FailRun(message) => Fail(s, message)
  }

  function Run(serde: Serde, s: RunState, ts: seq<Transition>): RunState {
    if ts == [] then s else Apply(serde, Run(serde, s, ts[..|ts| - 1]), ts[|ts| - 1])
  }

  predicate Accepted(s: RunState, t: Transition) {
    t.Complete? && Expects(s, t.id, t.outcome)
  }

  lemma RunStep(serde: Serde, s: RunState, ts: seq<Transition>, i: nat)
    requires i < |ts|
    ensures Run(serde, s, ts[..i + 1]) == Apply(serde, Run(serde, s, ts[..i]), ts[i])
  {
    assert ts[..i + 1][..i] == ts[..i];
  }

  // ---------- Frames of the tool commits ----------

  lemma {:induction false} ResolveAllFrame(
    serde: Serde, s: RunState, results: seq<ToolEffectResult>, reservations: seq<Option<DelegationBudget>>)
    requires |results| == |reservations| <= |s.pending|
    ensures var next := ResolveAll(serde, s, results, reservations);
      && next.pending == s.pending[|results|..]
      && next == s.(history := next.history, pending := next.pending, usage := next.usage,
                    reservedChildCalls := next.reservedChildCalls, reservedTokens := next.reservedTokens)
    decreases |results|
  {
    if results != [] {
      ResolveAllFrame(serde, ResolveFirst(serde, s, results[0], reservations[0]), results[1..], reservations[1..]);
    }
  }

  function Answers(serde: Serde, calls: seq<ModelToolCall>, results: seq<ToolEffectResult>): seq<Message>
    requires |results| <= |calls|
  {
    seq(|results|, i requires 0 <= i < |results| =>
      ToolResultMessage(serde, calls[i].callId, calls[i].name, results[i].output))
  }

  /** A tool commit appends the results as messages, result `i` under the id and name of
      pending call `i`, and drops exactly those calls. */
  lemma {:induction false} ResultsAnswerTheirCalls(
    serde: Serde, s: RunState, results: seq<ToolEffectResult>, reservations: seq<Option<DelegationBudget>>)
    requires |results| == |reservations| <= |s.pending|
    ensures var next := ResolveAll(serde, s, results, reservations);
      && next.history == s.history + Answers(serde, s.pending, results)
      && next.pending == s.pending[|results|..]
    decreases |results|
  {
    if results == [] {
      assert s.history + Answers(serde, s.pending, results) == s.history;
    } else {
      var next := ResolveFirst(serde, s, results[0], reservations[0]);
      ResultsAnswerTheirCalls(serde, next, results[1..], reservations[1..]);
      assert s.history + Answers(serde, s.pending, results) ==
             next.history + Answers(serde, next.pending, results[1..]);
    }
  }

  /** No transition changes the identity, plan or limit, and a committed tool effect
      changes only history, queue, usage and the two child ledgers. */
  lemma ApplyFrame(serde: Serde, s: RunState, t: Transition)
    ensures var next := Apply(serde, s, t);
      && next.runId == s.runId && next.plan == s.plan && next.limit == s.limit
      && s.modelCalls <= next.modelCalls
  {
    if Accepted(s, t) && t.outcome.Batch? {
      ResolveAllFrame(serde, s, t.outcome.outputs, BatchReservations(s));
    }
  }

  // ---------- Terminal states and result fields ----------

  predicate Coherent(s: RunState) {
    && (s.text.Some? <==> s.status.Completed?)
    && (s.text.Some? ==> s.history != [] && s.history[|s.history| - 1] == AssistantText(s.text.value))
    && (s.error.Some? <==> s.status.Failed?)
  }

  lemma ApplyKeepsCoherent(serde: Serde, s: RunState, t: Transition)
    requires Coherent(s)
    ensures Coherent(Apply(serde, s, t))
  {
    if Accepted(s, t) && t.outcome.Batch? {
      ResolveAllFrame(serde, s, t.outcome.outputs, BatchReservations(s));
    }
  }

  /** In every reachable state there is final text exactly when the run completed, namely
      that of the last message of its history, and an error exactly when it failed. */
  lemma {:induction false} ReachableStatesAreCoherent(
    serde: Serde, runId: string, history: seq<Message>, limit: U32, plan: Plan, ts: seq<Transition>)
    ensures Coherent(Run(serde, WithPlan(runId, history, limit, plan), ts))
  {
    if ts != [] {
      ReachableStatesAreCoherent(serde, runId, history, limit, plan, ts[..|ts| - 1]);
      ApplyKeepsCoherent(
        serde, Run(serde, WithPlan(runId, history, limit, plan), ts[..|ts| - 1]), ts[|ts| - 1]);
    }
  }

  /** Once terminal, a run keeps everything but its elapsed-time counter, for ever. */
  lemma {:induction false} TerminalStatesAbsorb(serde: Serde, s: RunState, ts: seq<Transition>)
    requires !IsActive(s.status)
    ensures Run(serde, s, ts) == s.(elapsedMs := Run(serde, s, ts).elapsedMs)
    ensures NextEffect(Run(serde, s, ts)).None?
  {
    if ts != [] {
      TerminalStatesAbsorb(serde, s, ts[..|ts| - 1]);
    }
  }

  /** Splitting a history: its second part starts from the state its first part reached. */
  lemma {:induction false} RunOfConcat(serde: Serde, s: RunState, a: seq<Transition>, b: seq<Transition>)
    ensures Run(serde, s, a + b) == Run(serde, Run(serde, s, a), b)
  {
    if b == [] {
      assert a + b == a;
    } else {
      assert (a + b)[..|a + b| - 1] == a + b[..|b| - 1];
      RunOfConcat(serde, s, a, b[..|b| - 1]);
    }
  }

  // ---------- Effect identities ----------

  lemma SuffixesDiffer(prefix: string, a: string, b: string)
    requires a != b
    ensures prefix + a != prefix + b
  {
    assert (prefix + a)[|prefix|..] == a && (prefix + b)[|prefix|..] == b;
  }

  lemma EffectIdsDiffer(runId: string, a: string, b: string)
    ensures ToolEffectId(runId, a) != BatchEffectId(runId, b)
    ensures a != b ==> ToolEffectId(runId, a) != ToolEffectId(runId, b)
    ensures a != b ==> BatchEffectId(runId, a) != BatchEffectId(runId, b)
  {
    var n := |runId|;
    assert ToolEffectId(runId, a)[n + 5] == ':' && BatchEffectId(runId, b)[n + 5] == '-';
    if a != b {
      SuffixesDiffer(runId + ":tool:", a, b);
      SuffixesDiffer(runId + ":tool-batch:", a, b);
    }
  }

  lemma ProviderIdsDiffer(runId: string, a: nat, b: nat)
    requires a <= U32_MAX && b <= U32_MAX && a != b
    ensures ProviderEffectId(runId, a) != ProviderEffectId(runId, b)
  {
    if Decimal.Render(a) == Decimal.Render(b) {
      Decimal.RenderInjective(a, b);
    }
    SuffixesDiffer(runId + ":provider:", Decimal.Render(a), Decimal.Render(b));
  }

  predicate AcceptsProvider(s: RunState, t: Transition) {
    Accepted(s, t) && NextEffect(s).value.ProviderCall?
  }

  predicate AcceptsTools(s: RunState, t: Transition) {
    Accepted(s, t) && !NextEffect(s).value.ProviderCall?
  }

  lemma AcceptedId(s: RunState, t: Transition)
    requires Accepted(s, t)
    ensures AcceptsProvider(s, t) ==> t.id == ProviderEffectId(s.runId, s.modelCalls)
    ensures AcceptsTools(s, t) ==> s.pending != []
    ensures AcceptsTools(s, t) ==>
      t.id == ToolEffectId(s.runId, s.pending[0].callId) || t.id == BatchEffectId(s.runId, s.pending[0].callId)
  {
  }

  /** An accepted provider completion either ends the run or starts the next round. */
  lemma ProviderCommitAdvances(serde: Serde, s: RunState, t: Transition)
    requires AcceptsProvider(s, t)
    ensures !IsActive(Apply(serde, s, t).status) || Apply(serde, s, t).modelCalls == s.modelCalls + 1
  {
  }

  lemma {:induction false} RoundsOnlyGrow(serde: Serde, s: RunState, ts: seq<Transition>)
    ensures s.modelCalls <= Run(serde, s, ts).modelCalls
    ensures Run(serde, s, ts).runId == s.runId && Run(serde, s, ts).plan == s.plan && Run(serde, s, ts).limit == s.limit
  {
    if ts != [] {
      RoundsOnlyGrow(serde, s, ts[..|ts| - 1]);
      ApplyFrame(serde, Run(serde, s, ts[..|ts| - 1]), ts[|ts| - 1]);
    }
  }

  /** What the state before step `i` can still become by step `j`. */
  lemma Between(serde: Serde, s: RunState, ts: seq<Transition>, i: nat, j: nat)
    requires i < j <= |ts|
    ensures Run(serde, s, ts[..j]) == Run(serde, Apply(serde, Run(serde, s, ts[..i]), ts[i]), ts[i + 1..j])
    ensures Run(serde, s, ts[..i]).runId == Run(serde, s, ts[..j]).runId
  {
    RunStep(serde, s, ts, i);
    assert ts[..j] == ts[..i + 1] + ts[i + 1..j];
    RunOfConcat(serde, s, ts[..i + 1], ts[i + 1..j]);
    RoundsOnlyGrow(serde, s, ts[..i]);
    RoundsOnlyGrow(serde, s, ts[..j]);
  }

  /** No provider effect identity is ever accepted twice in one run. */
  lemma ProviderEffectsCommitOnce(serde: Serde, s: RunState, ts: seq<Transition>, i: nat, j: nat)
    requires i < j < |ts|
    requires AcceptsProvider(Run(serde, s, ts[..i]), ts[i])
    requires AcceptsProvider(Run(serde, s, ts[..j]), ts[j])
    ensures ts[i].id != ts[j].id
  {
    var first, second := Run(serde, s, ts[..i]), Run(serde, s, ts[..j]);
    var next := Apply(serde, first, ts[i]);
    Between(serde, s, ts, i, j);
    AcceptedId(first, ts[i]);
    AcceptedId(second, ts[j]);
    ProviderCommitAdvances(serde, first, ts[i]);
    if !IsActive(next.status) {
      TerminalStatesAbsorb(serde, next, ts[i + 1..j]);
    } else {
      RoundsOnlyGrow(serde, next, ts[i + 1..j]);
      ProviderIdsDiffer(first.runId, first.modelCalls, second.modelCalls);
    }
  }

  predicate IsSuffix(tail: seq<ModelToolCall>, whole: seq<ModelToolCall>) {
    |tail| <= |whole| && tail == whole[|whole| - |tail|..]
  }

  lemma SuffixOfSuffix(a: seq<ModelToolCall>, b: seq<ModelToolCall>, c: seq<ModelToolCall>)
    requires IsSuffix(b, a) && IsSuffix(c, b)
    ensures IsSuffix(c, a)
  {
    var d, e := |a| - |b|, |b| - |c|;
    assert a[d..][e..] == a[d + e..];
  }

  predicate DistinctIds(calls: seq<ModelToolCall>) {
    forall i, j :: 0 <= i < j < |calls| ==> calls[i].callId != calls[j].callId
  }

  /** Within a round the queue only ever loses calls from its front. */
  lemma QueueOnlyShrinks(serde: Serde, s: RunState, t: Transition)
    requires Apply(serde, s, t).modelCalls == s.modelCalls
    ensures IsSuffix(Apply(serde, s, t).pending, s.pending)
    ensures AcceptsTools(s, t) ==> |Apply(serde, s, t).pending| < |s.pending|
  {
    var next := Apply(serde, s, t);
    if Accepted(s, t) && t.outcome.Batch? {
      ResolveAllFrame(serde, s, t.outcome.outputs, BatchReservations(s));
      assert next.pending == s.pending[|s.pending|..];
    } else if Accepted(s, t) && t.outcome.Tool? {
      assert next.pending == s.pending[1..];
    } else {
      OtherStepsKeepQueue(serde, s, t);
      assert s.pending == s.pending[0..];
    }
  }

  lemma OtherStepsKeepQueue(serde: Serde, s: RunState, t: Transition)
    requires Apply(serde, s, t).modelCalls == s.modelCalls && !AcceptsTools(s, t)
    ensures Apply(serde, s, t).pending == s.pending
  {
    if AcceptsProvider(s, t) {
      assert s.modelCalls < U32_MAX;
    }
  }

  lemma {:induction false} QueueOnlyShrinksInRound(serde: Serde, s: RunState, ts: seq<Transition>)
    requires Run(serde, s, ts).modelCalls == s.modelCalls
    ensures IsSuffix(Run(serde, s, ts).pending, s.pending)
  {
    if ts == [] {
      assert s.pending == s.pending[0..];
    } else {
      var before := Run(serde, s, ts[..|ts| - 1]);
      RoundsOnlyGrow(serde, s, ts[..|ts| - 1]);
      ApplyFrame(serde, before, ts[|ts| - 1]);
      QueueOnlyShrinksInRound(serde, s, ts[..|ts| - 1]);
      QueueOnlyShrinks(serde, before, ts[|ts| - 1]);
      SuffixOfSuffix(s.pending, before.pending, Run(serde, s, ts).pending);
    }
  }

  /** A later tool commit of the same round is for a call further down the queue. */
  lemma LaterHead(serde: Serde, s: RunState, ts: seq<Transition>, i: nat, j: nat) returns (k: nat)
    requires i < j < |ts|
    requires AcceptsTools(Run(serde, s, ts[..i]), ts[i])
    requires Run(serde, s, ts[..j]).pending != []
    requires Run(serde, s, ts[..i]).modelCalls == Run(serde, s, ts[..j]).modelCalls
    ensures 0 < k < |Run(serde, s, ts[..i]).pending|
    ensures Run(serde, s, ts[..j]).pending[0] == Run(serde, s, ts[..i]).pending[k]
  {
    var first := Run(serde, s, ts[..i]);
    var next := Apply(serde, first, ts[i]);
    Between(serde, s, ts, i, j);
    ApplyFrame(serde, first, ts[i]);
    RoundsOnlyGrow(serde, next, ts[i + 1..j]);
    QueueOnlyShrinks(serde, first, ts[i]);
    QueueOnlyShrinksInRound(serde, next, ts[i + 1..j]);
    SuffixOfSuffix(first.pending, next.pending, Run(serde, s, ts[..j]).pending);
    k := |first.pending| - |Run(serde, s, ts[..j]).pending|;
  }

  /** Within one model round whose calls carry distinct ids, no tool or batch effect
      identity is accepted twice. */
  lemma ToolEffectsCommitOncePerRound(serde: Serde, s: RunState, ts: seq<Transition>, i: nat, j: nat)
    requires i < j < |ts|
    requires AcceptsTools(Run(serde, s, ts[..i]), ts[i])
    requires AcceptsTools(Run(serde, s, ts[..j]), ts[j])
    requires Run(serde, s, ts[..i]).modelCalls == Run(serde, s, ts[..j]).modelCalls
    requires DistinctIds(Run(serde, s, ts[..i]).pending)
    ensures ts[i].id != ts[j].id
  {
    var first, second := Run(serde, s, ts[..i]), Run(serde, s, ts[..j]);
    AcceptedId(first, ts[i]);
    AcceptedId(second, ts[j]);
    var k := LaterHead(serde, s, ts, i, j);
    Between(serde, s, ts, i, j);
    EffectIdsDiffer(first.runId, first.pending[0].callId, first.pending[k].callId);
    EffectIdsDiffer(first.runId, first.pending[k].callId, first.pending[0].callId);
  }

  // ---------- The effects of one round ----------

  /** Completes the whole pending queue with the given results, effect by effect, each
      serial or batched as the state itself asks. */
  function FinishRound(serde: Serde, s: RunState, results: seq<ToolEffectResult>): RunState
    requires IsActive(s.status) && |results| == |s.pending|
    decreases |results|
  {
    if s.pending == [] then s
    else if Batchable(s) then Commit(serde, s, NextEffect(s).value.id, RunModel.Outcome.Batch(results)).value
    else FinishRound(serde, Commit(serde, s, NextEffect(s).value.id, RunModel.Outcome.Tool(results[0])).value, results[1..])
  }

  /** The identities of those effects, in order. */
  function RoundIds(serde: Serde, s: RunState, results: seq<ToolEffectResult>): seq<string>
    requires IsActive(s.status) && |results| == |s.pending|
    decreases |results|
  {
    if s.pending == [] then []
    else
      var id := NextEffect(s).value.id;
      if Batchable(s) then [id]
      else [id] + RoundIds(serde, Commit(serde, s, id, RunModel.Outcome.Tool(results[0])).value, results[1..])
  }

  /** How many of the calls run one at a time, before the rest can run as one batch. */
  function SerialPart(plan: Plan, calls: seq<ModelToolCall>): (n: nat)
    ensures n <= |calls|
    ensures n < |calls| ==> ParallelQueue(plan, calls[n..])
    ensures forall i :: 0 <= i < n ==> !ParallelQueue(plan, calls[i..])
  {
    if calls == [] then 0
    else
      assert calls[0..] == calls;
      if ParallelQueue(plan, calls) then 0
      else
        var rest := SerialPart(plan, calls[1..]);
        assert forall i :: 0 < i <= |calls| ==> calls[i..] == calls[1..][i - 1..];
        1 + rest
  }

  function SerialIds(runId: string, calls: seq<ModelToolCall>): seq<string> {
    seq(|calls|, i requires 0 <= i < |calls| => ToolEffectId(runId, calls[i].callId))
  }

  /** One effect per call of the serial part, and one for all the rest. */
  function QueueIds(runId: string, plan: Plan, calls: seq<ModelToolCall>): seq<string> {
    var n := SerialPart(plan, calls);
    SerialIds(runId, calls[..n]) + if n < |calls| then [BatchEffectId(runId, calls[n].callId)] else []
  }

  lemma SerialIdsCons(runId: string, calls: seq<ModelToolCall>)
    requires calls != []
    ensures SerialIds(runId, calls) == [ToolEffectId(runId, calls[0].callId)] + SerialIds(runId, calls[1..])
  {
  }

  lemma QueueIdsStep(runId: string, plan: Plan, calls: seq<ModelToolCall>)
    requires calls != [] && !ParallelQueue(plan, calls)
    ensures QueueIds(runId, plan, calls) == [ToolEffectId(runId, calls[0].callId)] + QueueIds(runId, plan, calls[1..])
  {
    var n, rest := SerialPart(plan, calls), calls[1..];
    assert n == 1 + SerialPart(plan, rest);
    assert calls[..n][1..] == rest[..n - 1];
    SerialIdsCons(runId, calls[..n]);
    var batch := if n < |calls| then [BatchEffectId(runId, calls[n].callId)] else [];
    assert n < |calls| ==> calls[n] == rest[n - 1];
    assert QueueIds(runId, plan, rest) == SerialIds(runId, rest[..n - 1]) + batch;
    Regroup([ToolEffectId(runId, calls[0].callId)], SerialIds(runId, rest[..n - 1]), batch);
  }

  lemma RoundIdsStep(serde: Serde, s: RunState, results: seq<ToolEffectResult>)
    requires IsActive(s.status) && |results| == |s.pending| && s.pending != [] && !Batchable(s)
    ensures var next := ResolveFirst(serde, s, results[0], DelegationBudgetFor(s, s.pending[0]));
      && IsActive(next.status) && next.pending == s.pending[1..] && next.runId == s.runId && next.plan == s.plan
      && RoundIds(serde, s, results) ==
           [ToolEffectId(s.runId, s.pending[0].callId)] + RoundIds(serde, next, results[1..])
  {
  }

  lemma {:induction false} RoundIdsFollowTheQueue(serde: Serde, s: RunState, results: seq<ToolEffectResult>)
    requires IsActive(s.status) && |results| == |s.pending|
    ensures RoundIds(serde, s, results) == QueueIds(s.runId, s.plan, s.pending)
    decreases |results|
  {
    if s.pending == [] {
      assert QueueIds(s.runId, s.plan, s.pending) == [];
    } else if Batchable(s) {
      assert QueueIds(s.runId, s.plan, s.pending) == [BatchEffectId(s.runId, s.pending[0].callId)];
    } else {
      RoundIdsStep(serde, s, results);
      QueueIdsStep(s.runId, s.plan, s.pending);
      var next := ResolveFirst(serde, s, results[0], DelegationBudgetFor(s, s.pending[0]));
      RoundIdsFollowTheQueue(serde, next, results[1..]);
    }
  }

  predicate NoneRepeats(ids: seq<string>) {
    forall i, j :: 0 <= i < j < |ids| ==> ids[i] != ids[j]
  }

  lemma QueueIdsDiffer(runId: string, plan: Plan, calls: seq<ModelToolCall>, i: nat, j: nat)
    requires i < j < |QueueIds(runId, plan, calls)|
    ensures var ids, n := QueueIds(runId, plan, calls), SerialPart(plan, calls);
      ids[i] != ids[j] <==> (j < n ==> calls[..n][i].callId != calls[..n][j].callId)
  {
    EffectIdsDiffer(runId, calls[i].callId, calls[j].callId);
  }

  lemma QueueIdsRepeatIff(runId: string, plan: Plan, calls: seq<ModelToolCall>)
    ensures NoneRepeats(QueueIds(runId, plan, calls)) <==> DistinctIds(calls[..SerialPart(plan, calls)])
  {
    var ids, serial := QueueIds(runId, plan, calls), calls[..SerialPart(plan, calls)];
    assert |serial| <= |ids|;
    if DistinctIds(serial) {
      forall i, j | 0 <= i < j < |ids| ensures ids[i] != ids[j] {
        QueueIdsDiffer(runId, plan, calls, i, j);
      }
    } else {
      var i, j :| 0 <= i < j < |serial| && serial[i].callId == serial[j].callId;
      QueueIdsDiffer(runId, plan, calls, i, j);
    }
  }

  /** Exactly what exactly-once needs of a round, under any plan: no effect identity of the
      round repeats if and only if the calls that run one at a time have distinct ids. */
  lemma ToolEffectsRepeatIff(serde: Serde, s: RunState, results: seq<ToolEffectResult>)
    requires IsActive(s.status) && |results| == |s.pending|
    ensures NoneRepeats(RoundIds(serde, s, results)) <==> DistinctIds(s.pending[..SerialPart(s.plan, s.pending)])
  {
    RoundIdsFollowTheQueue(serde, s, results);
    QueueIdsRepeatIff(s.runId, s.plan, s.pending);
  }

  /** One-at-a-time results for the head of the queue. */
  function SerialRound(serde: Serde, s: RunState, results: seq<ToolEffectResult>): (next: RunState)
    requires |results| <= |s.pending|
    ensures next.pending == s.pending[|results|..]
    ensures next.runId == s.runId && next.plan == s.plan && next.status == s.status
    decreases |results|
  {
    if results == [] then s
    else
      var before := SerialRound(serde, s, results[..|results| - 1]);
      ResolveFirst(serde, before, results[|results| - 1], DelegationBudgetFor(before, before.pending[0]))
  }

  lemma SerialRoundNext(serde: Serde, s: RunState, results: seq<ToolEffectResult>, n: nat)
    requires n < |results| <= |s.pending|
    ensures var before := SerialRound(serde, s, results[..n]);
      SerialRound(serde, s, results[..n + 1]) ==
        ResolveFirst(serde, before, results[n], DelegationBudgetFor(before, before.pending[0]))
  {
    assert results[..n + 1][..n] == results[..n];
  }

  lemma SerialRoundStands(serde: Serde, s: RunState, results: seq<ToolEffectResult>)
    requires |results| < SerialPart(s.plan, s.pending)
    ensures var t := SerialRound(serde, s, results);
      t.pending != [] && t.pending[0] == s.pending[|results|] && !Batchable(t)
  {
  }

  lemma SerialCommits(serde: Serde, s: RunState, result: ToolEffectResult)
    requires IsActive(s.status) && s.pending != [] && !Batchable(s)
    ensures ExpectedId(s) == Some(ToolEffectId(s.runId, s.pending[0].callId))
    ensures Commit(serde, s, ToolEffectId(s.runId, s.pending[0].callId), RunModel.Outcome.Tool(result)) ==
            Ok(ResolveFirst(serde, s, result, DelegationBudgetFor(s, s.pending[0])))
  {
  }

  /** Within the serial part of a round, the `n`-th commit is for the `n`-th pending call. */
  lemma SerialRoundCommits(serde: Serde, s: RunState, results: seq<ToolEffectResult>, n: nat)
    requires IsActive(s.status) && n < |results| <= |s.pending|
    requires n < SerialPart(s.plan, s.pending)
    ensures var before := SerialRound(serde, s, results[..n]);
      var id := ToolEffectId(s.runId, s.pending[n].callId);
      && ExpectedId(before) == Some(id)
      && Commit(serde, before, id, RunModel.Outcome.Tool(results[n])) == Ok(SerialRound(serde, s, results[..n + 1]))
  {
    SerialRoundNext(serde, s, results, n);
    SerialRoundStands(serde, s, results[..n]);
    SerialCommits(serde, SerialRound(serde, s, results[..n]), results[n]);
  }

  /** A fresh run of which one response, unvalidated, asks the same call twice. */
  function AskedTwice(serde: Serde): Result<RunState, TransitionError> {
    var call := ModelToolCall("a", "t", Object([]), None);
    Commit(
      serde, WithPlan("run", [], 1, Plan([], 0, 1, 1, None, 0, 4, None)), ProviderEffectId("run", 0),
      RunModel.Outcome.Provider(ModelResponse(None, [call, call], None, ToolCalls), []))
  }

  /** Two calls of one response with the same id: the same effect identity is expected and
      accepted twice in the round, with any two results. */
  lemma RepeatedIdsCommitTwice(serde: Serde, first: ToolEffectResult, second: ToolEffectResult)
    ensures AskedTwice(serde).Ok?
    ensures var s, id := AskedTwice(serde).value, ToolEffectId("run", "a");
      var once := Commit(serde, s, id, RunModel.Outcome.Tool(first));
      && ExpectedId(s) == Some(id) && once.Ok?
      && ExpectedId(once.value) == Some(id)
      && Commit(serde, once.value, id, RunModel.Outcome.Tool(second)).Ok?
  {
    var s := AskedTwice(serde).value;
    assert !s.plan.IsParallelSafe(s.pending[0].name);
    SerialCommits(serde, s, first);
    SerialCommits(serde, ResolveFirst(serde, s, first, DelegationBudgetFor(s, s.pending[0])), second);
  }

  // ---------- Usage ----------

  lemma {:induction false} AddAttemptsEntries(usage: RunUsage, attempts: seq<ProviderAttempt>)
    requires Accurate(usage)
    ensures Accurate(AddAttempts(usage, attempts))
    ensures |AddAttempts(usage, attempts).modelCalls| == |usage.modelCalls| + |attempts|
    decreases |attempts|
  {
    if attempts != [] {
      AddCallStaysAccurate(usage, "model", attempts[0].usage);
      AddAttemptsEntries(usage.AddCall("model", attempts[0].usage), attempts[1..]);
    }
  }

  function ChildEntries(results: seq<ToolEffectResult>): nat {
    if results == [] then 0
    else (if results[0].childUsage.Some? then |results[0].childUsage.value.modelCalls| else 0) + ChildEntries(results[1..])
  }

  ghost predicate ChildrenAccurate(results: seq<ToolEffectResult>) {
    forall i :: 0 <= i < |results| && results[i].childUsage.Some? ==> Accurate(results[i].childUsage.value)
  }

  lemma {:induction false} ResolveAllEntries(
    serde: Serde, s: RunState, results: seq<ToolEffectResult>, reservations: seq<Option<DelegationBudget>>)
    requires |results| == |reservations| <= |s.pending|
    requires Accurate(s.usage) && ChildrenAccurate(results)
    ensures var next := ResolveAll(serde, s, results, reservations);
      Accurate(next.usage) && |next.usage.modelCalls| == |s.usage.modelCalls| + ChildEntries(results)
    decreases |results|
  {
    if results != [] {
      if results[0].childUsage.Some? {
        MergeChildStaysAccurate(s.usage, results[0].childUsage.value);
      }
      assert ChildrenAccurate(results[1..]);
      ResolveAllEntries(serde, ResolveFirst(serde, s, results[0], reservations[0]), results[1..], reservations[1..]);
    }
  }

  ghost predicate OutcomeAccurate(outcome: RunModel.Outcome) {
    match outcome
    case Tool(result) => ChildrenAccurate([result])
    case Batch(outputs) => ChildrenAccurate(outputs)
    case _ => true
  }

  /** Usage entries an accepted completion contributes: its own attempts (one entry when
      none were reported) and every entry of the children it ran. */
  function EntriesOf(outcome: RunModel.Outcome): nat {
    match outcome
    case Provider(_, attempts) => Max(|attempts|, 1)
    case ProviderFailed(_, attempts) => Max(|attempts|, 1)
    case ProviderBudgetExhausted(_) => 0
    case Tool(result) => ChildEntries([result])
    case Batch(outputs) => ChildEntries(outputs)
  }

  lemma RecordedAttemptsAreAccurate(usage: RunUsage, attempts: seq<ProviderAttempt>, fallback: Option<TokenUsage>)
    requires Accurate(usage)
    ensures var next := RecordAttempts(usage, attempts, fallback);
      && Accurate(next) && Accurate(next.(complete := false))
      && |next.modelCalls| == |usage.modelCalls| + Max(|attempts|, 1)
  {
    AddCallStaysAccurate(usage, "model", fallback);
    AddAttemptsEntries(usage, attempts);
    AbandonStaysAccurate(RecordAttempts(usage, attempts, fallback));
  }

  lemma ResolvedUsageIsAccurate(
    serde: Serde, s: RunState, result: ToolEffectResult, budget: Option<DelegationBudget>)
    requires Accurate(s.usage) && ChildrenAccurate([result]) && s.pending != []
    ensures var next := ResolveFirst(serde, s, result, budget);
      Accurate(next.usage) && |next.usage.modelCalls| == |s.usage.modelCalls| + ChildEntries([result])
  {
    ResolveAllEntries(serde, s, [result], [budget]);
    assert [result][1..] == [] && [budget][1..] == [];
  }

  /** Committing a completion keeps the run's usage accurate and adds exactly its entries. */
  lemma CommittedUsageIsAccurate(serde: Serde, s: RunState, id: string, outcome: RunModel.Outcome)
    requires Accurate(s.usage) && OutcomeAccurate(outcome)
    requires Expects(s, id, outcome)
    ensures var next := Commit(serde, s, id, outcome).value;
      Accurate(next.usage) && |next.usage.modelCalls| == |s.usage.modelCalls| + EntriesOf(outcome)
  {
    match outcome {
      case Provider(response, attempts) =>
        RecordedAttemptsAreAccurate(s.usage, attempts, response.usage);
      case ProviderFailed(error, attempts) =>
        RecordedAttemptsAreAccurate(s.usage, attempts, error.usage);
      case ProviderBudgetExhausted(_) =>
        AbandonStaysAccurate(s.usage);
      case Tool(result) =>
        ResolvedUsageIsAccurate(serde, s, result, DelegationBudgetFor(s, s.pending[0]));
      case Batch(outputs) =>
        ResolveAllEntries(serde, s, outputs, BatchReservations(s));
    }
  }

  /** The usage entries of all completions accepted along a history. */
  function EntriesOfRun(serde: Serde, s: RunState, ts: seq<Transition>): nat {
    if ts == [] then 0
    else
      EntriesOfRun(serde, s, ts[..|ts| - 1]) +
      if Accepted(Run(serde, s, ts[..|ts| - 1]), ts[|ts| - 1]) then EntriesOf(ts[|ts| - 1].outcome) else 0
  }

  ghost predicate OutcomesAccurate(serde: Serde, s: RunState, ts: seq<Transition>) {
    forall i :: 0 <= i < |ts| && Accepted(Run(serde, s, ts[..i]), ts[i]) ==> OutcomeAccurate(ts[i].outcome)
  }

  lemma StepKeepsUsage(serde: Serde, s: RunState, t: Transition)
    requires Accurate(s.usage) && (Accepted(s, t) ==> OutcomeAccurate(t.outcome))
    ensures var next := Apply(serde, s, t);
      && Accurate(next.usage)
      && |next.usage.modelCalls| == |s.usage.modelCalls| + if Accepted(s, t) then EntriesOf(t.outcome) else 0
  {
    AbandonStaysAccurate(s.usage);
    if Accepted(s, t) {
      CommittedUsageIsAccurate(serde, s, t.id, t.outcome);
    }
  }

  /** Over any history of a run: usage stays accurate, and has exactly one entry for every
      attempt of its accepted completions and every entry of the children they ran. */
  lemma {:induction false} RunUsageCountsEveryCall(serde: Serde, s: RunState, ts: seq<Transition>)
    requires Accurate(s.usage) && OutcomesAccurate(serde, s, ts)
    ensures var end := Run(serde, s, ts);
      Accurate(end.usage) && |end.usage.modelCalls| == |s.usage.modelCalls| + EntriesOfRun(serde, s, ts)
  {
    if ts != [] {
      var before := ts[..|ts| - 1];
      assert OutcomesAccurate(serde, s, before) by {
        forall i | 0 <= i < |before| && Accepted(Run(serde, s, before[..i]), before[i])
          ensures OutcomeAccurate(before[i].outcome)
        {
          assert before[..i] == ts[..i];
        }
      }
      RunUsageCountsEveryCall(serde, s, before);
      StepKeepsUsage(serde, Run(serde, s, before), ts[|ts| - 1]);
    }
  }
}
