/** The two runtimes of the same state machine: the local loop, and the durable workflow
    with Continue-As-New. What happens outside the machine is a tape of step reports,
    so every result here is for all behaviours of providers, tools and clocks. */
module Drivers {
  import opened Prelude
  import opened RunModel
  import opened CommitLaws
  import opened Limits
  import opened History
  import opened AgentRun

  /** How one effect execution ended: with an outcome, cancelled, or with an error. */
  datatype Execution =
    | Produced(outcome: RunModel.Outcome)
    | Interrupted
    | Broken(error: RunError)

  /** Everything the outside contributes to one turn of a driver's loop. */
  datatype Report = Report(
    cancelledBefore: bool, execution: Execution, elapsedMs: U64, wallClockExpired: bool)

  type Tape = nat -> Report

  // ---------- The local loop ----------

  datatype LocalEnd =
    | Finished(state: RunState)
    | Aborted(state: RunState, error: RunError)

  /** What the local loop does with one report once an effect has been selected: the state
      to go on with, or the way the run ends. */
  datatype LocalTurn = Continue(state: RunState) | Stop(end: LocalEnd)

  function LocalAfter(serde: Serde, s: RunState, effect: Effect, report: Report): LocalTurn {
    match report.execution
    case Interrupted => LocalTurn.Stop(Finished(Cancel(s)))
    case Broken(error) => LocalTurn.Stop(Aborted(Fail(s, ErrorText(error)), error))
    case Produced(outcome) =>
      if effect.ProviderCall? && IsToolResult(outcome) then LocalTurn.Stop(Aborted(s, ProtocolError))
      else
        var timed := RecordElapsed(s, report.elapsedMs);
        var r := Commit(serde, timed, effect.id, outcome);
        if r.Err? then LocalTurn.Stop(Aborted(timed, ProtocolError))
        else
          var next := r.value;
          if outcome.ProviderFailed? then LocalTurn.Stop(Finished(next))
          else if !effect.ProviderCall? && next.pending == [] && ValidateHistory(serde, next.history).Err? then
            LocalTurn.Stop(Aborted(next, InvalidHistory(ValidateHistory(serde, next.history).error)))
          else if report.wallClockExpired then LocalTurn.Stop(Finished(Cancel(next)))
          else if next.text.Some? then LocalTurn.Stop(Finished(next))
          else Continue(next)
  }

  function LocalDrive(serde: Serde, s: RunState, tape: Tape, n: nat): LocalEnd
    decreases IsActive(s.status), RemainingCalls(s), |s.pending|
  {
    if tape(n).cancelledBefore then Finished(Cancel(s))
    else if Exhausted(s) then Finished(FinishIfExhausted(s))
    else
      var effect := NextEffect(s);
      if effect.None? then Finished(s)
      else
        LocalTurnMakesProgress(serde, s, effect.value, tape(n));
        var turn := LocalAfter(serde, s, effect.value, tape(n));
        if turn.Stop? then turn.end else LocalDrive(serde, turn.state, tape, n + 1)
  }

  /** Strictly below `s` in the order that bounds every run: activity, then calls left,
      then pending tools. */
  predicate Below(next: RunState, s: RunState) {
    && IsActive(s.status)
    && (|| !IsActive(next.status)
        || RemainingCalls(next) < RemainingCalls(s)
        || (RemainingCalls(next) == RemainingCalls(s) && |next.pending| < |s.pending|))
  }

  lemma LocalTurnMakesProgress(serde: Serde, s: RunState, effect: Effect, report: Report)
    requires NextEffect(s) == Some(effect)
    ensures var turn := LocalAfter(serde, s, effect, report);
      turn.Continue? ==> Below(turn.state, s)
  {
    if report.execution.Produced? {
      var timed := RecordElapsed(s, report.elapsedMs);
      if Expects(timed, effect.id, report.execution.outcome) {
        CommitMakesProgress(serde, timed, effect.id, report.execution.outcome);
      }
    }
  }

  // ---------- The durable workflow ----------

  const ADAPTER_SCHEMA_VERSION: nat := 1
  const WORKFLOW_FINGERPRINT := "agentive-temporal-workflow-v1"

  datatype Config = Config(
    schemaVersion: nat, fingerprint: string, continueAfter: U32, durableTools: set<string>)
  {
    predicate Valid() {
      && schemaVersion == ADAPTER_SCHEMA_VERSION
      && fingerprint == WORKFLOW_FINGERPRINT
      && continueAfter != 0
    }

    /** Every tool an effect would invoke is on the durable allowlist. */
    predicate Permits(effect: Effect) {
      match effect
      case ProviderCall(_, _, _) => true
      case ToolCallEffect(_, call) => call.invocation.toolName in durableTools
      case ToolBatch(_, calls) => forall i :: 0 <= i < |calls| ==> calls[i].invocation.toolName in durableTools
    }
  }

  datatype WorkflowInput = WorkflowInput(
    state: RunState, config: Config, completedEffects: U64, effectsInExecution: U32)

  /** How one workflow execution ends; `reports` counts the tape entries behind it. */
  datatype WorkflowEnd =
    | Returned(state: RunState, completedEffects: U64, reports: nat)
    | Refused(state: RunState, completedEffects: U64, reports: nat)
    | ContinuedAsNew(input: WorkflowInput, reports: nat)

  function AfterCommit(s: RunState, elapsedMs: U64): RunState {
    FinishIfExhausted(RecordElapsed(s, elapsedMs))
  }

  /** One execution's loop, from a tape position. */
  function WorkflowLoop(serde: Serde, input: WorkflowInput, tape: Tape, n: nat): WorkflowEnd
    decreases IsActive(input.state.status), RemainingCalls(input.state), |input.state.pending|
  {
    var s := input.state;
    if Exhausted(s) then Returned(FinishIfExhausted(s), input.completedEffects, n)
    else
      var effect := NextEffect(s);
      if effect.None? then Returned(s, input.completedEffects, n)
      else if input.effectsInExecution >= input.config.continueAfter then
        ContinuedAsNew(input.(effectsInExecution := 0), n)
      else if !input.config.Permits(effect.value) then Refused(s, input.completedEffects, n)
      else
        match tape(n).execution
        case Interrupted => Returned(Cancel(s), input.completedEffects, n)
        case Broken(_) => Refused(s, input.completedEffects, n)
        case Produced(outcome) =>
          var r := Commit(serde, s, effect.value.id, outcome);
          if r.Err? then Refused(s, input.completedEffects, n)
          else
            WorkflowTurnMakesProgress(serde, s, effect.value.id, outcome, tape(n).elapsedMs);
            WorkflowLoop(serde, NextInput(input, r.value, tape(n).elapsedMs), tape, n + 1)
  }

  function NextInput(input: WorkflowInput, committed: RunState, elapsedMs: U64): WorkflowInput {
    input.(state := AfterCommit(committed, elapsedMs),
           completedEffects := SatAdd64(input.completedEffects, 1),
           effectsInExecution := SatAdd32(input.effectsInExecution, 1))
  }

  lemma WorkflowTurnMakesProgress(
    serde: Serde, s: RunState, id: string, outcome: RunModel.Outcome, elapsedMs: U64)
    requires Expects(s, id, outcome)
    ensures Below(AfterCommit(Commit(serde, s, id, outcome).value, elapsedMs), s)
  {
    CommitMakesProgress(serde, s, id, outcome);
  }

  /** One execution. A history without this runtime's patch marker is refused. */
  function Workflow(serde: Serde, input: WorkflowInput, patched: bool, tape: Tape, n: nat): WorkflowEnd {
    if !input.config.Valid() || !patched then Refused(input.state, input.completedEffects, n)
    else WorkflowLoop(serde, input, tape, n)
  }

  /** An execution that continues as new has committed something since it started, unless
      it was started already due to continue. */
  lemma {:induction false} ContinuingMakesProgress(serde: Serde, input: WorkflowInput, tape: Tape, n: nat)
    ensures var end := WorkflowLoop(serde, input, tape, n);
      end.ContinuedAsNew? ==>
        && end.input.effectsInExecution == 0
        && end.input.config == input.config
        && (|| Below(end.input.state, input.state)
            || (end.input.state == input.state && input.effectsInExecution >= input.config.continueAfter))
    decreases IsActive(input.state.status), RemainingCalls(input.state), |input.state.pending|
  {
    var s := input.state;
    var effect := NextEffect(s);
    if !Exhausted(s) && effect.Some? && input.effectsInExecution < input.config.continueAfter
       && tape(n).execution.Produced? && Expects(s, effect.value.id, tape(n).execution.outcome) {
      var outcome := tape(n).execution.outcome;
      WorkflowTurnMakesProgress(serde, s, effect.value.id, outcome, tape(n).elapsedMs);
      ContinuingMakesProgress(
        serde, NextInput(input, Commit(serde, s, effect.value.id, outcome).value, tape(n).elapsedMs), tape, n + 1);
    }
  }

  /** The whole chain of executions that Continue-As-New strings together. */
  function WorkflowChain(serde: Serde, input: WorkflowInput, patched: bool, tape: Tape, n: nat): WorkflowEnd
    decreases IsActive(input.state.status), RemainingCalls(input.state), |input.state.pending|,
              input.effectsInExecution >= input.config.continueAfter
  {
    var end := Workflow(serde, input, patched, tape, n);
    if end.ContinuedAsNew? then
      ContinuingMakesProgress(serde, input, tape, n);
      WorkflowChain(serde, end.input, patched, tape, end.reports)
    else end
  }

  /** The same loop without any continuation threshold. */
  function Uninterrupted(
    serde: Serde, s: RunState, config: Config, completed: U64, tape: Tape, n: nat): WorkflowEnd
    decreases IsActive(s.status), RemainingCalls(s), |s.pending|
  {
    if Exhausted(s) then Returned(FinishIfExhausted(s), completed, n)
    else
      var effect := NextEffect(s);
      if effect.None? then Returned(s, completed, n)
      else if !config.Permits(effect.value) then Refused(s, completed, n)
      else
        match tape(n).execution
        case Interrupted => Returned(Cancel(s), completed, n)
        case Broken(_) => Refused(s, completed, n)
        case Produced(outcome) =>
          var r := Commit(serde, s, effect.value.id, outcome);
          if r.Err? then Refused(s, completed, n)
          else
            WorkflowTurnMakesProgress(serde, s, effect.value.id, outcome, tape(n).elapsedMs);
            Uninterrupted(
              serde, AfterCommit(r.value, tape(n).elapsedMs), config, SatAdd64(completed, 1), tape, n + 1)
  }

  lemma {:induction false} LoopThenUninterrupted(serde: Serde, input: WorkflowInput, tape: Tape, n: nat)
    ensures var end := WorkflowLoop(serde, input, tape, n);
      Uninterrupted(serde, input.state, input.config, input.completedEffects, tape, n) ==
      if end.ContinuedAsNew? then
        Uninterrupted(serde, end.input.state, end.input.config, end.input.completedEffects, tape, end.reports)
      else end
    decreases IsActive(input.state.status), RemainingCalls(input.state), |input.state.pending|
  {
    var s := input.state;
    var effect := NextEffect(s);
    if !Exhausted(s) && effect.Some? && input.effectsInExecution < input.config.continueAfter
       && tape(n).execution.Produced? && Expects(s, effect.value.id, tape(n).execution.outcome) {
      var outcome := tape(n).execution.outcome;
      WorkflowTurnMakesProgress(serde, s, effect.value.id, outcome, tape(n).elapsedMs);
      LoopThenUninterrupted(
        serde, NextInput(input, Commit(serde, s, effect.value.id, outcome).value, tape(n).elapsedMs), tape, n + 1);
    }
  }

  /** Continue-As-New is invisible: whatever the threshold, and wherever the counter
      starts, the chain ends exactly as the uninterrupted run does, or is refused at once. */
  lemma {:induction false} ContinueAsNewIsInvisible(
    serde: Serde, input: WorkflowInput, patched: bool, tape: Tape, n: nat)
    ensures WorkflowChain(serde, input, patched, tape, n) ==
            if input.config.Valid() && patched then
              Uninterrupted(serde, input.state, input.config, input.completedEffects, tape, n)
            else Refused(input.state, input.completedEffects, n)
    decreases IsActive(input.state.status), RemainingCalls(input.state), |input.state.pending|,
              input.effectsInExecution >= input.config.continueAfter
  {
    var end := Workflow(serde, input, patched, tape, n);
    LoopThenUninterrupted(serde, input, tape, n);
    if end.ContinuedAsNew? {
      ContinuingMakesProgress(serde, input, tape, n);
      ContinueAsNewIsInvisible(serde, end.input, patched, tape, end.reports);
    }
  }

  lemma UninterruptedUnfolds(
    serde: Serde, s: RunState, config: Config, completed: U64, tape: Tape, n: nat, effect: Effect)
    requires !Exhausted(s) && NextEffect(s) == Some(effect) && config.Permits(effect)
    requires tape(n).execution.Produced? && Expects(s, effect.id, tape(n).execution.outcome)
    ensures var next := AfterCommit(Commit(serde, s, effect.id, tape(n).execution.outcome).value, tape(n).elapsedMs);
      && Below(next, s)
      && Uninterrupted(serde, s, config, completed, tape, n) ==
           Uninterrupted(serde, next, config, SatAdd64(completed, 1), tape, n + 1)
  {
    WorkflowTurnMakesProgress(serde, s, effect.id, tape(n).execution.outcome, tape(n).elapsedMs);
  }

  // ---------- A workflow run is a history of transitions ----------

  /** The transitions an uninterrupted run makes, in order. */
  function Trace(serde: Serde, s: RunState, config: Config, tape: Tape, n: nat): seq<Transition>
    decreases IsActive(s.status), RemainingCalls(s), |s.pending|
  {
    if Exhausted(s) then [Finish]
    else
      var effect, execution := NextEffect(s), tape(n).execution;
      if effect.None? || !config.Permits(effect.value) then []
      else if execution.Interrupted? then [CancelRun]
      else if execution.Produced? && Expects(s, effect.value.id, execution.outcome) then
        WorkflowTurnMakesProgress(serde, s, effect.value.id, execution.outcome, tape(n).elapsedMs);
        CommitTrace(effect.value.id, tape(n)) +
        Trace(serde, AfterCommit(Commit(serde, s, effect.value.id, execution.outcome).value, tape(n).elapsedMs), config, tape, n + 1)
      else []
  }

  function CommitTrace(id: string, report: Report): seq<Transition>
    requires report.execution.Produced?
  {
    [Complete(id, report.execution.outcome), Elapse(report.elapsedMs), Finish]
  }

  /** How many completions a history had accepted. */
  function AcceptedCommits(serde: Serde, s: RunState, ts: seq<Transition>): nat {
    if ts == [] then 0
    else
      AcceptedCommits(serde, s, ts[..|ts| - 1]) +
      if Accepted(Run(serde, s, ts[..|ts| - 1]), ts[|ts| - 1]) then 1 else 0
  }

  lemma {:induction false} AcceptedOfConcat(serde: Serde, s: RunState, a: seq<Transition>, b: seq<Transition>)
    ensures AcceptedCommits(serde, s, a + b) == AcceptedCommits(serde, s, a) + AcceptedCommits(serde, Run(serde, s, a), b)
  {
    if b == [] {
      assert a + b == a;
    } else {
      var short := b[..|b| - 1];
      assert (a + b)[..|a + b| - 1] == a + short;
      AcceptedOfConcat(serde, s, a, short);
      RunOfConcat(serde, s, a, short);
    }
  }

  lemma OneTransition(serde: Serde, s: RunState, t: Transition)
    ensures Run(serde, s, [t]) == Apply(serde, s, t)
    ensures AcceptedCommits(serde, s, [t]) == if Accepted(s, t) then 1 else 0
  {
    assert [t][..0] == [];
  }

  lemma TwoTransitions(serde: Serde, s: RunState, a: Transition, b: Transition)
    ensures Run(serde, s, [a, b]) == Apply(serde, Apply(serde, s, a), b)
    ensures !a.Complete? && !b.Complete? ==> AcceptedCommits(serde, s, [a, b]) == 0
  {
    assert [a] + [b] == [a, b];
    RunOfConcat(serde, s, [a], [b]);
    AcceptedOfConcat(serde, s, [a], [b]);
    OneTransition(serde, s, a);
    OneTransition(serde, Apply(serde, s, a), b);
  }

  lemma CommitTraceRuns(serde: Serde, s: RunState, id: string, report: Report)
    requires report.execution.Produced? && Expects(s, id, report.execution.outcome)
    ensures var ts := CommitTrace(id, report);
      && Run(serde, s, ts) == AfterCommit(Commit(serde, s, id, report.execution.outcome).value, report.elapsedMs)
      && AcceptedCommits(serde, s, ts) == 1
  {
    var first, rest := Complete(id, report.execution.outcome), [Elapse(report.elapsedMs), Finish];
    assert CommitTrace(id, report) == [first] + rest;
    RunOfConcat(serde, s, [first], rest);
    AcceptedOfConcat(serde, s, [first], rest);
    OneTransition(serde, s, first);
    TwoTransitions(serde, Apply(serde, s, first), Elapse(report.elapsedMs), Finish);
  }

  /** Whatever the outside does, a workflow run is a history of transitions: it ends in the
      state that history reaches, so every law of histories holds of it, and its cursor has
      grown by exactly the completions accepted along the way. */
  lemma {:induction false} CursorCountsCommits(
    serde: Serde, s: RunState, config: Config, completed: U64, tape: Tape, n: nat)
    ensures var end, ts := Uninterrupted(serde, s, config, completed, tape, n), Trace(serde, s, config, tape, n);
      && !end.ContinuedAsNew?
      && end.state == Run(serde, s, ts)
      && end.completedEffects == SatAdd64(completed, AcceptedCommits(serde, s, ts))
      && end.reports == n + AcceptedCommits(serde, s, ts)
    decreases IsActive(s.status), RemainingCalls(s), |s.pending|
  {
    var effect, execution := NextEffect(s), tape(n).execution;
    if !Exhausted(s) && effect.Some? && config.Permits(effect.value) && execution.Produced?
       && Expects(s, effect.value.id, execution.outcome) {
      var next := AfterCommit(Commit(serde, s, effect.value.id, execution.outcome).value, tape(n).elapsedMs);
      UninterruptedUnfolds(serde, s, config, completed, tape, n, effect.value);
      CursorCountsCommits(serde, next, config, SatAdd64(completed, 1), tape, n + 1);
      TraceOfCommit(serde, s, config, tape, n, effect.value);
    } else {
      OneTransition(serde, s, Finish);
      OneTransition(serde, s, CancelRun);
      IdleTurn(serde, s, config, completed, tape, n);
    }
  }

  lemma TraceOfCommit(serde: Serde, s: RunState, config: Config, tape: Tape, n: nat, effect: Effect)
    requires !Exhausted(s) && NextEffect(s) == Some(effect) && config.Permits(effect)
    requires tape(n).execution.Produced? && Expects(s, effect.id, tape(n).execution.outcome)
    ensures var next := AfterCommit(Commit(serde, s, effect.id, tape(n).execution.outcome).value, tape(n).elapsedMs);
      var ts, rest := Trace(serde, s, config, tape, n), Trace(serde, next, config, tape, n + 1);
      && Run(serde, s, ts) == Run(serde, next, rest)
      && AcceptedCommits(serde, s, ts) == 1 + AcceptedCommits(serde, next, rest)
  {
    var next := AfterCommit(Commit(serde, s, effect.id, tape(n).execution.outcome).value, tape(n).elapsedMs);
    var rest := Trace(serde, next, config, tape, n + 1);
    CommitTraceRuns(serde, s, effect.id, tape(n));
    RunOfConcat(serde, s, CommitTrace(effect.id, tape(n)), rest);
    AcceptedOfConcat(serde, s, CommitTrace(effect.id, tape(n)), rest);
    assert Trace(serde, s, config, tape, n) == CommitTrace(effect.id, tape(n)) + rest;
  }

  /** A turn that commits nothing is the last, and makes at most one transition. */
  lemma IdleTurn(serde: Serde, s: RunState, config: Config, completed: U64, tape: Tape, n: nat)
    requires !Exhausted(s) && NextEffect(s).Some? && config.Permits(NextEffect(s).value) && tape(n).execution.Produced? ==>
      !Expects(s, NextEffect(s).value.id, tape(n).execution.outcome)
    ensures var end := Uninterrupted(serde, s, config, completed, tape, n);
      && !end.ContinuedAsNew? && end.completedEffects == completed && end.reports == n
      && (|| (Trace(serde, s, config, tape, n) == [] && end.state == s)
          || (Trace(serde, s, config, tape, n) == [Finish] && end.state == FinishIfExhausted(s))
          || (Trace(serde, s, config, tape, n) == [CancelRun] && end.state == Cancel(s)))
  {
  }

  // ---------- So is a local run ----------

  function TurnState(turn: LocalTurn): RunState {
    if turn.Continue? then turn.state else turn.end.state
  }

  /** The transitions one turn of the local loop makes of a report on a selected effect. */
  function TurnTrace(serde: Serde, s: RunState, effect: Effect, report: Report): seq<Transition> {
    match report.execution
    case Interrupted => [CancelRun]
    case Broken(error) => [FailRun(ErrorText(error))]
    case Produced(outcome) =>
      if effect.ProviderCall? && IsToolResult(outcome) then []
      else
        var turn := LocalAfter(serde, s, effect, report);
        var clockStops := report.wallClockExpired && !outcome.ProviderFailed? && turn.Stop? && turn.end.Finished?;
        [Elapse(report.elapsedMs), Complete(effect.id, outcome)] + if clockStops then [CancelRun] else []
  }

  /** The transitions a local run makes, in order. */
  function LocalTrace(serde: Serde, s: RunState, tape: Tape, n: nat): seq<Transition>
    decreases IsActive(s.status), RemainingCalls(s), |s.pending|
  {
    if tape(n).cancelledBefore then [CancelRun]
    else if Exhausted(s) then [Finish]
    else
      var effect := NextEffect(s);
      if effect.None? then []
      else
        LocalTurnMakesProgress(serde, s, effect.value, tape(n));
        var turn := LocalAfter(serde, s, effect.value, tape(n));
        TurnTrace(serde, s, effect.value, tape(n))
        + if turn.Continue? then LocalTrace(serde, turn.state, tape, n + 1) else []
  }

  lemma TimedCommitRuns(serde: Serde, s: RunState, ms: U64, id: string, outcome: RunModel.Outcome)
    ensures Run(serde, s, [Elapse(ms), Complete(id, outcome)]) ==
            Apply(serde, RecordElapsed(s, ms), Complete(id, outcome))
  {
    TwoTransitions(serde, s, Elapse(ms), Complete(id, outcome));
  }

  lemma TurnIsAHistory(serde: Serde, s: RunState, effect: Effect, report: Report)
    ensures Run(serde, s, TurnTrace(serde, s, effect, report)) == TurnState(LocalAfter(serde, s, effect, report))
  {
    match report.execution {
      case Interrupted => OneTransition(serde, s, CancelRun);
      case Broken(error) => OneTransition(serde, s, FailRun(ErrorText(error)));
      case Produced(outcome) =>
        if !(effect.ProviderCall? && IsToolResult(outcome)) {
          var timed := [Elapse(report.elapsedMs), Complete(effect.id, outcome)];
          TimedCommitRuns(serde, s, report.elapsedMs, effect.id, outcome);
          RunOfConcat(serde, s, timed, [CancelRun]);
          OneTransition(serde, Run(serde, s, timed), CancelRun);
          assert timed + [] == timed;
        }
    }
  }

  /** Whatever the outside does, a local run, too, is a history of transitions, so every law
      of histories holds of it. */
  lemma {:induction false} LocalRunIsAHistory(serde: Serde, s: RunState, tape: Tape, n: nat)
    ensures LocalDrive(serde, s, tape, n).state == Run(serde, s, LocalTrace(serde, s, tape, n))
    decreases IsActive(s.status), RemainingCalls(s), |s.pending|
  {
    var effect := NextEffect(s);
    if tape(n).cancelledBefore || Exhausted(s) || effect.None? {
      OneTransition(serde, s, CancelRun);
      OneTransition(serde, s, Finish);
    } else {
      var turn, trace := LocalAfter(serde, s, effect.value, tape(n)), TurnTrace(serde, s, effect.value, tape(n));
      DriveUnfolds(serde, s, tape, n, effect.value);
      TurnIsAHistory(serde, s, effect.value, tape(n));
      if turn.Continue? {
        LocalTurnMakesProgress(serde, s, effect.value, tape(n));
        LocalRunIsAHistory(serde, turn.state, tape, n + 1);
        RunOfConcat(serde, s, trace, LocalTrace(serde, turn.state, tape, n + 1));
      } else {
        assert trace + [] == trace;
      }
    }
  }

  // ---------- Both drivers, one result ----------

  /** Neither the run's own cancellation flag nor the local wall clock intervenes. */
  ghost predicate Undisturbed(tape: Tape) {
    forall n :: !tape(n).cancelledBefore && !tape(n).wallClockExpired
  }

  /** Providers ask for allowlisted tools only. */
  ghost predicate AsksAllowlisted(tape: Tape, config: Config) {
    forall n :: tape(n).execution.Produced? && tape(n).execution.outcome.Provider? ==>
      Allowlisted(tape(n).execution.outcome.response.toolCalls, config)
  }

  /** The outcomes on the tape are ones an executor lets through, and keep histories valid. */
  ghost predicate WellBehaved(serde: Serde, tape: Tape) {
    forall n :: tape(n).execution.Produced? ==> AcceptableOutcome(serde, tape(n).execution.outcome)
  }

  ghost predicate AcceptableOutcome(serde: Serde, outcome: RunModel.Outcome) {
    && KeepsHistory(serde, outcome)
    && (outcome.Provider? ==> exists accepted :: ValidResponse(outcome.response, accepted))
  }

  predicate Allowlisted(calls: seq<ModelToolCall>, config: Config) {
    forall i :: 0 <= i < |calls| ==> calls[i].name in config.durableTools
  }

  predicate SameEnd(local: LocalEnd, durable: WorkflowEnd) {
    match local
    case Finished(s) => durable.Returned? && durable.state == s
    case Aborted(_, _) => durable.Refused?
  }

  /** The local loop gave up because its own re-validation of the history failed. */
  predicate RevalidationFailed(local: LocalEnd) {
    local.Aborted? && local.error.InvalidHistory? && IsActive(local.state.status)
  }

  lemma {:induction false} ResolveAllIgnoresElapsed(
    serde: Serde, s: RunState, ms: U64, results: seq<ToolEffectResult>, budgets: seq<Option<DelegationBudget>>)
    requires |results| == |budgets| <= |s.pending|
    ensures ResolveAll(serde, RecordElapsed(s, ms), results, budgets) ==
            RecordElapsed(ResolveAll(serde, s, results, budgets), ms)
    decreases |results|
  {
    if results != [] {
      ResolveAllIgnoresElapsed(
        serde, ResolveFirst(serde, s, results[0], budgets[0]), ms, results[1..], budgets[1..]);
    }
  }

  /** Recording time before or after a commit makes no difference to the state. */
  lemma CommitIgnoresElapsed(serde: Serde, s: RunState, ms: U64, id: string, outcome: RunModel.Outcome)
    ensures Expects(RecordElapsed(s, ms), id, outcome) <==> Expects(s, id, outcome)
    ensures Expects(s, id, outcome) ==>
      Commit(serde, RecordElapsed(s, ms), id, outcome).value == RecordElapsed(Commit(serde, s, id, outcome).value, ms)
  {
    var timed := RecordElapsed(s, ms);
    NextEffectIgnoresElapsed(s, ms);
    if Expects(s, id, outcome) {
      match outcome {
        case Batch(outputs) =>
          assert BatchReservations(timed) == BatchReservations(s);
          ResolveAllIgnoresElapsed(serde, s, ms, outputs, BatchReservations(s));
        case Tool(result) =>
          assert DelegationBudgetFor(timed, s.pending[0]) == DelegationBudgetFor(s, s.pending[0]);
        case Provider(response, attempts) =>
          assert AttemptReservation(serde, timed.(status := RunStatus.Running), attempts) ==
                 AttemptReservation(serde, s.(status := RunStatus.Running), attempts);
        case ProviderFailed(_, attempts) =>
          assert AttemptReservation(serde, timed, attempts) == AttemptReservation(serde, s, attempts);
        case _ =>
      }
    }
  }

  lemma NextEffectIgnoresElapsed(s: RunState, ms: U64)
    ensures NextEffect(RecordElapsed(s, ms)) == NextEffect(s)
  {
    var timed := RecordElapsed(s, ms);
    forall call: ModelToolCall ensures EffectCall(timed, call) == EffectCall(s, call) {
    }
    assert Batchable(timed) == Batchable(s);
    if Batchable(s) {
      assert seq(|s.pending|, i requires 0 <= i < |s.pending| => EffectCall(timed, s.pending[i])) ==
             seq(|s.pending|, i requires 0 <= i < |s.pending| => EffectCall(s, s.pending[i]));
    }
  }

  /** What the two drivers agree on at the head of their loops. */
  predicate Comparable(s: RunState, config: Config) {
    Coherent(s) && Allowlisted(s.pending, config)
  }

  lemma AllowlistedIsPermitted(s: RunState, config: Config)
    requires Allowlisted(s.pending, config)
    ensures NextEffect(s).Some? ==> config.Permits(NextEffect(s).value)
  {
  }

  lemma CommitStaysComparable(serde: Serde, s: RunState, id: string, outcome: RunModel.Outcome, config: Config)
    requires Comparable(s, config) && Expects(s, id, outcome)
    requires outcome.Provider? ==> Allowlisted(outcome.response.toolCalls, config)
    ensures Comparable(Commit(serde, s, id, outcome).value, config)
  {
    ApplyKeepsCoherent(serde, s, Complete(id, outcome));
    if outcome.Batch? {
      ResolveAllFrame(serde, s, outcome.outputs, BatchReservations(s));
    }
  }

  /** How the local loop takes a committed outcome, when its wall clock does not intervene. */
  function TurnOfCommit(serde: Serde, effect: Effect, outcome: RunModel.Outcome, next: RunState): LocalTurn {
    if outcome.ProviderFailed? then LocalTurn.Stop(Finished(next))
    else if !effect.ProviderCall? && next.pending == [] && ValidateHistory(serde, next.history).Err? then
      LocalTurn.Stop(Aborted(next, InvalidHistory(ValidateHistory(serde, next.history).error)))
    else if next.text.Some? then LocalTurn.Stop(Finished(next))
    else Continue(next)
  }

  lemma LocalTurnOfCommit(serde: Serde, s: RunState, effect: Effect, report: Report)
    requires NextEffect(s) == Some(effect)
    requires report.execution.Produced? && !report.wallClockExpired
    requires Expects(s, effect.id, report.execution.outcome)
    ensures LocalAfter(serde, s, effect, report) ==
            TurnOfCommit(
              serde, effect, report.execution.outcome,
              RecordElapsed(Commit(serde, s, effect.id, report.execution.outcome).value, report.elapsedMs))
  {
    CommitIgnoresElapsed(serde, s, report.elapsedMs, effect.id, report.execution.outcome);
  }

  /** A committed outcome takes both drivers to the same state: the local loop stops there
      only if it is final or its history lost, and the workflow goes on from it. */
  lemma CommittedTurnsAgree(
    serde: Serde, s: RunState, config: Config, completed: U64, tape: Tape, n: nat, effect: Effect)
    requires Comparable(s, config)
    requires !Exhausted(s) && NextEffect(s) == Some(effect)
    requires tape(n).execution.Produced? && !tape(n).wallClockExpired
    requires Expects(s, effect.id, tape(n).execution.outcome)
    requires tape(n).execution.outcome.Provider? ==>
      Allowlisted(tape(n).execution.outcome.response.toolCalls, config)
    ensures var outcome := tape(n).execution.outcome;
      var next := RecordElapsed(Commit(serde, s, effect.id, outcome).value, tape(n).elapsedMs);
      && Comparable(next, config)
      && Uninterrupted(serde, s, config, completed, tape, n) ==
           Uninterrupted(serde, next, config, SatAdd64(completed, 1), tape, n + 1)
      && LocalAfter(serde, s, effect, tape(n)) == TurnOfCommit(serde, effect, outcome, next)
  {
    var report := tape(n);
    AllowlistedIsPermitted(s, config);
    UninterruptedUnfolds(serde, s, config, completed, tape, n, effect);
    CommitStaysComparable(serde, s, effect.id, report.execution.outcome, config);
    var next := RecordElapsed(Commit(serde, s, effect.id, report.execution.outcome).value, report.elapsedMs);
    LocalTurnOfCommit(serde, s, effect, report);
    FinishingIsIdempotent(serde, next, config, SatAdd64(completed, 1), tape, n + 1);
  }

  /** A turn that commits nothing ends both drivers, alike. */
  lemma OtherTurnsAgree(
    serde: Serde, s: RunState, config: Config, completed: U64, tape: Tape, n: nat)
    requires Allowlisted(s.pending, config) && !tape(n).cancelledBefore
    requires !Exhausted(s) && NextEffect(s).Some? && tape(n).execution.Produced? ==>
      !Expects(s, NextEffect(s).value.id, tape(n).execution.outcome)
    ensures SameEnd(LocalDrive(serde, s, tape, n), Uninterrupted(serde, s, config, completed, tape, n))
  {
    AllowlistedIsPermitted(s, config);
    if !Exhausted(s) && NextEffect(s).Some? && tape(n).execution.Produced? {
      CommitIgnoresElapsed(serde, s, tape(n).elapsedMs, NextEffect(s).value.id, tape(n).execution.outcome);
    }
  }

  lemma DriveUnfolds(serde: Serde, s: RunState, tape: Tape, n: nat, effect: Effect)
    requires !tape(n).cancelledBefore && !Exhausted(s) && NextEffect(s) == Some(effect)
    ensures var turn := LocalAfter(serde, s, effect, tape(n));
      LocalDrive(serde, s, tape, n) == if turn.Stop? then turn.end else LocalDrive(serde, turn.state, tape, n + 1)
  {
  }

  lemma FinalStatesReturn(
    serde: Serde, s: RunState, config: Config, completed: U64, tape: Tape, n: nat)
    requires !IsActive(s.status)
    ensures Uninterrupted(serde, s, config, completed, tape, n) == Returned(s, completed, n)
  {
  }

  predicate AgreeUnlessLost(local: LocalEnd, durable: WorkflowEnd) {
    SameEnd(local, durable) || RevalidationFailed(local)
  }

  /** From the same state and tape, the local loop and the workflow end alike: with the
      same final state, or both by refusing to go on; unless the local loop's own
      re-validation fails, which the workflow does not have. Deadlines, interrupted effects,
      failed effects, and any arguments and outputs are allowed. */
  lemma {:induction false} DriversAgreeUnlessLost(
    serde: Serde, s: RunState, config: Config, completed: U64, tape: Tape, n: nat)
    requires Comparable(s, config) && Undisturbed(tape) && AsksAllowlisted(tape, config)
    ensures AgreeUnlessLost(LocalDrive(serde, s, tape, n), Uninterrupted(serde, s, config, completed, tape, n))
    decreases IsActive(s.status), RemainingCalls(s), |s.pending|
  {
    assert !tape(n).cancelledBefore && !tape(n).wallClockExpired;
    if Commits(s, tape(n)) {
      var effect := NextEffect(s).value;
      ContinuedTurn(serde, s, config, completed, tape, n, effect);
      var turn := LocalAfter(serde, s, effect, tape(n));
      if turn.Continue? {
        DriversAgreeUnlessLost(serde, turn.state, config, SatAdd64(completed, 1), tape, n + 1);
      }
      CommittedDrivesAgree(serde, s, config, completed, tape, n, effect);
    } else {
      OtherTurnsAgree(serde, s, config, completed, tape, n);
    }
  }

  /** The report is on an outcome that the state's next effect commits. */
  predicate Commits(s: RunState, report: Report) {
    && !Exhausted(s) && NextEffect(s).Some? && report.execution.Produced?
    && Expects(s, NextEffect(s).value.id, report.execution.outcome)
  }

  lemma ContinuedTurn(
    serde: Serde, s: RunState, config: Config, completed: U64, tape: Tape, n: nat, effect: Effect)
    requires Comparable(s, config) && !tape(n).wallClockExpired
    requires Commits(s, tape(n)) && NextEffect(s) == Some(effect)
    requires tape(n).execution.outcome.Provider? ==>
      Allowlisted(tape(n).execution.outcome.response.toolCalls, config)
    ensures var turn := LocalAfter(serde, s, effect, tape(n));
      turn.Continue? ==> Comparable(turn.state, config) && Below(turn.state, s)
  {
    CommittedTurnsAgree(serde, s, config, completed, tape, n, effect);
    LocalTurnMakesProgress(serde, s, effect, tape(n));
  }

  /** Drives agree from before a committed turn if they agree from after it. */
  lemma CommittedDrivesAgree(
    serde: Serde, s: RunState, config: Config, completed: U64, tape: Tape, n: nat, effect: Effect)
    requires Comparable(s, config)
    requires !tape(n).cancelledBefore && !tape(n).wallClockExpired
    requires !Exhausted(s) && NextEffect(s) == Some(effect)
    requires tape(n).execution.Produced? && Expects(s, effect.id, tape(n).execution.outcome)
    requires tape(n).execution.outcome.Provider? ==>
      Allowlisted(tape(n).execution.outcome.response.toolCalls, config)
    requires var turn := LocalAfter(serde, s, effect, tape(n));
      turn.Continue? ==>
        AgreeUnlessLost(LocalDrive(serde, turn.state, tape, n + 1),
                        Uninterrupted(serde, turn.state, config, SatAdd64(completed, 1), tape, n + 1))
    ensures AgreeUnlessLost(LocalDrive(serde, s, tape, n), Uninterrupted(serde, s, config, completed, tape, n))
  {
    DriveUnfolds(serde, s, tape, n, effect);
    CommittedTurnsAgree(serde, s, config, completed, tape, n, effect);
    var turn := LocalAfter(serde, s, effect, tape(n));
    if turn.Stop? {
      if turn.end.Finished? {
        StoppedTurnsAreFinal(serde, s, effect, tape(n));
        FinalStatesReturn(serde, turn.end.state, config, SatAdd64(completed, 1), tape, n + 1);
      } else {
        ToolTurnsStayActive(serde, s, effect, tape(n));
      }
    }
  }

  /** A tool commit never ends a run by itself. */
  lemma ToolTurnsStayActive(serde: Serde, s: RunState, effect: Effect, report: Report)
    requires NextEffect(s) == Some(effect) && report.execution.Produced?
    requires Expects(s, effect.id, report.execution.outcome)
    ensures var next := RecordElapsed(Commit(serde, s, effect.id, report.execution.outcome).value, report.elapsedMs);
      !effect.ProviderCall? ==> IsActive(next.status)
  {
    if report.execution.outcome.Batch? {
      ResolveAllFrame(serde, s, report.execution.outcome.outputs, BatchReservations(s));
    }
  }

  /** From an aligned state, with outcomes that keep histories valid, the local loop's
      re-validation never fails. */
  lemma {:induction false} RevalidationSucceeds(serde: Serde, s: RunState, tape: Tape, n: nat)
    requires Aligned(serde, s) && Undisturbed(tape) && WellBehaved(serde, tape)
    ensures !RevalidationFailed(LocalDrive(serde, s, tape, n))
    decreases IsActive(s.status), RemainingCalls(s), |s.pending|
  {
    assert !tape(n).cancelledBefore && !tape(n).wallClockExpired;
    if Commits(s, tape(n)) {
      assert AcceptableOutcome(serde, tape(n).execution.outcome);
      var effect := NextEffect(s).value;
      CommittedTurnRevalidates(serde, s, effect, tape(n));
      var turn := LocalAfter(serde, s, effect, tape(n));
      if turn.Continue? {
        RevalidationSucceeds(serde, turn.state, tape, n + 1);
      }
      CommittedDriveRevalidates(serde, s, tape, n, effect);
    } else {
      OtherDrivesRevalidate(serde, s, tape, n);
    }
  }

  lemma CommittedDriveRevalidates(serde: Serde, s: RunState, tape: Tape, n: nat, effect: Effect)
    requires !tape(n).cancelledBefore && Commits(s, tape(n)) && NextEffect(s) == Some(effect)
    requires var turn := LocalAfter(serde, s, effect, tape(n));
      !RevalidationFailed(if turn.Stop? then turn.end else LocalDrive(serde, turn.state, tape, n + 1))
    ensures !RevalidationFailed(LocalDrive(serde, s, tape, n))
  {
    DriveUnfolds(serde, s, tape, n, effect);
  }

  lemma OtherDrivesRevalidate(serde: Serde, s: RunState, tape: Tape, n: nat)
    requires !tape(n).cancelledBefore && !Commits(s, tape(n))
    ensures !RevalidationFailed(LocalDrive(serde, s, tape, n))
  {
    if Exhausted(s) || NextEffect(s).None? {
      IdleDrivesFinish(serde, s, tape, n);
    } else {
      DriveUnfolds(serde, s, tape, n, NextEffect(s).value);
      UncommittedTurnsPass(serde, s, NextEffect(s).value, tape(n));
    }
  }

  lemma IdleDrivesFinish(serde: Serde, s: RunState, tape: Tape, n: nat)
    requires Exhausted(s) || NextEffect(s).None?
    ensures LocalDrive(serde, s, tape, n).Finished?
  {
  }

  lemma CommittedTurnRevalidates(serde: Serde, s: RunState, effect: Effect, report: Report)
    requires Aligned(serde, s) && !report.wallClockExpired
    requires Commits(s, report) && NextEffect(s) == Some(effect)
    requires AcceptableOutcome(serde, report.execution.outcome)
    ensures var turn := LocalAfter(serde, s, effect, report);
      && (turn.Stop? ==> !RevalidationFailed(turn.end))
      && (turn.Continue? ==> Aligned(serde, turn.state) && Below(turn.state, s))
  {
    var next := RecordElapsed(Commit(serde, s, effect.id, report.execution.outcome).value, report.elapsedMs);
    CommitAlignsIff(serde, s, effect.id, report.execution.outcome);
    AlignedMeansValid(serde, next);
    LocalTurnOfCommit(serde, s, effect, report);
    LocalTurnMakesProgress(serde, s, effect, report);
  }

  lemma UncommittedTurnsPass(serde: Serde, s: RunState, effect: Effect, report: Report)
    requires NextEffect(s) == Some(effect)
    requires report.execution.Produced? ==> !Expects(s, effect.id, report.execution.outcome)
    ensures var turn := LocalAfter(serde, s, effect, report);
      turn.Stop? && !RevalidationFailed(turn.end)
  {
    if report.execution.Produced? {
      CommitIgnoresElapsed(serde, s, report.elapsedMs, effect.id, report.execution.outcome);
    }
  }

  /** With outcomes that keep histories valid, the two drivers end alike without exception. */
  lemma DriversAgree(
    serde: Serde, s: RunState, config: Config, completed: U64, tape: Tape, n: nat)
    requires Aligned(serde, s) && Comparable(s, config)
    requires Undisturbed(tape) && AsksAllowlisted(tape, config) && WellBehaved(serde, tape)
    ensures SameEnd(LocalDrive(serde, s, tape, n), Uninterrupted(serde, s, config, completed, tape, n))
  {
    DriversAgreeUnlessLost(serde, s, config, completed, tape, n);
    RevalidationSucceeds(serde, s, tape, n);
  }

  /** Where they part: the last call of the budget asks for a tool whose output is nested too
      deeply. The local loop aborts, and the workflow returns an incomplete run. */
  lemma DeepOutputsPartDrivers(serde: Serde, config: Config, completed: U64) returns (s: RunState, tape: Tape)
    requires serde.Lawful() && "t" in config.durableTools
    ensures AskedOnce(serde, 1, []) == Ok(s)
    ensures Aligned(serde, s) && Comparable(s, config) && Undisturbed(tape) && AsksAllowlisted(tape, config)
    ensures RevalidationFailed(LocalDrive(serde, s, tape, 0))
    ensures var durable := Uninterrupted(serde, s, config, completed, tape, 0);
      durable.Returned? && durable.state.status.Incomplete?
  {
    AskingOnceAligns(serde, 1, []);
    s := AskedOnce(serde, 1, []).value;
    var result := DeepOutputsBreakAlignment(serde, 1, []);
    var id := ToolEffectId("run", "a");
    var report := Report(false, Produced(RunModel.Outcome.Tool(result)), 0, false);
    tape := n => report;
    SerialCommits(serde, s, result);
    var next := RecordElapsed(Commit(serde, s, id, RunModel.Outcome.Tool(result)).value, 0);
    assert Lost(serde, next);
    CommittedTurnsAgree(serde, s, config, completed, tape, 0, NextEffect(s).value);
    DriveUnfolds(serde, s, tape, 0, NextEffect(s).value);
  }

  /** The local loop finishes on a commit only in a terminal state. */
  lemma StoppedTurnsAreFinal(serde: Serde, s: RunState, effect: Effect, report: Report)
    requires Coherent(s) && NextEffect(s) == Some(effect) && report.execution.Produced?
    requires Expects(s, effect.id, report.execution.outcome)
    requires LocalAfter(serde, s, effect, report).Stop? && LocalAfter(serde, s, effect, report).end.Finished?
    ensures !IsActive(LocalAfter(serde, s, effect, report).end.state.status)
  {
    var timed := RecordElapsed(s, report.elapsedMs);
    CommitIgnoresElapsed(serde, s, report.elapsedMs, effect.id, report.execution.outcome);
    ApplyKeepsCoherent(serde, timed, Complete(effect.id, report.execution.outcome));
  }

  /** The workflow's extra check after a commit changes nothing its loop would not do. */
  lemma FinishingIsIdempotent(
    serde: Serde, s: RunState, config: Config, completed: U64, tape: Tape, n: nat)
    ensures Uninterrupted(serde, FinishIfExhausted(s), config, completed, tape, n) ==
            Uninterrupted(serde, s, config, completed, tape, n)
  {
  }

  // ---------- The workflow in place ----------

  datatype RunSnapshot = RunSnapshot(state: RunState, cursor: U64)

  function SnapshotOf(end: WorkflowEnd): RunSnapshot {
    if end.ContinuedAsNew? then RunSnapshot(end.input.state, end.input.completedEffects)
    else RunSnapshot(end.state, end.completedEffects)
  }

  class AgentiveWorkflow {
    var snapshot: Option<RunSnapshot>

    constructor ()
      ensures snapshot == None
    {
      snapshot := None;
    }

    /** One workflow execution over a state object updated in place. Once it has begun, the
        snapshot shows the state and cursor it ends with, however it ends. */
    method Run(
      state: AgentRunState, config: Config, completed0: U64, effects0: U32, patched: bool, tape: Tape, n0: nat)
      returns (end: WorkflowEnd)
      modifies this, state, state.usage
      ensures end == Workflow(
                state.serde, WorkflowInput(old(state.Snapshot()), config, completed0, effects0), patched, tape, n0)
      ensures snapshot ==
              if config.Valid() && patched then Some(SnapshotOf(end)) else old(snapshot)
    {
      ghost var start := WorkflowInput(state.Snapshot(), config, completed0, effects0);
      if !config.Valid() {
        return Refused(state.Snapshot(), completed0, n0);
      }
      if !patched {
        return Refused(state.Snapshot(), completed0, n0);
      }
      var completed: U64, effects: U32, n: nat := completed0, effects0, n0;
      snapshot := Some(RunSnapshot(state.Snapshot(), completed));
      while true
        invariant WorkflowLoop(state.serde, start, tape, n0) ==
                  WorkflowLoop(state.serde, WorkflowInput(state.Snapshot(), config, completed, effects), tape, n)
        invariant snapshot == Some(RunSnapshot(state.Snapshot(), completed))
        decreases IsActive(state.status), RemainingCalls(state.Snapshot()), |state.pending|
      {
        ghost var before := state.Snapshot();
        var finished := state.FinishIfExhausted();
        if finished {
          break;
        }
        var effect := NextEffect(state.Snapshot());
        if effect.None? {
          break;
        }
        if effects >= config.continueAfter {
          return ContinuedAsNew(WorkflowInput(state.Snapshot(), config, completed, 0), n);
        }
        if !config.Permits(effect.value) {
          return Refused(state.Snapshot(), completed, n);
        }
        match tape(n).execution {
          case Interrupted =>
            state.Cancel();
            snapshot := Some(RunSnapshot(state.Snapshot(), completed));
            return Returned(state.Snapshot(), completed, n);
          case Broken(_) =>
            return Refused(state.Snapshot(), completed, n);
          case Produced(outcome) =>
            var committed := state.CommitEffect(effect.value.id, outcome);
            if committed.Err? {
              return Refused(state.Snapshot(), completed, n);
            }
            state.RecordElapsed(tape(n).elapsedMs);
            var _ := state.FinishIfExhausted();
            WorkflowTurnMakesProgress(state.serde, before, effect.value.id, outcome, tape(n).elapsedMs);
            completed := SatAdd64(completed, 1);
            effects := SatAdd32(effects, 1);
            snapshot := Some(RunSnapshot(state.Snapshot(), completed));
            n := n + 1;
        }
      }
      var _ := state.FinishIfExhausted();
      snapshot := Some(RunSnapshot(state.Snapshot(), completed));
      return Returned(state.Snapshot(), completed, n);
    }
  }
}
