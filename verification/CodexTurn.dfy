/** Collecting one turn of a Codex session: which notifications count, when the turn is
    interrupted, and which tool calls are answered. */
module CodexTurn {
  import opened Prelude
  import opened Usage

  // ---------- Messages ----------

  datatype MessageId = NumberId(n: nat) | OtherId(text: string)

  /** The parameters a turn looks at; an absent or mistyped one is `None`. */
  datatype Params = Params(
    threadId: Option<string>,
    turnId: Option<string>,
    delta: Option<string>,
    tokenUsage: Option<TokenUsage>,
    turnStatus: Option<string>,
    tool: Option<string>,
    callId: Option<string>)

  datatype ServerMessage = ServerMessage(
    id: Option<MessageId>, hasError: bool, kind: Option<string>, params: Option<Params>)

  const TOOL_CALL := "item/tool/call"
  const MESSAGE_DELTA := "item/agentMessage/delta"
  const USAGE_UPDATED := "thread/tokenUsage/updated"
  const TURN_COMPLETED := "turn/completed"

  const NO_PARAMS := Params(None, None, None, None, None, None, None)

  datatype TurnError =
    | PhaseTimeout
    | TransportError
    | ProtocolError
    | ServerRejected
    | TurnInterrupted
    | TurnFailed
    | SendFailed

  datatype TurnResponse = TurnResponse(text: Option<string>, usage: Option<TokenUsage>)

  /** How a called tool came out: its arguments did not match, or it ran. */
  datatype ToolAnswer = InvalidArguments | Ran(success: bool, text: string)

  datatype Reply = Reply(success: bool, text: string)

  datatype Sent = Interrupt(threadId: string, turnId: string) | ToolReply(id: MessageId, reply: Reply)

  /** What a session offers the collector next. `sends` says whether a message the event
      gives rise to can be sent. */
  datatype Event =
    | CancelRequested(sends: bool)
    | Received(message: ServerMessage, answer: ToolAnswer, sends: bool)
    | ReceiveFailed
    | Closed
    | TimedOut

  /** The turn being collected and the tools frozen for it. */
  datatype Turn = Turn(threadId: string, turnId: string, tools: set<string>)

  datatype Progress = Progress(text: string, usage: Option<TokenUsage>, interrupted: bool, sent: seq<Sent>)

  datatype Step =
    | Go(progress: Progress)
    | End(result: Result<TurnResponse, TurnError>, sent: seq<Sent>)

  // ---------- One event ----------

  function ParamsOf(m: ServerMessage): Params {
    if m.params.Some? then m.params.value else NO_PARAMS
  }

  /** A notification that names another thread or another turn. */
  predicate IsForeign(turn: Turn, m: ServerMessage) {
    && m.id.None?
    && (|| (ParamsOf(m).threadId.Some? && ParamsOf(m).threadId.value != turn.threadId)
        || (ParamsOf(m).turnId.Some? && ParamsOf(m).turnId.value != turn.turnId))
  }

  predicate IsInterruptReply(m: ServerMessage, interrupted: bool) {
    interrupted && m.id == Some(NumberId(4))
  }

  predicate IsToolCall(m: ServerMessage) {
    m.id.Some? && m.kind == Some(TOOL_CALL)
  }

  /** The reply a well-formed tool call of this turn gets. */
  function ReplyTo(turn: Turn, m: ServerMessage, answer: ToolAnswer): Result<Reply, TurnError> {
    if m.params.None? then Err(ProtocolError)
    else
      var p := m.params.value;
      if p.tool.None? || p.threadId.None? || p.turnId.None? || p.callId.None? then Err(ProtocolError)
      else if p.threadId.value != turn.threadId || p.turnId.value != turn.turnId || p.callId.value == "" then
        Err(ProtocolError)
      else if p.tool.value !in turn.tools then Ok(Reply(false, "tool_not_found"))
      else
        match answer
        case InvalidArguments => Ok(Reply(false, "invalid_arguments"))
        case Ran(success, text) => Ok(Reply(success, text))
  }

  function OnRequest(turn: Turn, s: Progress, m: ServerMessage, answer: ToolAnswer, sends: bool): Step
    requires m.id.Some?
  {
    if !IsToolCall(m) then End(Err(ProtocolError), s.sent)
    else
      var reply := ReplyTo(turn, m, answer);
      if reply.Err? then End(Err(reply.error), s.sent)
      else if !sends then End(Err(SendFailed), s.sent)
      else Go(s.(sent := s.sent + [ToolReply(m.id.value, reply.value)]))
  }

  function OnNotification(turn: Turn, s: Progress, m: ServerMessage): Step
    requires m.id.None?
  {
    var p := ParamsOf(m);
    if m.kind.None? || IsForeign(turn, m) then Go(s)
    else if m.kind.value == MESSAGE_DELTA && !s.interrupted then
      Go(if p.delta.Some? then s.(text := s.text + p.delta.value) else s)
    else if m.kind.value == USAGE_UPDATED then Go(s.(usage := p.tokenUsage))
    else if m.kind.value == TURN_COMPLETED then
      if p.turnStatus.None? then End(Err(ProtocolError), s.sent)
      else if p.turnStatus.value == "completed" && !s.interrupted then
        End(Ok(TurnResponse(if s.text == "" then None else Some(s.text), s.usage)), s.sent)
      else if p.turnStatus.value == "interrupted" then End(Err(TurnInterrupted), s.sent)
      else if p.turnStatus.value == "failed" then End(Err(TurnFailed), s.sent)
      else End(Err(ProtocolError), s.sent)
    else Go(s)
  }

  function OnEvent(turn: Turn, s: Progress, e: Event): Step {
    match e
    case CancelRequested(sends) =>
      if s.interrupted then Go(s)
      else if !sends then End(Err(SendFailed), s.sent)
      else Go(s.(interrupted := true, sent := s.sent + [Interrupt(turn.threadId, turn.turnId)]))
    case Received(m, answer, sends) =>
      if IsInterruptReply(m, s.interrupted) then
        if m.hasError then End(Err(ServerRejected), s.sent) else Go(s)
      else if m.id.Some? then OnRequest(turn, s, m, answer, sends)
      else OnNotification(turn, s, m)
    case ReceiveFailed => End(Err(TransportError), s.sent)
    case Closed => End(Err(TransportError), s.sent)
    case TimedOut => if s.interrupted then End(Err(PhaseTimeout), s.sent) else Go(s)
  }

  // ---------- A whole turn ----------

  /** Where a trace leaves the turn: still waiting, or ended at its `consumed`-th event. */
  datatype Outcome =
    | Waiting(progress: Progress)
    | Ended(result: Result<TurnResponse, TurnError>, sent: seq<Sent>, consumed: nat)

  function Collect(turn: Turn, s: Progress, trace: seq<Event>): Outcome
    decreases |trace|
  {
    if trace == [] then Waiting(s)
    else
      match OnEvent(turn, s, trace[0])
      case End(result, sent) => Ended(result, sent, 1)
      case Go(next) =>
        match Collect(turn, next, trace[1..])
        case Waiting(progress) => Waiting(progress)
        case Ended(result, sent, consumed) => Ended(result, sent, consumed + 1)
  }

  const START := Progress("", None, false, [])

  // ---------- Isolation ----------

  predicate ForeignEvent(turn: Turn, e: Event) {
    e.Received? && IsForeign(turn, e.message)
  }

  function WithoutForeign(turn: Turn, trace: seq<Event>): seq<Event> {
    if trace == [] then []
    else (if ForeignEvent(turn, trace[0]) then [] else [trace[0]]) + WithoutForeign(turn, trace[1..])
  }

  /** Equal up to how many events were consumed. */
  predicate SameOutcome(a: Outcome, b: Outcome) {
    match a
    case Waiting(_) => a == b
    case Ended(result, sent, _) => b.Ended? && b.result == result && b.sent == sent
  }

  /** Dropping every notification of other threads and turns changes nothing: not the
      result, not the progress, not one message sent. */
  lemma {:induction false} ForeignTrafficIsInvisible(turn: Turn, s: Progress, trace: seq<Event>)
    ensures SameOutcome(Collect(turn, s, trace), Collect(turn, s, WithoutForeign(turn, trace)))
    decreases |trace|
  {
    if trace != [] {
      var rest := WithoutForeign(turn, trace[1..]);
      var step := OnEvent(turn, s, trace[0]);
      if ForeignEvent(turn, trace[0]) {
        assert WithoutForeign(turn, trace) == rest;
        assert step == Go(s);
        ForeignTrafficIsInvisible(turn, s, trace[1..]);
      } else {
        assert WithoutForeign(turn, trace)[1..] == rest;
        if step.Go? {
          ForeignTrafficIsInvisible(turn, step.progress, trace[1..]);
        }
      }
    }
  }

  // ---------- Interrupts ----------

  function Interrupts(sent: seq<Sent>): nat {
    if sent == [] then 0
    else Interrupts(sent[..|sent| - 1]) + if sent[|sent| - 1].Interrupt? then 1 else 0
  }

  predicate InterruptsMatch(s: Progress) {
    Interrupts(s.sent) == if s.interrupted then 1 else 0
  }

  function SentSoFar(o: Outcome): seq<Sent> {
    match o
    case Waiting(progress) => progress.sent
    case Ended(_, sent, _) => sent
  }

  lemma InterruptsAppend(sent: seq<Sent>, last: Sent)
    ensures Interrupts(sent + [last]) == Interrupts(sent) + if last.Interrupt? then 1 else 0
  {
    assert (sent + [last])[..|sent|] == sent;
  }

  /** A step sends no second interrupt and never ends well after the first. */
  predicate InterruptsKept(s: Progress, step: Step) {
    match step
    case Go(next) => InterruptsMatch(next) && (s.interrupted ==> next.interrupted)
    case End(result, sent) => sent == s.sent && (s.interrupted ==> result.Err?)
  }

  lemma RequestKeepsInterrupts(turn: Turn, s: Progress, m: ServerMessage, answer: ToolAnswer, sends: bool)
    requires InterruptsMatch(s) && m.id.Some?
    ensures InterruptsKept(s, OnRequest(turn, s, m, answer, sends))
  {
    if ReplyTo(turn, m, answer).Ok? {
      InterruptsAppend(s.sent, ToolReply(m.id.value, ReplyTo(turn, m, answer).value));
    }
  }

  lemma NotificationKeepsInterrupts(turn: Turn, s: Progress, m: ServerMessage)
    requires InterruptsMatch(s) && m.id.None?
    ensures InterruptsKept(s, OnNotification(turn, s, m))
  {
  }

  lemma EventKeepsInterrupts(turn: Turn, s: Progress, e: Event)
    requires InterruptsMatch(s)
    ensures InterruptsKept(s, OnEvent(turn, s, e))
  {
    match e {
      case CancelRequested(_) =>
        InterruptsAppend(s.sent, Interrupt(turn.threadId, turn.turnId));
      case Received(m, answer, sends) =>
        if m.id.Some? {
          RequestKeepsInterrupts(turn, s, m, answer, sends);
        } else {
          NotificationKeepsInterrupts(turn, s, m);
        }
      case _ =>
    }
  }

  /** At most one interrupt is ever sent, and a turn that sent one never ends well. */
  lemma {:induction false} AtMostOneInterrupt(turn: Turn, s: Progress, trace: seq<Event>)
    requires InterruptsMatch(s)
    ensures var o := Collect(turn, s, trace);
      && Interrupts(SentSoFar(o)) <= 1
      && (s.interrupted ==> Interrupts(SentSoFar(o)) == 1)
      && (o.Ended? && Interrupts(o.sent) == 1 ==> o.result.Err?)
    decreases |trace|
  {
    if trace != [] {
      var step := OnEvent(turn, s, trace[0]);
      EventKeepsInterrupts(turn, s, trace[0]);
      if step.Go? {
        AtMostOneInterrupt(turn, step.progress, trace[1..]);
      }
    }
  }

  // ---------- Text and tool calls ----------

  /** The text a delta notification of this turn contributes. */
  function DeltaOf(turn: Turn, e: Event): string {
    if e.Received? && e.message.id.None? && !IsForeign(turn, e.message)
       && e.message.kind == Some(MESSAGE_DELTA) && ParamsOf(e.message).delta.Some?
    then ParamsOf(e.message).delta.value
    else ""
  }

  function MatchingText(turn: Turn, trace: seq<Event>): string {
    if trace == [] then "" else DeltaOf(turn, trace[0]) + MatchingText(turn, trace[1..])
  }

  /** The ids of the tool calls in a trace, in order. */
  function CallIds(trace: seq<Event>): seq<MessageId> {
    if trace == [] then []
    else
      (if trace[0].Received? && IsToolCall(trace[0].message) then [trace[0].message.id.value] else [])
      + CallIds(trace[1..])
  }

  function ReplyIds(sent: seq<Sent>): seq<MessageId> {
    if sent == [] then []
    else ReplyIds(sent[..|sent| - 1]) + if sent[|sent| - 1].ToolReply? then [sent[|sent| - 1].id] else []
  }

  /** What a turn that started from `s` has to show for the events before its end. */
  predicate Accounted(turn: Turn, s: Progress, consumed: seq<Event>, text: Option<string>, sent: seq<Sent>) {
    var whole := s.text + MatchingText(turn, consumed);
    && text == (if whole == "" then None else Some(whole))
    && ReplyIds(sent) == ReplyIds(s.sent) + CallIds(consumed)
    && |sent| == |s.sent| + |CallIds(consumed)|
    && !s.interrupted
  }

  lemma AccountedFromEarlier(
    turn: Turn, s: Progress, e: Event, consumed: seq<Event>, text: Option<string>, sent: seq<Sent>)
    requires OnEvent(turn, s, e).Go? && Accounted(turn, OnEvent(turn, s, e).progress, consumed, text, sent)
    ensures Accounted(turn, s, [e] + consumed, text, sent)
  {
    EventEffect(turn, s, e);
    TextFromEarlier(turn, s.text, e, consumed);
    CallIdsFromEarlier(ReplyIds(s.sent), e, consumed);
  }

  lemma TextFromEarlier(turn: Turn, text: string, e: Event, consumed: seq<Event>)
    ensures text + DeltaOf(turn, e) + MatchingText(turn, consumed) == text + MatchingText(turn, [e] + consumed)
  {
    assert ([e] + consumed)[1..] == consumed;
    Regroup(text, DeltaOf(turn, e), MatchingText(turn, consumed));
  }

  lemma CallIdsFromEarlier(ids: seq<MessageId>, e: Event, consumed: seq<Event>)
    ensures ids + CallIds([e]) + CallIds(consumed) == ids + CallIds([e] + consumed)
    ensures |CallIds([e] + consumed)| == |CallIds([e])| + |CallIds(consumed)|
  {
    assert ([e] + consumed)[1..] == consumed && [e][1..] == [];
    Regroup(ids, CallIds([e]), CallIds(consumed));
  }

  lemma CollectNext(turn: Turn, s: Progress, trace: seq<Event>)
    requires trace != [] && OnEvent(turn, s, trace[0]).Go? && Collect(turn, s, trace).Ended?
    ensures var o, rest := Collect(turn, s, trace), Collect(turn, OnEvent(turn, s, trace[0]).progress, trace[1..]);
      rest.Ended? && o == Ended(rest.result, rest.sent, rest.consumed + 1)
  {
  }

  /** A successful turn's text is the in-order concatenation of its matching deltas, `None`
      if they are all empty; every tool call received before its end was answered by
      exactly one reply carrying its id, in the same order; and nothing else was sent. */
  lemma {:induction false} SuccessfulTurns(turn: Turn, s: Progress, trace: seq<Event>)
    requires Collect(turn, s, trace).Ended? && Collect(turn, s, trace).result.Ok?
    ensures var o := Collect(turn, s, trace);
      && 1 <= o.consumed <= |trace|
      && Accounted(turn, s, trace[..o.consumed - 1], o.result.value.text, o.sent)
    decreases |trace|
  {
    var o := Collect(turn, s, trace);
    var step := OnEvent(turn, s, trace[0]);
    if step.End? {
      assert trace[..0] == [] && s.text + "" == s.text;
    } else {
      CollectNext(turn, s, trace);
      SuccessfulTurns(turn, step.progress, trace[1..]);
      var consumed := trace[1..][..o.consumed - 2];
      AccountedFromEarlier(turn, s, trace[0], consumed, o.result.value.text, o.sent);
      assert trace[..o.consumed - 1] == [trace[0]] + consumed;
    }
  }

  /** An event that leaves an uninterrupted turn going uninterrupted adds its delta to the
      text and, if it is a tool call, one reply with its id. */
  lemma EventEffect(turn: Turn, s: Progress, e: Event)
    requires OnEvent(turn, s, e).Go? && !OnEvent(turn, s, e).progress.interrupted
    ensures var next := OnEvent(turn, s, e).progress;
      && next.text == s.text + DeltaOf(turn, e)
      && ReplyIds(next.sent) == ReplyIds(s.sent) + CallIds([e])
      && |next.sent| == |s.sent| + |CallIds([e])|
      && !s.interrupted
    ensures CallIds([e]) == if e.Received? && IsToolCall(e.message) then [e.message.id.value] else []
  {
    assert [e][1..] == [];
    assert CallIds([e]) == (if e.Received? && IsToolCall(e.message) then [e.message.id.value] else []) + CallIds([]);
    assert s.text + "" == s.text && ReplyIds(s.sent) + [] == ReplyIds(s.sent);
    if e.Received? && IsToolCall(e.message) && ReplyTo(turn, e.message, e.answer).Ok? {
      ReplyIdsAppend(s.sent, e.message.id.value, ReplyTo(turn, e.message, e.answer).value);
    }
  }

  lemma ReplyIdsAppend(sent: seq<Sent>, id: MessageId, reply: Reply)
    ensures ReplyIds(sent + [ToolReply(id, reply)]) == ReplyIds(sent) + [id]
  {
    assert (sent + [ToolReply(id, reply)])[..|sent|] == sent;
  }

  // ---------- The collector in place ----------

  class CodexSession {
    const trace: seq<Event>
    var position: nat
    var sent: seq<Sent>

    constructor (trace: seq<Event>)
      ensures this.trace == trace && position == 0 && sent == []
    {
      this.trace := trace;
      position := 0;
      sent := [];
    }

    method Send(message: Sent)
      modifies this`sent
      ensures sent == old(sent) + [message]
    {
      sent := sent + [message];
    }

    method RespondToToolRequest(turn: Turn, m: ServerMessage, answer: ToolAnswer, sends: bool)
      returns (r: Result<(), TurnError>)
      requires IsToolCall(m)
      modifies this`sent
      ensures var reply := ReplyTo(turn, m, answer);
        if reply.Ok? && sends then r == Ok(()) && sent == old(sent) + [ToolReply(m.id.value, reply.value)]
        else r == Err(if reply.Err? then reply.error else SendFailed) && sent == old(sent)
    {
      var reply := ReplyTo(turn, m, answer);
      if reply.Err? {
        return Err(reply.error);
      }
      if !sends {
        return Err(SendFailed);
      }
      Send(ToolReply(m.id.value, reply.value));
      return Ok(());
    }

    /** Runs until the turn ends, or until the session has nothing more to offer. */
    method CollectTurn(turn: Turn) returns (result: Option<Result<TurnResponse, TurnError>>)
      requires position == 0 && sent == []
      modifies this
      ensures match Collect(turn, START, trace)
              case Ended(r, s, consumed) => result == Some(r) && sent == s && position == consumed
              case Waiting(progress) => result == None && sent == progress.sent && position == |trace|
    {
      var text := "";
      var usage: Option<TokenUsage> := None;
      var interrupted := false;
      while position < |trace|
        invariant position <= |trace|
        invariant Collect(turn, START, trace) ==
                  Later(Collect(turn, Progress(text, usage, interrupted, sent), trace[position..]), position)
        decreases |trace| - position
      {
        ghost var s := Progress(text, usage, interrupted, sent);
        var e := trace[position];
        CollectUnfolds(turn, s, trace, position);
        position := position + 1;
        match e {
          case CancelRequested(sends) =>
            if !interrupted {
              if !sends {
                return Some(Err(SendFailed));
              }
              Send(Interrupt(turn.threadId, turn.turnId));
              interrupted := true;
            }
          case ReceiveFailed =>
            return Some(Err(TransportError));
          case Closed =>
            return Some(Err(TransportError));
          case TimedOut =>
            if interrupted {
              return Some(Err(PhaseTimeout));
            }
          case Received(m, answer, sends) =>
            if m.id == Some(NumberId(4)) && interrupted {
              if m.hasError {
                return Some(Err(ServerRejected));
              }
              continue;
            }
            if m.id.Some? {
              if m.kind == Some(TOOL_CALL) {
                var responded := RespondToToolRequest(turn, m, answer, sends);
                if responded.Err? {
                  return Some(Err(responded.error));
                }
                continue;
              }
              return Some(Err(ProtocolError));
            }
            if m.kind.None? || IsForeign(turn, m) {
              continue;
            }
            var params := ParamsOf(m);
            if m.kind.value == MESSAGE_DELTA && !interrupted {
              if params.delta.Some? {
                text := text + params.delta.value;
              }
            } else if m.kind.value == USAGE_UPDATED {
              usage := params.tokenUsage;
            } else if m.kind.value == TURN_COMPLETED {
              if params.turnStatus.None? {
                return Some(Err(ProtocolError));
              }
              if params.turnStatus.value == "completed" && !interrupted {
                return Some(Ok(TurnResponse(if text == "" then None else Some(text), usage)));
              } else if params.turnStatus.value == "interrupted" {
                return Some(Err(TurnInterrupted));
              } else if params.turnStatus.value == "failed" {
                return Some(Err(TurnFailed));
              }
              return Some(Err(ProtocolError));
            }
        }
      }
      return None;
    }
  }

  /** An outcome reached after some events were already consumed. */
  function Later(o: Outcome, already: nat): Outcome {
    match o
    case Waiting(_) => o
    case Ended(result, sent, consumed) => Ended(result, sent, consumed + already)
  }

  lemma CollectUnfolds(turn: Turn, s: Progress, trace: seq<Event>, position: nat)
    requires position < |trace|
    ensures Later(Collect(turn, s, trace[position..]), position) ==
            match OnEvent(turn, s, trace[position])
            case End(result, sent) => Ended(result, sent, position + 1)
            case Go(next) => Later(Collect(turn, next, trace[position + 1..]), position + 1)
  {
    assert trace[position..][1..] == trace[position + 1..];
  }
}
