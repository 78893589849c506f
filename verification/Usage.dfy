/** Token measurements with unknown fields, and their aggregation over a run tree. */
module Usage {
  import opened Prelude

  datatype Field = Input | Output | CachedInput | Reasoning | ProviderTotal

  /** One measurement; the provider's own report has the same five fields. */
  datatype TokenUsage = TokenUsage(
    input: Option<U64>,
    output: Option<U64>,
    cachedInput: Option<U64>,
    reasoning: Option<U64>,
    providerTotal: Option<U64>)
  {
    static function Unknown(): TokenUsage {
      TokenUsage(None, None, None, None, None)
    }

    function At(f: Field): Option<U64> {
      match f
      case Input => input
      case Output => output
      case CachedInput => cachedInput
      case Reasoning => reasoning
      case ProviderTotal => providerTotal
    }

    predicate Complete() {
      input.Some? && output.Some? && cachedInput.Some? && reasoning.Some? && providerTotal.Some?
    }

    function Merge(rhs: TokenUsage): TokenUsage {
      TokenUsage(
        MergeOpt(input, rhs.input),
        MergeOpt(output, rhs.output),
        MergeOpt(cachedInput, rhs.cachedInput),
        MergeOpt(reasoning, rhs.reasoning),
        MergeOpt(providerTotal, rhs.providerTotal))
    }
  }

  function MergeOpt(lhs: Option<U64>, rhs: Option<U64>): Option<U64> {
    if lhs.Some? && rhs.Some? then Some(SatAdd64(lhs.value, rhs.value)) else None
  }

  datatype CallUsage = CallUsage(model: string, usage: TokenUsage)

  datatype RunUsage = RunUsage(aggregate: TokenUsage, complete: bool, modelCalls: seq<CallUsage>)
  {
    static function New(): RunUsage {
      RunUsage(TokenUsage.Unknown(), true, [])
    }

    function AddCall(model: string, usage: Option<TokenUsage>): RunUsage {
      match usage
      case Some(reported) =>
        RunUsage(
          if modelCalls == [] then reported else aggregate.Merge(reported),
          complete && reported.Complete(),
          modelCalls + [CallUsage(model, reported)])
      case None =>
        RunUsage(aggregate, false, modelCalls + [CallUsage(model, TokenUsage.Unknown())])
    }

    function MergeChild(child: RunUsage): RunUsage {
      RunUsage(
        if child.modelCalls == [] then aggregate
        else if modelCalls == [] then child.aggregate
        else aggregate.Merge(child.aggregate),
        complete && child.complete,
        modelCalls + child.modelCalls)
    }
  }

  /** The in-place form of `RunUsage`, as a run state holds it. */
  class UsageAccumulator {
    var aggregate: TokenUsage
    var complete: bool
    var modelCalls: seq<CallUsage>

    function Value(): RunUsage
      reads this
    {
      RunUsage(aggregate, complete, modelCalls)
    }

    constructor New()
      ensures Value() == RunUsage.New()
    {
      aggregate := TokenUsage.Unknown();
      complete := true;
      modelCalls := [];
    }

    method Abandon()
      modifies this`complete
      ensures Value() == old(Value()).(complete := false)
    {
      complete := false;
    }

    method AddCall(model: string, usage: Option<TokenUsage>)
      modifies this
      ensures Value() == old(Value()).AddCall(model, usage)
    {
      match usage {
        case Some(reported) =>
          if modelCalls == [] {
            aggregate := reported;
          } else {
            aggregate := aggregate.Merge(reported);
          }
          complete := complete && reported.Complete();
          modelCalls := modelCalls + [CallUsage(model, reported)];
        case None =>
          complete := false;
          modelCalls := modelCalls + [CallUsage(model, TokenUsage.Unknown())];
      }
    }

    method MergeChild(child: RunUsage)
      modifies this
      ensures Value() == old(Value()).MergeChild(child)
    {
      if child.modelCalls != [] {
        if modelCalls == [] {
          aggregate := child.aggregate;
        } else {
          aggregate := aggregate.Merge(child.aggregate);
        }
      }
      complete := complete && child.complete;
      modelCalls := modelCalls + child.modelCalls;
    }
  }

  /** The unbounded sum of every reported value of one field. */
  function ReportedSum(calls: seq<CallUsage>, f: Field): nat {
    if calls == [] then 0
    else
      var last := calls[|calls| - 1].usage.At(f);
      ReportedSum(calls[..|calls| - 1], f) + if last.Some? then last.value else 0
  }

  lemma {:induction false} ReportedSumOfConcat(a: seq<CallUsage>, b: seq<CallUsage>, f: Field)
    ensures ReportedSum(a + b, f) == ReportedSum(a, f) + ReportedSum(b, f)
  {
    if b == [] {
      assert a + b == a;
    } else {
      assert (a + b)[..|a + b| - 1] == a + b[..|b| - 1];
      ReportedSumOfConcat(a, b[..|b| - 1], f);
    }
  }

  /** Every history of usage updates: calls with or without a report, whole child
      histories, and the marking of a run as incomplete. */
  datatype UsageOp = Call(model: string, usage: Option<TokenUsage>) | Child(ops: seq<UsageOp>) | Abandon

  function Build(ops: seq<UsageOp>): RunUsage {
    if ops == [] then RunUsage.New()
    else
      var before := Build(ops[..|ops| - 1]);
      match ops[|ops| - 1]
      case Call(model, usage) => before.AddCall(model, usage)
      case Child(child) => before.MergeChild(Build(child))
      case Abandon => before.(complete := false)
  }

  function CallCount(ops: seq<UsageOp>): nat {
    if ops == [] then 0
    else
      CallCount(ops[..|ops| - 1]) +
      match ops[|ops| - 1]
      case Call(_, _) => 1
      case Child(child) => CallCount(child)
      case Abandon => 0
  }

  /** Every call anywhere in the tree reported all five fields and nothing was abandoned. */
  predicate FullyReported(ops: seq<UsageOp>) {
    ops == [] ||
    (FullyReported(ops[..|ops| - 1]) &&
     match ops[|ops| - 1]
     case Call(_, usage) => usage.Some? && usage.value.Complete()
     case Child(child) => FullyReported(child)
     case Abandon => false)
  }

  ghost predicate AccurateAt(u: RunUsage, f: Field) {
    var known := u.aggregate.At(f);
    && (u.modelCalls == [] ==> known.None?)
    && (known.Some? ==> known.value == Min(ReportedSum(u.modelCalls, f), U64_MAX))
    && (u.complete && u.modelCalls != [] ==> known.Some?)
  }

  /** A known aggregate is the saturated sum of what was reported, and a complete
      aggregate over at least one call leaves nothing unknown. */
  ghost predicate Accurate(u: RunUsage) {
    && (forall f: Field :: AccurateAt(u, f))
    && (u.complete ==> forall i :: 0 <= i < |u.modelCalls| ==> u.modelCalls[i].usage.Complete())
  }

  lemma MergeActsFieldwise(a: TokenUsage, b: TokenUsage, f: Field)
    ensures a.Merge(b).At(f) == MergeOpt(a.At(f), b.At(f))
    ensures a.Complete() ==> a.At(f).Some?
  {
    match f case Input => case Output => case CachedInput => case Reasoning => case ProviderTotal =>
  }

  lemma AddCallIsAccurateAt(u: RunUsage, model: string, usage: Option<TokenUsage>, f: Field)
    requires AccurateAt(u, f)
    ensures AccurateAt(u.AddCall(model, usage), f)
  {
    var reported := if usage.Some? then usage.value else TokenUsage.Unknown();
    var added := CallUsage(model, reported);
    assert [added][..0] == [];
    ReportedSumOfConcat(u.modelCalls, [added], f);
    MergeActsFieldwise(u.aggregate, reported, f);
    MergeActsFieldwise(reported, reported, f);
  }

  lemma MergeChildIsAccurateAt(u: RunUsage, child: RunUsage, f: Field)
    requires AccurateAt(u, f) && AccurateAt(child, f)
    ensures AccurateAt(u.MergeChild(child), f)
  {
    ReportedSumOfConcat(u.modelCalls, child.modelCalls, f);
    MergeActsFieldwise(u.aggregate, child.aggregate, f);
  }

  lemma AddCallStaysAccurate(u: RunUsage, model: string, usage: Option<TokenUsage>)
    requires Accurate(u)
    ensures Accurate(u.AddCall(model, usage))
  {
    forall f: Field ensures AccurateAt(u.AddCall(model, usage), f) {
      AddCallIsAccurateAt(u, model, usage, f);
    }
  }

  lemma MergeChildStaysAccurate(u: RunUsage, child: RunUsage)
    requires Accurate(u) && Accurate(child)
    ensures Accurate(u.MergeChild(child))
  {
    forall f: Field ensures AccurateAt(u.MergeChild(child), f) {
      MergeChildIsAccurateAt(u, child, f);
    }
  }

  lemma AbandonStaysAccurate(u: RunUsage)
    requires Accurate(u)
    ensures Accurate(u.(complete := false))
  {
    forall f: Field ensures AccurateAt(u.(complete := false), f) {
      assert AccurateAt(u, f);
    }
  }

  /** Over any tree of updates: known aggregates are right, `complete` means exactly
      that everything was reported, and each call left exactly one entry. */
  lemma {:induction false} AggregatesAreNeverWrong(ops: seq<UsageOp>)
    ensures Accurate(Build(ops))
    ensures Build(ops).complete <==> FullyReported(ops)
    ensures |Build(ops).modelCalls| == CallCount(ops)
  {
    if ops != [] {
      var before := ops[..|ops| - 1];
      AggregatesAreNeverWrong(before);
      match ops[|ops| - 1] {
        case Call(model, usage) =>
          AddCallStaysAccurate(Build(before), model, usage);
        case Child(child) =>
          AggregatesAreNeverWrong(child);
          MergeChildStaysAccurate(Build(before), Build(child));
        case Abandon =>
          AbandonStaysAccurate(Build(before));
      }
    }
  }
}
