/**
 * The usage estimator: how many tokens a prompt and its reply are expected
 * to take, what that costs, how confident the estimate is, and the
 * per-model aggregation of a user's usage history.
 *
 * The regular-expression classifiers are not interpreted: which of them a
 * prompt matches is given as a `PatternMatches` record. The one exception
 * is the "one to twenty UTF-16 code units on a single line" rule, which is
 * modelled as `ShortLine`.
 */
module Estimation {
  import opened Wrappers
  import opened Numeric
  import opened Collections
  import opened Text
  import opened Pricing

  const CharsPerToken: int := 4
  const BaseSystemTokens: int := 50
  const ContextMultiplier: real := 1.2

  datatype Complexity = Simple | Medium | Complex

  datatype Confidence = HighConfidence | MediumConfidence | LowConfidence

  /**
   * Which of the estimator's patterns a prompt matches:
   * `startsWithShortReply` for yes/no/maybe/ok/thanks at the start,
   * `asksWhatWhoWhenWhere` for the what/who/when/where-is questions,
   * `complexIndicator` for any of the four "complex request" patterns and
   * `codeIndicator` for any of the four "code request" patterns.
   */
  datatype PatternMatches = PatternMatches(
    startsWithShortReply: bool,
    asksWhatWhoWhenWhere: bool,
    complexIndicator: bool,
    codeIndicator: bool)

  /** The caller-supplied part of the context; either field may be missing. */
  datatype EstimateContext = EstimateContext(conversationLength: Option<int>, hasFileUploads: Option<bool>)

  /** The context the estimator derives for a prompt. */
  datatype MessageContext = MessageContext(
    messageLength: nat,
    conversationLength: int,
    complexity: Complexity,
    hasCodeRequests: bool,
    hasFileUploads: bool)

  datatype UsageEstimate = UsageEstimate(
    modelName: string,
    estimatedTokens: int,
    estimatedCost: int,
    confidenceLevel: Confidence)

  /**
   * `/^.{1,20}$/`: without the `u` flag `.` matches one UTF-16 code unit
   * other than a line terminator, so the text is one to twenty code units
   * long (an astral character counts twice) and holds no line terminator.
   */
  predicate ShortLine(text: string) {
    1 <= Utf16Length(text) <= 20 && forall i :: 0 <= i < |text| ==> !IsLineTerminator(text[i])
  }

  /** Tokens for the prompt itself: a quarter of its `length` rounded up, plus the system overhead. */
  function EstimateTokensFromText(text: string): (r: int)
    ensures CharsPerToken * (r - BaseSystemTokens) >= Utf16Length(text)
    ensures CharsPerToken * (r - BaseSystemTokens - 1) < Utf16Length(text)
    ensures r >= BaseSystemTokens
  {
    CeilQuarter(Utf16Length(text));
    Ceil(Utf16Length(text) as real / CharsPerToken as real) + BaseSystemTokens
  }

  /** The simple patterns are tried first, then the complex ones; anything else is medium. */
  function DetectComplexity(text: string, m: PatternMatches): (c: Complexity)
    ensures c == Simple <==> m.startsWithShortReply || ShortLine(text) || m.asksWhatWhoWhenWhere
    ensures c == Complex <==> !(m.startsWithShortReply || ShortLine(text) || m.asksWhatWhoWhenWhere) && m.complexIndicator
  {
    if m.startsWithShortReply || ShortLine(text) || m.asksWhatWhoWhenWhere then Simple
    else if m.complexIndicator then Complex
    else Medium
  }

  function HasCodeRequest(m: PatternMatches): bool {
    m.codeIndicator
  }

  /** A prompt of one to twenty code units on a single line is simple whatever else it matches. */
  lemma ShortTextIsSimple(text: string, m: PatternMatches)
    requires 1 <= Utf16Length(text) <= 20
    requires forall i :: 0 <= i < |text| ==> !IsLineTerminator(text[i])
    ensures DetectComplexity(text, m) == Simple
  {
  }

  /** Eleven or more astral characters are more than twenty code units: the short-line rule does not apply. */
  lemma AstralTextNotShort(text: string)
    requires |text| >= 11 && forall i :: 0 <= i < |text| ==> IsAstral(text[i])
    ensures !ShortLine(text)
  {
    Utf16LengthOfAstral(text);
  }

  /** The baseline reply length of each complexity class. */
  function Baseline(c: Complexity): real {
    match c
    case Simple => 50.0
    case Medium => 150.0
    case Complex => 300.0
  }

  /** The reply estimate before rounding: the baseline scaled by each factor that applies. */
  function ResponseEstimate(ctx: MessageContext): (r: real)
    ensures Baseline(ctx.complexity) <= r <= Baseline(ctx.complexity) * 3.9
    ensures r == Baseline(ctx.complexity) <==> ctx.conversationLength <= 5 && !ctx.hasCodeRequests && !ctx.hasFileUploads
  {
    Baseline(ctx.complexity)
      * (if ctx.conversationLength > 5 then 1.3 else 1.0)
      * (if ctx.hasCodeRequests then 2.0 else 1.0)
      * (if ctx.hasFileUploads then 1.5 else 1.0)
  }

  /** The reply estimate lies between the simple baseline and every factor applied to the complex one. */
  lemma ResponseEstimateBounds(ctx: MessageContext)
    ensures 50.0 <= ResponseEstimate(ctx) <= 1170.0
  {
  }

  /** Scales the baseline step by step and rounds up once at the end. */
  method EstimateResponseTokens(ctx: MessageContext) returns (r: int)
    ensures r == Ceil(ResponseEstimate(ctx))
    ensures 50 <= r <= 1170
  {
    var baseEstimate: real := 50.0;
    match ctx.complexity {
      case Simple => baseEstimate := 50.0;
      case Medium => baseEstimate := 150.0;
      case Complex => baseEstimate := 300.0;
    }
    if ctx.conversationLength > 5 {
      baseEstimate := baseEstimate * 1.3;
    }
    if ctx.hasCodeRequests {
      baseEstimate := baseEstimate * 2.0;
    }
    if ctx.hasFileUploads {
      baseEstimate := baseEstimate * 1.5;
    }
    ResponseEstimateBounds(ctx);
    r := Ceil(baseEstimate);
    CeilMonotone(50.0, baseEstimate);
    CeilMonotone(baseEstimate, 1170.0);
  }

  /** A missing or zero conversation length counts as one; missing uploads count as none. */
  function FullContext(prompt: string, m: PatternMatches, context: Option<EstimateContext>): (ctx: MessageContext)
    ensures ctx.messageLength == Utf16Length(prompt)
    ensures ctx.complexity == DetectComplexity(prompt, m) && ctx.hasCodeRequests == HasCodeRequest(m)
    ensures context.None? || context.value.conversationLength.None? || context.value.conversationLength == Some(0)
      ==> ctx.conversationLength == 1
    ensures context.Some? && context.value.conversationLength.Some? && context.value.conversationLength.value != 0
      ==> ctx.conversationLength == context.value.conversationLength.value
    ensures ctx.hasFileUploads <==> context.Some? && context.value.hasFileUploads == Some(true)
  {
    var length := if context.Some? && context.value.conversationLength.Some? && context.value.conversationLength.value != 0
      then context.value.conversationLength.value else 1;
    var uploads := context.Some? && context.value.hasFileUploads.GetOr(false);
    MessageContext(Utf16Length(prompt), length, DetectComplexity(prompt, m), HasCodeRequest(m), uploads)
  }

  /** The grand total: prompt and reply together, scaled by the context multiplier and rounded up. */
  function TotalTokens(inputTokens: int, outputTokens: int): int {
    Ceil((inputTokens + outputTokens) as real * ContextMultiplier)
  }

  /**
   * The token estimate for a prompt: the prompt's tokens and the rounded
   * reply estimate together, plus a fifth, rounded up.
   */
  function EstimatedTokens(prompt: string, m: PatternMatches, context: Option<EstimateContext>): (r: int)
    ensures var sum := EstimateTokensFromText(prompt) + Ceil(ResponseEstimate(FullContext(prompt, m, context)));
      5 * r >= 6 * sum && 5 * (r - 1) < 6 * sum
  {
    var sum := EstimateTokensFromText(prompt) + Ceil(ResponseEstimate(FullContext(prompt, m, context)));
    assert sum as real * ContextMultiplier == (6 * sum) as real / 5.0;
    TotalTokens(EstimateTokensFromText(prompt), Ceil(ResponseEstimate(FullContext(prompt, m, context))))
  }

  /** High for short simple prompts, low for complex prompts asking for code or carrying files, else medium. */
  function GetConfidenceLevel(ctx: MessageContext): (c: Confidence)
    ensures c == HighConfidence <==> ctx.complexity == Simple && ctx.messageLength < 100
    ensures c == LowConfidence <==> ctx.complexity == Complex && (ctx.hasCodeRequests || ctx.hasFileUploads)
  {
    var confidence := MediumConfidence;
    var confidence := if ctx.complexity == Simple && ctx.messageLength < 100 then HighConfidence else confidence;
    if ctx.complexity == Complex && (ctx.hasCodeRequests || ctx.hasFileUploads) then LowConfidence else confidence
  }

  /** Every estimate is at least 120 tokens: 50 for the prompt and 50 for the reply, times 1.2. */
  lemma EstimatedTokensAtLeast120(prompt: string, m: PatternMatches, context: Option<EstimateContext>)
    ensures EstimatedTokens(prompt, m, context) >= 120
  {
    var output := Ceil(ResponseEstimate(FullContext(prompt, m, context)));
    ResponseEstimateBounds(FullContext(prompt, m, context));
    CeilMonotone(50.0, ResponseEstimate(FullContext(prompt, m, context)));
    var sum := EstimateTokensFromText(prompt) + output;
    assert sum >= 100;
    assert sum as real * 1.2 >= 120.0;
    CeilMonotone(120.0, sum as real * 1.2);
  }

  /** A longer prompt that is classified the same way is never estimated at fewer tokens. */
  lemma EstimatedTokensMonotone(p1: string, m1: PatternMatches, p2: string, m2: PatternMatches, context: Option<EstimateContext>)
    requires Utf16Length(p1) <= Utf16Length(p2)
    requires DetectComplexity(p1, m1) == DetectComplexity(p2, m2)
    requires HasCodeRequest(m1) == HasCodeRequest(m2)
    ensures EstimatedTokens(p1, m1, context) <= EstimatedTokens(p2, m2, context)
  {
    var in1, in2 := EstimateTokensFromText(p1), EstimateTokensFromText(p2);
    assert in1 <= in2;
    assert ResponseEstimate(FullContext(p1, m1, context)) == ResponseEstimate(FullContext(p2, m2, context));
    var out := Ceil(ResponseEstimate(FullContext(p1, m1, context)));
    assert (in1 + out) as real * 1.2 <= (in2 + out) as real * 1.2;
    CeilMonotone((in1 + out) as real * 1.2, (in2 + out) as real * 1.2);
  }

  /**
   * Estimates tokens and cost for a prompt. The estimate is priced with
   * the rate map of `pricing`.
   */
  method EstimateUsageCost(pricing: PricingCalculator, prompt: string, modelName: string,
                           m: PatternMatches, context: Option<EstimateContext>)
    returns (estimate: UsageEstimate)
    ensures estimate.modelName == modelName
    ensures estimate.estimatedTokens == EstimatedTokens(prompt, m, context)
    ensures estimate.estimatedTokens >= 120
    ensures estimate.estimatedCost == TokenCost(pricing.modelPricing, modelName, estimate.estimatedTokens)
    ensures estimate.confidenceLevel == GetConfidenceLevel(FullContext(prompt, m, context))
  {
    var fullContext := FullContext(prompt, m, context);
    var inputTokens := EstimateTokensFromText(prompt);
    var outputTokens := EstimateResponseTokens(fullContext);
    var totalTokens := TotalTokens(inputTokens, outputTokens);
    EstimatedTokensAtLeast120(prompt, m, context);
    var estimatedCost := pricing.CalculateTokenCost(modelName, totalTokens);
    estimate := UsageEstimate(modelName, totalTokens, estimatedCost, GetConfidenceLevel(fullContext));
  }

  /** A usage row of the period being summarised. */
  datatype UsageRow = UsageRow(model: string, tokens: int, cost: int)

  datatype TopModel = TopModel(model: string, usage: int)

  datatype UsageStats = UsageStats(totalTokens: int, totalCost: int, topModels: seq<TopModel>)

  function SumTokens(rows: seq<UsageRow>): int {
    if rows == [] then 0 else SumTokens(rows[..|rows| - 1]) + rows[|rows| - 1].tokens
  }

  function SumCost(rows: seq<UsageRow>): int {
    if rows == [] then 0 else SumCost(rows[..|rows| - 1]) + rows[|rows| - 1].cost
  }

  /** The tokens of the rows for `model`. */
  function TokensFor(rows: seq<UsageRow>, model: string): int {
    if rows == [] then 0
    else TokensFor(rows[..|rows| - 1], model) + (if rows[|rows| - 1].model == model then rows[|rows| - 1].tokens else 0)
  }

  /** The per-model map the aggregation loop builds, one row at a time. */
  function ModelUsageOf(rows: seq<UsageRow>): (r: JsMap<int>)
    ensures |r.keys| <= |rows|
    ensures forall k :: k in r.keys ==> exists i :: 0 <= i < |rows| && rows[i].model == k
  {
    if rows == [] then EmptyMap() else Tally(ModelUsageOf(rows[..|rows| - 1]), rows[|rows| - 1])
  }

  /** One step of the aggregation: the row's tokens added to its model's total. */
  function Tally(m: JsMap<int>, row: UsageRow): JsMap<int> {
    m.Set(row.model, m.Get(row.model).GetOr(0) + row.tokens)
  }

  lemma {:induction false} ModelUsageValid(rows: seq<UsageRow>)
    ensures ModelUsageOf(rows).Valid()
  {
    if rows != [] {
      var before := ModelUsageOf(rows[..|rows| - 1]);
      ModelUsageValid(rows[..|rows| - 1]);
      var row := rows[|rows| - 1];
      SetValid(before, row.model, before.Get(row.model).GetOr(0) + row.tokens);
    }
  }

  /** Each model that occurs is mapped to the sum of its rows' tokens; no other model is present. */
  lemma {:induction false} ModelUsageTotals(rows: seq<UsageRow>, model: string)
    ensures model in ModelUsageOf(rows).entries <==> exists i :: 0 <= i < |rows| && rows[i].model == model
    ensures model in ModelUsageOf(rows).entries ==> ModelUsageOf(rows).entries[model] == TokensFor(rows, model)
  {
    if rows != [] {
      var init := rows[..|rows| - 1];
      ModelUsageTotals(init, model);
      if model !in ModelUsageOf(init).entries {
        assert TokensFor(init, model) == 0 by { TokensForAbsent(init, model); }
      }
      if exists i :: 0 <= i < |init| && init[i].model == model {
        var i :| 0 <= i < |init| && init[i].model == model;
        assert rows[i] == init[i];
      }
      if exists i :: 0 <= i < |rows| && rows[i].model == model {
        var i :| 0 <= i < |rows| && rows[i].model == model;
        if i < |init| {
          assert init[i] == rows[i];
        }
      }
    }
  }

  /** A model no row names contributes no tokens. */
  lemma {:induction false} TokensForAbsent(rows: seq<UsageRow>, model: string)
    requires forall i :: 0 <= i < |rows| ==> rows[i].model != model
    ensures TokensFor(rows, model) == 0
  {
    if rows != [] {
      TokensForAbsent(rows[..|rows| - 1], model);
    }
  }

  /** Map.entries() as `{model, usage}` records, in insertion order. */
  function Entries(usage: JsMap<int>): (es: seq<TopModel>)
    requires usage.Valid()
    ensures |es| == |usage.keys|
    ensures forall i :: 0 <= i < |es| ==> es[i] == TopModel(usage.keys[i], usage.entries[usage.keys[i]])
  {
    seq(|usage.keys|, i requires 0 <= i < |usage.keys| => TopModel(usage.keys[i], usage.entries[usage.keys[i]]))
  }

  /** The sort key that puts larger usage first. */
  function ByUsageDescending(t: TopModel): int {
    -t.usage
  }

  /** The five most-used models, largest first. */
  function TopModels(usage: JsMap<int>): (r: seq<TopModel>)
    requires usage.Valid()
    ensures |r| == if |usage.keys| < 5 then |usage.keys| else 5
    ensures multiset(r) <= multiset(Entries(usage))
    ensures forall i, j :: 0 <= i < j < |r| ==> r[i].usage >= r[j].usage
  {
    var sorted := SortBy(Entries(usage), ByUsageDescending);
    SliceToSorted(sorted, ByUsageDescending, 5);
    assert |sorted| == |multiset(sorted)| == |multiset(Entries(usage))| == |Entries(usage)|;
    var top := SliceTo(sorted, 5);
    assert sorted == top + sorted[|top|..];
    top
  }

  /**
   * The five most-used models (all of them when there are fewer), each
   * once, in descending order of usage, each with its own total, and every
   * model left out used no more than any model reported.
   */
  lemma TopModelsAreTop(usage: JsMap<int>)
    requires usage.Valid()
    ensures |TopModels(usage)| == if |usage.keys| < 5 then |usage.keys| else 5
    ensures multiset(TopModels(usage)) <= multiset(Entries(usage))
    ensures forall i, j :: 0 <= i < j < |TopModels(usage)| ==> TopModels(usage)[i].model != TopModels(usage)[j].model
    ensures forall i, j :: 0 <= i < j < |TopModels(usage)| ==> TopModels(usage)[i].usage >= TopModels(usage)[j].usage
    ensures forall t :: t in TopModels(usage) ==> t.model in usage.entries && t.usage == usage.entries[t.model]
    ensures forall e :: e in Entries(usage) && e !in TopModels(usage) ==>
      forall t :: t in TopModels(usage) ==> t.usage >= e.usage
  {
    var sorted := SortBy(Entries(usage), ByUsageDescending);
    SliceToSorted(sorted, ByUsageDescending, 5);
    TopEntriesExact(usage);
    LeftOutUsedNoMore(usage);
    TopModelsDistinct(usage);
  }

  /** No model is reported twice: the report is a sub-multiset of the entries, whose models are distinct. */
  lemma TopModelsDistinct(usage: JsMap<int>)
    requires usage.Valid()
    ensures forall i, j :: 0 <= i < j < |TopModels(usage)| ==> TopModels(usage)[i].model != TopModels(usage)[j].model
  {
    var top := TopModels(usage);
    var es := Entries(usage);
    TopEntriesExact(usage);
    assert forall i, j :: 0 <= i < j < |es| ==> es[i] != es[j] by {
      assert forall i, j :: 0 <= i < j < |es| ==> es[i].model == usage.keys[i] && es[j].model == usage.keys[j];
    }
    forall i, j | 0 <= i < j < |top|
      ensures top[i].model != top[j].model
    {
      TwoOccurrences(top, i, j);
      DistinctCountAtMostOne(es, top[i]);
      assert multiset(top)[top[i]] <= multiset(es)[top[i]];
      assert top[i] in top && top[j] in top;
    }
  }

  /** Each reported model comes with its own total. */
  lemma TopEntriesExact(usage: JsMap<int>)
    requires usage.Valid()
    ensures forall t :: t in TopModels(usage) ==> t.model in usage.entries && t.usage == usage.entries[t.model]
  {
    var sorted := SortBy(Entries(usage), ByUsageDescending);
    SortByMembers(Entries(usage), ByUsageDescending);
    forall t | t in TopModels(usage)
      ensures t.model in usage.entries && t.usage == usage.entries[t.model]
    {
      assert t in sorted;
      EntryOfUsage(usage, t);
    }
  }

  /** A model left out of the report used no more than any reported one. */
  lemma LeftOutUsedNoMore(usage: JsMap<int>)
    requires usage.Valid()
    ensures forall e :: e in Entries(usage) && e !in TopModels(usage) ==>
      forall t :: t in TopModels(usage) ==> t.usage >= e.usage
  {
    var sorted := SortBy(Entries(usage), ByUsageDescending);
    var top := TopModels(usage);
    SortByMembers(Entries(usage), ByUsageDescending);
    assert top == sorted[..|top|];
    forall e | e in Entries(usage) && e !in top
      ensures forall t :: t in top ==> t.usage >= e.usage
    {
      SortedPrefixBelow(sorted, ByUsageDescending, |top|, e);
    }
  }

  /** Every entry carries a model of the map and that model's own total. */
  lemma EntryOfUsage(usage: JsMap<int>, t: TopModel)
    requires usage.Valid() && t in Entries(usage)
    ensures t.model in usage.entries && t.usage == usage.entries[t.model]
  {
    var es := Entries(usage);
    var i :| 0 <= i < |es| && es[i] == t;
  }

  lemma ModelUsageStep(rows: seq<UsageRow>, i: nat)
    requires i < |rows|
    ensures ModelUsageOf(rows[..i + 1]) == Tally(ModelUsageOf(rows[..i]), rows[i])
  {
    assert rows[..i + 1][..i] == rows[..i];
  }

  /**
   * The aggregation part of the usage summary over the rows of the period:
   * token and cost totals, and the top models by tokens.
   */
  method GetUserUsageStats(rows: seq<UsageRow>) returns (stats: UsageStats)
    ensures ModelUsageOf(rows).Valid()
    ensures stats.totalTokens == SumTokens(rows)
    ensures stats.totalCost == SumCost(rows)
    ensures stats.topModels == TopModels(ModelUsageOf(rows))
  {
    var modelUsage := EmptyMap();
    var i := 0;
    while i < |rows|
      invariant 0 <= i <= |rows|
      invariant modelUsage == ModelUsageOf(rows[..i])
    {
      ModelUsageStep(rows, i);
      ghost var tallied := Tally(modelUsage, rows[i]);
      var current := modelUsage.Get(rows[i].model).GetOr(0);
      modelUsage := modelUsage.Set(rows[i].model, current + rows[i].tokens);
      assert modelUsage == tallied;
      i := i + 1;
    }
    assert rows[..i] == rows;
    ModelUsageValid(rows);
    stats := UsageStats(SumTokens(rows), SumCost(rows), TopModels(modelUsage));
  }
}
