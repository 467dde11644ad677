/**
 * Settlement in the gateway's chat routes: estimate the cost, refuse a
 * user who cannot cover the estimate, call the upstream chat service,
 * then charge for the tokens it reports, or for the estimate when it
 * reports none.
 *
 * The upstream call is an input: the answer it gives (or the error it
 * raises) in blocking mode, and in streaming mode the chunks it yields and
 * the point, if any, where the stream breaks.
 */
module Settlement {
  import opened Wrappers
  import opened Text
  import opened Pricing
  import opened Estimation
  import opened Ledger
  import opened CreditService

  /** A token count of 0 stands for one the upstream did not report. */
  datatype DifyOutcome =
    | DifyAnswer(totalTokens: int, conversationId: string, messageId: string)
    | DifyFailure(message: string)

  datatype EstimateReply =
    | EstimateInvalid
    | EstimateOk(estimate: UsageEstimate, userCredits: int, canAfford: bool)

  /** The outcomes of the blocking endpoint: 400, 402, 200, 502 and 500. */
  datatype CompletionReply =
    | InvalidInput
    | InsufficientCredits(required: int, available: int)
    | Completed(answer: DifyOutcome, tokens: int, cost: int, remainingCredits: int)
    | UpstreamError(details: string)
    | InternalError

  /** `total_tokens || estimatedTokens`: a reported count wins unless it is 0. */
  function ChargedTokens(reported: int, estimated: int): (t: int)
    ensures reported != 0 ==> t == reported
    ensures reported == 0 ==> t == estimated
  {
    if reported != 0 then reported else estimated
  }

  /** The estimate endpoint: the estimate, the caller's credits, and whether they cover it. */
  method Estimate(service: CreditService, pricing: PricingCalculator, userId: string, query: string,
                  model: string, m: PatternMatches)
    returns (reply: EstimateReply)
    ensures query == "" <==> reply == EstimateInvalid
    ensures reply.EstimateOk? ==>
      && reply.estimate.estimatedTokens == EstimatedTokens(query, m, None)
      && reply.estimate.estimatedCost == TokenCost(pricing.modelPricing, model, reply.estimate.estimatedTokens)
      && reply.userCredits == service.GetUserCredits(userId)
      && (reply.canAfford <==> reply.userCredits >= reply.estimate.estimatedCost)
  {
    if query == "" {
      return EstimateInvalid;
    }
    var estimate := EstimateUsageCost(pricing, query, model, m, None);
    var userCredits := service.GetUserCredits(userId);
    reply := EstimateOk(estimate, userCredits, userCredits >= estimate.estimatedCost);
  }

  /**
   * The blocking endpoint. Nothing is charged unless the upstream answers,
   * and then exactly one usage row is logged, for the reported tokens or,
   * failing those, the estimate.
   */
  method Completion(service: CreditService, pricing: PricingCalculator, userId: string, query: string,
                    model: string, m: PatternMatches, upstream: DifyOutcome)
    returns (reply: CompletionReply)
    modifies service
    ensures query == "" <==> reply == InvalidInput
    ensures var estimated := EstimatedTokens(query, m, None);
      var required := TokenCost(pricing.modelPricing, model, estimated);
      var available := BalanceOf(old(service.View()), userId);
      && (query != "" && available < required <==> reply.InsufficientCredits?)
      && (reply.InsufficientCredits? ==> reply == InsufficientCredits(required, available))
    ensures var estimated := EstimatedTokens(query, m, None);
      var required := TokenCost(pricing.modelPricing, model, estimated);
      var available := BalanceOf(old(service.View()), userId);
      reply.Completed? <==>
        && query != "" && available >= required && upstream.DifyAnswer?
        && DebitCheck(old(service.View()), userId,
             TokenCost(pricing.modelPricing, model, ChargedTokens(upstream.totalTokens, estimated))).Debited?
    ensures reply.UpstreamError? <==>
      reply != InvalidInput && !reply.InsufficientCredits? && upstream.DifyFailure? && Includes(upstream.message, "Dify API error")
    ensures reply.Completed? ==>
      && upstream.DifyAnswer? && reply.answer == upstream
      && reply.tokens == ChargedTokens(upstream.totalTokens, EstimatedTokens(query, m, None))
      && reply.cost == TokenCost(pricing.modelPricing, model, reply.tokens)
      && service.View() == Debit(old(service.View()), userId, reply.cost,
           UsageRecord(userId, "chat_completion", model, reply.tokens, reply.cost, upstream.conversationId, upstream.messageId, "", ""))
      && DebitCheck(old(service.View()), userId, reply.cost) == Debited(reply.remainingCredits)
    ensures !reply.Completed? ==> service.View() == old(service.View())
    ensures |service.usage| <= |old(service.usage)| + 1
  {
    if query == "" {
      return InvalidInput;
    }
    var estimate := EstimateUsageCost(pricing, query, model, m, None);
    var userCredits := service.GetUserCredits(userId);
    if userCredits < estimate.estimatedCost {
      return InsufficientCredits(estimate.estimatedCost, userCredits);
    }
    match upstream
    case DifyFailure(message) =>
      if Includes(message, "Dify API error") {
        reply := UpstreamError(message);
      } else {
        reply := InternalError;
      }
    case DifyAnswer(totalTokens, conversationId, messageId) =>
      var actualTokens := ChargedTokens(totalTokens, estimate.estimatedTokens);
      var result := service.ProcessUsage(pricing, userId, "chat_completion", model, actualTokens, conversationId, messageId);
      match result
      case Processed(cost, remaining) =>
        reply := Completed(upstream, actualTokens, cost, remaining);
      case Rejected =>
        reply := InternalError;
  }

  /** The fields of a streamed chunk the route tracks; 0 and "" stand for absent ones. */
  datatype StreamChunk = StreamChunk(totalTokens: int, conversationId: string, messageId: string)

  function ChunkTokens(c: StreamChunk): int { c.totalTokens }
  function ChunkConversation(c: StreamChunk): string { c.conversationId }
  function ChunkMessage(c: StreamChunk): string { c.messageId }

  /** The last value of `field` across the chunks that is not `unset`, or `unset` when there is none. */
  function LastSet<T(==)>(cs: seq<StreamChunk>, field: StreamChunk -> T, unset: T): (r: T)
    ensures r == unset <==> forall i :: 0 <= i < |cs| ==> field(cs[i]) == unset
    ensures r != unset ==> exists i :: 0 <= i < |cs| && field(cs[i]) == r && forall j :: i < j < |cs| ==> field(cs[j]) == unset
  {
    if cs == [] then unset
    else if field(cs[|cs| - 1]) != unset then field(cs[|cs| - 1])
    else LastSet(cs[..|cs| - 1], field, unset)
  }

  /** What the stream writes after its headers. */
  datatype Frame =
    | Forwarded(chunk: StreamChunk)
    | UsageFrame(tokens: int, cost: int, remainingCredits: int)
    | ErrorFrame
    | DoneFrame

  datatype StreamReply =
    | StreamInvalid
    | StreamRefused(required: int, available: int)
    | Streamed(frames: seq<Frame>)

  function Forwards(cs: seq<StreamChunk>): (fs: seq<Frame>)
    ensures |fs| == |cs| && forall i :: 0 <= i < |cs| ==> fs[i] == Forwarded(cs[i])
  {
    if cs == [] then [] else Forwards(cs[..|cs| - 1]) + [Forwarded(cs[|cs| - 1])]
  }

  /** The chunks the upstream yields before it finishes or, after `breaksAfter` chunks, throws. */
  function Delivered(chunks: seq<StreamChunk>, breaksAfter: Option<nat>): (d: seq<StreamChunk>)
    ensures d <= chunks
  {
    match breaksAfter
    case Some(n) => if n <= |chunks| then chunks[..n] else chunks
    case None => chunks
  }

  /**
   * The stream loop: forwards each chunk and keeps the last token count,
   * conversation id and message id that any chunk carried.
   */
  method ForwardChunks(delivered: seq<StreamChunk>)
    returns (frames: seq<Frame>, totalTokens: int, finalConversationId: string, finalMessageId: string)
    ensures frames == Forwards(delivered)
    ensures totalTokens == LastSet(delivered, ChunkTokens, 0)
    ensures finalConversationId == LastSet(delivered, ChunkConversation, "")
    ensures finalMessageId == LastSet(delivered, ChunkMessage, "")
  {
    frames := [];
    totalTokens := 0;
    finalConversationId := "";
    finalMessageId := "";
    var i := 0;
    while i < |delivered|
      invariant 0 <= i <= |delivered|
      invariant frames == Forwards(delivered[..i])
      invariant totalTokens == LastSet(delivered[..i], ChunkTokens, 0)
      invariant finalConversationId == LastSet(delivered[..i], ChunkConversation, "")
      invariant finalMessageId == LastSet(delivered[..i], ChunkMessage, "")
    {
      var chunk := delivered[i];
      assert delivered[..i + 1][..i] == delivered[..i];
      frames := frames + [Forwarded(chunk)];
      if chunk.totalTokens != 0 {
        totalTokens := chunk.totalTokens;
      }
      if chunk.conversationId != "" {
        finalConversationId := chunk.conversationId;
      }
      if chunk.messageId != "" {
        finalMessageId := chunk.messageId;
      }
      i := i + 1;
    }
    assert delivered[..i] == delivered;
  }

  /**
   * The streaming endpoint. After the refusal checks it forwards every
   * chunk, then writes one usage frame or one error frame, then the done
   * marker. Usage is charged once, after the stream ends, for the last
   * token count any chunk reported, or for the estimate.
   */
  method Stream(service: CreditService, pricing: PricingCalculator, userId: string, query: string,
                model: string, m: PatternMatches, chunks: seq<StreamChunk>, breaksAfter: Option<nat>)
    returns (reply: StreamReply)
    modifies service
    ensures query == "" <==> reply == StreamInvalid
    ensures var required := TokenCost(pricing.modelPricing, model, EstimatedTokens(query, m, None));
      var available := BalanceOf(old(service.View()), userId);
      && (query != "" && available < required <==> reply.StreamRefused?)
      && (reply.StreamRefused? ==> reply == StreamRefused(required, available))
    ensures reply.Streamed? ==>
      var delivered := Delivered(chunks, breaksAfter);
      var tokens := ChargedTokens(LastSet(delivered, ChunkTokens, 0), EstimatedTokens(query, m, None));
      var cost := TokenCost(pricing.modelPricing, model, tokens);
      var row := UsageRecord(userId, "chat_stream", model, tokens, cost,
                             LastSet(delivered, ChunkConversation, ""), LastSet(delivered, ChunkMessage, ""), "", "");
      && |reply.frames| == |delivered| + 2
      && reply.frames[..|delivered|] == Forwards(delivered)
      && reply.frames[|delivered| + 1] == DoneFrame
      && (reply.frames[|delivered|] == ErrorFrame || reply.frames[|delivered|].UsageFrame?)
      && (reply.frames[|delivered|].UsageFrame? <==>
            (breaksAfter.None? || breaksAfter.value >= |chunks|) && DebitCheck(old(service.View()), userId, cost).Debited?)
      && (reply.frames[|delivered|].UsageFrame? ==>
            && delivered == chunks && (breaksAfter.None? || breaksAfter.value >= |chunks|)
            && reply.frames[|delivered|].tokens == tokens && reply.frames[|delivered|].cost == cost
            && DebitCheck(old(service.View()), userId, cost) == Debited(reply.frames[|delivered|].remainingCredits)
            && service.View() == Debit(old(service.View()), userId, cost, row))
    ensures reply.Streamed? && reply.frames[|reply.frames| - 2] == ErrorFrame ==> service.View() == old(service.View())
    ensures !reply.Streamed? ==> service.View() == old(service.View())
    ensures |service.usage| <= |old(service.usage)| + 1
  {
    if query == "" {
      return StreamInvalid;
    }
    var estimate := EstimateUsageCost(pricing, query, model, m, None);
    var userCredits := service.GetUserCredits(userId);
    if userCredits < estimate.estimatedCost {
      return StreamRefused(estimate.estimatedCost, userCredits);
    }
    var delivered := Delivered(chunks, breaksAfter);
    var forwarded, totalTokens, finalConversationId, finalMessageId := ForwardChunks(delivered);
    var broke := breaksAfter.Some? && breaksAfter.value < |chunks|;
    var closing := ErrorFrame;
    if !broke {
      var actualTokens := ChargedTokens(totalTokens, estimate.estimatedTokens);
      closing := ChargeStream(service, pricing, userId, model, actualTokens, finalConversationId, finalMessageId);
    }
    FramesShape(forwarded, closing);
    reply := Streamed(forwarded + [closing, DoneFrame]);
  }

  /**
   * The charge after a stream that ended: the usage frame when the debit
   * goes through, an error frame, with nothing changed, when it does not.
   */
  method ChargeStream(service: CreditService, pricing: PricingCalculator, userId: string, model: string,
                      tokens: int, conversationId: string, messageId: string)
    returns (closing: Frame)
    modifies service
    ensures closing == ErrorFrame || closing.UsageFrame?
    ensures var cost := TokenCost(pricing.modelPricing, model, tokens);
      var row := UsageRecord(userId, "chat_stream", model, tokens, cost, conversationId, messageId, "", "");
      && (closing.UsageFrame? <==> DebitCheck(old(service.View()), userId, cost).Debited?)
      && (closing.UsageFrame? ==>
            && closing.tokens == tokens && closing.cost == cost
            && DebitCheck(old(service.View()), userId, cost) == Debited(closing.remainingCredits)
            && service.View() == Debit(old(service.View()), userId, cost, row))
    ensures closing == ErrorFrame ==> service.View() == old(service.View())
    ensures |service.usage| <= |old(service.usage)| + 1
  {
    var result := service.ProcessUsage(pricing, userId, "chat_stream", model, tokens, conversationId, messageId);
    closing := ErrorFrame;
    if result.Processed? {
      closing := UsageFrame(tokens, result.cost, result.remainingCredits);
    }
  }

  /** The frames of a stream: the forwarded chunks, one closing frame, then the done marker. */
  lemma FramesShape(forwarded: seq<Frame>, closing: Frame)
    ensures var fs := forwarded + [closing, DoneFrame];
      |fs| == |forwarded| + 2 && fs[..|forwarded|] == forwarded
      && fs[|forwarded|] == closing && fs[|forwarded| + 1] == DoneFrame
  {
    assert (forwarded + [closing, DoneFrame])[..|forwarded|] == forwarded;
  }
}
