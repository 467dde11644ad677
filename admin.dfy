/**
 * The administrator's routes that touch billing: adjusting a user's
 * credits by hand, saving a model's rate into the catalogue and the
 * pricing service, and the query-string clamps of the listing routes.
 */
module Admin {
  import opened Wrappers
  import opened Text
  import opened Pricing
  import opened Ledger
  import opened CreditService
  import opened Paging

  datatype AdjustReply =
    | InvalidInput
    | InsufficientCredits
    | Adjusted(newCredits: int, adjustment: int, reason: string)
    | AdjustFailed

  /** The usage row that logs an adjustment: no tokens, and the negated amount as its cost. */
  function AdjustmentRecord(userId: string, amount: int, reason: string, adminId: string): (row: UsageRecord)
    ensures row.userId == userId && row.operation == "credit_adjustment" && row.model == "admin"
    ensures row.tokens == 0 && row.cost + amount == 0
    ensures row.reason == reason && row.adjustedBy == adminId
  {
    UsageRecord(userId, "credit_adjustment", "admin", 0, -amount, "", "", reason, adminId)
  }

  /**
   * The credit adjustment. An empty reason is refused. A positive amount
   * is added; any other amount is deducted as its absolute value, and a
   * deduction the user cannot cover is refused with nothing changed. The
   * adjustment is then logged as a usage row; for a user the database
   * does not hold, the row violates its foreign key and the route fails,
   * after an addition that changed nothing.
   */
  method AdjustCredits(credits: CreditService, userId: string, amount: int, reason: string, adminId: string)
    returns (reply: AdjustReply)
    modifies credits
    ensures reason == "" ==> reply == InvalidInput
    ensures reason != "" && amount > 0 && userId !in old(credits.credits) ==> reply == AdjustFailed
    ensures reason != "" && amount <= 0 ==>
      (reply == InsufficientCredits <==> !DebitCheck(old(credits.View()), userId, -amount).Debited?)
    ensures !reply.Adjusted? ==> credits.credits == old(credits.credits) && credits.usage == old(credits.usage)
    ensures reply.Adjusted? <==>
      reason != "" && userId in old(credits.credits) && (amount > 0 || old(credits.credits)[userId] >= -amount)
    ensures reply.Adjusted? ==>
      && credits.credits == old(credits.credits)[userId := old(credits.credits)[userId] + amount]
      && credits.usage == old(credits.usage) + [AdjustmentRecord(userId, amount, reason, adminId)]
      && reply == Adjusted(credits.credits[userId], amount, reason)
  {
    if reason == "" {
      return InvalidInput;
    }
    if amount > 0 {
      var _ := credits.AddCredits(userId, amount);
    } else {
      var ok := credits.DeductCredits(userId, -amount);
      if !ok {
        return InsufficientCredits;
      }
    }
    if userId !in credits.credits {
      return AdjustFailed;
    }
    credits.LogUsage(AdjustmentRecord(userId, amount, reason, adminId));
    reply := Adjusted(credits.GetUserCredits(userId), amount, reason);
  }

  /** A model as the administrator submits it; the optional fields may be left out. */
  datatype ModelInput = ModelInput(
    name: string,
    provider: string,
    costPerToken: real,
    maxTokens: Option<int>,
    description: Option<string>,
    isActive: bool)

  /** A row of the model catalogue. */
  datatype ModelRow = ModelRow(
    name: string,
    provider: string,
    costPerToken: real,
    maxTokens: Option<int>,
    description: Option<string>,
    isActive: bool)

  /** The schema the route applies: non-empty name and provider, a rate of at least 0, a positive maximum if any. */
  predicate ValidModel(m: ModelInput) {
    && m.name != "" && m.provider != ""
    && m.costPerToken >= 0.0
    && (m.maxTokens.None? || m.maxTokens.value > 0)
  }

  /**
   * The catalogue row after `upsert` by name: a new row holds the input,
   * an existing one takes the fields given and keeps those left out.
   */
  function Upserted(existing: Option<ModelRow>, m: ModelInput): (row: ModelRow)
    ensures row.name == m.name && row.provider == m.provider
    ensures row.costPerToken == m.costPerToken && row.isActive == m.isActive
    ensures m.maxTokens.Some? ==> row.maxTokens == m.maxTokens
    ensures m.description.Some? ==> row.description == m.description
    ensures m.maxTokens.None? ==> row.maxTokens == if existing.Some? then existing.value.maxTokens else None
    ensures m.description.None? ==> row.description == if existing.Some? then existing.value.description else None
  {
    match existing
    case None => ModelRow(m.name, m.provider, m.costPerToken, m.maxTokens, m.description, m.isActive)
    case Some(old_) =>
      ModelRow(m.name, m.provider, m.costPerToken,
               if m.maxTokens.Some? then m.maxTokens else old_.maxTokens,
               if m.description.Some? then m.description else old_.description,
               m.isActive)
  }

  /** The model catalogue, keyed by the unique model name. */
  class ModelCatalogue {
    var models: map<string, ModelRow>

    constructor ()
      ensures models == map[]
    {
      models := map[];
    }

    function Lookup(name: string): (r: Option<ModelRow>)
      reads this
      ensures r.Some? <==> name in models
      ensures r.Some? ==> r.value == models[name]
    {
      if name in models then Some(models[name]) else None
    }

    /**
     * The model-saving route: an input the schema refuses changes
     * nothing; otherwise the row is upserted by name and the pricing
     * service takes the saved rate, whether or not the model is active.
     */
    method SaveModel(pricing: PricingCalculator, m: ModelInput) returns (saved: Option<ModelRow>)
      modifies this, pricing
      ensures !ValidModel(m) <==> saved.None?
      ensures saved.None? ==> models == old(models) && pricing.modelPricing == old(pricing.modelPricing)
      ensures saved.Some? ==>
        && saved.value == Upserted(old(Lookup(m.name)), m)
        && models == old(models)[m.name := saved.value]
        && pricing.modelPricing == old(pricing.modelPricing)[m.name := m.costPerToken]
        && pricing.GetCostPerToken(m.name) == (if m.costPerToken == 0.0 then DefaultCostPerToken else m.costPerToken)
        && forall other :: other != m.name ==> pricing.GetCostPerToken(other) == old(pricing.GetCostPerToken(other))
    {
      if !ValidModel(m) {
        return None;
      }
      var row := Upserted(Lookup(m.name), m);
      models := models[m.name := row];
      pricing.UpdateModelPricing(row.name, row.costPerToken);
      saved := Some(row);
    }
  }

  /** Saving a model twice leaves the row the first save left. */
  lemma UpsertIdempotent(existing: Option<ModelRow>, m: ModelInput)
    ensures Upserted(Some(Upserted(existing, m)), m) == Upserted(existing, m)
  {
  }

  /** `Math.min(parseInt(days) || 7, 365)`: the statistics window in days. */
  function StatsDays(daysText: string): (days: int)
    ensures days <= 365
    ensures ParseInt(daysText).None? || ParseInt(daysText).value == 0 ==> days == 7
    ensures ParseInt(daysText).Some? && ParseInt(daysText).value != 0 ==>
      days == if ParseInt(daysText).value <= 365 then ParseInt(daysText).value else 365
  {
    Capped(daysText, 7, 365)
  }

  /** The window of the user and API-key listings: page from 1, at most 100 rows, 50 by default. */
  function ListingWindow(pageText: string, limitText: string): (w: Window)
    ensures w.limit <= 100 && w.limit != 0 && w.skip == (w.page - 1) * w.limit
    ensures ParseInt(limitText).None? || ParseInt(limitText).value == 0 ==> w.limit == 50
    ensures ParseInt(pageText).None? || ParseInt(pageText).value == 0 ==> w.page == 1 && w.skip == 0
    ensures ParseInt(pageText).Some? && ParseInt(pageText).value != 0 ==> w.page == ParseInt(pageText).value
    ensures ParseInt(limitText).Some? && ParseInt(limitText).value != 0 ==>
      w.limit == if ParseInt(limitText).value <= 100 then ParseInt(limitText).value else 100
  {
    WindowOf(pageText, limitText, 50, 100)
  }
}
