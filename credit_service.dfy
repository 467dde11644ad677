/**
 * The credit service the gateway routes call: a credit balance per user
 * and a log of usage rows. Its source is not part of this model; the
 * operations below carry the contracts its callers rely on, written as
 * the ledger's debit and credit.
 */
module CreditService {
  import opened Wrappers
  import opened Pricing
  import opened Ledger

  /**
   * A row of the usage log: who, which operation and model, the tokens
   * and the credits charged (negative for a grant), and the ids or reason
   * attached as metadata.
   */
  datatype UsageRecord = UsageRecord(
    userId: string,
    operation: string,
    model: string,
    tokens: int,
    cost: int,
    conversationId: string,
    messageId: string,
    reason: string,
    adjustedBy: string)

  function RecordCharge(r: UsageRecord): (string, int) {
    (r.userId, r.cost)
  }

  /** What `processUsage` resolves to: the cost and the credits left, or a rejection. */
  datatype Processed = Processed(cost: int, remainingCredits: int) | Rejected

  class CreditService {
    var credits: map<string, int>
    var usage: seq<UsageRecord>

    constructor (credits: map<string, int>)
      ensures this.credits == credits && usage == []
    {
      this.credits := credits;
      usage := [];
    }

    function View(): (l: Ledger<UsageRecord>)
      reads this
      ensures l.balances == credits && l.events == usage
    {
      Ledger(credits, usage)
    }

    /** A user's credits; a user the service does not know has none. */
    function GetUserCredits(userId: string): (c: int)
      reads this
      ensures userId in credits ==> c == credits[userId]
      ensures userId !in credits ==> c == 0
    {
      BalanceOf(View(), userId)
    }

    /**
     * Charges `tokens` of `model` at the model's rate and logs the row;
     * rejects, changing nothing, when the user is unknown or short.
     */
    method ProcessUsage(pricing: PricingCalculator, userId: string, operation: string, model: string, tokens: int,
                        conversationId: string, messageId: string)
      returns (r: Processed)
      modifies this
      ensures var cost := TokenCost(pricing.modelPricing, model, tokens);
        var row := UsageRecord(userId, operation, model, tokens, cost, conversationId, messageId, "", "");
        && View() == Debit(old(View()), userId, cost, row)
        && (r.Processed? <==> DebitCheck(old(View()), userId, cost).Debited?)
        && (r.Processed? ==> r == Processed(cost, credits[userId]))
      ensures |usage| <= |old(usage)| + 1
    {
      var cost := pricing.CalculateTokenCost(model, tokens);
      var row := UsageRecord(userId, operation, model, tokens, cost, conversationId, messageId, "", "");
      match DebitCheck(View(), userId, cost)
      case Debited(b) =>
        credits := credits[userId := b];
        usage := usage + [row];
        r := Processed(cost, b);
      case _ =>
        r := Rejected;
    }

    /** Adds credits to a known user; fails, changing nothing, for an unknown one. */
    method AddCredits(userId: string, amount: int) returns (ok: bool)
      modifies this
      ensures ok <==> userId in old(credits)
      ensures View() == Credit(old(View()), userId, amount)
    {
      ok := userId in credits;
      if ok {
        credits := credits[userId := credits[userId] + amount];
      }
    }

    /** Takes credits from a user who has enough, without logging; reports whether it did. */
    method DeductCredits(userId: string, amount: int) returns (ok: bool)
      modifies this
      ensures ok <==> DebitCheck(old(View()), userId, amount).Debited?
      ensures ok ==> credits == old(credits)[userId := old(credits)[userId] - amount]
      ensures !ok ==> credits == old(credits)
      ensures usage == old(usage)
    {
      ok := userId in credits && credits[userId] >= amount;
      if ok {
        credits := credits[userId := credits[userId] - amount];
      }
    }

    /** `usage.create`: appends a row as given. */
    method LogUsage(row: UsageRecord)
      modifies this
      ensures usage == old(usage) + [row] && credits == old(credits)
    {
      usage := usage + [row];
    }
  }
}
