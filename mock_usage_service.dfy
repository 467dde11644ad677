/**
 * The token service of the demo server, over the in-memory store: debit a
 * user for a chat, credit a purchase, read a balance, list usage.
 *
 * Every operation is specified against the ledger view of the store, so
 * the ledger lemmas (no negative balance, every debit logged) carry over.
 */
module MockUsageService {
  import opened Wrappers
  import opened Records
  import opened Text
  import opened Ledger
  import opened MockDatabase

  class MockUsageService {
    const db: MockDatabase

    constructor (db: MockDatabase)
      ensures this.db == db
    {
      this.db := db;
    }

    /**
     * Debits `tokens` from the user and logs a usage event. An unknown user
     * or a balance below the amount leaves the store untouched; the result
     * then carries 0 or the current balance and the error.
     */
    method ConsumeTokens(userId: string, tokens: int, conversationId: Option<string>, kind: string)
      returns (r: UsageResult)
      requires db.Valid()
      modifies db
      ensures db.Valid()
      ensures match DebitCheck(old(db.LedgerView()), userId, tokens)
        case UnknownUser => r == Failure(0, "User not found")
        case Insufficient(b) => r == Failure(b, "Insufficient tokens")
        case Debited(b) =>
          && r.success && r.balance == b && r.error.None?
          && r.usageEvent == Some(UsageEvent(MakeId("usage_", old(db.clock)), userId, conversationId, tokens, b, kind, old(db.clock)))
      ensures r.usageEvent.Some? ==> db.LedgerView() == Debit(old(db.LedgerView()), userId, tokens, r.usageEvent.value)
      ensures r.usageEvent.None? ==> db.LedgerView() == old(db.LedgerView()) && db.clock == old(db.clock)
      ensures r.error != Some("User not found") ==> GetUserBalance(userId) == r.balance
      ensures db.users.keys == old(db.users.keys)
      ensures db.conversations == old(db.conversations) && db.messages == old(db.messages) && db.packages == old(db.packages)
    {
      ghost var before := db.LedgerView();
      var user := db.FindUserById(userId);
      if user.None? {
        return Failure(0, "User not found");
      }
      var currentBalance := user.value.balance;
      assert before.balances[userId] == currentBalance;
      if currentBalance < tokens {
        return Failure(currentBalance, "Insufficient tokens");
      }
      var newBalance := currentBalance - tokens;
      assert DebitCheck(before, userId, tokens) == Debited(newBalance);
      ghost var clock := db.clock;
      var _ := db.UpdateUserBalance(userId, newBalance);
      var event := db.CreateUsageEvent(userId, tokens, newBalance, conversationId, kind);
      assert event == UsageEvent(MakeId("usage_", clock), userId, conversationId, tokens, newBalance, kind, clock);
      r := UsageResult(true, newBalance, Some(event), None);
    }

    /** Credits `tokens` to a known user; an unknown user gets nothing and an error. */
    method AddTokens(userId: string, tokens: int) returns (r: UsageResult)
      requires db.Valid()
      modifies db
      ensures db.Valid()
      ensures userId !in old(db.Balances()) ==> r == Failure(0, "User not found")
      ensures userId in old(db.Balances()) ==>
        r == UsageResult(true, old(db.Balances())[userId] + tokens, None, None)
      ensures db.LedgerView() == Credit(old(db.LedgerView()), userId, tokens)
      ensures r.success ==> GetUserBalance(userId) == r.balance
      ensures db.users.keys == old(db.users.keys) && db.clock == old(db.clock)
      ensures db.conversations == old(db.conversations) && db.messages == old(db.messages) && db.packages == old(db.packages)
    {
      var user := db.FindUserById(userId);
      if user.None? {
        return Failure(0, "User not found");
      }
      r := CreditKnownUser(userId, tokens);
    }

    /** The body of `AddTokens` once the user is known. */
    method CreditKnownUser(userId: string, tokens: int) returns (r: UsageResult)
      requires db.Valid() && userId in db.users.entries
      modifies db
      ensures db.Valid()
      ensures db.LedgerView() == Credit(old(db.LedgerView()), userId, tokens)
      ensures r == UsageResult(true, db.Balances()[userId], None, None)
      ensures GetUserBalance(userId) == r.balance
      ensures db.users.keys == old(db.users.keys) && db.clock == old(db.clock)
      ensures db.conversations == old(db.conversations) && db.messages == old(db.messages) && db.packages == old(db.packages)
    {
      ghost var before := db.LedgerView();
      var newBalance := db.users.entries[userId].balance + tokens;
      assert newBalance == before.balances[userId] + tokens;
      var _ := db.UpdateUserBalance(userId, newBalance);
      CreditedView(before, db.LedgerView(), userId, tokens, newBalance);
      r := UsageResult(true, newBalance, None, None);
    }

    /** The user's balance, or 0 for a user the store does not hold. */
    function GetUserBalance(userId: string): (b: int)
      reads db
      requires db.Valid()
      ensures userId in db.users.entries ==> b == db.users.entries[userId].balance
      ensures userId !in db.users.entries ==> b == 0
    {
      match db.FindUserById(userId)
      case Some(u) => u.balance
      case None => 0
    }

    /** The user's usage events, newest first, at most `limit` of them when `limit` is not negative. */
    function GetUserUsageHistory(userId: string, limit: int): (r: seq<UsageEvent>)
      reads db
      requires db.usageEvents.Valid()
      ensures r == UsageHistory(db.Events(), userId, limit)
    {
      db.GetUserUsageHistory(userId, limit)
    }
  }

  /** A ledger whose one balance grew by `amount`, and nothing else changed, is the credited ledger. */
  lemma CreditedView<E>(before: Ledger<E>, after: Ledger<E>, user: string, amount: int, newBalance: int)
    requires user in before.balances && newBalance == before.balances[user] + amount
    requires after.balances == before.balances[user := newBalance]
    requires after.events == before.events
    ensures after == Credit(before, user, amount)
  {
  }
}
