/**
 * The production token service: the debit runs in one database
 * transaction, so a failure anywhere inside it leaves the store as it was.
 * `fault` stands for any exception the database raises.
 */
module UsageService {
  import opened Wrappers
  import opened Numeric
  import opened Text
  import opened Collections
  import opened Records
  import opened Ledger
  import opened PrismaStore

  class UsageService {
    const store: PrismaStore

    constructor (store: PrismaStore)
      ensures this.store == store
    {
      this.store := store;
    }

    /**
     * Debits `tokens` and logs the event, all or nothing. A database
     * failure reports "Internal server error" with a zero balance and
     * changes nothing.
     */
    method ConsumeTokens(userId: string, tokens: int, conversationId: Option<string>, kind: string, fault: bool)
      returns (r: UsageResult)
      requires store.Valid()
      modifies store
      ensures store.Valid()
      ensures fault ==> r == Failure(0, "Internal server error") && store.LedgerView() == old(store.LedgerView())
      ensures !fault ==> match DebitCheck(old(store.LedgerView()), userId, tokens)
        case UnknownUser => r == Failure(0, "User not found")
        case Insufficient(b) => r == Failure(b, "Insufficient tokens")
        case Debited(b) =>
          && r.success && r.balance == b && r.error.None?
          && r.usageEvent == Some(UsageEvent(MakeId("usage_", old(store.clock)), userId, conversationId, tokens, b, kind, old(store.clock)))
      ensures r.usageEvent.Some? ==> store.LedgerView() == Debit(old(store.LedgerView()), userId, tokens, r.usageEvent.value)
      ensures r.usageEvent.None? ==> store.LedgerView() == old(store.LedgerView()) && store.clock == old(store.clock)
      ensures store.conversations == old(store.conversations) && store.messages == old(store.messages)
    {
      if fault {
        return Failure(0, "Internal server error");
      }
      if userId !in store.balances {
        return Failure(0, "User not found");
      }
      var currentBalance := store.balances[userId];
      if currentBalance < tokens {
        return Failure(currentBalance, "Insufficient tokens");
      }
      var newBalance := currentBalance - tokens;
      store.SetBalance(userId, newBalance);
      var event := store.InsertEvent(userId, tokens, newBalance, conversationId, kind);
      r := UsageResult(true, newBalance, Some(event), None);
    }

    /**
     * Increments a known user's balance. Updating a user that does not
     * exist throws inside the database, so an unknown user fails the same
     * way a database failure does.
     */
    method AddTokens(userId: string, tokens: int, fault: bool) returns (r: UsageResult)
      requires store.Valid()
      modifies store
      ensures store.Valid()
      ensures fault || userId !in old(store.balances) ==>
        r == Failure(0, "Failed to add tokens") && store.LedgerView() == old(store.LedgerView())
      ensures !fault && userId in old(store.balances) ==>
        && r == UsageResult(true, old(store.balances)[userId] + tokens, None, None)
        && store.LedgerView() == Credit(old(store.LedgerView()), userId, tokens)
      ensures store.clock == old(store.clock)
      ensures store.conversations == old(store.conversations) && store.messages == old(store.messages)
    {
      if fault || userId !in store.balances {
        return Failure(0, "Failed to add tokens");
      }
      var newBalance := store.balances[userId] + tokens;
      store.SetBalance(userId, newBalance);
      r := UsageResult(true, newBalance, None, None);
    }

    /** The user's balance; 0 for an unknown user or when the database fails. */
    function GetUserBalance(userId: string, fault: bool): (b: int)
      reads store
      ensures !fault && userId in store.balances ==> b == store.balances[userId]
      ensures fault || userId !in store.balances ==> b == 0
    {
      if fault then 0 else BalanceOf(store.LedgerView(), userId)
    }

    /**
     * The user's events, newest first, cut by `take: limit`: the newest
     * `limit` of them, or for a negative `limit` the oldest `-limit`, still
     * newest first; nothing when the database fails.
     */
    function GetUserUsageHistory(userId: string, limit: int, fault: bool): (r: seq<UsageEvent>)
      reads store
      requires store.Valid()
      ensures fault ==> r == []
      ensures forall e :: e in r ==> e in store.events && e.userId == userId
      ensures forall i, j :: 0 <= i < j < |r| ==> r[i].createdAt > r[j].createdAt
      ensures !fault && limit >= 0 ==> |r| == Min(limit, |Filter(store.events, (e: UsageEvent) => e.userId == userId)|)
      ensures !fault && limit < 0 ==> |r| == Min(-limit, |Filter(store.events, (e: UsageEvent) => e.userId == userId)|)
      ensures !fault && limit >= 0 ==>
        forall e, k :: e in store.events && e.userId == userId && e !in r && k in r ==> e.createdAt < k.createdAt
      ensures !fault && limit < 0 ==>
        forall e, k :: e in store.events && e.userId == userId && e !in r && k in r ==> k.createdAt < e.createdAt
    {
      if fault then []
      else
        var keep := (e: UsageEvent) => e.userId == userId;
        var all := NewestFirst(store.events, keep);
        NewestFirstDecreasing(store.events, keep, EventTime);
        var r := Take(all, limit);
        assert forall e :: e in r ==> e in all;
        TakeKeepsOrder(store.events, keep, limit);
        r
    }
  }

  /**
   * `take` on the newest-first rows: a non-negative `limit` keeps rows
   * newer than every row it leaves out, a negative one rows older than
   * every row it leaves out.
   */
  lemma TakeKeepsOrder(events: seq<UsageEvent>, keep: UsageEvent -> bool, limit: int)
    requires StrictlyIncreasing(events, EventTime)
    ensures var all := NewestFirst(events, keep);
      var r := Take(all, limit);
      && (limit >= 0 ==> forall e, k :: e in events && keep(e) && e !in r && k in r ==> e.createdAt < k.createdAt)
      && (limit < 0 ==> forall e, k :: e in events && keep(e) && e !in r && k in r ==> k.createdAt < e.createdAt)
  {
    var all := NewestFirst(events, keep);
    NewestFirstDecreasing(events, keep, EventTime);
    TakeOfDecreasing(all, EventTime, limit);
  }
}
