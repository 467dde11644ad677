/**
 * The stand-alone points server: one balance held in memory, a read of it,
 * and a usage call that charges a cost (10 unless the request names one)
 * when the balance covers it.
 */
module PointsServer {
  import opened Wrappers
  import opened Text

  const StartingBalance: int := 1000
  const DefaultCost: int := 10

  /** A reply: HTTP status, success flag, the balance, and either a conversation id or an error. */
  datatype UsageReply = UsageReply(status: int, success: bool, balance: int, conversationId: Option<string>, error: Option<string>)

  /**
   * The balance left after charging `cost`, or nothing when the balance
   * does not cover it. The only check is `balance >= cost`.
   */
  function Charge(balance: int, cost: int): (r: Option<int>)
    ensures r.Some? <==> balance >= cost
    ensures r.Some? ==> r.value == balance - cost && r.value >= 0
  {
    if balance >= cost then Some(balance - cost) else None
  }

  /** A negative cost is accepted and raises the balance by its size. */
  lemma NegativeCostRaises(balance: int, cost: int)
    requires balance >= 0 && cost < 0
    ensures Charge(balance, cost) == Some(balance + -cost)
    ensures Charge(balance, cost).value > balance
  {
  }

  class PointsServer {
    var userBalance: int

    ghost predicate Valid()
      reads this
    {
      userBalance >= 0
    }

    constructor ()
      ensures Valid() && userBalance == StartingBalance
    {
      userBalance := StartingBalance;
    }

    /** `GET /api/me/points` */
    function GetPoints(): (b: int)
      reads this
      requires Valid()
      ensures b == userBalance && b >= 0
    {
      userBalance
    }

    /**
     * `POST /api/usage`: charges the cost when the balance covers it and
     * hands back a conversation id made from the time `now`; otherwise
     * answers 400 and leaves the balance alone.
     */
    method PostUsage(cost: Option<int>, now: nat) returns (reply: UsageReply)
      requires Valid()
      modifies this
      ensures Valid()
      ensures var c := cost.GetOr(DefaultCost);
        match Charge(old(userBalance), c)
        case Some(b) =>
          userBalance == b && reply == UsageReply(200, true, b, Some("conv_" + NatToString(now)), None)
        case None =>
          userBalance == old(userBalance) && reply == UsageReply(400, false, userBalance, None, Some("Insufficient balance"))
    {
      var c := cost.GetOr(DefaultCost);
      if userBalance >= c {
        userBalance := userBalance - c;
        reply := UsageReply(200, true, userBalance, Some("conv_" + NatToString(now)), None);
      } else {
        reply := UsageReply(400, false, userBalance, None, Some("Insufficient balance"));
      }
    }
  }
}
