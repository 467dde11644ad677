/**
 * The ledger every variant of the service keeps in its own way: a balance
 * per user and an append-only log of usage events. `E` is the variant's
 * own event record. Debit and credit are the check-then-write steps the
 * services perform; the lemmas here hold for every variant.
 */
module Ledger {

  datatype Ledger<E> = Ledger(balances: map<string, int>, events: seq<E>)

  /** A user's balance; a user the ledger does not know has none. */
  function BalanceOf<E>(l: Ledger<E>, user: string): (b: int)
    ensures user in l.balances ==> b == l.balances[user]
    ensures user !in l.balances ==> b == 0
  {
    if user in l.balances then l.balances[user] else 0
  }

  /** What the balance check of a debit decides. */
  datatype DebitOutcome = UnknownUser | Insufficient(balance: int) | Debited(balance: int)

  /**
   * The check before a debit: an unknown user, a balance below the amount,
   * or the balance the debit leaves.
   */
  function DebitCheck<E>(l: Ledger<E>, user: string, amount: int): (o: DebitOutcome)
    ensures o.UnknownUser? <==> user !in l.balances
    ensures o.Insufficient? <==> user in l.balances && l.balances[user] < amount
    ensures o.Insufficient? ==> o.balance == l.balances[user]
    ensures o.Debited? ==> user in l.balances && o.balance == l.balances[user] - amount && o.balance >= 0
  {
    if user !in l.balances then UnknownUser
    else if l.balances[user] < amount then Insufficient(l.balances[user])
    else Debited(l.balances[user] - amount)
  }

  /**
   * The ledger after a debit of `amount` from `user` that logs `event`:
   * when the check fails nothing changes; otherwise the balance drops by
   * the amount and the event is appended.
   */
  function Debit<E>(l: Ledger<E>, user: string, amount: int, event: E): (r: Ledger<E>)
    ensures !DebitCheck(l, user, amount).Debited? ==> r == l
    ensures DebitCheck(l, user, amount).Debited? ==>
      && r.balances == l.balances[user := l.balances[user] - amount]
      && r.events == l.events + [event]
  {
    match DebitCheck(l, user, amount)
    case Debited(b) => Ledger(l.balances[user := b], l.events + [event])
    case _ => l
  }

  /** The ledger after adding `amount` to a known user; an unknown user changes nothing. */
  function Credit<E>(l: Ledger<E>, user: string, amount: int): (r: Ledger<E>)
    ensures user !in l.balances ==> r == l
    ensures user in l.balances ==> r.balances == l.balances[user := l.balances[user] + amount]
    ensures r.events == l.events
  {
    if user in l.balances then Ledger(l.balances[user := l.balances[user] + amount], l.events) else l
  }

  ghost predicate NonNegative<E>(l: Ledger<E>) {
    forall u :: u in l.balances ==> l.balances[u] >= 0
  }

  /** A debit never takes a balance below zero, whatever the amount. */
  lemma DebitKeepsNonNegative<E>(l: Ledger<E>, user: string, amount: int, event: E)
    requires NonNegative(l)
    ensures NonNegative(Debit(l, user, amount, event))
  {
  }

  /** Crediting a non-negative amount keeps every balance non-negative. */
  lemma CreditKeepsNonNegative<E>(l: Ledger<E>, user: string, amount: int)
    requires NonNegative(l) && amount >= 0
    ensures NonNegative(Credit(l, user, amount))
  {
  }

  /** A debit touches no other user's balance and removes no event. */
  lemma DebitFrame<E>(l: Ledger<E>, user: string, amount: int, event: E, other: string)
    requires other != user
    ensures BalanceOf(Debit(l, user, amount, event), other) == BalanceOf(l, other)
    ensures l.events <= Debit(l, user, amount, event).events
  {
  }

  /** The total a user has been charged according to the log, given how each event names its user and amount. */
  function Charged<E>(events: seq<E>, user: string, chargeOf: E -> (string, int)): int {
    if events == [] then 0
    else
      var last := chargeOf(events[|events| - 1]);
      Charged(events[..|events| - 1], user, chargeOf) + (if last.0 == user then last.1 else 0)
  }

  /**
   * The log accounts for every debit: for each user, balance plus charges
   * logged is the same before and after a debit whose event records it.
   */
  lemma DebitConserves<E>(l: Ledger<E>, user: string, amount: int, event: E, chargeOf: E -> (string, int), u: string)
    requires chargeOf(event) == (user, amount)
    ensures var r := Debit(l, user, amount, event);
      BalanceOf(r, u) + Charged(r.events, u, chargeOf) == BalanceOf(l, u) + Charged(l.events, u, chargeOf)
  {
    var r := Debit(l, user, amount, event);
    if DebitCheck(l, user, amount).Debited? {
      assert r.events[..|r.events| - 1] == l.events;
    }
  }

  /** A credit raises balance plus charges by the amount for a known user and for no one else. */
  lemma CreditRaises<E>(l: Ledger<E>, user: string, amount: int, chargeOf: E -> (string, int), u: string)
    ensures var r := Credit(l, user, amount);
      BalanceOf(r, u) + Charged(r.events, u, chargeOf)
        == BalanceOf(l, u) + Charged(l.events, u, chargeOf) + (if u == user && user in l.balances then amount else 0)
  {
  }
}
