/**
 * Payment reconciliation in the gateway's billing routes: a payment intent
 * is recorded as PENDING, then completed, and its credits applied, either
 * by the buyer's confirmation or by the payment webhook; a failure webhook
 * marks it FAILED. The payment history and the billing summary read the
 * payment table. Stripe is an input here: the intent id it assigns, what it
 * reports about an intent, and whether a webhook's signature checks out.
 */
module Payments {
  import opened Wrappers
  import opened Numeric
  import opened Text
  import opened Collections
  import opened Pricing
  import opened Ledger
  import opened CreditService
  import opened Paging

  datatype PaymentStatus = Pending | Completed | Failed

  /** A row of the payment table; `amount` is in cents. */
  datatype Payment = Payment(
    id: string,
    userId: string,
    stripePaymentId: string,
    amount: int,
    creditsGranted: int,
    status: PaymentStatus,
    tier: Option<string>,
    description: string,
    createdAt: nat)

  /** The smallest purchase the intent route accepts, in credits. */
  const MinimumCredits: int := 100

  /** `Math.ceil(credits / 100) * 100`: one dollar per hundred credits, rounded up to whole dollars. */
  function CustomAmount(credits: int): (amount: int)
    ensures amount % 100 == 0
    ensures credits <= amount < credits + 100
  {
    CeilDiv(credits, 100);
    Ceil(credits as real / 100 as real) * 100
  }

  /** `PRICING_TIERS.find(t => t.name === name)` */
  function TierNamed(name: string): (r: Option<PricingTier>)
    ensures r.None? <==> forall t :: t in PricingTiers ==> t.name != name
    ensures r.Some? ==> r.value in PricingTiers && r.value.name == name
  {
    Find(PricingTiers, (t: PricingTier) => t.name == name)
  }

  /** The amount charged for an intent and its description. */
  datatype Quote = Quote(amount: int, description: string)

  /**
   * The quote for an intent: a named tier's price, or the custom rate when
   * no tier (or an empty name) is given; none for an unknown tier name.
   */
  function QuoteFor(credits: int, tier: Option<string>): (r: Option<Quote>)
    ensures tier.None? || tier.value == "" ==>
      r.Some? && r.value.amount == CustomAmount(credits) && r.value.description == IntToString(credits) + " credits"
    ensures tier.Some? && tier.value != "" ==> (r.None? <==> forall t :: t in PricingTiers ==> t.name != tier.value)
    ensures tier.Some? && tier.value != "" && r.Some? ==>
      exists t :: t in PricingTiers && t.name == tier.value && r.value.amount == t.price
        && r.value.description == t.name + " - " + IntToString(t.credits) + " credits"
  {
    if tier.Some? && tier.value != "" then
      match TierNamed(tier.value)
      case None => None
      case Some(t) => Some(Quote(t.price, t.name + " - " + IntToString(t.credits) + " credits"))
    else
      Some(Quote(CustomAmount(credits), IntToString(credits) + " credits"))
  }

  /** `findUnique({ where: { stripePaymentId } })`: the position of an intent's row. */
  function RecordOf(payments: seq<Payment>, intentId: string): (r: Option<nat>)
    ensures r.None? <==> forall i :: 0 <= i < |payments| ==> payments[i].stripePaymentId != intentId
    ensures r.Some? ==> r.value < |payments| && payments[r.value].stripePaymentId == intentId
  {
    if payments == [] then None
    else if payments[0].stripePaymentId == intentId then Some(0)
    else
      match RecordOf(payments[1..], intentId)
      case None =>
        assert forall i :: 1 <= i < |payments| ==> payments[i] == payments[1..][i - 1];
        None
      case Some(k) => Some(k + 1)
  }

  /** The table with one row's status changed. */
  function SetStatus(payments: seq<Payment>, i: nat, status: PaymentStatus): (r: seq<Payment>)
    requires i < |payments|
    ensures |r| == |payments| && r[i].status == status
    ensures forall j :: 0 <= j < |payments| ==> r[j] == if j == i then payments[i].(status := status) else payments[j]
  {
    payments[i := payments[i].(status := status)]
  }

  /** The part of the database the billing routes read and write: user credits and the payment table. */
  datatype Books = Books(credits: map<string, int>, payments: seq<Payment>)

  /** What Stripe reports about a payment intent: the user in its metadata and its status. */
  datatype IntentInfo = IntentInfo(ownerId: string, status: string)

  datatype ConfirmReply =
    | NotOwner
    | NotSucceeded
    | RecordNotFound
    | AlreadyProcessed
    | Confirmed(creditsAdded: int, totalCredits: int)
    | ConfirmFailed

  /**
   * The buyer's confirmation. `intent` is what Stripe returns for the id
   * (`None` when retrieving it throws). The checks run in order: owner,
   * Stripe status, a row for the intent, the row not yet completed; then
   * one transaction completes the row and credits the caller. Crediting an
   * unknown user throws inside the transaction, which rolls back.
   */
  function Confirm(b: Books, userId: string, intentId: string, intent: Option<IntentInfo>): (r: (Books, ConfirmReply))
    ensures !r.1.Confirmed? ==> r.0 == b
    ensures intent.None? ==> r.1 == ConfirmFailed
    ensures intent.Some? && intent.value.ownerId != userId ==> r.1 == NotOwner
    ensures intent.Some? && intent.value.ownerId == userId && intent.value.status != "succeeded" ==> r.1 == NotSucceeded
    ensures intent == Some(IntentInfo(userId, "succeeded")) ==>
      && (RecordOf(b.payments, intentId).None? ==> r.1 == RecordNotFound)
      && (RecordOf(b.payments, intentId).Some? && b.payments[RecordOf(b.payments, intentId).value].status == Completed ==>
            r.1 == AlreadyProcessed)
    ensures r.1.Confirmed? <==>
      && intent == Some(IntentInfo(userId, "succeeded"))
      && RecordOf(b.payments, intentId).Some?
      && b.payments[RecordOf(b.payments, intentId).value].status != Completed
      && userId in b.credits
    ensures r.1.Confirmed? ==>
      var i := RecordOf(b.payments, intentId).value;
      var granted := b.payments[i].creditsGranted;
      && r.0.credits == b.credits[userId := b.credits[userId] + granted]
      && r.0.payments == SetStatus(b.payments, i, Completed)
      && r.1 == Confirmed(granted, r.0.credits[userId])
  {
    if intent.None? then (b, ConfirmFailed)
    else if intent.value.ownerId != userId then (b, NotOwner)
    else if intent.value.status != "succeeded" then (b, NotSucceeded)
    else match RecordOf(b.payments, intentId)
      case None => (b, RecordNotFound)
      case Some(i) =>
        var payment := b.payments[i];
        if payment.status == Completed then (b, AlreadyProcessed)
        else if userId !in b.credits then (b, ConfirmFailed)
        else
          var credits := b.credits[userId := b.credits[userId] + payment.creditsGranted];
          (Books(credits, SetStatus(b.payments, i, Completed)), Confirmed(payment.creditsGranted, credits[userId]))
  }

  /**
   * `handlePaymentSucceeded`: completes a row that is not completed yet and
   * credits its owner in one transaction; an absent or completed row, or an
   * owner the database does not hold (the transaction throws and the error
   * is swallowed), changes nothing.
   */
  function Succeed(b: Books, intentId: string): (r: Books)
    ensures RecordOf(b.payments, intentId).None? ==> r == b
    ensures RecordOf(b.payments, intentId).Some? ==>
      var p := b.payments[RecordOf(b.payments, intentId).value];
      && (p.status == Completed || p.userId !in b.credits ==> r == b)
      && (p.status != Completed && p.userId in b.credits ==>
            && r.credits == b.credits[p.userId := b.credits[p.userId] + p.creditsGranted]
            && r.payments == SetStatus(b.payments, RecordOf(b.payments, intentId).value, Completed))
  {
    match RecordOf(b.payments, intentId)
    case None => b
    case Some(i) =>
      var p := b.payments[i];
      if p.status == Completed || p.userId !in b.credits then b
      else Books(b.credits[p.userId := b.credits[p.userId] + p.creditsGranted], SetStatus(b.payments, i, Completed))
  }

  /**
   * `handlePaymentFailed`: marks the intent's row FAILED whatever its
   * status, completed included; updating an absent row throws and the
   * error is swallowed. No balance changes.
   */
  function Fail(b: Books, intentId: string): (r: Books)
    ensures r.credits == b.credits
    ensures RecordOf(b.payments, intentId).None? ==> r == b
    ensures RecordOf(b.payments, intentId).Some? ==>
      r.payments == SetStatus(b.payments, RecordOf(b.payments, intentId).value, Failed)
  {
    match RecordOf(b.payments, intentId)
    case None => b
    case Some(i) => Books(b.credits, SetStatus(b.payments, i, Failed))
  }

  /** A verified webhook event: its type and the payment intent it carries. */
  datatype WebhookEvent = WebhookEvent(kind: string, intentId: string)

  datatype WebhookReply = Received | SignatureRejected

  /**
   * The payment webhook: a bad signature is rejected with nothing changed;
   * a success or failure event is applied; any other event type is only
   * acknowledged.
   */
  function Webhook(b: Books, signatureValid: bool, e: WebhookEvent): (r: (Books, WebhookReply))
    ensures !signatureValid ==> r == (b, SignatureRejected)
    ensures signatureValid ==> r.1 == Received
    ensures r.0.credits != b.credits ==> signatureValid && e.kind == "payment_intent.succeeded"
  {
    if !signatureValid then (b, SignatureRejected)
    else if e.kind == "payment_intent.succeeded" then (Succeed(b, e.intentId), Received)
    else if e.kind == "payment_intent.payment_failed" then (Fail(b, e.intentId), Received)
    else (b, Received)
  }

  /** A row's share of a user's completed total by `field`. */
  function Share(p: Payment, userId: string, field: Payment -> int): int {
    if p.userId == userId && p.status == Completed then field(p) else 0
  }

  /** `aggregate({ where: { userId, status: 'COMPLETED' }, _sum: { field } })`, with an empty sum read as 0. */
  function CompletedSum(payments: seq<Payment>, userId: string, field: Payment -> int): int {
    if payments == [] then 0
    else CompletedSum(payments[..|payments| - 1], userId, field) + Share(payments[|payments| - 1], userId, field)
  }

  function Granted(p: Payment): int {
    p.creditsGranted
  }

  function Amount(p: Payment): int {
    p.amount
  }

  /** Replacing one row changes a completed total by the difference of the two rows' shares. */
  lemma {:induction false} CompletedSumUpdate(payments: seq<Payment>, i: nat, q: Payment, userId: string, field: Payment -> int)
    requires i < |payments|
    ensures CompletedSum(payments[i := q], userId, field)
         == CompletedSum(payments, userId, field) - Share(payments[i], userId, field) + Share(q, userId, field)
  {
    var n := |payments|;
    var updated := payments[i := q];
    if i == n - 1 {
      assert updated[..n - 1] == payments[..n - 1];
    } else {
      CompletedSumUpdate(payments[..n - 1], i, q, userId, field);
      assert updated[..n - 1] == payments[..n - 1][i := q];
    }
  }

  /**
   * The credits a user holds beyond what their completed payments granted.
   * Applying a payment's credits exactly when its row becomes completed
   * keeps this quantity fixed.
   */
  function Unearned(b: Books, userId: string): int {
    BalanceOf<UsageRecord>(Ledger(b.credits, []), userId) - CompletedSum(b.payments, userId, Granted)
  }

  /** The success webhook credits a payment exactly when it completes it: no user's unearned credits move. */
  lemma SucceedKeepsUnearned(b: Books, intentId: string, userId: string)
    requires userId in b.credits
    ensures Unearned(Succeed(b, intentId), userId) == Unearned(b, userId)
  {
    match RecordOf(b.payments, intentId)
    case None =>
    case Some(i) =>
      var p := b.payments[i];
      if p.status != Completed && p.userId in b.credits {
        CompletedSumUpdate(b.payments, i, p.(status := Completed), userId, Granted);
      }
  }

  /** So does a confirmation by the user the row belongs to. */
  lemma ConfirmKeepsUnearned(b: Books, userId: string, intentId: string, intent: Option<IntentInfo>, u: string)
    requires u in b.credits
    requires RecordOf(b.payments, intentId).Some? ==> b.payments[RecordOf(b.payments, intentId).value].userId == userId
    ensures Unearned(Confirm(b, userId, intentId, intent).0, u) == Unearned(b, u)
  {
    var r := Confirm(b, userId, intentId, intent);
    if r.1.Confirmed? {
      var i := RecordOf(b.payments, intentId).value;
      CompletedSumUpdate(b.payments, i, b.payments[i].(status := Completed), u, Granted);
    }
  }

  /** A replayed success event credits nothing more. */
  lemma SucceedIdempotent(b: Books, intentId: string)
    ensures Succeed(Succeed(b, intentId), intentId) == Succeed(b, intentId)
  {
    var once := Succeed(b, intentId);
    if once != b {
      var i := RecordOf(b.payments, intentId).value;
      assert RecordOf(once.payments, intentId) == Some(i) by {
        RecordOfUnchanged(b.payments, i, Completed, intentId);
      }
    }
  }

  /** Changing a row's status does not move where an intent's row is found. */
  lemma RecordOfUnchanged(payments: seq<Payment>, i: nat, status: PaymentStatus, intentId: string)
    requires i < |payments|
    ensures RecordOf(SetStatus(payments, i, status), intentId) == RecordOf(payments, intentId)
  {
    var updated := SetStatus(payments, i, status);
    assert forall j :: 0 <= j < |payments| ==> updated[j].stripePaymentId == payments[j].stripePaymentId;
    RecordOfSameIds(payments, updated, intentId);
  }

  lemma {:induction false} RecordOfSameIds(a: seq<Payment>, b: seq<Payment>, intentId: string)
    requires |a| == |b|
    requires forall j :: 0 <= j < |a| ==> a[j].stripePaymentId == b[j].stripePaymentId
    ensures RecordOf(a, intentId) == RecordOf(b, intentId)
  {
    if a != [] && a[0].stripePaymentId != intentId {
      RecordOfSameIds(a[1..], b[1..], intentId);
    }
  }

  /** After a confirmation, the success webhook for the same intent changes nothing. */
  lemma ConfirmThenWebhook(b: Books, userId: string, intentId: string, intent: Option<IntentInfo>)
    requires Confirm(b, userId, intentId, intent).1.Confirmed?
    ensures var after := Confirm(b, userId, intentId, intent).0;
      Webhook(after, true, WebhookEvent("payment_intent.succeeded", intentId)) == (after, Received)
  {
    var i := RecordOf(b.payments, intentId).value;
    RecordOfUnchanged(b.payments, i, Completed, intentId);
  }

  /** After the success webhook has credited an intent, the buyer's confirmation is refused. */
  lemma WebhookThenConfirm(b: Books, userId: string, intentId: string)
    requires Succeed(b, intentId) != b
    ensures Confirm(Succeed(b, intentId), userId, intentId, Some(IntentInfo(userId, "succeeded"))).1 == AlreadyProcessed
  {
    var i := RecordOf(b.payments, intentId).value;
    RecordOfUnchanged(b.payments, i, Completed, intentId);
  }

  /**
   * As written, a failure event that arrives after a payment completed
   * reopens it: a later success event for the same intent credits the
   * payment a second time.
   */
  lemma FailureReopensCredit(b: Books, intentId: string)
    requires RecordOf(b.payments, intentId).Some?
    requires var p := b.payments[RecordOf(b.payments, intentId).value]; p.status == Completed && p.userId in b.credits
    ensures var p := b.payments[RecordOf(b.payments, intentId).value];
      Succeed(Fail(b, intentId), intentId).credits[p.userId] == b.credits[p.userId] + p.creditsGranted
  {
    var i := RecordOf(b.payments, intentId).value;
    RecordOfUnchanged(b.payments, i, Failed, intentId);
  }

  /** The reply of the payment-intent route. */
  datatype IntentReply =
    | InvalidInput
    | InvalidTier
    | IntentCreated(amount: int, credits: int, description: string)
    | IntentFailed

  /** One page of a user's payments, or a failure when the query is refused. */
  datatype HistoryReply =
    | HistoryPage(payments: seq<Payment>, page: int, limit: int, total: int, totalPages: int)
    | HistoryFailed

  function IsOwnedBy(userId: string): Payment -> bool {
    (p: Payment) => p.userId == userId
  }

  /** The rows from position `skip` on. */
  function Drop<T>(s: seq<T>, skip: nat): (r: seq<T>)
    ensures |r| == if skip <= |s| then |s| - skip else 0
    ensures forall i :: 0 <= i < |r| ==> r[i] == s[skip + i]
  {
    if skip <= |s| then s[skip..] else []
  }

  /**
   * Prisma's `findMany` with `skip` and `take` on an ordered result. A
   * negative `take` reads the result from the other end: the last `skip`
   * rows are left out and the `-take` rows before them kept, still in the
   * requested order.
   */
  function SkipTake<T>(s: seq<T>, skip: nat, take: int): (r: seq<T>)
    ensures |r| <= |s|
  {
    if take >= 0 then Take(Drop(s, skip), take)
    else Take(s[..if skip <= |s| then |s| - skip else 0], take)
  }

  function CreatedAt(p: Payment): int {
    p.createdAt
  }

  /** Rows were inserted in creation order, so the table is ordered by `createdAt`. */
  ghost predicate CreatedInOrder(payments: seq<Payment>) {
    StrictlyIncreasing(payments, CreatedAt)
  }

  /** The user's rows, newest first. */
  function NewestFirst(payments: seq<Payment>, userId: string): seq<Payment> {
    Reverse(Filter(payments, IsOwnedBy(userId)))
  }

  /** Rows strictly newest first. */
  ghost predicate NewestToOldest(s: seq<Payment>) {
    forall i, j :: 0 <= i < j < |s| ==> s[i].createdAt > s[j].createdAt
  }

  /** Reversing a table in creation order lists the same rows newest first. */
  lemma ReverseOfOrdered(s: seq<Payment>)
    requires CreatedInOrder(s)
    ensures NewestToOldest(Reverse(s))
    ensures forall p :: p in Reverse(s) <==> p in s
  {
    var r := Reverse(s);
    var n := |s|;
    forall i, j | 0 <= i < j < n
      ensures r[i].createdAt > r[j].createdAt
    {
      assert CreatedAt(s[n - 1 - j]) < CreatedAt(s[n - 1 - i]);
    }
    forall p | p in s ensures p in r {
      var i :| 0 <= i < n && s[i] == p;
      assert r[n - 1 - i] == p;
    }
  }

  /** A window of rows taken from a newest-first list is newest first and holds only rows of that list. */
  lemma WindowOfNewest(s: seq<Payment>, skip: nat, limit: int)
    requires NewestToOldest(s)
    ensures NewestToOldest(SkipTake(s, skip, limit))
    ensures forall p :: p in SkipTake(s, skip, limit) ==> p in s
  {
    var r := SkipTake(s, skip, limit);
    SkipTakeWindow(s, skip, limit);
    var rest := if skip <= |s| then |s| - skip else 0;
    var first := if limit >= 0 then skip else if -limit >= rest then 0 else rest + limit;
    if r != [] {
      RunOfNewest(r, s, first);
    }
  }

  /** Rows found at consecutive positions of a newest-first list are newest first and rows of that list. */
  lemma RunOfNewest(rows: seq<Payment>, all: seq<Payment>, first: nat)
    requires NewestToOldest(all) && first + |rows| <= |all|
    requires forall i :: 0 <= i < |rows| ==> rows[i] == all[first + i]
    ensures NewestToOldest(rows)
    ensures forall p :: p in rows ==> p in all
  {
    forall i, j | 0 <= i < j < |rows|
      ensures rows[i].createdAt > rows[j].createdAt
    {
      assert rows[i] == all[first + i] && rows[j] == all[first + j];
    }
    forall p | p in rows
      ensures p in all
    {
      var i :| 0 <= i < |rows| && rows[i] == p;
      assert rows[i] == all[first + i];
    }
  }

  /** A slice of a newest-first list is newest first and holds only rows of the list. */
  lemma SliceOfNewest(s: seq<Payment>, from: nat, to: nat)
    requires NewestToOldest(s) && from <= to <= |s|
    ensures NewestToOldest(s[from..to])
    ensures forall p :: p in s[from..to] ==> p in s
  {
    var r := s[from..to];
    forall i, j | 0 <= i < j < |r|
      ensures r[i].createdAt > r[j].createdAt
    {
      assert r[i] == s[from + i] && r[j] == s[from + j];
    }
  }

  /**
   * `rows` is what `skip` and `take: limit` leave of `all`: with a
   * non-negative `limit` the (at most) `limit` rows from position `skip`
   * on, with a negative one the (at most) `-limit` rows that end `skip`
   * rows before the end.
   */
  ghost predicate IsWindow(rows: seq<Payment>, all: seq<Payment>, skip: nat, limit: int) {
    var rest := if skip <= |all| then |all| - skip else 0;
    var first := if limit >= 0 then skip else if -limit >= rest then 0 else rest + limit;
    && |rows| == (if limit >= 0 then Min(limit, rest) else Min(-limit, rest))
    && (|rows| == 0 || first + |rows| <= |all|)
    && forall i :: 0 <= i < |rows| ==> rows[i] == all[first + i]
  }

  /** `skip` and `take` leave a window of the rows. */
  lemma SkipTakeWindow(all: seq<Payment>, skip: nat, limit: int)
    ensures IsWindow(SkipTake(all, skip, limit), all, skip, limit)
  {
    var rows := SkipTake(all, skip, limit);
    if limit < 0 {
      var rest := if skip <= |all| then |all| - skip else 0;
      var before := all[..rest];
      var start := if -limit >= rest then 0 else rest + limit;
      assert rows == before[start..];
      forall i | 0 <= i < |rows|
        ensures rows[i] == all[start + i]
      {
        assert rows[i] == before[start + i];
      }
    }
  }

  /**
   * A page of the user's rows newest first holds only the user's rows,
   * strictly newest first: with a positive `limit` the (at most) `limit`
   * rows from position `skip` on, with a negative one the (at most)
   * `-limit` rows ending `skip` rows before the oldest; and a page from 1
   * up is empty exactly when it lies past the page count.
   */
  lemma PageOfNewest(payments: seq<Payment>, userId: string, skip: nat, limit: int, page: int)
    requires CreatedInOrder(payments)
    requires skip == (page - 1) * limit
    ensures var total := |Filter(payments, IsOwnedBy(userId))|;
      var rows := SkipTake(NewestFirst(payments, userId), skip, limit);
      && (forall p :: p in rows ==> p in payments && p.userId == userId)
      && NewestToOldest(rows)
      && (limit > 0 ==> |rows| <= limit)
      && (limit > 0 && page >= 1 ==> (|rows| > 0 <==> page <= TotalPages(total, limit)))
    ensures IsWindow(SkipTake(NewestFirst(payments, userId), skip, limit), NewestFirst(payments, userId), skip, limit)
  {
    var mine := Filter(payments, IsOwnedBy(userId));
    SkipTakeWindow(NewestFirst(payments, userId), skip, limit);
    FilterIncreasing(payments, IsOwnedBy(userId), CreatedAt);
    ReverseOfOrdered(mine);
    WindowOfNewest(NewestFirst(payments, userId), skip, limit);
    if limit > 0 && page >= 1 {
      PageStartsInsideRows(|mine|, limit, page);
    }
  }

  /**
   * The payment history: the user's rows newest first, cut by `skip` and
   * `take: limit` as `SkipTake` reads them, with the page count. The
   * database refuses a negative `skip`, which a page number below 1
   * produces with a positive limit.
   */
  function History(payments: seq<Payment>, userId: string, pageText: string, limitText: string): (r: HistoryReply)
    requires CreatedInOrder(payments)
    ensures r.HistoryFailed? <==> WindowOf(pageText, limitText, 20, 50).skip < 0
    ensures r.HistoryPage? ==>
      var w := WindowOf(pageText, limitText, 20, 50);
      w.skip >= 0 && IsWindow(r.payments, NewestFirst(payments, userId), w.skip, w.limit)
    ensures r.HistoryPage? ==>
      && r.limit <= 50
      && r.total == |Filter(payments, IsOwnedBy(userId))|
      && (forall p :: p in r.payments ==> p in payments && p.userId == userId)
      && NewestToOldest(r.payments)
      && (r.limit > 0 ==> |r.payments| <= r.limit)
      && (r.limit > 0 && r.page >= 1 ==> (|r.payments| > 0 <==> r.page <= r.totalPages))
    ensures r.HistoryPage? ==>
      var w := WindowOf(pageText, limitText, 20, 50);
      && r.page == w.page && r.limit == w.limit
      && r.totalPages == TotalPages(r.total, r.limit)
  {
    var w := WindowOf(pageText, limitText, 20, 50);
    if w.skip < 0 then HistoryFailed
    else
      var total := |Filter(payments, IsOwnedBy(userId))|;
      PageOfNewest(payments, userId, w.skip, w.limit, w.page);
      HistoryPage(SkipTake(NewestFirst(payments, userId), w.skip, w.limit), w.page, w.limit, total, TotalPages(total, w.limit))
  }

  /** The totals and the latest completed payment the summary route reports. */
  datatype BillingSummary = BillingSummary(
    currentCredits: int,
    totalSpentCents: int,
    totalCreditsEarned: int,
    lastPayment: Option<Payment>)

  function IsCompletedOf(userId: string): Payment -> bool {
    (p: Payment) => p.userId == userId && p.status == Completed
  }

  /**
   * The billing summary: the user's credits (0 for a user the database
   * does not hold), the cents and credits of their completed payments, and
   * their most recent completed payment.
   */
  function Summary(b: Books, userId: string): (r: BillingSummary)
    requires CreatedInOrder(b.payments)
    ensures r.currentCredits == BalanceOf<UsageRecord>(Ledger(b.credits, []), userId)
    ensures r.totalSpentCents == CompletedSum(b.payments, userId, Amount)
    ensures r.totalCreditsEarned == CompletedSum(b.payments, userId, Granted)
    ensures r.lastPayment.None? <==> forall p :: p in b.payments ==> !(p.userId == userId && p.status == Completed)
    ensures r.lastPayment.Some? ==>
      && r.lastPayment.value in b.payments
      && r.lastPayment.value.userId == userId && r.lastPayment.value.status == Completed
      && forall p :: p in b.payments && p.userId == userId && p.status == Completed ==> p.createdAt <= r.lastPayment.value.createdAt
  {
    var last := Find(Reverse(b.payments), IsCompletedOf(userId));
    LatestCompleted(b.payments, userId);
    BillingSummary(BalanceOf<UsageRecord>(Ledger(b.credits, []), userId), CompletedSum(b.payments, userId, Amount),
                   CompletedSum(b.payments, userId, Granted), last)
  }

  /** The first completed row of the user's, scanning newest first, is their latest completed row. */
  lemma LatestCompleted(payments: seq<Payment>, userId: string)
    requires CreatedInOrder(payments)
    ensures var last := Find(Reverse(payments), IsCompletedOf(userId));
      && (last.None? <==> forall p :: p in payments ==> !(p.userId == userId && p.status == Completed))
      && (last.Some? ==>
            && last.value in payments
            && last.value.userId == userId && last.value.status == Completed
            && forall p :: p in payments && p.userId == userId && p.status == Completed ==> p.createdAt <= last.value.createdAt)
  {
    var newest := Reverse(payments);
    var last := Find(newest, IsCompletedOf(userId));
    if last.Some? {
      var k :| 0 <= k < |newest| && newest[k] == last.value && IsCompletedOf(userId)(newest[k])
        && forall j :: 0 <= j < k ==> !IsCompletedOf(userId)(newest[j]);
      assert payments[|payments| - 1 - k] == last.value;
      forall p | p in payments && p.userId == userId && p.status == Completed
        ensures p.createdAt <= last.value.createdAt
      {
        var m :| 0 <= m < |payments| && payments[m] == p;
        NotBeforeFirstFound(payments, userId, k, m);
      }
    } else {
      forall p | p in payments ensures !(p.userId == userId && p.status == Completed) {
        var m :| 0 <= m < |payments| && payments[m] == p;
        assert newest[|payments| - 1 - m] == p;
        assert !IsCompletedOf(userId)(newest[|payments| - 1 - m]);
      }
    }
  }

  /**
   * A completed row of the user's at position `m` lies no later than the
   * first one found scanning newest first, `k` rows from the end.
   */
  lemma NotBeforeFirstFound(payments: seq<Payment>, userId: string, k: nat, m: nat)
    requires CreatedInOrder(payments) && k < |payments| && m < |payments|
    requires forall j :: 0 <= j < k ==> !IsCompletedOf(userId)(Reverse(payments)[j])
    requires payments[m].userId == userId && payments[m].status == Completed
    ensures payments[m].createdAt <= payments[|payments| - 1 - k].createdAt
  {
    NoMatchInReversedPrefix(payments, IsCompletedOf(userId), k, m);
    IncreasingNotAfter(payments, CreatedAt, m, |payments| - 1 - k);
  }

  /** The reply of the custom-price route. */
  datatype PriceReply = PriceInvalid | PriceQuote(credits: int, price: int, recommendedTier: PricingTier)

  /**
   * The custom-price route. As written it passes the requested credits to
   * `calculateCreditsForPrice` as if they were a price in cents, and to
   * `getRecommendedTier` as the monthly usage.
   */
  method CalculatePrice(credits: int) returns (r: PriceReply)
    ensures credits < MinimumCredits <==> r == PriceInvalid
    ensures r.PriceQuote? ==>
      && r.credits == credits
      && r.price == CalculateCreditsForPrice(credits)
      && r.recommendedTier in PricingTiers
      && (r.recommendedTier.credits as real >= credits as real * 1.2 ==>
            forall t :: t in PricingTiers && t.credits < r.recommendedTier.credits ==> (t.credits as real) < credits as real * 1.2)
      && (r.recommendedTier.credits as real < credits as real * 1.2 ==>
            && r.recommendedTier == PricingTiers[|PricingTiers| - 1]
            && forall t :: t in PricingTiers ==> (t.credits as real) < credits as real * 1.2)
  {
    if credits < MinimumCredits {
      return PriceInvalid;
    }
    var price := CalculateCreditsForPrice(credits);
    var tier := GetRecommendedTier(credits as real);
    r := PriceQuote(credits, price, tier);
  }

  /** As written, asking the price of 4500 credits quotes 5000: 4500 is the Pro tier's price in cents. */
  lemma PriceOfCreditsReadsAsCents()
    ensures CalculateCreditsForPrice(4500) == 5000
  {
    assert PricingTiers[1].price == 4500;
  }

  /**
   * The payment table as the database keeps it: one row per Stripe intent,
   * rows in creation order, every row created before the clock's reading.
   */
  ghost predicate WellKept(payments: seq<Payment>, clock: nat) {
    && (forall i, j :: 0 <= i < j < |payments| ==> payments[i].stripePaymentId != payments[j].stripePaymentId)
    && CreatedInOrder(payments)
    && (forall i :: 0 <= i < |payments| ==> payments[i].createdAt < clock)
  }

  /** Inserting a row for a new intent, stamped with the clock, keeps the table well kept once the clock advances. */
  lemma InsertKeepsWellKept(payments: seq<Payment>, clock: nat, row: Payment)
    requires WellKept(payments, clock)
    requires RecordOf(payments, row.stripePaymentId).None? && row.createdAt == clock
    ensures WellKept(payments + [row], clock + 1)
  {
    var s := payments + [row];
    assert forall i :: 0 <= i < |payments| ==> s[i] == payments[i];
  }

  /**
   * The payment routes over the payment table and the user credits held
   * by the credit service. `clock` stands for the database's id and
   * timestamp source; every new row takes the current reading and
   * advances it.
   */
  class BillingRoutes {
    const users: CreditService
    var payments: seq<Payment>
    var clock: nat

    ghost predicate Valid()
      reads this
    {
      WellKept(payments, clock)
    }

    function Snapshot(): (b: Books)
      reads this, users
      ensures b.credits == users.credits && b.payments == payments
    {
      Books(users.credits, payments)
    }

    constructor (users: CreditService, now: nat)
      ensures Valid() && this.users == users && payments == [] && clock == now
    {
      this.users := users;
      payments := [];
      clock := now;
    }

    /**
     * Creates a payment intent and records it as PENDING. `stripeIntentId`
     * is the id Stripe assigns (`None` when creating the intent throws); a
     * row for that id already present violates the table's uniqueness and
     * the insert throws. The row grants the requested credits, whether or
     * not a tier was named.
     */
    method CreatePaymentIntent(userId: string, credits: int, tier: Option<string>, stripeIntentId: Option<string>)
      returns (reply: IntentReply)
      requires Valid()
      modifies this
      ensures Valid()
      ensures credits < MinimumCredits ==> reply == InvalidInput
      ensures credits >= MinimumCredits && QuoteFor(credits, tier).None? ==> reply == InvalidTier
      ensures credits >= MinimumCredits && QuoteFor(credits, tier).Some? ==>
        (reply.IntentCreated? <==> stripeIntentId.Some? && RecordOf(old(payments), stripeIntentId.value).None?)
      ensures !reply.IntentCreated? ==> payments == old(payments) && clock == old(clock)
      ensures reply.IntentCreated? ==>
        var q := QuoteFor(credits, tier).value;
        && reply == IntentCreated(q.amount, credits, q.description)
        && payments == old(payments) + [Payment(MakeId("pay_", old(clock)), userId, stripeIntentId.value, q.amount,
                                                credits, Pending, tier, q.description, old(clock))]
        && clock == old(clock) + 1
    {
      if credits < MinimumCredits {
        return InvalidInput;
      }
      var quote := QuoteFor(credits, tier);
      if quote.None? {
        return InvalidTier;
      }
      if stripeIntentId.None? || RecordOf(payments, stripeIntentId.value).Some? {
        return IntentFailed;
      }
      var row := Payment(MakeId("pay_", clock), userId, stripeIntentId.value, quote.value.amount, credits,
                         Pending, tier, quote.value.description, clock);
      InsertKeepsWellKept(payments, clock, row);
      payments := payments + [row];
      clock := clock + 1;
      reply := IntentCreated(quote.value.amount, credits, quote.value.description);
    }

    /** The confirm-payment route; see `Confirm`. */
    method ConfirmPayment(userId: string, intentId: string, intent: Option<IntentInfo>) returns (reply: ConfirmReply)
      requires Valid()
      modifies this, users
      ensures Valid()
      ensures (Snapshot(), reply) == Confirm(old(Snapshot()), userId, intentId, intent)
      ensures users.usage == old(users.usage) && clock == old(clock)
    {
      if intent.None? {
        return ConfirmFailed;
      }
      if intent.value.ownerId != userId {
        return NotOwner;
      }
      if intent.value.status != "succeeded" {
        return NotSucceeded;
      }
      var found := RecordOf(payments, intentId);
      if found.None? {
        return RecordNotFound;
      }
      var payment := payments[found.value];
      if payment.status == Completed {
        return AlreadyProcessed;
      }
      if userId !in users.credits {
        return ConfirmFailed;
      }
      payments := SetStatus(payments, found.value, Completed);
      users.credits := users.credits[userId := users.credits[userId] + payment.creditsGranted];
      reply := Confirmed(payment.creditsGranted, users.GetUserCredits(userId));
    }

    /** `handlePaymentSucceeded`; see `Succeed`. */
    method HandlePaymentSucceeded(intentId: string)
      requires Valid()
      modifies this, users
      ensures Valid()
      ensures Snapshot() == Succeed(old(Snapshot()), intentId)
      ensures users.usage == old(users.usage) && clock == old(clock)
    {
      var found := RecordOf(payments, intentId);
      if found.None? {
        return;
      }
      var payment := payments[found.value];
      if payment.status == Completed || payment.userId !in users.credits {
        return;
      }
      payments := SetStatus(payments, found.value, Completed);
      users.credits := users.credits[payment.userId := users.credits[payment.userId] + payment.creditsGranted];
    }

    /** `handlePaymentFailed`; see `Fail`. */
    method HandlePaymentFailed(intentId: string)
      requires Valid()
      modifies this
      ensures Valid()
      ensures Snapshot() == Fail(old(Snapshot()), intentId)
      ensures clock == old(clock)
    {
      var found := RecordOf(payments, intentId);
      if found.Some? {
        payments := SetStatus(payments, found.value, Failed);
      }
    }

    /** The webhook route; see `Webhook`. */
    method HandleWebhook(signatureValid: bool, event: WebhookEvent) returns (reply: WebhookReply)
      requires Valid()
      modifies this, users
      ensures Valid()
      ensures (Snapshot(), reply) == Webhook(old(Snapshot()), signatureValid, event)
      ensures users.usage == old(users.usage) && clock == old(clock)
    {
      if !signatureValid {
        return SignatureRejected;
      }
      if event.kind == "payment_intent.succeeded" {
        HandlePaymentSucceeded(event.intentId);
      } else if event.kind == "payment_intent.payment_failed" {
        HandlePaymentFailed(event.intentId);
      }
      reply := Received;
    }

    /** The payment-history route; see `History`. */
    function GetPayments(userId: string, pageText: string, limitText: string): (r: HistoryReply)
      reads this
      requires Valid()
      ensures r == History(payments, userId, pageText, limitText)
    {
      History(payments, userId, pageText, limitText)
    }

    /** `findFirst({ where: { id, userId } })`: a payment of the caller's, by id. */
    function GetPayment(paymentId: string, userId: string): (r: Option<Payment>)
      reads this
      ensures r.None? <==> forall p :: p in payments ==> p.id != paymentId || p.userId != userId
      ensures r.Some? ==> r.value in payments && r.value.id == paymentId && r.value.userId == userId
    {
      Find(payments, (p: Payment) => p.id == paymentId && p.userId == userId)
    }

    /** The billing-summary route; see `Summary`. */
    function GetSummary(userId: string): (r: BillingSummary)
      reads this, users
      requires Valid()
      ensures r == Summary(Snapshot(), userId)
    {
      Summary(Snapshot(), userId)
    }
  }
}
