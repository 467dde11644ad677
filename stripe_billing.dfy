/**
 * The token-package billing routes of the TypeScript server: listing the
 * active packages, opening a Stripe checkout session for one, crediting
 * the tokens when Stripe reports the session completed, and reading the
 * balance and usage history. The package table is a parameter; Stripe's
 * answers (whether a session could be created, whether a signature checks
 * out) are inputs.
 */
module StripeBilling {
  import opened Wrappers
  import opened Text
  import opened Collections
  import opened Records
  import opened Ledger
  import opened PrismaStore
  import opened UsageService
  import opened Paging

  function PackageTokens(p: Package): int {
    p.tokens
  }

  /** `findMany({ where: { active: true }, orderBy: { tokens: 'asc' } })`. */
  function ActivePackages(packages: seq<Package>): (r: seq<Package>)
    ensures SortedBy(r, PackageTokens)
    ensures forall p :: p in r <==> p in packages && p.active
    ensures multiset(r) == multiset(Filter(packages, (p: Package) => p.active))
  {
    var active := Filter(packages, (p: Package) => p.active);
    var sorted := SortBy(active, PackageTokens);
    assert forall p :: p in sorted <==> p in multiset(sorted);
    sorted
  }

  function ActiveWithId(packageId: string): Package -> bool {
    (p: Package) => p.id == packageId && p.active
  }

  datatype CheckoutReply =
    | MissingPackageId
    | PackageNotFound
    | SessionCreated(metadata: map<string, string>)
    | CheckoutFailed

  /**
   * The checkout route. A missing or empty package id is refused, so is an
   * id with no active package; `stripeFails` stands for Stripe refusing
   * the session. The session carries the buyer, the package and its
   * tokens as text in its metadata; the route itself changes nothing.
   */
  function Checkout(packages: seq<Package>, userId: string, packageId: Option<string>, stripeFails: bool): (r: CheckoutReply)
    ensures packageId.None? || packageId.value == "" <==> r == MissingPackageId
    ensures r == PackageNotFound <==>
      packageId.Some? && packageId.value != "" && forall p :: p in packages ==> !(p.id == packageId.value && p.active)
    ensures r.SessionCreated? ==> !stripeFails && exists p :: (p in packages && p.id == packageId.value && p.active &&
      r.metadata == map["userId" := userId, "packageId" := p.id, "tokens" := IntToString(p.tokens)])
  {
    if packageId.None? || packageId.value == "" then MissingPackageId
    else match Find(packages, ActiveWithId(packageId.value))
      case None => PackageNotFound
      case Some(p) =>
        if stripeFails then CheckoutFailed
        else SessionCreated(map["userId" := userId, "packageId" := p.id, "tokens" := IntToString(p.tokens)])
  }

  /** A verified Stripe event: its type and the session metadata it carries, if any. */
  datatype StripeEvent = StripeEvent(kind: string, metadata: Option<map<string, string>>)

  /** A metadata entry that is present and not the empty text. */
  predicate HasText(metadata: map<string, string>, key: string) {
    key in metadata && metadata[key] != ""
  }

  /**
   * The credit a verified event asks for: a completed checkout session
   * whose metadata names a user and a token count, the count read with
   * `parseInt`. A count `parseInt` cannot read is NaN, which the database
   * refuses, so it asks for nothing.
   */
  function RequestedCredit(e: StripeEvent): (r: Option<(string, int)>)
    ensures r.Some? <==>
      && e.kind == "checkout.session.completed" && e.metadata.Some?
      && HasText(e.metadata.value, "userId") && HasText(e.metadata.value, "tokens")
      && ParseInt(e.metadata.value["tokens"]).Some?
    ensures r.Some? ==> r.value == (e.metadata.value["userId"], ParseInt(e.metadata.value["tokens"]).value)
  {
    if e.kind == "checkout.session.completed" && e.metadata.Some?
      && HasText(e.metadata.value, "userId") && HasText(e.metadata.value, "tokens")
    then
      match ParseInt(e.metadata.value["tokens"])
      case Some(n) => Some((e.metadata.value["userId"], n))
      case None => None
    else None
  }

  /**
   * What a verified event does to the token ledger: the requested credit
   * when the user exists and the database does not fail; otherwise
   * nothing (the failure is only logged).
   */
  function WebhookEffect(l: Ledger<UsageEvent>, e: StripeEvent, fault: bool): (r: Ledger<UsageEvent>)
    ensures r.events == l.events
    ensures RequestedCredit(e).None? || fault || RequestedCredit(e).value.0 !in l.balances ==> r == l
    ensures RequestedCredit(e).Some? && !fault && RequestedCredit(e).value.0 in l.balances ==>
      r.balances == l.balances[RequestedCredit(e).value.0 := l.balances[RequestedCredit(e).value.0] + RequestedCredit(e).value.1]
  {
    match RequestedCredit(e)
    case Some((userId, tokens)) =>
      if fault || userId !in l.balances then l else Credit(l, userId, tokens)
    case None => l
  }

  datatype WebhookReply = SecretMissing | InvalidSignature | Received

  /**
   * The Stripe webhook. Without a configured secret, or with a signature
   * that does not verify, it is refused with nothing changed; otherwise it
   * is acknowledged and its credit, if any, applied.
   */
  method HandleWebhook(usage: UsageService, secretConfigured: bool, signatureValid: bool, e: StripeEvent, fault: bool)
    returns (reply: WebhookReply)
    requires usage.store.Valid()
    modifies usage.store
    ensures usage.store.Valid()
    ensures !secretConfigured ==> reply == SecretMissing
    ensures secretConfigured && !signatureValid ==> reply == InvalidSignature
    ensures secretConfigured && signatureValid <==> reply == Received
    ensures reply != Received ==> usage.store.LedgerView() == old(usage.store.LedgerView())
    ensures reply == Received ==> usage.store.LedgerView() == WebhookEffect(old(usage.store.LedgerView()), e, fault)
  {
    if !secretConfigured {
      return SecretMissing;
    }
    if !signatureValid {
      return InvalidSignature;
    }
    var credit := RequestedCredit(e);
    if credit.Some? {
      var _ := usage.AddTokens(credit.value.0, credit.value.1, fault);
    }
    reply := Received;
  }

  /**
   * The session a checkout opens, once Stripe reports it completed, asks
   * for exactly the package's tokens for the buyer, unless the buyer's id
   * is the empty text.
   */
  lemma CheckoutThenWebhook(packages: seq<Package>, userId: string, packageId: string)
    requires Checkout(packages, userId, Some(packageId), false).SessionCreated?
    ensures var metadata := Checkout(packages, userId, Some(packageId), false).metadata;
      var credit := RequestedCredit(StripeEvent("checkout.session.completed", Some(metadata)));
      && (userId == "" ==> credit.None?)
      && (userId != "" ==> exists p :: p in packages && p.id == packageId && p.active && credit == Some((userId, p.tokens)))
  {
    var p := Find(packages, ActiveWithId(packageId)).value;
    var metadata := map["userId" := userId, "packageId" := p.id, "tokens" := IntToString(p.tokens)];
    assert Checkout(packages, userId, Some(packageId), false) == SessionCreated(metadata);
    assert metadata["tokens"] == IntToString(p.tokens) && metadata["userId"] == userId;
    ParseIntOfIntToString(p.tokens);
  }

  /**
   * The webhook keeps no record of the sessions it has credited: Stripe
   * redelivering a completed event credits the tokens again.
   */
  lemma RedeliveryCreditsAgain(l: Ledger<UsageEvent>, e: StripeEvent)
    requires RequestedCredit(e).Some? && RequestedCredit(e).value.0 in l.balances
    ensures var u := RequestedCredit(e).value.0;
      WebhookEffect(WebhookEffect(l, e, false), e, false).balances[u] == l.balances[u] + 2 * RequestedCredit(e).value.1
  {
  }

  /** The usage route: `parseInt(limit) || 50` rows of the caller's usage history, newest first. */
  function UsageLimit(limitText: string): (limit: int)
    ensures ParseInt(limitText).None? || ParseInt(limitText).value == 0 ==> limit == 50
    ensures ParseInt(limitText).Some? && ParseInt(limitText).value != 0 ==> limit == ParseInt(limitText).value
  {
    ParsedOr(limitText, 50)
  }
}
