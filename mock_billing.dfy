/**
 * The billing routes of the demo server. Its checkout does not involve a
 * payment provider: it credits the package's tokens straight away.
 */
module MockBilling {
  import opened Wrappers
  import opened Text
  import opened Records
  import opened Ledger
  import opened MockDatabase
  import opened MockUsageService

  datatype MockCheckoutReply =
    | MissingPackageId
    | PackageNotFound
    | Credited(url: string, message: string)
    | AddFailed

  const DemoSuccessUrl: string := "/billing?success=true&demo=true"

  /** The confirmation the demo checkout shows for a package of `tokens`. */
  function CreditMessage(tokens: int): (m: string)
    ensures StartsWith(m, "Successfully added ")
  {
    "Successfully added " + IntToString(tokens) + " tokens to your account!"
  }

  /**
   * The demo checkout. A missing or empty package id is refused, so is an
   * id the store does not hold; an inactive package is still sold. The
   * package's tokens are credited at once to the caller, and an unknown
   * caller gets a failure with nothing changed.
   */
  method Checkout(usage: MockUsageService, userId: string, packageId: Option<string>) returns (reply: MockCheckoutReply)
    requires usage.db.Valid()
    modifies usage.db
    ensures usage.db.Valid()
    ensures packageId.None? || packageId.value == "" <==> reply == MissingPackageId
    ensures reply == PackageNotFound <==>
      packageId.Some? && packageId.value != "" && packageId.value !in old(usage.db.packages.entries)
    ensures reply.Credited? || reply == AddFailed ==> packageId.Some? && packageId.value in old(usage.db.packages.entries)
    ensures reply == AddFailed <==>
      && packageId.Some? && packageId.value != "" && packageId.value in old(usage.db.packages.entries)
      && userId !in old(usage.db.Balances())
    ensures !reply.Credited? ==> usage.db.LedgerView() == old(usage.db.LedgerView())
    ensures reply.Credited? ==>
      var tokens := old(usage.db.packages.entries)[packageId.value].tokens;
      && reply == Credited(DemoSuccessUrl, CreditMessage(tokens))
      && usage.db.LedgerView() == Credit(old(usage.db.LedgerView()), userId, tokens)
      && usage.GetUserBalance(userId) == old(usage.db.Balances())[userId] + tokens
  {
    if packageId.None? || packageId.value == "" {
      return MissingPackageId;
    }
    var package := usage.db.FindPackage(packageId.value);
    if package.None? {
      return PackageNotFound;
    }
    var result := usage.AddTokens(userId, package.value.tokens);
    if result.success {
      reply := Credited(DemoSuccessUrl, CreditMessage(package.value.tokens));
    } else {
      reply := AddFailed;
    }
  }
}
