/**
 * The records the token-balance services store: users, conversations,
 * messages, usage events and token packages. Timestamps are readings of
 * a clock counted in whole ticks.
 */
module Records {
  import opened Wrappers

  datatype User = User(id: string, email: string, password: string, balance: int, createdAt: nat, updatedAt: nat)

  datatype Conversation = Conversation(id: string, userId: string, title: string, createdAt: nat, updatedAt: nat)

  datatype Role = UserRole | AssistantRole

  datatype Message = Message(id: string, conversationId: string, role: Role, content: string, tokens: Option<int>, createdAt: nat)

  /** `kind` is the event's `type` field: "chat" unless the caller says otherwise. */
  datatype UsageEvent = UsageEvent(
    id: string,
    userId: string,
    conversationId: Option<string>,
    tokensUsed: int,
    balanceAfter: int,
    kind: string,
    createdAt: nat)

  datatype Package = Package(
    id: string,
    name: string,
    description: string,
    tokens: int,
    priceUsd: int,
    stripePriceId: string,
    active: bool)

  /** What a debit or credit reports: the outcome, the balance to show, the event logged and the error. */
  datatype UsageResult = UsageResult(success: bool, balance: int, usageEvent: Option<UsageEvent>, error: Option<string>)

  function Failure(balance: int, error: string): (r: UsageResult)
    ensures !r.success && r.balance == balance && r.usageEvent.None? && r.error == Some(error)
  {
    UsageResult(false, balance, None, Some(error))
  }

  const DefaultEventKind: string := "chat"

  /** The user and amount a usage event charges. */
  function UsageCharge(e: UsageEvent): (string, int) {
    (e.userId, e.tokensUsed)
  }

  /** `title || 'New Conversation'`: a missing or empty title becomes the default. */
  function ConversationTitle(title: Option<string>): (t: string)
    ensures title.Some? && title.value != "" ==> t == title.value
    ensures title.None? || title.value == "" ==> t == "New Conversation"
    ensures t != ""
  {
    if title.Some? && title.value != "" then title.value else "New Conversation"
  }
}
