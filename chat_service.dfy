/**
 * The production conversation store and the stand-in reply generator.
 * Conversations and messages live in the relational store; a user sees
 * only their own conversations.
 */
module ChatService {
  import opened Wrappers
  import opened Numeric
  import opened Text
  import opened Collections
  import opened Records
  import opened PrismaStore

  /** A generated reply and the tokens charged for it. */
  datatype Reply = Reply(content: string, tokens: int)

  const EchoPrefix: string := "AI Response to: \""
  const EchoSuffix: string := "\". This is a simulated response for demonstration."

  /** `Math.floor(content.length / 4)`: one token per four UTF-16 code units, rounded down. */
  function ReplyTokens(content: string): (t: int)
    ensures 4 * t <= Utf16Length(content) < 4 * t + 4
    ensures t == Utf16Length(content) / 4
  {
    FloorQuarter(Utf16Length(content));
    Floor(Utf16Length(content) as real / 4.0)
  }

  /** The text before the quoted message holds no astral character. */
  lemma EchoPrefixLength()
    ensures Utf16Length(EchoPrefix) == 17
  {
    Utf16LengthOfBasic(EchoPrefix);
  }

  /** Nor does the text after it. */
  lemma EchoSuffixLength()
    ensures Utf16Length(EchoSuffix) == 50
  {
    var a, b := "\". This is a simulated re", "sponse for demonstration.";
    assert EchoSuffix == a + b;
    Utf16LengthOfBasic(a);
    Utf16LengthOfBasic(b);
    Utf16LengthAppend(a, b);
  }

  /**
   * The echo reply: the user's message quoted inside a fixed sentence of
   * 67 code units, charged at one token per four code units, rounded down.
   */
  function GenerateResponse(userMessage: string): (r: Reply)
    ensures |r.content| == |userMessage| + 67
    ensures r.content[..17] == EchoPrefix && r.content[17..17 + |userMessage|] == userMessage
    ensures r.content[17 + |userMessage|..] == EchoSuffix
    ensures Utf16Length(r.content) == Utf16Length(userMessage) + 67
    ensures r.tokens == (Utf16Length(userMessage) + 67) / 4
  {
    var content := EchoPrefix + userMessage + EchoSuffix;
    assert content[17..17 + |userMessage|] == userMessage;
    Utf16LengthAppend(EchoPrefix + userMessage, EchoSuffix);
    Utf16LengthAppend(EchoPrefix, userMessage);
    EchoPrefixLength();
    EchoSuffixLength();
    Reply(content, ReplyTokens(content))
  }

  /** `Math.ceil(text.length / 4)`: one token per four UTF-16 code units, rounded up. */
  function EstimateTokens(text: string): (r: int)
    ensures r >= 0
    ensures 4 * r >= Utf16Length(text) && 4 * (r - 1) < Utf16Length(text)
  {
    CeilQuarter(Utf16Length(text));
    Ceil(Utf16Length(text) as real / 4.0)
  }

  /**
   * A reply's charge and the estimate of its text agree to within one
   * token: the charge rounds down where the estimate rounds up.
   */
  lemma ChargeWithinEstimate(content: string)
    ensures ReplyTokens(content) <= EstimateTokens(content) <= ReplyTokens(content) + 1
  {
  }

  class ChatService {
    const store: PrismaStore

    constructor (store: PrismaStore)
      ensures this.store == store
    {
      this.store := store;
    }

    method CreateConversation(userId: string, title: Option<string>) returns (c: Conversation)
      requires store.Valid()
      modifies store
      ensures store.Valid()
      ensures c.userId == userId && c.title == ConversationTitle(title) && c.createdAt == old(store.clock)
      ensures store.conversations == old(store.conversations) + [c]
      ensures GetConversation(c.id, userId) == Some(c)
      ensures store.LedgerView() == old(store.LedgerView()) && store.messages == old(store.messages)
    {
      c := store.InsertConversation(userId, ConversationTitle(title));
      assert forall d :: d in store.conversations && d.id == c.id ==> d == c;
    }

    method AddMessage(conversationId: string, role: Role, content: string, tokens: Option<int>) returns (m: Message)
      requires store.Valid()
      modifies store
      ensures store.Valid()
      ensures m.conversationId == conversationId && m.role == role && m.content == content && m.tokens == tokens
      ensures store.messages == old(store.messages) + [m] && m.createdAt == old(store.clock)
      ensures store.LedgerView() == old(store.LedgerView()) && store.conversations == old(store.conversations)
    {
      m := store.InsertMessage(conversationId, role, content, tokens);
    }

    /** The conversation with this id, only when `userId` owns it. */
    function GetConversation(conversationId: string, userId: string): (r: Option<Conversation>)
      reads store
      ensures r.None? <==> forall c :: c in store.conversations ==> c.id != conversationId || c.userId != userId
      ensures r.Some? ==> r.value in store.conversations && r.value.id == conversationId && r.value.userId == userId
    {
      Find(store.conversations, (c: Conversation) => c.id == conversationId && c.userId == userId)
    }

    /** The conversation's messages, oldest first; nothing unless `userId` owns the conversation. */
    function GetMessages(conversationId: string, userId: string): (r: seq<Message>)
      reads store
      requires store.Valid()
      ensures GetConversation(conversationId, userId).None? ==> r == []
      ensures GetConversation(conversationId, userId).Some? ==>
        forall m :: m in r <==> m in store.messages && m.conversationId == conversationId
      ensures forall i, j :: 0 <= i < j < |r| ==> r[i].createdAt < r[j].createdAt
    {
      if GetConversation(conversationId, userId).None? then []
      else
        var keep := (m: Message) => m.conversationId == conversationId;
        FilterIncreasing(store.messages, keep, MessageTime);
        Filter(store.messages, keep)
    }

    /** The user's conversations, most recently updated first. */
    function GetUserConversations(userId: string): (r: seq<Conversation>)
      reads store
      requires store.Valid()
      ensures forall c :: c in r <==> c in store.conversations && c.userId == userId
      ensures forall i, j :: 0 <= i < j < |r| ==> r[i].updatedAt > r[j].updatedAt
    {
      var keep := (c: Conversation) => c.userId == userId;
      NewestFirstDecreasing(store.conversations, keep, ConversationTime);
      NewestFirst(store.conversations, keep)
    }
  }
}
