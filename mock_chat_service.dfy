/**
 * The demo conversation service over the in-memory store, and its reply
 * generator, which picks one of five canned sentences at random.
 */
module MockChatService {
  import opened Wrappers
  import opened Numeric
  import opened Text
  import opened Records
  import opened Collections
  import opened MockDatabase
  import opened ChatService

  /** The five canned replies, as the text before and after the quoted message. */
  const Openers: seq<string> := [
    "That's an interesting question about \"",
    "I understand you're asking about \"",
    "Thanks for your message about \"",
    "Regarding \"",
    "Your question about \""
  ]
  const Closers: seq<string> := [
    "\". Let me think about that and provide you with a helpful response.",
    "\". Here's what I can tell you based on my knowledge.",
    "\". I'd be happy to help you with that topic.",
    "\", there are several important points to consider. Let me break this down for you.",
    "\" touches on some fascinating concepts. Allow me to explain in detail."
  ]

  /** `t` holds `m` at offset `at`. */
  predicate Quotes(t: string, m: string, at: nat) {
    at + |m| <= |t| && t[at..at + |m|] == m
  }

  /** `Math.floor(random * 5)` for a draw from [0, 1). */
  function TemplateIndex(random: real): (k: nat)
    requires 0.0 <= random < 1.0
    ensures k < |Openers| && k as real <= random * 5.0 < k as real + 1.0
  {
    Floor(random * 5.0)
  }

  /**
   * The canned reply selected by `random`, a draw from [0, 1): template
   * number floor(random * 5) around the message, charged at one token per
   * four UTF-16 code units, rounded down.
   */
  function GenerateCannedResponse(userMessage: string, random: real): (r: Reply)
    requires 0.0 <= random < 1.0
    ensures var k := TemplateIndex(random);
      && |r.content| == |Openers[k]| + |userMessage| + |Closers[k]|
      && r.content[..|Openers[k]|] == Openers[k]
      && Quotes(r.content, userMessage, |Openers[k]|)
      && r.content[|Openers[k]| + |userMessage|..] == Closers[k]
    ensures var k := TemplateIndex(random);
      Utf16Length(r.content) == Utf16Length(Openers[k]) + Utf16Length(userMessage) + Utf16Length(Closers[k])
    ensures 4 * r.tokens <= Utf16Length(r.content) < 4 * r.tokens + 4
  {
    var k := TemplateIndex(random);
    var content := Openers[k] + userMessage + Closers[k];
    assert content[|Openers[k]|..|Openers[k]| + |userMessage|] == userMessage;
    Utf16LengthAppend(Openers[k] + userMessage, Closers[k]);
    Utf16LengthAppend(Openers[k], userMessage);
    Reply(content, ReplyTokens(content))
  }

  class MockChatService {
    const db: MockDatabase

    constructor (db: MockDatabase)
      ensures this.db == db
    {
      this.db := db;
    }

    method CreateConversation(userId: string, title: Option<string>) returns (c: Conversation)
      requires db.Valid()
      modifies db
      ensures db.Valid()
      ensures c.userId == userId && c.title == ConversationTitle(title)
      ensures GetConversation(c.id, userId) == Some(c)
      ensures db.conversations.Values() == old(db.conversations.Values()) + [c]
      ensures db.users == old(db.users) && db.messages == old(db.messages) && db.usageEvents == old(db.usageEvents)
    {
      c := db.CreateConversation(userId, title);
    }

    method AddMessage(conversationId: string, role: Role, content: string, tokens: Option<int>) returns (m: Message)
      requires db.Valid()
      modifies db
      ensures db.Valid()
      ensures m.conversationId == conversationId && m.role == role && m.content == content && m.tokens == tokens
      ensures db.messages.Values() == old(db.messages.Values()) + [m]
      ensures db.users == old(db.users) && db.conversations == old(db.conversations) && db.usageEvents == old(db.usageEvents)
    {
      m := db.CreateMessage(conversationId, role, content, tokens);
    }

    /** The conversation, only when `userId` owns it. */
    function GetConversation(conversationId: string, userId: string): (r: Option<Conversation>)
      reads db
      ensures r.Some? <==> conversationId in db.conversations.entries && db.conversations.entries[conversationId].userId == userId
      ensures r.Some? ==> r.value == db.conversations.entries[conversationId]
    {
      db.FindConversation(conversationId, userId)
    }

    /** The conversation's messages, oldest first; nothing unless `userId` owns the conversation. */
    function GetMessages(conversationId: string, userId: string): (r: seq<Message>)
      reads db
      requires db.Valid()
      ensures GetConversation(conversationId, userId).None? ==> r == []
      ensures GetConversation(conversationId, userId).Some? ==>
        forall m :: m in r <==> m in db.messages.Values() && m.conversationId == conversationId
      ensures GetConversation(conversationId, userId).Some? ==>
        multiset(r) == multiset(Filter(db.messages.Values(), IsMessageOf(conversationId)))
      ensures forall i, j :: 0 <= i < j < |r| ==> r[i].createdAt <= r[j].createdAt
    {
      if GetConversation(conversationId, userId).None? then [] else db.GetMessages(conversationId)
    }

    /** The user's conversations, most recently updated first. */
    function GetUserConversations(userId: string): (r: seq<Conversation>)
      reads db
      requires db.Valid()
      ensures forall c :: c in r <==> c in db.conversations.Values() && c.userId == userId
      ensures multiset(r) == multiset(Filter(db.conversations.Values(), IsConversationOf(userId)))
      ensures forall i, j :: 0 <= i < j < |r| ==> r[i].updatedAt >= r[j].updatedAt
    {
      db.GetUserConversations(userId)
    }
  }
}
