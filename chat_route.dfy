/**
 * The chat endpoint of the production server: it settles a chat turn
 * against the token balance and reports it as a sequence of server-sent
 * events (meta, answer, usage, done, error).
 */
module ChatRoute {
  import opened Wrappers
  import opened Text
  import opened Records
  import opened Ledger
  import opened PrismaStore
  import opened UsageService
  import opened ChatService

  datatype ChatEvent =
    | Meta(conversationId: string)
    | Answer(content: string, finished: bool)
    | Usage(conversationId: string, tokensUsed: int, balanceAfter: int)
    | Done(conversationId: string)
    | ErrorEvent(error: string, balance: Option<int>)

  datatype ChatReply = BadRequest | Events(events: seq<ChatEvent>)

  /** The answer events for a reply split into words: event `i` carries the first `i + 1` words. */
  function AnswerEvents(words: seq<string>, n: nat): (es: seq<ChatEvent>)
    requires n <= |words|
    ensures |es| == n
    ensures forall i :: 0 <= i < n ==> es[i] == Answer(Join(words[..i + 1], ' '), i == |words| - 1)
  {
    if n == 0 then [] else AnswerEvents(words, n - 1) + [Answer(Join(words[..n], ' '), n - 1 == |words| - 1)]
  }

  /**
   * The word-by-word answer stream: every event carries a growing prefix
   * of the reply, only the last is marked finished, and the last carries
   * the whole reply.
   */
  method StreamAnswer(content: string) returns (events: seq<ChatEvent>)
    ensures events == AnswerEvents(Split(content, ' '), |Split(content, ' ')|)
    ensures |events| >= 1 && events[|events| - 1] == Answer(content, true)
    ensures forall i :: 0 <= i < |events| - 1 ==> !events[i].finished
  {
    var words := Split(content, ' ');
    events := [];
    var i := 0;
    while i < |words|
      invariant 0 <= i <= |words|
      invariant events == AnswerEvents(words, i)
    {
      var chunk := Join(words[..i + 1], ' ');
      var isLast := i == |words| - 1;
      events := events + [Answer(chunk, isLast)];
      i := i + 1;
    }
    assert words[..|words|] == words;
    JoinSplit(content, ' ');
  }

  /** `userTokens + aiTokens`: the estimate of the message plus the charge of the reply. */
  function TurnTokens(message: string): (t: int)
    ensures t == EstimateTokens(message) + (Utf16Length(message) + 67) / 4
  {
    EstimateTokens(message) + GenerateResponse(message).tokens
  }

  /** What a stored message records, leaving out the id and time the store gives it. */
  datatype MessageEntry = MessageEntry(conversationId: string, role: Role, content: string, tokens: Option<int>)

  function EntryOf(m: Message): MessageEntry {
    MessageEntry(m.conversationId, m.role, m.content, m.tokens)
  }

  /** The user's message, stored with its estimate. */
  function UserEntry(cid: string, text: string): MessageEntry {
    MessageEntry(cid, UserRole, text, Some(EstimateTokens(text)))
  }

  /** The reply, stored with its charge. */
  function AssistantEntry(cid: string, text: string): MessageEntry {
    MessageEntry(cid, AssistantRole, GenerateResponse(text).content, Some(GenerateResponse(text).tokens))
  }

  /** `after` is `before` followed by messages recording `added`, in order. */
  ghost predicate Appended(before: seq<Message>, after: seq<Message>, added: seq<MessageEntry>) {
    && |after| == |before| + |added| && after[..|before|] == before
    && forall i :: 0 <= i < |added| ==> EntryOf(after[|before| + i]) == added[i]
  }

  /** Two appends in turn append both, in order. */
  lemma AppendedTwice(a: seq<Message>, b: seq<Message>, c: seq<Message>, x: MessageEntry, y: MessageEntry)
    requires Appended(a, b, [x]) && Appended(b, c, [y])
    ensures Appended(a, c, [x, y])
  {
    assert c[..|b|] == b;
    assert c[..|a|] == b[..|a|];
    assert c[|a|] == b[|a|];
    assert EntryOf(b[|a| + 0]) == [x][0];
    assert EntryOf(c[|b| + 0]) == [y][0];
    assert |b| == |a| + 1;
    forall i | 0 <= i < 2
      ensures EntryOf(c[|a| + i]) == [x, y][i]
    {
      if i == 0 {
        assert c[|a|] == b[|a| + 0];
      } else {
        assert c[|a| + 1] == c[|b| + 0];
      }
    }
  }

  /** Storing one message appends what it records. */
  lemma AppendedOne(before: seq<Message>, m: Message)
    ensures Appended(before, before + [m], [EntryOf(m)])
  {
    assert (before + [m])[..|before|] == before;
  }

  /**
   * Resolves the conversation of a turn: the one the request names, or a
   * new one announced by a meta event.
   */
  method OpenConversation(chat: ChatService, userId: string, conversationId: Option<string>)
    returns (cid: string, meta: seq<ChatEvent>)
    requires chat.store.Valid()
    modifies chat.store
    ensures chat.store.Valid()
    ensures conversationId.Some? && conversationId.value != "" ==> cid == conversationId.value && meta == []
    ensures conversationId.None? || conversationId.value == "" ==>
      meta == [Meta(cid)] && exists c :: c in chat.store.conversations && c.id == cid && c.userId == userId
    ensures chat.store.balances == old(chat.store.balances) && chat.store.events == old(chat.store.events) && chat.store.messages == old(chat.store.messages)
  {
    if conversationId.None? || conversationId.value == "" {
      var created := chat.CreateConversation(userId, None);
      cid := created.id;
      meta := [Meta(cid)];
    } else {
      cid := conversationId.value;
      meta := [];
    }
  }

  /** How the debit of a turn ended: refused with an error and the balance to show, or settled. */
  datatype Settlement = Refused(error: string, balance: int) | Settled(balanceAfter: int)

  /**
   * The debit of a turn in a conversation the user owns: store the
   * message, generate the reply, and debit the estimate of the message
   * plus the charge of the reply.
   */
  method SettleTurn(chat: ChatService, usage: UsageService, userId: string, text: string, cid: string, fault: bool)
    returns (s: Settlement, reply: Reply)
    requires chat.store == usage.store && chat.store.Valid()
    modifies chat.store
    ensures chat.store.Valid()
    ensures reply == GenerateResponse(text)
    ensures Appended(old(chat.store.messages), chat.store.messages, [UserEntry(cid, text)])
    ensures s.Refused? ==> chat.store.LedgerView() == old(chat.store.LedgerView())
    ensures s.Settled? ==>
      && DebitCheck(old(chat.store.LedgerView()), userId, TurnTokens(text)) == Debited(s.balanceAfter)
      && |chat.store.events| == |old(chat.store.events)| + 1
      && chat.store.LedgerView() == Debit(old(chat.store.LedgerView()), userId, TurnTokens(text), chat.store.events[|chat.store.events| - 1])
  {
    var userTokens := EstimateTokens(text);
    var stored := chat.AddMessage(cid, UserRole, text, Some(userTokens));
    AppendedOne(old(chat.store.messages), stored);
    reply := GenerateResponse(text);
    var usageResult := usage.ConsumeTokens(userId, userTokens + reply.tokens, Some(cid), DefaultEventKind, fault);
    if !usageResult.success {
      s := Refused(usageResult.error.GetOr("Failed to process request"), usageResult.balance);
    } else {
      s := Settled(usageResult.balance);
    }
  }

  /**
   * After the debit: stream the reply word by word, store it, then report
   * the usage and close the stream.
   */
  method Respond(chat: ChatService, cid: string, text: string, balance: int) returns (tail: seq<ChatEvent>)
    requires chat.store.Valid()
    modifies chat.store
    ensures chat.store.Valid() && chat.store.balances == old(chat.store.balances) && chat.store.events == old(chat.store.events)
    ensures Appended(old(chat.store.messages), chat.store.messages, [AssistantEntry(cid, text)])
    ensures var words := Split(GenerateResponse(text).content, ' ');
      tail == AnswerEvents(words, |words|) + [Usage(cid, TurnTokens(text), balance), Done(cid)]
    ensures |tail| >= 3 && tail[0].Answer? && tail[|tail| - 3] == Answer(GenerateResponse(text).content, true)
    ensures tail[|tail| - 2] == Usage(cid, TurnTokens(text), balance) && tail[|tail| - 1] == Done(cid)
  {
    var response := GenerateResponse(text);
    var answers := StreamAnswer(response.content);
    var stored := chat.AddMessage(cid, AssistantRole, response.content, Some(response.tokens));
    AppendedOne(old(chat.store.messages), stored);
    tail := answers + [Usage(cid, TurnTokens(text), balance), Done(cid)];
  }

  /**
   * The events after the ownership check: an error when the debit is
   * refused, otherwise the answer stream, the usage report and done.
   */
  method Settle(chat: ChatService, usage: UsageService, userId: string, text: string, cid: string, fault: bool)
    returns (tail: seq<ChatEvent>)
    requires chat.store == usage.store && chat.store.Valid()
    modifies chat.store
    ensures chat.store.Valid()
    ensures |tail| >= 1 && (tail[|tail| - 1].ErrorEvent? || tail[|tail| - 1].Done?)
    ensures tail[|tail| - 1].ErrorEvent? ==> |tail| == 1 && chat.store.LedgerView() == old(chat.store.LedgerView())
    ensures tail[|tail| - 1].ErrorEvent? && tail[|tail| - 1].balance.None? ==> chat.store.messages == old(chat.store.messages)
    ensures tail[|tail| - 1].ErrorEvent? && tail[|tail| - 1].balance.Some? ==>
      Appended(old(chat.store.messages), chat.store.messages, [UserEntry(cid, text)])
    ensures tail[|tail| - 1].Done? ==>
      Appended(old(chat.store.messages), chat.store.messages, [UserEntry(cid, text), AssistantEntry(cid, text)])
    ensures tail[|tail| - 1].Done? ==>
      && |tail| >= 3 && tail[0].Answer? && tail[|tail| - 2].Usage?
      && tail[|tail| - 2].tokensUsed == TurnTokens(text)
      && tail[|tail| - 3] == Answer(GenerateResponse(text).content, true)
      && DebitCheck(old(chat.store.LedgerView()), userId, TurnTokens(text)) == Debited(tail[|tail| - 2].balanceAfter)
      && |chat.store.events| == |old(chat.store.events)| + 1
      && chat.store.LedgerView() == Debit(old(chat.store.LedgerView()), userId, TurnTokens(text), chat.store.events[|chat.store.events| - 1])
  {
    if chat.GetConversation(cid, userId).None? {
      return [ErrorEvent("Conversation not found", None)];
    }
    var settlement, response := SettleTurn(chat, usage, userId, text, cid, fault);
    if settlement.Refused? {
      return [ErrorEvent(settlement.error, Some(settlement.balance))];
    }
    ghost var stored := chat.store.messages;
    tail := Respond(chat, cid, text, settlement.balanceAfter);
    AppendedTwice(old(chat.store.messages), stored, chat.store.messages, UserEntry(cid, text), AssistantEntry(cid, text));
  }

  /**
   * The events of a turn with a non-empty message: an optional meta event,
   * then an error, or the answer stream, the usage report and done.
   */
  method Turn(chat: ChatService, usage: UsageService, userId: string, text: string,
              conversationId: Option<string>, fault: bool)
    returns (es: seq<ChatEvent>)
    requires chat.store == usage.store && chat.store.Valid()
    modifies chat.store
    ensures chat.store.Valid()
    ensures |es| >= 1
    ensures es[0].Meta? <==> conversationId.None? || conversationId.value == ""
    ensures es[|es| - 1].ErrorEvent? || es[|es| - 1].Done?
    ensures es[|es| - 1].ErrorEvent? ==>
      && chat.store.LedgerView() == old(chat.store.LedgerView())
      && forall e :: e in es ==> !e.Answer?
    ensures var cid := if es[0].Meta? then es[0].conversationId else conversationId.value;
      && (es[|es| - 1].ErrorEvent? && es[|es| - 1].balance.None? ==> chat.store.messages == old(chat.store.messages))
      && (es[|es| - 1].ErrorEvent? && es[|es| - 1].balance.Some? ==>
            Appended(old(chat.store.messages), chat.store.messages, [UserEntry(cid, text)]))
      && (es[|es| - 1].Done? ==>
            Appended(old(chat.store.messages), chat.store.messages, [UserEntry(cid, text), AssistantEntry(cid, text)]))
    ensures es[|es| - 1].Done? ==>
      && |es| >= 3 && es[|es| - 2].Usage?
      && es[|es| - 2].tokensUsed == TurnTokens(text)
      && es[|es| - 3] == Answer(GenerateResponse(text).content, true)
      && DebitCheck(old(chat.store.LedgerView()), userId, TurnTokens(text)) == Debited(es[|es| - 2].balanceAfter)
      && |chat.store.events| == |old(chat.store.events)| + 1
      && chat.store.LedgerView() == Debit(old(chat.store.LedgerView()), userId, TurnTokens(text), chat.store.events[|chat.store.events| - 1])
  {
    var cid, meta := OpenConversation(chat, userId, conversationId);
    var tail := Settle(chat, usage, userId, text, cid, fault);
    es := meta + tail;
    assert es[|es| - 1] == tail[|tail| - 1];
    assert es[0] == if meta == [] then tail[0] else meta[0];
    if tail[|tail| - 1].Done? {
      assert es[|es| - 2] == tail[|tail| - 2] && es[|es| - 3] == tail[|tail| - 3];
      assert es[0] == if meta == [] then tail[0] else meta[0];
    }
  }

  /**
   * One chat turn. `conversationId` is the id the request names, if any;
   * `fault` makes the debit's database transaction fail.
   */
  method Chat(chat: ChatService, usage: UsageService, userId: string, message: Option<string>,
              conversationId: Option<string>, fault: bool)
    returns (reply: ChatReply)
    requires chat.store == usage.store && chat.store.Valid()
    modifies chat.store
    ensures chat.store.Valid()
    ensures message.None? || message.value == "" <==> reply == BadRequest
    ensures reply == BadRequest ==> chat.store.LedgerView() == old(chat.store.LedgerView()) && chat.store.messages == old(chat.store.messages)
    ensures reply.Events? ==>
      var es := reply.events;
      && |es| >= 1
      && (es[0].Meta? <==> conversationId.None? || conversationId.value == "")
      && (es[|es| - 1].ErrorEvent? || es[|es| - 1].Done?)
    ensures reply.Events? && reply.events[|reply.events| - 1].ErrorEvent? ==>
      && chat.store.LedgerView() == old(chat.store.LedgerView())
      && forall e :: e in reply.events ==> !e.Answer?
    ensures reply.Events? ==>
      var es := reply.events;
      var cid := if es[0].Meta? then es[0].conversationId else conversationId.value;
      && (es[|es| - 1].ErrorEvent? && es[|es| - 1].balance.None? ==> chat.store.messages == old(chat.store.messages))
      && (es[|es| - 1].ErrorEvent? && es[|es| - 1].balance.Some? ==>
            Appended(old(chat.store.messages), chat.store.messages, [UserEntry(cid, message.value)]))
      && (es[|es| - 1].Done? ==>
            Appended(old(chat.store.messages), chat.store.messages, [UserEntry(cid, message.value), AssistantEntry(cid, message.value)]))
    ensures reply.Events? && reply.events[|reply.events| - 1].Done? ==>
      var es := reply.events;
      && |es| >= 3 && es[|es| - 2].Usage?
      && es[|es| - 2].tokensUsed == TurnTokens(message.value)
      && es[|es| - 3] == Answer(GenerateResponse(message.value).content, true)
      && DebitCheck(old(chat.store.LedgerView()), userId, TurnTokens(message.value)) == Debited(es[|es| - 2].balanceAfter)
      && |chat.store.events| == |old(chat.store.events)| + 1
      && chat.store.LedgerView() == Debit(old(chat.store.LedgerView()), userId, TurnTokens(message.value), chat.store.events[|chat.store.events| - 1])
  {
    if message.None? || message.value == "" {
      return BadRequest;
    }
    var es := Turn(chat, usage, userId, message.value, conversationId, fault);
    reply := Events(es);
  }
}
