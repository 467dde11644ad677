/**
 * The relational store behind the production services, reduced to what
 * they read and write: each user's balance, and the usage events,
 * conversations and messages in the order they were inserted.
 *
 * Every insert stamps the row with the current clock reading, which then
 * advances; row ids are made from the same reading, so they are fresh.
 * Ordering by timestamp is therefore ordering by insertion.
 */
module PrismaStore {
  import opened Wrappers
  import opened Text
  import opened Collections
  import opened Records
  import opened Ledger

  function EventTime(e: UsageEvent): int { e.createdAt as int }
  function ConversationTime(c: Conversation): int { c.updatedAt as int }
  function MessageTime(m: Message): int { m.createdAt as int }

  /** Rows in strictly increasing time order, all stamped before `clock`. */
  ghost predicate Chronicle<T>(s: seq<T>, time: T -> int, clock: nat) {
    && StrictlyIncreasing(s, time)
    && forall i :: 0 <= i < |s| ==> time(s[i]) < clock
  }

  lemma ChronicleAppend<T>(s: seq<T>, time: T -> int, clock: nat, x: T)
    requires Chronicle(s, time, clock) && time(x) == clock
    ensures Chronicle(s + [x], time, clock + 1)
  {
  }

  lemma ChronicleLater<T>(s: seq<T>, time: T -> int, clock: nat)
    requires Chronicle(s, time, clock)
    ensures Chronicle(s, time, clock + 1)
  {
  }

  /** Newest first: the rows `keep` accepts, back to front. */
  function NewestFirst<T(!new)>(s: seq<T>, keep: T -> bool): seq<T>
  {
    Reverse(Filter(s, keep))
  }

  /** Rows in insertion order come out of `NewestFirst` in strictly decreasing time order. */
  lemma NewestFirstDecreasing<T(!new)>(s: seq<T>, keep: T -> bool, time: T -> int)
    requires StrictlyIncreasing(s, time)
    ensures forall i, j :: 0 <= i < j < |NewestFirst(s, keep)| ==>
      time(NewestFirst(s, keep)[i]) > time(NewestFirst(s, keep)[j])
    ensures forall x :: x in NewestFirst(s, keep) <==> x in s && keep(x)
  {
    var f := Filter(s, keep);
    FilterIncreasing(s, keep, time);
    var r := Reverse(f);
    forall x | x in r
      ensures x in f
    {
      var i :| 0 <= i < |r| && r[i] == x;
      assert f[|f| - 1 - i] == x;
    }
    forall x | x in f
      ensures x in r
    {
      var i :| 0 <= i < |f| && f[i] == x;
      assert r[|f| - 1 - i] == x;
    }
  }

  class PrismaStore {
    var balances: map<string, int>
    var events: seq<UsageEvent>
    var conversations: seq<Conversation>
    var messages: seq<Message>
    /** The clock the database stamps rows with. */
    var clock: nat

    ghost predicate Valid()
      reads this
    {
      && Chronicle(events, EventTime, clock)
      && Chronicle(conversations, ConversationTime, clock)
      && Chronicle(messages, MessageTime, clock)
      && (forall i :: 0 <= i < |conversations| ==> conversations[i].createdAt == conversations[i].updatedAt)
      && (forall i :: 0 <= i < |conversations| ==> conversations[i].id == MakeId("conv_", conversations[i].createdAt))
    }

    /** The balances and the usage log, as a ledger. */
    function LedgerView(): (l: Ledger<UsageEvent>)
      reads this
      ensures l.balances == balances && l.events == events
    {
      Ledger(balances, events)
    }

    constructor (balances: map<string, int>, now: nat)
      ensures Valid()
      ensures this.balances == balances && events == [] && conversations == [] && messages == [] && clock == now
    {
      this.balances := balances;
      events := [];
      conversations := [];
      messages := [];
      clock := now;
    }

    /** `user.update`: sets a known user's balance. */
    method SetBalance(userId: string, balance: int)
      requires Valid() && userId in balances
      modifies this
      ensures Valid()
      ensures balances == old(balances)[userId := balance]
      ensures events == old(events) && conversations == old(conversations)
      ensures messages == old(messages) && clock == old(clock)
    {
      balances := balances[userId := balance];
    }

    /** `usageEvent.create`: a new event stamped now, appended to the log. */
    method InsertEvent(userId: string, tokensUsed: int, balanceAfter: int, conversationId: Option<string>, kind: string)
      returns (e: UsageEvent)
      requires Valid()
      modifies this
      ensures Valid()
      ensures e == UsageEvent(MakeId("usage_", old(clock)), userId, conversationId, tokensUsed, balanceAfter, kind, old(clock))
      ensures events == old(events) + [e] && clock == old(clock) + 1
      ensures balances == old(balances) && conversations == old(conversations) && messages == old(messages)
    {
      e := UsageEvent(MakeId("usage_", clock), userId, conversationId, tokensUsed, balanceAfter, kind, clock);
      ChronicleAppend(events, EventTime, clock, e);
      ChronicleLater(conversations, ConversationTime, clock);
      ChronicleLater(messages, MessageTime, clock);
      events := events + [e];
      clock := clock + 1;
    }

    /** `conversation.create`: a new conversation stamped now. */
    method InsertConversation(userId: string, title: string) returns (c: Conversation)
      requires Valid()
      modifies this
      ensures Valid()
      ensures c == Conversation(MakeId("conv_", old(clock)), userId, title, old(clock), old(clock))
      ensures conversations == old(conversations) + [c] && clock == old(clock) + 1
      ensures forall d :: d in old(conversations) ==> d.id != c.id
      ensures balances == old(balances) && events == old(events) && messages == old(messages)
    {
      forall d | d in conversations
        ensures d.id != MakeId("conv_", clock)
      {
        IdNumberOfMakeId("conv_", clock);
        IdNumberOfMakeId("conv_", d.createdAt);
      }
      c := Conversation(MakeId("conv_", clock), userId, title, clock, clock);
      ChronicleAppend(conversations, ConversationTime, clock, c);
      ChronicleLater(events, EventTime, clock);
      ChronicleLater(messages, MessageTime, clock);
      conversations := conversations + [c];
      clock := clock + 1;
    }

    /** `message.create`: a new message stamped now. */
    method InsertMessage(conversationId: string, role: Role, content: string, tokens: Option<int>) returns (m: Message)
      requires Valid()
      modifies this
      ensures Valid()
      ensures m == Message(MakeId("msg_", old(clock)), conversationId, role, content, tokens, old(clock))
      ensures messages == old(messages) + [m] && clock == old(clock) + 1
      ensures balances == old(balances) && events == old(events) && conversations == old(conversations)
    {
      m := Message(MakeId("msg_", clock), conversationId, role, content, tokens, clock);
      ChronicleAppend(messages, MessageTime, clock, m);
      ChronicleLater(events, EventTime, clock);
      ChronicleLater(conversations, ConversationTime, clock);
      messages := messages + [m];
      clock := clock + 1;
    }
  }
}
