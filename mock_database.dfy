/**
 * The in-memory store of the demo server: five JavaScript Maps (users,
 * conversations, messages, usage events, packages) with create, update and
 * query operations.
 *
 * Record ids are a prefix followed by the clock reading, as the source
 * builds them from `Date.now()`. Here the clock advances on every
 * creation, so two records never share an id and every new record goes
 * last in its Map; two creations within one millisecond, which would
 * share an id, are outside this model.
 */
module MockDatabase {
  import opened Wrappers
  import opened Text
  import opened Collections
  import opened Records
  import opened Ledger

  const InitialBalance: int := 1000
  const DefaultHistoryLimit: int := 50

  /** The packages the store starts with, all active. */
  const InitialPackages: seq<Package> := [
    Package("pkg1", "Starter Pack", "Perfect for light usage", 1000, 999, "price_starter_pack_test", true),
    Package("pkg2", "Power User", "Great for regular conversations", 5000, 3999, "price_power_user_test", true),
    Package("pkg3", "Pro Bundle", "Maximum value for heavy users", 15000, 9999, "price_pro_bundle_test", true)
  ]

  /**
   * A Map of records keyed by their own ids, every id made with `prefix`
   * from a clock reading below `clock`.
   */
  ghost predicate TableValid<R>(t: JsMap<R>, prefix: string, clock: nat, idOf: R -> string) {
    && t.Valid()
    && IdsBelow(t.entries.Keys, prefix, clock)
    && (forall k :: k in t.entries ==> idOf(t.entries[k]) == k)
  }

  /** Inserting a record whose id is made from the current reading appends it and keeps the table valid. */
  lemma InsertFresh<R>(t: JsMap<R>, prefix: string, clock: nat, r: R, idOf: R -> string)
    requires TableValid(t, prefix, clock, idOf) && idOf(r) == MakeId(prefix, clock)
    ensures idOf(r) !in t.entries
    ensures TableValid(t.Set(idOf(r), r), prefix, clock + 1, idOf)
    ensures t.Set(idOf(r), r).Values() == t.Values() + [r]
  {
    FreshId(t.entries.Keys, prefix, clock);
    SetValid(t, idOf(r), r);
    SetFreshValues(t, idOf(r), r);
    assert t.Set(idOf(r), r).entries.Keys == t.entries.Keys + {MakeId(prefix, clock)};
  }

  /** A table stays valid when the clock moves on. */
  lemma TableLater<R>(t: JsMap<R>, prefix: string, clock: nat, idOf: R -> string)
    requires TableValid(t, prefix, clock, idOf)
    ensures TableValid(t, prefix, clock + 1, idOf)
  {
    IdsBelowLater(t.entries.Keys, prefix, clock, clock + 1);
  }

  /** Every user's balance, keyed by user id. */
  function BalancesOf(users: JsMap<User>): (b: map<string, int>)
    ensures b.Keys == users.entries.Keys
    ensures forall id :: id in b ==> b[id] == users.entries[id].balance
  {
    map id | id in users.entries :: users.entries[id].balance
  }

  lemma BalancesOfSet(users: JsMap<User>, id: string, u: User)
    ensures BalancesOf(users.Set(id, u)) == BalancesOf(users)[id := u.balance]
  {
  }

  function UserId(u: User): string { u.id }
  function ConversationId(c: Conversation): string { c.id }
  function MessageId(m: Message): string { m.id }
  function EventId(e: UsageEvent): string { e.id }
  function PackageId(p: Package): string { p.id }

  /** The packages as the constructor's loop leaves them: each set in turn. */
  function PackagesFrom(ps: seq<Package>): JsMap<Package>
  {
    if ps == [] then EmptyMap() else PackagesFrom(ps[..|ps| - 1]).Set(ps[|ps| - 1].id, ps[|ps| - 1])
  }

  /** Every table keyed by its records' ids, and every id older than the clock. */
  ghost predicate StoreValid(
    users: JsMap<User>, conversations: JsMap<Conversation>, messages: JsMap<Message>,
    usageEvents: JsMap<UsageEvent>, packages: JsMap<Package>, clock: nat)
  {
    && TableValid(users, "user_", clock, UserId)
    && TableValid(conversations, "conv_", clock, ConversationId)
    && TableValid(messages, "msg_", clock, MessageId)
    && TableValid(usageEvents, "usage_", clock, EventId)
    && packages.Valid()
  }

  lemma InsertUser(
    users: JsMap<User>, conversations: JsMap<Conversation>, messages: JsMap<Message>,
    usageEvents: JsMap<UsageEvent>, packages: JsMap<Package>, clock: nat, u: User)
    requires StoreValid(users, conversations, messages, usageEvents, packages, clock)
    requires u.id == MakeId("user_", clock)
    ensures u.id !in users.entries && users.Set(u.id, u).Values() == users.Values() + [u]
    ensures StoreValid(users.Set(u.id, u), conversations, messages, usageEvents, packages, clock + 1)
  {
    InsertFresh(users, "user_", clock, u, UserId);
    TableLater(conversations, "conv_", clock, ConversationId);
    TableLater(messages, "msg_", clock, MessageId);
    TableLater(usageEvents, "usage_", clock, EventId);
  }

  lemma InsertConversation(
    users: JsMap<User>, conversations: JsMap<Conversation>, messages: JsMap<Message>,
    usageEvents: JsMap<UsageEvent>, packages: JsMap<Package>, clock: nat, c: Conversation)
    requires StoreValid(users, conversations, messages, usageEvents, packages, clock)
    requires c.id == MakeId("conv_", clock)
    ensures c.id !in conversations.entries && conversations.Set(c.id, c).Values() == conversations.Values() + [c]
    ensures StoreValid(users, conversations.Set(c.id, c), messages, usageEvents, packages, clock + 1)
  {
    InsertFresh(conversations, "conv_", clock, c, ConversationId);
    TableLater(users, "user_", clock, UserId);
    TableLater(messages, "msg_", clock, MessageId);
    TableLater(usageEvents, "usage_", clock, EventId);
  }

  lemma InsertMessage(
    users: JsMap<User>, conversations: JsMap<Conversation>, messages: JsMap<Message>,
    usageEvents: JsMap<UsageEvent>, packages: JsMap<Package>, clock: nat, m: Message)
    requires StoreValid(users, conversations, messages, usageEvents, packages, clock)
    requires m.id == MakeId("msg_", clock)
    ensures m.id !in messages.entries && messages.Set(m.id, m).Values() == messages.Values() + [m]
    ensures StoreValid(users, conversations, messages.Set(m.id, m), usageEvents, packages, clock + 1)
  {
    InsertFresh(messages, "msg_", clock, m, MessageId);
    TableLater(users, "user_", clock, UserId);
    TableLater(conversations, "conv_", clock, ConversationId);
    TableLater(usageEvents, "usage_", clock, EventId);
  }

  lemma InsertEvent(
    users: JsMap<User>, conversations: JsMap<Conversation>, messages: JsMap<Message>,
    usageEvents: JsMap<UsageEvent>, packages: JsMap<Package>, clock: nat, e: UsageEvent)
    requires StoreValid(users, conversations, messages, usageEvents, packages, clock)
    requires e.id == MakeId("usage_", clock)
    ensures e.id !in usageEvents.entries && usageEvents.Set(e.id, e).Values() == usageEvents.Values() + [e]
    ensures StoreValid(users, conversations, messages, usageEvents.Set(e.id, e), packages, clock + 1)
  {
    InsertFresh(usageEvents, "usage_", clock, e, EventId);
    TableLater(users, "user_", clock, UserId);
    TableLater(conversations, "conv_", clock, ConversationId);
    TableLater(messages, "msg_", clock, MessageId);
  }

  /** Updating an existing user under its own id keeps the store valid. */
  lemma UpdateUser(
    users: JsMap<User>, conversations: JsMap<Conversation>, messages: JsMap<Message>,
    usageEvents: JsMap<UsageEvent>, packages: JsMap<Package>, clock: nat, u: User)
    requires StoreValid(users, conversations, messages, usageEvents, packages, clock)
    requires u.id in users.entries
    ensures StoreValid(users.Set(u.id, u), conversations, messages, usageEvents, packages, clock)
    ensures users.Set(u.id, u).keys == users.keys
  {
    SetValid(users, u.id, u);
    assert users.Set(u.id, u).entries.Keys == users.entries.Keys;
  }

  /**
   * A user's events, newest first, cut to `limit` the way `slice(0, limit)`
   * cuts: the newest `limit` of them, or for a negative `limit` all but
   * the oldest `-limit`.
   */
  function UsageHistory(events: seq<UsageEvent>, userId: string, limit: int): (r: seq<UsageEvent>)
    ensures multiset(r) <= multiset(Filter(events, IsEventOf(userId)))
    ensures forall e :: e in r ==> e in events && e.userId == userId
    ensures forall i, j :: 0 <= i < j < |r| ==> r[i].createdAt >= r[j].createdAt
    ensures var n := |Filter(events, IsEventOf(userId))|;
      |r| == if limit >= 0 then (if limit <= n then limit else n) else (if n + limit > 0 then n + limit else 0)
    ensures forall e, k :: e in events && e.userId == userId && e !in r && k in r ==> e.createdAt <= k.createdAt
  {
    var sorted := SortBy(Filter(events, IsEventOf(userId)), NewestFirst);
    HistoryFacts(events, userId, limit);
    SliceTo(sorted, limit)
  }

  function IsEventOf(userId: string): UsageEvent -> bool {
    (e: UsageEvent) => e.userId == userId
  }

  function IsConversationOf(userId: string): Conversation -> bool {
    (c: Conversation) => c.userId == userId
  }

  function IsMessageOf(conversationId: string): Message -> bool {
    (m: Message) => m.conversationId == conversationId
  }

  function IsActivePackage(p: Package): bool { p.active }

  /** The sort key of the package listing. */
  function PackageTokens(p: Package): int { p.tokens }

  /** The sort key that puts the latest event first. */
  function NewestFirst(e: UsageEvent): int {
    -(e.createdAt as int)
  }

  lemma HistoryFacts(events: seq<UsageEvent>, userId: string, limit: int)
    ensures var mine := Filter(events, IsEventOf(userId));
      var sorted := SortBy(mine, NewestFirst);
      var r := SliceTo(sorted, limit);
      && |sorted| == |mine|
      && multiset(r) <= multiset(mine)
      && (forall e :: e in sorted <==> e in events && e.userId == userId)
      && SortedBy(r, NewestFirst)
      && (forall e, k :: e in sorted && e !in r && k in r ==> e.createdAt <= k.createdAt)
  {
    var mine := Filter(events, IsEventOf(userId));
    var sorted := SortBy(mine, NewestFirst);
    var r := SliceTo(sorted, limit);
    assert |sorted| == |multiset(sorted)| == |multiset(mine)| == |mine|;
    assert sorted == r + sorted[|r|..];
    SortByMembers(mine, NewestFirst);
    SliceToSorted(sorted, NewestFirst, limit);
    CutKeepsNewest(sorted, limit);
  }

  /** Cutting a newest-first list keeps events no older than any it leaves out. */
  lemma CutKeepsNewest(sorted: seq<UsageEvent>, limit: int)
    requires SortedBy(sorted, NewestFirst)
    ensures forall e, k :: e in sorted && e !in SliceTo(sorted, limit) && k in SliceTo(sorted, limit) ==> e.createdAt <= k.createdAt
  {
    var r := SliceTo(sorted, limit);
    assert r == sorted[..|r|];
    forall e, k | e in sorted && e !in r && k in r
      ensures e.createdAt <= k.createdAt
    {
      SortedPrefixBelow(sorted, NewestFirst, |r|, e);
    }
  }

  function HasEmail(email: string): User -> bool {
    (u: User) => u.email == email
  }

  /** The user found by email is stored under its own id, and none is found exactly when no user has the email. */
  lemma FoundByEmail(users: JsMap<User>, clock: nat, email: string)
    requires TableValid(users, "user_", clock, UserId)
    ensures var r := Find(users.Values(), HasEmail(email));
      && (r.Some? ==> r.value.id in users.entries && users.entries[r.value.id] == r.value)
      && (r.None? <==> forall id :: id in users.entries ==> users.entries[id].email != email)
  {
    var vs := users.Values();
    var r := Find(vs, HasEmail(email));
    if r.Some? {
      var i :| 0 <= i < |vs| && vs[i] == r.value && HasEmail(email)(vs[i]);
      var id := users.keys[i];
      assert id in users.entries && vs[i] == users.entries[id];
      assert UserId(users.entries[id]) == id;
    } else {
      forall id | id in users.entries
        ensures users.entries[id].email != email
      {
        var i :| 0 <= i < |users.keys| && users.keys[i] == id;
        assert !HasEmail(email)(vs[i]);
      }
    }
  }

  class MockDatabase {
    var users: JsMap<User>
    var conversations: JsMap<Conversation>
    var messages: JsMap<Message>
    var usageEvents: JsMap<UsageEvent>
    var packages: JsMap<Package>
    /** The millisecond clock that `Date.now()` and `new Date()` read. */
    var clock: nat

    ghost predicate Valid()
      reads this
    {
      StoreValid(users, conversations, messages, usageEvents, packages, clock)
    }

    /** Every user's balance. */
    function Balances(): (b: map<string, int>)
      reads this
      ensures b == BalancesOf(users)
    {
      BalancesOf(users)
    }

    /** The usage events in the order they were created. */
    function Events(): seq<UsageEvent>
      reads this
      requires usageEvents.Valid()
    {
      usageEvents.Values()
    }

    /** The store seen as a ledger of balances and usage events. */
    function LedgerView(): (l: Ledger<UsageEvent>)
      reads this
      requires usageEvents.Valid()
      ensures l.balances == Balances() && l.events == Events()
    {
      Ledger(Balances(), Events())
    }

    /** Starts empty apart from the three packages. */
    constructor (now: nat)
      ensures Valid()
      ensures users == EmptyMap() && conversations == EmptyMap() && messages == EmptyMap() && usageEvents == EmptyMap()
      ensures packages == PackagesFrom(InitialPackages) && clock == now
    {
      users := EmptyMap();
      conversations := EmptyMap();
      messages := EmptyMap();
      usageEvents := EmptyMap();
      clock := now;
      var ps := EmptyMap();
      var i := 0;
      while i < |InitialPackages|
        invariant 0 <= i <= |InitialPackages|
        invariant ps == PackagesFrom(InitialPackages[..i]) && ps.Valid()
      {
        assert InitialPackages[..i + 1][..i] == InitialPackages[..i];
        SetValid(ps, InitialPackages[i].id, InitialPackages[i]);
        ps := ps.Set(InitialPackages[i].id, InitialPackages[i]);
        i := i + 1;
      }
      assert InitialPackages[..i] == InitialPackages;
      packages := ps;
    }

    /** A new user with a fresh id and the free starting balance, added last. */
    method CreateUser(email: string, password: string) returns (user: User)
      requires Valid()
      modifies this
      ensures Valid()
      ensures user == User(MakeId("user_", old(clock)), email, password, InitialBalance, old(clock), old(clock))
      ensures user.id !in old(users.entries)
      ensures users == old(users).Set(user.id, user) && users.Values() == old(users.Values()) + [user]
      ensures Balances() == old(Balances())[user.id := InitialBalance]
      ensures clock == old(clock) + 1
      ensures conversations == old(conversations) && messages == old(messages)
      ensures usageEvents == old(usageEvents) && packages == old(packages)
    {
      user := User(MakeId("user_", clock), email, password, InitialBalance, clock, clock);
      InsertUser(users, conversations, messages, usageEvents, packages, clock, user);
      BalancesOfSet(users, user.id, user);
      users := users.Set(user.id, user);
      clock := clock + 1;
    }

    /** The first user, in creation order, with this email. */
    function FindUserByEmail(email: string): (r: Option<User>)
      reads this
      requires Valid()
      ensures r.Some? ==> r.value.email == email && r.value.id in users.entries && users.entries[r.value.id] == r.value
      ensures r.None? <==> forall id :: id in users.entries ==> users.entries[id].email != email
      ensures r.Some? ==>
        exists i :: 0 <= i < |users.Values()| && users.Values()[i] == r.value
          && forall j :: 0 <= j < i ==> users.Values()[j].email != email
    {
      FoundByEmail(users, clock, email);
      Find(users.Values(), HasEmail(email))
    }

    function FindUserById(id: string): (r: Option<User>)
      reads this
      requires Valid()
      ensures r.Some? <==> id in users.entries
      ensures r.Some? ==> r.value == users.entries[id] && r.value.id == id
    {
      users.Get(id)
    }

    /**
     * Sets one user's balance and stamps the update; an unknown id changes
     * nothing and yields nothing.
     */
    method UpdateUserBalance(userId: string, newBalance: int) returns (r: Option<User>)
      requires Valid()
      modifies this
      ensures Valid()
      ensures userId !in old(users.entries) ==> r.None? && users == old(users)
      ensures userId in old(users.entries) ==>
        && r == Some(old(users.entries[userId]).(balance := newBalance, updatedAt := old(clock)))
        && users == old(users).Set(userId, r.value)
        && users.keys == old(users.keys)
      ensures Balances() == if userId in old(users.entries) then old(Balances())[userId := newBalance] else old(Balances())
      ensures clock == old(clock)
      ensures conversations == old(conversations) && messages == old(messages)
      ensures usageEvents == old(usageEvents) && packages == old(packages)
    {
      r := users.Get(userId);
      if r.Some? {
        var updated := r.value.(balance := newBalance, updatedAt := clock);
        UpdateUser(users, conversations, messages, usageEvents, packages, clock, updated);
        BalancesOfSet(users, userId, updated);
        users := users.Set(userId, updated);
        r := Some(updated);
      }
    }

    /** A new conversation owned by `userId`, titled "New Conversation" unless a title is given. */
    method CreateConversation(userId: string, title: Option<string>) returns (c: Conversation)
      requires Valid()
      modifies this
      ensures Valid()
      ensures c == Conversation(MakeId("conv_", old(clock)), userId, ConversationTitle(title), old(clock), old(clock))
      ensures c.id !in old(conversations.entries)
      ensures conversations == old(conversations).Set(c.id, c) && conversations.Values() == old(conversations.Values()) + [c]
      ensures clock == old(clock) + 1
      ensures users == old(users) && messages == old(messages)
      ensures usageEvents == old(usageEvents) && packages == old(packages)
    {
      c := Conversation(MakeId("conv_", clock), userId, ConversationTitle(title), clock, clock);
      InsertConversation(users, conversations, messages, usageEvents, packages, clock, c);
      conversations := conversations.Set(c.id, c);
      clock := clock + 1;
    }

    /** The conversation, only when `userId` owns it. */
    function FindConversation(id: string, userId: string): (r: Option<Conversation>)
      reads this
      ensures r.Some? <==> id in conversations.entries && conversations.entries[id].userId == userId
      ensures r.Some? ==> r.value == conversations.entries[id]
    {
      match conversations.Get(id)
      case Some(c) => if c.userId == userId then Some(c) else None
      case None => None
    }

    /** The user's conversations, most recently updated first. */
    function GetUserConversations(userId: string): (r: seq<Conversation>)
      reads this
      requires conversations.Valid()
      ensures forall c :: c in r <==> c in conversations.Values() && c.userId == userId
      ensures multiset(r) == multiset(Filter(conversations.Values(), IsConversationOf(userId)))
      ensures forall i, j :: 0 <= i < j < |r| ==> r[i].updatedAt >= r[j].updatedAt
    {
      var mine := Filter(conversations.Values(), IsConversationOf(userId));
      var key := (c: Conversation) => -(c.updatedAt as int);
      var r := SortBy(mine, key);
      SortByMembers(mine, key);
      r
    }

    method CreateMessage(conversationId: string, role: Role, content: string, tokens: Option<int>) returns (m: Message)
      requires Valid()
      modifies this
      ensures Valid()
      ensures m == Message(MakeId("msg_", old(clock)), conversationId, role, content, tokens, old(clock))
      ensures m.id !in old(messages.entries)
      ensures messages == old(messages).Set(m.id, m) && messages.Values() == old(messages.Values()) + [m]
      ensures clock == old(clock) + 1
      ensures users == old(users) && conversations == old(conversations)
      ensures usageEvents == old(usageEvents) && packages == old(packages)
    {
      m := Message(MakeId("msg_", clock), conversationId, role, content, tokens, clock);
      InsertMessage(users, conversations, messages, usageEvents, packages, clock, m);
      messages := messages.Set(m.id, m);
      clock := clock + 1;
    }

    /** The conversation's messages, oldest first. */
    function GetMessages(conversationId: string): (r: seq<Message>)
      reads this
      requires messages.Valid()
      ensures forall m :: m in r <==> m in messages.Values() && m.conversationId == conversationId
      ensures multiset(r) == multiset(Filter(messages.Values(), IsMessageOf(conversationId)))
      ensures forall i, j :: 0 <= i < j < |r| ==> r[i].createdAt <= r[j].createdAt
    {
      var mine := Filter(messages.Values(), IsMessageOf(conversationId));
      var key := (m: Message) => m.createdAt as int;
      var r := SortBy(mine, key);
      SortByMembers(mine, key);
      r
    }

    method CreateUsageEvent(userId: string, tokensUsed: int, balanceAfter: int, conversationId: Option<string>, kind: string)
      returns (e: UsageEvent)
      requires Valid()
      modifies this
      ensures Valid()
      ensures e == UsageEvent(MakeId("usage_", old(clock)), userId, conversationId, tokensUsed, balanceAfter, kind, old(clock))
      ensures e.id !in old(usageEvents.entries)
      ensures usageEvents == old(usageEvents).Set(e.id, e)
      ensures Events() == old(Events()) + [e]
      ensures clock == old(clock) + 1
      ensures users == old(users) && conversations == old(conversations)
      ensures messages == old(messages) && packages == old(packages)
    {
      e := UsageEvent(MakeId("usage_", clock), userId, conversationId, tokensUsed, balanceAfter, kind, clock);
      InsertEvent(users, conversations, messages, usageEvents, packages, clock, e);
      var after := usageEvents.Set(e.id, e);
      assert after.Values() == Events() + [e];
      usageEvents := after;
      clock := clock + 1;
    }

    /** The user's events, newest first, cut to `limit`. */
    function GetUserUsageHistory(userId: string, limit: int): (r: seq<UsageEvent>)
      reads this
      requires usageEvents.Valid()
      ensures r == UsageHistory(Events(), userId, limit)
    {
      UsageHistory(Events(), userId, limit)
    }

    /**
     * The active packages, fewest tokens first; the sort is stable, so
     * packages of equal size keep their order in the Map.
     */
    function GetPackages(): (r: seq<Package>)
      reads this
      requires packages.Valid()
      ensures forall p :: p in r <==> p in packages.Values() && p.active
      ensures multiset(r) == multiset(Filter(packages.Values(), IsActivePackage))
      ensures forall i, j :: 0 <= i < j < |r| ==> r[i].tokens <= r[j].tokens
      ensures forall n :: Filter(r, KeyIs(PackageTokens, n)) == Filter(Filter(packages.Values(), IsActivePackage), KeyIs(PackageTokens, n))
    {
      var active := Filter(packages.Values(), IsActivePackage);
      var r := SortBy(active, PackageTokens);
      SortByMembers(active, PackageTokens);
      forall n
        ensures Filter(r, KeyIs(PackageTokens, n)) == Filter(active, KeyIs(PackageTokens, n))
      {
        SortByStable(active, PackageTokens, n);
      }
      r
    }

    /** The package with this id, active or not. */
    function FindPackage(id: string): (r: Option<Package>)
      reads this
      ensures r.Some? <==> id in packages.entries
      ensures r.Some? ==> r.value == packages.entries[id]
    {
      packages.Get(id)
    }
  }
}
