/** ConversationsService: unread counts, message pages, and the identity of conversations. */
module Conversations {
  import opened Options

  type UserId = nat
  type ConversationId = nat

  datatype Message = Message(conversation: ConversationId, sender: UserId, createdAt: nat)

  datatype Participant = Participant(user: UserId, lastReadAt: Option<nat>)

  datatype Conversation = Conversation(id: ConversationId, listing: Option<nat>, participants: seq<Participant>)

  /** `participants.find(...)`: the caller's own row, if there is one. */
  function Me(participants: seq<Participant>, user: UserId): Option<Participant> {
    if participants == [] then None
    else if participants[0].user == user then Some(participants[0])
    else Me(participants[1..], user)
  }

  /** `me?.lastReadAt ?? null` */
  function LastRead(c: Conversation, user: UserId): Option<nat> {
    match Me(c.participants, user)
    case None => None
    case Some(me) => me.lastReadAt
  }

  /** Each of two people has a mark of their own, and nobody else has one. */
  lemma LastReadIsOwn(c: Conversation, user: UserId)
    requires TwoPeople(c)
    ensures c.participants[0].user == user ==> LastRead(c, user) == c.participants[0].lastReadAt
    ensures c.participants[1].user == user ==> LastRead(c, user) == c.participants[1].lastReadAt
    ensures c.participants[0].user != user && c.participants[1].user != user ==> LastRead(c, user) == None
    ensures Me(c.participants, user).Some? <==> c.participants[0].user == user || c.participants[1].user == user
  {
    var ps := c.participants;
    assert ps[1..][1..] == [] && ps[1..][0] == ps[1];
    assert Me(ps[1..], user) == if ps[1].user == user then Some(ps[1]) else None;
  }

  // ----- the read flag -----

  /** The `read` flag of `mapMessage`. */
  predicate ReadFlag(m: Message, user: UserId, lastReadAt: Option<nat>) {
    m.sender == user || (lastReadAt.Some? && m.createdAt <= lastReadAt.value)
  }

  /** The messages of one conversation. */
  function Thread(messages: seq<Message>, id: ConversationId): seq<Message> {
    if messages == [] then []
    else (if messages[0].conversation == id then [messages[0]] else []) + Thread(messages[1..], id)
  }

  /** How many messages of the list `mapMessage` shows as unread. */
  function UnreadShown(messages: seq<Message>, user: UserId, lastReadAt: Option<nat>): nat {
    if messages == [] then 0
    else (if ReadFlag(messages[0], user, lastReadAt) then 0 else 1) + UnreadShown(messages[1..], user, lastReadAt)
  }

  // ----- loadUnreadCounts -----

  /** One element of the OR filter. */
  datatype UnreadFilter = UnreadFilter(conversation: ConversationId, after: Option<nat>)

  function FilterOf(c: Conversation, user: UserId): UnreadFilter {
    UnreadFilter(c.id, LastRead(c, user))
  }

  function FiltersOf(conversations: seq<Conversation>, user: UserId): seq<UnreadFilter> {
    seq(|conversations|, i requires 0 <= i < |conversations| => FilterOf(conversations[i], user))
  }

  predicate Passes(m: Message, f: UnreadFilter) {
    m.conversation == f.conversation && (f.after.Some? ==> m.createdAt > f.after.value)
  }

  predicate Selected(m: Message, user: UserId, filters: seq<UnreadFilter>) {
    m.sender != user && exists i :: 0 <= i < |filters| && Passes(m, filters[i])
  }

  /** `groupBy` with `_count`: groups without a row do not appear. */
  function GroupCounts(messages: seq<Message>, user: UserId, filters: seq<UnreadFilter>): map<ConversationId, nat> {
    if messages == [] then map[]
    else
      var m := messages[0];
      var rest := GroupCounts(messages[1..], user, filters);
      if Selected(m, user, filters) then
        rest[m.conversation := (if m.conversation in rest then rest[m.conversation] else 0) + 1]
      else rest
  }

  function LoadUnreadCounts(messages: seq<Message>, conversations: seq<Conversation>, user: UserId)
    : map<ConversationId, nat>
  {
    if conversations == [] then map[] else GroupCounts(messages, user, FiltersOf(conversations, user))
  }

  /** `unreadCounts.get(id) ?? 0` */
  function CountFor(counts: map<ConversationId, nat>, id: ConversationId): nat {
    if id in counts then counts[id] else 0
  }

  predicate DistinctIds(conversations: seq<Conversation>) {
    forall i, j :: 0 <= i < j < |conversations| ==> conversations[i].id != conversations[j].id
  }

  lemma SelectedIsUnread(m: Message, conversations: seq<Conversation>, user: UserId, k: nat)
    requires DistinctIds(conversations) && k < |conversations| && m.conversation == conversations[k].id
    ensures Selected(m, user, FiltersOf(conversations, user)) <==> !ReadFlag(m, user, LastRead(conversations[k], user))
  {
    var filters := FiltersOf(conversations, user);
    assert filters[k] == FilterOf(conversations[k], user);
    forall i | 0 <= i < |filters| && i != k
      ensures !Passes(m, filters[i])
    {
      assert conversations[i].id != conversations[k].id;
    }
  }

  lemma {:induction false} GroupCountIsUnread(messages: seq<Message>, conversations: seq<Conversation>, user: UserId, k: nat)
    requires DistinctIds(conversations) && k < |conversations|
    ensures
      CountFor(GroupCounts(messages, user, FiltersOf(conversations, user)), conversations[k].id)
      == UnreadShown(Thread(messages, conversations[k].id), user, LastRead(conversations[k], user))
  {
    if messages != [] {
      var id := conversations[k].id;
      GroupCountIsUnread(messages[1..], conversations, user, k);
      if messages[0].conversation == id {
        SelectedIsUnread(messages[0], conversations, user, k);
        assert Thread(messages, id)[1..] == Thread(messages[1..], id);
      } else {
        assert Thread(messages, id) == Thread(messages[1..], id);
      }
    }
  }

  /** Unread agreement: the badge of a conversation in any list is exactly the number of its messages
      that the message view marks as unread. */
  lemma UnreadAgreement(messages: seq<Message>, conversations: seq<Conversation>, user: UserId, k: nat)
    requires DistinctIds(conversations) && k < |conversations|
    ensures
      CountFor(LoadUnreadCounts(messages, conversations, user), conversations[k].id)
      == UnreadShown(Thread(messages, conversations[k].id), user, LastRead(conversations[k], user))
  {
    GroupCountIsUnread(messages, conversations, user, k);
  }

  // ----- how the counts change -----

  lemma {:induction false} ThreadAppend(messages: seq<Message>, m: Message, id: ConversationId)
    ensures Thread(messages + [m], id) == Thread(messages, id) + (if m.conversation == id then [m] else [])
  {
    if messages != [] {
      assert (messages + [m])[1..] == messages[1..] + [m];
      ThreadAppend(messages[1..], m, id);
    } else {
      assert [m][1..] == [];
    }
  }

  lemma {:induction false} UnreadAppend(messages: seq<Message>, m: Message, user: UserId, lastReadAt: Option<nat>)
    ensures UnreadShown(messages + [m], user, lastReadAt)
         == UnreadShown(messages, user, lastReadAt) + (if ReadFlag(m, user, lastReadAt) then 0 else 1)
  {
    if messages != [] {
      assert (messages + [m])[1..] == messages[1..] + [m];
      UnreadAppend(messages[1..], m, user, lastReadAt);
    } else {
      assert [m][1..] == [];
    }
  }

  lemma BadgeAfter(messages: seq<Message>, m: Message, id: ConversationId, user: UserId, lastReadAt: Option<nat>)
    ensures UnreadShown(Thread(messages + [m], id), user, lastReadAt)
         == UnreadShown(Thread(messages, id), user, lastReadAt)
            + (if m.conversation == id && !ReadFlag(m, user, lastReadAt) then 1 else 0)
  {
    ThreadAppend(messages, m, id);
    UnreadAppend(Thread(messages, id), m, user, lastReadAt);
    assert Thread(messages, id) + [] == Thread(messages, id);
  }

  lemma {:induction false} NoneUnread(messages: seq<Message>, user: UserId, at: nat)
    requires forall i :: 0 <= i < |messages| ==> messages[i].sender != user ==> messages[i].createdAt <= at
    ensures UnreadShown(messages, user, Some(at)) == 0
  {
    if messages != [] {
      NoneUnread(messages[1..], user, at);
    }
  }

  lemma {:induction false} InThread(messages: seq<Message>, id: ConversationId, m: Message)
    requires m in Thread(messages, id)
    ensures m in messages && m.conversation == id
  {
    if m !in (if messages[0].conversation == id then [messages[0]] else []) {
      InThread(messages[1..], id, m);
    }
  }

  /** `conversationParticipant.update` of `markRead`. */
  function Touched(participants: seq<Participant>, user: UserId, at: nat): seq<Participant> {
    seq(|participants|, i requires 0 <= i < |participants| =>
      if participants[i].user == user then participants[i].(lastReadAt := Some(at)) else participants[i])
  }

  lemma {:induction false} TouchedMe(participants: seq<Participant>, user: UserId, other: UserId, at: nat)
    ensures Me(Touched(participants, user, at), other)
         == if other != user then Me(participants, other)
            else if Me(participants, user).Some? then Some(Participant(user, Some(at))) else None
  {
    if participants != [] {
      assert Touched(participants, user, at)[1..] == Touched(participants[1..], user, at);
      TouchedMe(participants[1..], user, other, at);
    }
  }

  // ----- participants -----

  /** Exactly the two people, in either order. */
  predicate Between(c: Conversation, a: UserId, b: UserId) {
    |c.participants| == 2
    && ((c.participants[0].user == a && c.participants[1].user == b)
        || (c.participants[0].user == b && c.participants[1].user == a))
  }

  /** The `where` clause of `create`: both take part, and nobody else does. */
  predicate Matches(c: Conversation, listing: Option<nat>, a: UserId, b: UserId) {
    && c.listing == listing
    && (exists i :: 0 <= i < |c.participants| && c.participants[i].user == a)
    && (exists i :: 0 <= i < |c.participants| && c.participants[i].user == b)
    && !exists i :: 0 <= i < |c.participants| && c.participants[i].user != a && c.participants[i].user != b
  }

  predicate TwoPeople(c: Conversation) {
    |c.participants| == 2 && c.participants[0].user != c.participants[1].user
  }

  lemma MatchIsBetween(c: Conversation, listing: Option<nat>, a: UserId, b: UserId)
    requires TwoPeople(c) && a != b
    ensures Matches(c, listing, a, b) <==> c.listing == listing && Between(c, a, b)
  {
    if Between(c, a, b) {
      var i := if c.participants[0].user == a then 0 else 1;
      assert c.participants[i].user == a && c.participants[1 - i].user == b;
    }
  }

  function UsersOf(c: Conversation): set<UserId> {
    set i | 0 <= i < |c.participants| :: c.participants[i].user
  }

  /** The query itself, on any conversation: the users in it are these two and nobody else. */
  lemma MatchIsExact(c: Conversation, listing: Option<nat>, a: UserId, b: UserId)
    ensures Matches(c, listing, a, b) <==> c.listing == listing && UsersOf(c) == {a, b}
  {
    if Matches(c, listing, a, b) {
      forall u
        ensures u in UsersOf(c) <==> u in {a, b}
      {
      }
    }
    if UsersOf(c) == {a, b} {
      assert a in UsersOf(c) && b in UsersOf(c);
      forall i | 0 <= i < |c.participants|
        ensures c.participants[i].user in {a, b}
      {
        assert c.participants[i].user in UsersOf(c);
      }
    }
  }

  type ConversationTable = map<ConversationId, Conversation>

  /** Every conversation is between two people, and no two of them share a listing and the people. */
  ghost predicate Identified(table: ConversationTable) {
    && (forall id :: id in table ==> table[id].id == id && TwoPeople(table[id]))
    && (forall i, j, a, b | i in table && j in table && table[i].listing.Some? && a != b ::
          Between(table[i], a, b) && Between(table[j], a, b) && table[i].listing == table[j].listing ==> i == j)
  }

  /** `ON DELETE SET NULL` of the listing. */
  function Orphaned(table: ConversationTable, listing: nat): ConversationTable {
    map id | id in table ::
      if table[id].listing == Some(listing) then table[id].(listing := None) else table[id]
  }

  lemma OrphanedIdentified(table: ConversationTable, listing: nat)
    requires Identified(table)
    ensures Identified(Orphaned(table, listing))
  {
  }

  /** Whoever of the two asks, and however the query picks, the conversation about a listing is the same. */
  lemma SameConversation(table: ConversationTable, i: ConversationId, j: ConversationId, listing: nat, a: UserId, b: UserId)
    requires Identified(table) && a != b && i in table && j in table
    requires Matches(table[i], Some(listing), a, b) && Matches(table[j], Some(listing), b, a)
    ensures i == j
  {
    MatchIsBetween(table[i], Some(listing), a, b);
    MatchIsBetween(table[j], Some(listing), b, a);
  }

  /** Without a listing that fails: deleting two listings leaves the same two people with two
      conversations that the query cannot tell apart. */
  lemma OrphansCollide(a: UserId, b: UserId, first: nat, second: nat) returns (table: ConversationTable)
    requires a != b && first != second
    ensures Identified(table)
    ensures
      var left := Orphaned(Orphaned(table, first), second);
      Identified(left) && 0 in left && 1 in left && Matches(left[0], None, a, b) && Matches(left[1], None, a, b)
  {
    var people := [Participant(a, None), Participant(b, None)];
    table := map[0 := Conversation(0, Some(first), people), 1 := Conversation(1, Some(second), people)];
    OrphanedIdentified(table, first);
    OrphanedIdentified(Orphaned(table, first), second);
    var left := Orphaned(Orphaned(table, first), second);
    MatchIsBetween(left[0], None, a, b);
    MatchIsBetween(left[1], None, a, b);
  }

  /** The table after `markRead`. */
  function Marked(table: ConversationTable, id: ConversationId, user: UserId, at: nat): ConversationTable
    requires id in table
  {
    table[id := table[id].(participants := Touched(table[id].participants, user, at))]
  }

  lemma MarkedKeepsIdentity(table: ConversationTable, id: ConversationId, user: UserId, at: nat)
    requires Identified(table) && id in table
    ensures Identified(Marked(table, id, user, at))
  {
    forall a, b
      ensures Between(Marked(table, id, user, at)[id], a, b) <==> Between(table[id], a, b)
    {
    }
  }

  lemma {:induction false} NoMessages(messages: seq<Message>, id: ConversationId)
    ensures (forall m :: m in messages ==> m.conversation != id) ==> Thread(messages, id) == []
  {
    if messages != [] {
      NoMessages(messages[1..], id);
    }
  }

  lemma ReadUpTo(messages: seq<Message>, id: ConversationId, user: UserId, at: nat)
    ensures (forall m :: m in messages && m.conversation == id ==> m.createdAt <= at) ==>
              UnreadShown(Thread(messages, id), user, Some(at)) == 0
  {
    if forall m :: m in messages && m.conversation == id ==> m.createdAt <= at {
      forall i | 0 <= i < |Thread(messages, id)|
        ensures Thread(messages, id)[i].createdAt <= at
      {
        InThread(messages, id, Thread(messages, id)[i]);
      }
      NoneUnread(Thread(messages, id), user, at);
    }
  }

  // ----- the service -----

  /** A row of `user_blocks`. */
  datatype Block = Block(blocker: UserId, blocked: UserId)

  function BadgeOf(messages: seq<Message>, c: Conversation, id: ConversationId, user: UserId): nat {
    UnreadShown(Thread(messages, id), user, LastRead(c, user))
  }

  datatype ServiceError = BadRequest | NotFound | Forbidden

  class ConversationsService {
    var users: set<UserId>
    var listings: set<nat>
    var blocks: set<Block>
    var conversations: ConversationTable
    var messages: seq<Message>
    var nextId: nat

    ghost predicate Valid()
      reads this
    {
      && Identified(conversations)
      && (forall id :: id in conversations ==> id < nextId)
      && (forall m :: m in messages ==> m.conversation in conversations)
    }

    /** The unread badge that `findMine` shows to `user`, by the agreement above. */
    ghost function Badge(id: ConversationId, user: UserId): nat
      requires id in conversations
      reads this
    {
      BadgeOf(messages, conversations[id], id, user)
    }

    predicate TakesPart(id: ConversationId, user: UserId)
      reads this
    {
      id in conversations && Me(conversations[id].participants, user).Some?
    }

    /** Somebody else in the conversation has blocked the user. */
    predicate BlockedIn(id: ConversationId, user: UserId)
      requires id in conversations
      reads this
    {
      var people := conversations[id].participants;
      exists i :: 0 <= i < |people| && people[i].user != user && Block(people[i].user, user) in blocks
    }

    constructor ()
      ensures Valid() && conversations == map[] && messages == []
    {
      users, listings, blocks, conversations, messages, nextId := {}, {}, {}, map[], [], 0;
    }

    /** `create`, as one atomic request: finds the conversation of the two people about the listing,
        or starts it. */
    method Create(user: UserId, participant: UserId, listing: Option<nat>) returns (r: Result<ConversationId, ServiceError>)
      requires Valid()
      modifies this`conversations, this`nextId
      ensures Valid()
      ensures
        r == Err(BadRequest) <==> participant == user
      ensures
        r == Err(NotFound) <==>
        participant != user && (participant !in users || (listing.Some? && listing.value !in listings))
      ensures r != Err(Forbidden)
      ensures r.Err? ==> conversations == old(conversations)
      ensures r.Ok? ==> r.value in conversations && Matches(conversations[r.value], listing, user, participant)
      ensures r.Ok? ==> conversations[r.value].listing == listing && Between(conversations[r.value], user, participant)
      ensures
        r.Ok? ==>
          if exists id :: id in old(conversations)
                          && old(conversations)[id].listing == listing && Between(old(conversations)[id], user, participant)
          then r.value in old(conversations) && conversations == old(conversations)
          else
            && r.value !in old(conversations) && conversations - {r.value} == old(conversations)
            && (forall i :: 0 <= i < 2 ==> conversations[r.value].participants[i].lastReadAt == None)
            && forall u :: Badge(r.value, u) == 0
    {
      forall id | id in conversations
        ensures Matches(conversations[id], listing, user, participant) && user != participant <==>
                conversations[id].listing == listing && Between(conversations[id], user, participant) && user != participant
      {
        if user != participant {
          MatchIsBetween(conversations[id], listing, user, participant);
        }
      }
      if participant == user {
        return Err(BadRequest);
      }
      if participant !in users {
        return Err(NotFound);
      }
      if listing.Some? && listing.value !in listings {
        return Err(NotFound);
      }
      if exists id :: id in conversations && Matches(conversations[id], listing, user, participant) {
        var id :| id in conversations && Matches(conversations[id], listing, user, participant);
        return Ok(id);
      }
      var started := Conversation(nextId, listing, [Participant(user, None), Participant(participant, None)]);
      MatchIsBetween(started, listing, user, participant);
      StartKeepsIdentity(conversations, started, user, participant);
      NoMessages(messages, nextId);
      conversations := conversations[nextId := started];
      r := Ok(nextId);
      nextId := nextId + 1;
    }

    /** Why a message is refused: the sender takes no part, there is nothing in it, or somebody else in the
        conversation has blocked the sender. */
    method Refusal(id: ConversationId, user: UserId, hasContent: bool) returns (e: Option<ServiceError>)
      requires Valid()
      ensures e == Some(NotFound) <==>
              !(id in conversations && exists i :: 0 <= i < |conversations[id].participants| && conversations[id].participants[i].user == user)
      ensures e == Some(BadRequest) <==> e != Some(NotFound) && !hasContent
      ensures e == Some(Forbidden) <==>
              && e != Some(NotFound) && hasContent
              && exists i :: 0 <= i < |conversations[id].participants| && conversations[id].participants[i].user != user
                             && Block(conversations[id].participants[i].user, user) in blocks
    {
      if id in conversations {
        LastReadIsOwn(conversations[id], user);
      }
      if !TakesPart(id, user) {
        return Some(NotFound);
      }
      if !hasContent {
        return Some(BadRequest);
      }
      if BlockedIn(id, user) {
        return Some(Forbidden);
      }
      return None;
    }

    /** `sendMessageInternal`: the badge of everybody else in the conversation goes up by one, unless
        they have already read up to this very moment; no other badge moves. */
    method SendMessage(id: ConversationId, user: UserId, hasContent: bool, at: nat) returns (r: Result<Message, ServiceError>)
      requires Valid()
      modifies this`messages
      ensures Valid()
      ensures r.Err? ==> messages == old(messages)
      ensures r.Ok? ==> id in conversations && r.value == Message(id, user, at) && messages == old(messages) + [r.value]
      ensures r.Ok? ==> forall k, u :: k in conversations ==>
                Badge(k, u) == old(Badge(k, u)) + (if k == id && !ReadFlag(r.value, u, LastRead(conversations[k], u)) then 1 else 0)
      ensures r.Ok? ==> forall k, i :: k in conversations && 0 <= i < |conversations[k].participants| ==>
                var p := conversations[k].participants[i];
                Badge(k, p.user)
                == old(Badge(k, p.user))
                   + (if k == id && p.user != user && (p.lastReadAt.None? || p.lastReadAt.value < at) then 1 else 0)
      ensures r == Err(NotFound) <==>
              !(id in conversations && exists i :: 0 <= i < |conversations[id].participants| && conversations[id].participants[i].user == user)
      ensures r == Err(BadRequest) <==> r != Err(NotFound) && !hasContent
      ensures r == Err(Forbidden) <==>
              && r != Err(NotFound) && hasContent
              && exists i :: 0 <= i < |conversations[id].participants| && conversations[id].participants[i].user != user
                             && Block(conversations[id].participants[i].user, user) in blocks
    {
      hide BadgeOf, LastRead, Identified, Matches, Me;
      var refusal := Refusal(id, user, hasContent);
      if refusal.Some? {
        return Err(refusal.value);
      }
      var m := Message(id, user, at);
      Append(m);
      r := Ok(m);
    }

    /** The insert: it raises the badges of those who have not read up to its time, and no others. */
    method Append(m: Message)
      requires Valid() && m.conversation in conversations
      modifies this`messages
      ensures Valid() && messages == old(messages) + [m]
      ensures forall k, u :: k in conversations ==>
                Badge(k, u) == old(Badge(k, u))
                               + (if k == m.conversation && !ReadFlag(m, u, LastRead(conversations[k], u)) then 1 else 0)
      ensures forall k, i :: k in conversations && 0 <= i < |conversations[k].participants| ==>
                var p := conversations[k].participants[i];
                Badge(k, p.user)
                == old(Badge(k, p.user))
                   + (if k == m.conversation && p.user != m.sender && (p.lastReadAt.None? || p.lastReadAt.value < m.createdAt)
                      then 1 else 0)
    {
      ghost var was := messages;
      forall k, u | k in conversations
        ensures BadgeOf(was + [m], conversations[k], k, u)
             == BadgeOf(was, conversations[k], k, u)
                + (if k == m.conversation && !ReadFlag(m, u, LastRead(conversations[k], u)) then 1 else 0)
      {
        BadgeAfter(was, m, k, u, LastRead(conversations[k], u));
      }
      forall k, i | k in conversations && 0 <= i < |conversations[k].participants|
        ensures LastRead(conversations[k], conversations[k].participants[i].user) == conversations[k].participants[i].lastReadAt
      {
        LastReadIsOwn(conversations[k], conversations[k].participants[i].user);
      }
      hide BadgeOf, LastRead, Identified;
      messages := messages + [m];
    }

    /** `markRead`: at a time not before any message of the conversation it clears the caller's badge,
        and it touches no other badge. */
    method MarkRead(id: ConversationId, user: UserId, at: nat) returns (r: Result<(), ServiceError>)
      requires Valid()
      modifies this`conversations
      ensures Valid() && conversations.Keys == old(conversations.Keys)
      ensures r.Err? <==>
              !(id in conversations && exists i :: 0 <= i < |old(conversations)[id].participants| && old(conversations)[id].participants[i].user == user)
      ensures r == Err(NotFound) || r.Ok?
      ensures r.Ok? ==> forall k :: k in conversations ==>
                var was, now := old(conversations)[k], conversations[k];
                && now.id == was.id && now.listing == was.listing && |now.participants| == 2
                && forall i :: 0 <= i < 2 ==>
                     && now.participants[i].user == was.participants[i].user
                     && now.participants[i].lastReadAt
                        == if k == id && was.participants[i].user == user then Some(at) else was.participants[i].lastReadAt
      ensures r.Err? ==> conversations == old(conversations)
      ensures r.Ok? ==> conversations == Marked(old(conversations), id, user, at)
      ensures r.Ok? ==> ((forall m :: m in messages && m.conversation == id ==> m.createdAt <= at) ==> Badge(id, user) == 0)
      ensures forall k, u :: k in conversations && (k != id || u != user) ==> Badge(k, u) == old(Badge(k, u))
    {
      if id in conversations {
        LastReadIsOwn(conversations[id], user);
      }
      if !TakesPart(id, user) {
        return Err(NotFound);
      }
      MarkedKeepsIdentity(conversations, id, user, at);
      forall u {
        TouchedMe(conversations[id].participants, user, u, at);
      }
      ReadUpTo(messages, id, user, at);
      conversations := Marked(conversations, id, user, at);
      r := Ok(());
    }

    /** Deleting a listing keeps its conversations, without the listing. */
    method RemoveListing(listing: nat)
      requires Valid()
      modifies this`conversations, this`listings
      ensures Valid() && conversations.Keys == old(conversations).Keys && listings == old(listings) - {listing}
      ensures forall k :: k in conversations ==>
        var was, now := old(conversations)[k], conversations[k];
        && now.id == was.id && now.participants == was.participants
        && now.listing == if was.listing == Some(listing) then None else was.listing
    {
      OrphanedIdentified(conversations, listing);
      listings := listings - {listing};
      conversations := Orphaned(conversations, listing);
    }
  }

  lemma StartKeepsIdentity(table: ConversationTable, c: Conversation, a: UserId, b: UserId)
    requires Identified(table) && c.id !in table && TwoPeople(c) && Between(c, a, b)
    requires forall id :: id in table ==> !Matches(table[id], c.listing, a, b)
    ensures Identified(table[c.id := c])
  {
    var next := table[c.id := c];
    forall i, x, y | i in table && x != y && Between(table[i], x, y) && Between(c, x, y) && table[i].listing == c.listing
      ensures false
    {
      MatchIsBetween(table[i], c.listing, a, b);
    }
  }
}
