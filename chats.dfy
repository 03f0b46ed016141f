/** The chats app: conversations between users, their messages in time order, the
    conversation reused when two users start talking again, and the receiver chosen for
    a new message. */
module Chats {
  import opened Common
  import opened Tables
  import opened Sorting
  import Accounts
  import Notifications

  /** `participants` lists each user once, in the order they were added. */
  datatype Conversation = Conversation(id: Id, participants: seq<Id>, createdAt: Time)

  datatype Message = Message(
    id: Id,
    conversation: Id,
    sender: Id,
    receiver: Id,
    content: string,
    isRead: bool,
    timestamp: Time)

  // ---------------------------------------------------------------------------
  // Conversation.__str__
  // ---------------------------------------------------------------------------

  const TitlePrefix: string := "Conversation between "

  function ConversationTitle(usernames: seq<string>): (r: string)
    ensures IsPrefix(TitlePrefix, r)
    ensures usernames == [] ==> r == TitlePrefix
    ensures |usernames| == 1 ==> r == TitlePrefix + usernames[0]
  {
    TitlePrefix + Join(usernames, ", ")
  }

  /** The title of a conversation between two users names both, in order, and nothing
      else. */
  lemma TitleOfPair(a: string, b: string)
    ensures ConversationTitle([a, b]) == TitlePrefix + a + ", " + b
  {
    assert [a, b][1..] == [b];
  }

  /** Each further participant adds ", " and their username to the end of the title, so
      the title lists every participant once, in order. */
  lemma TitleAppend(usernames: seq<string>, u: string)
    requires |usernames| >= 1
    ensures ConversationTitle(usernames + [u]) == ConversationTitle(usernames) + ", " + u
  {
    JoinAppend(usernames, u, ", ");
  }

  // ---------------------------------------------------------------------------
  // Queries
  // ---------------------------------------------------------------------------

  function IncludesTarget(user: Id): Conversation -> bool { (c: Conversation) => user in c.participants }

  /** `ConversationListView.get_queryset`: exactly the conversations the user takes part in. */
  function ConversationsOf(cs: seq<Conversation>, user: Id): (r: seq<Conversation>)
    ensures forall c :: c in r <==> c in cs && user in c.participants
    ensures multiset(r) <= multiset(cs)
  {
    Filter(cs, IncludesTarget(user))
  }

  predicate Between(c: Conversation, a: Id, b: Id) {
    a in c.participants && b in c.participants
  }

  /** `Conversation.objects.filter(participants=a).filter(participants=b).first()`: the
      oldest conversation both users take part in. */
  function SharedConversation(cs: seq<Conversation>, a: Id, b: Id): (r: Option<nat>)
    ensures r.Some? ==> r.value < |cs| && Between(cs[r.value], a, b)
    ensures r.Some? ==> forall k :: 0 <= k < r.value ==> !Between(cs[k], a, b)
    ensures r.None? ==> forall k :: 0 <= k < |cs| ==> !Between(cs[k], a, b)
  {
    FindFirst(cs, (c: Conversation) => Between(c, a, b))
  }

  /** `participants.add(user, receiver)` on a fresh conversation; adding a user twice
      stores them once. */
  function NewParticipants(user: Id, receiver: Id): (r: seq<Id>)
    ensures user in r && receiver in r
    ensures forall x :: x in r ==> x == user || x == receiver
    ensures forall i, j :: 0 <= i < j < |r| ==> r[i] != r[j]
  {
    if user == receiver then [user] else [user, receiver]
  }

  /** Once a conversation between two users has been created, starting one again finds
      that same conversation. */
  lemma StartedConversationIsFound(cs: seq<Conversation>, user: Id, receiver: Id, id: Id, now: Time)
    requires SharedConversation(cs, user, receiver).None?
    ensures SharedConversation(cs + [Conversation(id, NewParticipants(user, receiver), now)], user, receiver) == Some(|cs|)
  {
    var cs' := cs + [Conversation(id, NewParticipants(user, receiver), now)];
    var r := SharedConversation(cs', user, receiver);
    assert Between(cs'[|cs|], user, receiver);
    assert forall k :: 0 <= k < |cs| ==> cs'[k] == cs[k];
  }

  /** `[p for p in participants if p != user][0]`: the first other participant, or
      nothing, which the view turns into an `IndexError`. */
  function ReceiverFor(participants: seq<Id>, user: Id): (r: Option<Id>)
    ensures r.Some? ==> r.value in participants && r.value != user
    ensures r.Some? ==> exists k :: 0 <= k < |participants| && participants[k] == r.value
                                    && forall i :: 0 <= i < k ==> participants[i] == user
    ensures r.None? <==> forall p :: p in participants ==> p == user
  {
    match FindFirst(participants, (p: Id) => p != user)
    case None => None
    case Some(k) => Some(participants[k])
  }

  /** In a two-user conversation, each side's messages go to the other. */
  lemma ReceiverInPair(user: Id, receiver: Id)
    requires user != receiver
    ensures ReceiverFor(NewParticipants(user, receiver), user) == Some(receiver)
    ensures ReceiverFor(NewParticipants(user, receiver), receiver) == Some(user)
  {
    assert NewParticipants(user, receiver)[0] == user;
    assert NewParticipants(user, receiver)[1] == receiver;
  }

  function InConversation(conversation: Id): Message -> bool { (m: Message) => m.conversation == conversation }

  predicate NoLater(a: Message, b: Message) {
    a.timestamp <= b.timestamp
  }

  /** `MessageListCreateView.get_queryset` with `Meta.ordering = ['timestamp']`: only the
      messages of the conversation, oldest first. */
  function MessagesOf(ms: seq<Message>, conversation: Id): (r: seq<Message>)
    ensures forall m :: m in r <==> m in ms && m.conversation == conversation
    ensures multiset(r) == multiset(Filter(ms, InConversation(conversation)))
    ensures forall i, j :: 0 <= i < j < |r| ==> r[i].timestamp <= r[j].timestamp
  {
    var mine := Filter(ms, InConversation(conversation));
    SortBySorted(mine, NoLater);
    var r := SortBy(mine, NoLater);
    assert forall m :: m in r <==> m in mine by {
      forall m ensures m in r <==> m in mine {
        assert m in r <==> m in multiset(r);
        assert m in mine <==> m in multiset(mine);
      }
    }
    r
  }

  /** The position of a message of the conversation with the latest timestamp. */
  function LatestOf(ms: seq<Message>, conversation: Id): (r: Option<nat>)
    ensures r.Some? ==> r.value < |ms| && ms[r.value].conversation == conversation
    ensures r.Some? ==> forall k :: 0 <= k < |ms| && ms[k].conversation == conversation ==> ms[k].timestamp <= ms[r.value].timestamp
    ensures r.None? <==> forall k :: 0 <= k < |ms| ==> ms[k].conversation != conversation
  {
    if ms == [] then None
    else
      var last := |ms| - 1;
      var r := LatestOf(ms[..last], conversation);
      assert forall k :: 0 <= k < last ==> ms[..last][k] == ms[k];
      if ms[last].conversation != conversation then r
      else if r.Some? && ms[last].timestamp <= ms[r.value].timestamp then r
      else Some(last)
  }

  /** `Conversation.last_message`: nothing exactly when the conversation has no message;
      otherwise one of its messages, with no message of it later. */
  function LastMessage(ms: seq<Message>, conversation: Id): (r: Option<Message>)
    ensures r.None? <==> forall m :: m in ms ==> m.conversation != conversation
    ensures r.Some? ==> r.value in ms && r.value.conversation == conversation
    ensures r.Some? ==> forall m :: m in ms && m.conversation == conversation ==> m.timestamp <= r.value.timestamp
  {
    match LatestOf(ms, conversation)
    case None => None
    case Some(k) => Some(ms[k])
  }

  // ---------------------------------------------------------------------------
  // Integrity and the store
  // ---------------------------------------------------------------------------

  function ConversationId(c: Conversation): Id { c.id }
  function MessageId(m: Message): Id { m.id }

  function ConversationIds(cs: seq<Conversation>): set<Id> {
    set c | c in cs :: c.id
  }

  /** Unique ids below the counters, participants listed once each, and every message in
      a stored conversation. */
  ghost predicate ChatTablesOk(cs: seq<Conversation>, nextC: Id, ms: seq<Message>, nextM: Id) {
    && (forall c :: c in cs ==> c.id < nextC && (forall i, j :: 0 <= i < j < |c.participants| ==> c.participants[i] != c.participants[j]))
    && UniqueKeys(cs, ConversationId)
    && (forall m :: m in ms ==> m.id < nextM && m.conversation in ConversationIds(cs))
    && UniqueKeys(ms, MessageId)
  }

  lemma AddConversationKeepsTables(cs: seq<Conversation>, nextC: Id, ms: seq<Message>, nextM: Id, c: Conversation)
    requires ChatTablesOk(cs, nextC, ms, nextM) && c.id == nextC
    requires forall i, j :: 0 <= i < j < |c.participants| ==> c.participants[i] != c.participants[j]
    ensures ChatTablesOk(cs + [c], nextC + 1, ms, nextM)
  {
    AppendKeepsUniqueKeys(cs, ConversationId, c);
    assert ConversationIds(cs + [c]) == ConversationIds(cs) + {c.id};
  }

  lemma AddMessageKeepsTables(cs: seq<Conversation>, nextC: Id, ms: seq<Message>, nextM: Id, m: Message)
    requires ChatTablesOk(cs, nextC, ms, nextM) && m.id == nextM && m.conversation in ConversationIds(cs)
    ensures ChatTablesOk(cs, nextC, ms + [m], nextM + 1)
  {
    AppendKeepsUniqueKeys(ms, MessageId, m);
  }

  function ConversationIndex(cs: seq<Conversation>, pk: Id): (r: Option<nat>)
    ensures r.Some? ==> r.value < |cs| && cs[r.value].id == pk
    ensures r.None? ==> pk !in ConversationIds(cs)
  {
    FindFirst(cs, (c: Conversation) => c.id == pk)
  }

  class ChatStore {
    var conversations: seq<Conversation>
    var messages: seq<Message>
    var nextConversationId: Id
    var nextMessageId: Id

    ghost predicate Valid()
      reads this
    {
      ChatTablesOk(conversations, nextConversationId, messages, nextMessageId)
    }

    constructor ()
      ensures Valid() && conversations == [] && messages == []
    {
      conversations, messages, nextConversationId, nextMessageId := [], [], 1, 1;
    }

    /** `StartConversationView.post`: 404 for an unknown receiver; the oldest conversation
        both users share when there is one; otherwise exactly one new conversation between
        them. The answer is 201 in both of the last two cases. */
    method StartConversation(user: Id, receiver: Id, accounts: Accounts.AccountStore, now: Time)
      returns (st: Status, conversation: Option<Id>)
      requires Valid()
      modifies this
      ensures Valid() && messages == old(messages) && nextMessageId == old(nextMessageId)
      ensures !accounts.HasUser(receiver) ==> st == NotFound && conversation.None? && unchanged(this)
      ensures accounts.HasUser(receiver) && SharedConversation(old(conversations), user, receiver).Some? ==>
                && st == Created
                && conversation == Some(old(conversations)[SharedConversation(old(conversations), user, receiver).value].id)
                && unchanged(this)
      ensures accounts.HasUser(receiver) && SharedConversation(old(conversations), user, receiver).None? ==>
                && st == Created
                && conversation == Some(old(nextConversationId))
                && conversations == old(conversations) + [Conversation(old(nextConversationId), NewParticipants(user, receiver), now)]
                && SharedConversation(conversations, user, receiver) == Some(|old(conversations)|)
    {
      if !accounts.HasUser(receiver) {
        return NotFound, None;
      }
      var shared := SharedConversation(conversations, user, receiver);
      if shared.Some? {
        return Created, Some(conversations[shared.value].id);
      }
      var c := Conversation(nextConversationId, NewParticipants(user, receiver), now);
      StartedConversationIsFound(conversations, user, receiver, nextConversationId, now);
      AddConversationKeepsTables(conversations, nextConversationId, messages, nextMessageId, c);
      conversations := conversations + [c];
      nextConversationId := nextConversationId + 1;
      st, conversation := Created, Some(c.id);
    }

    /** `MessageListCreateView.perform_create`: the body needs content and a stored
        conversation; the conversation of the URL must exist; the sender is the requester
        and the receiver the first other participant, and a conversation with nobody else
        in it fails. The new message is announced to its receiver. */
    method SendMessage(requester: Id, conversationId: Id, bodyConversation: Id, content: string,
                       accounts: Accounts.AccountStore, inbox: Notifications.NotificationStore, now: Time)
      returns (st: Status)
      requires Valid() && inbox.Valid()
      modifies this, inbox
      ensures Valid() && inbox.Valid() && conversations == old(conversations)
      ensures content == "" || bodyConversation !in ConversationIds(old(conversations)) ==>
                st == BadRequest && unchanged(this) && unchanged(inbox)
      ensures content != "" && bodyConversation in ConversationIds(old(conversations)) ==>
                match ConversationIndex(old(conversations), conversationId)
                case None => st == NotFound && unchanged(this) && unchanged(inbox)
                case Some(k) =>
                  match ReceiverFor(old(conversations)[k].participants, requester)
                  case None => st == ServerError && unchanged(this) && unchanged(inbox)
                  case Some(to) =>
                    && st == Created
                    && messages == old(messages) + [Message(old(nextMessageId), conversationId, requester, to, content, false, now)]
                    && inbox.rows == old(inbox.rows) + [Notifications.Notification(old(inbox.nextId), Some(requester), to,
                         Notifications.MessageNote, Notifications.MessageText(accounts.UsernameOf(requester), content), None, false, now)]
    {
      if content == "" || bodyConversation !in ConversationIds(conversations) {
        return BadRequest;
      }
      var found := ConversationIndex(conversations, conversationId);
      if found.None? {
        return NotFound;
      }
      var to := ReceiverFor(conversations[found.value].participants, requester);
      if to.None? {
        return ServerError;
      }
      var m := Message(nextMessageId, conversationId, requester, to.value, content, false, now);
      assert conversationId in ConversationIds(conversations) by {
        assert conversations[found.value] in conversations;
      }
      AddMessageKeepsTables(conversations, nextConversationId, messages, nextMessageId, m);
      messages := messages + [m];
      nextMessageId := nextMessageId + 1;
      var _ := inbox.OnMessageSaved(requester, accounts.UsernameOf(requester), to.value, content, true, now);
      st := Created;
    }
  }
}
