/** The chat context on the client: the unread counter, the locally
    persisted clear time and deleted ids, the filtered message list, and the
    handlers for incoming messages, history, deletion, clearing and sending.
    The values the source keeps in local storage are fields here. */
module ChatClient {
  import opened Common

  /** `Math.max(0, length - lastRead)`. */
  function UnreadFor(length: nat, lastRead: int): (r: nat)
    ensures r == 0 <==> length <= lastRead
    ensures length > lastRead ==> r == length - lastRead
    ensures lastRead >= 0 ==> r <= length
  {
    if length > lastRead then length - lastRead else 0
  }

  /** The deleted-id list after `deleteMessage(id)`: appended only when absent. */
  function AddIfAbsent(ids: seq<string>, id: string): (r: seq<string>)
    ensures id in r
    ensures id in ids ==> r == ids
    ensures id !in ids ==> r == ids + [id]
  {
    if id in ids then ids else ids + [id]
  }

  /** No id occurs twice. */
  ghost predicate NoDuplicates(ids: seq<string>)
  {
    forall i, j :: 0 <= i < j < |ids| ==> ids[i] != ids[j]
  }

  lemma {:induction false} AddIfAbsentKeepsDistinct(ids: seq<string>, id: string)
    requires NoDuplicates(ids)
    ensures NoDuplicates(AddIfAbsent(ids, id))
  {
    if id !in ids {
      var r := ids + [id];
      forall i, j | 0 <= i < j < |r|
        ensures r[i] != r[j]
      {
        if j == |ids| {
          assert r[i] == ids[i];
          assert ids[i] in ids;
        }
      }
    }
  }

  /** `messages.filter(m => m.id !== id)`. */
  function RemoveMessage(messages: seq<ChatMessage>, id: string): (r: seq<ChatMessage>)
    ensures forall m :: m in r <==> m in messages && m.id != id
  {
    if messages == [] then []
    else if messages[0].id == id then RemoveMessage(messages[1..], id)
    else [messages[0]] + RemoveMessage(messages[1..], id)
  }

  /** The kept messages stay in their order: removal distributes over
      concatenation. */
  lemma {:induction false} RemoveMessageAppend(a: seq<ChatMessage>, b: seq<ChatMessage>, id: string)
    ensures RemoveMessage(a + b, id) == RemoveMessage(a, id) + RemoveMessage(b, id)
  {
    if a == [] {
      assert a + b == b;
    } else {
      assert (a + b)[0] == a[0] && (a + b)[1..] == a[1..] + b;
      RemoveMessageAppend(a[1..], b, id);
    }
  }

  /** Whether a message is shown: newer than the clear time and not deleted. */
  predicate Shown(m: ChatMessage, clearedAt: int, deletedIds: seq<string>)
  {
    m.timestamp > clearedAt && m.id !in deletedIds
  }

  /** `filteredMessages`. */
  function Visible(messages: seq<ChatMessage>, clearedAt: int, deletedIds: seq<string>): (r: seq<ChatMessage>)
    ensures forall m :: m in r <==> m in messages && Shown(m, clearedAt, deletedIds)
    ensures |r| <= |messages|
  {
    if messages == [] then []
    else
      var rest := Visible(messages[1..], clearedAt, deletedIds);
      if Shown(messages[0], clearedAt, deletedIds) then [messages[0]] + rest else rest
  }

  /** The filter keeps the original order: it distributes over concatenation. */
  lemma {:induction false} VisibleAppend(a: seq<ChatMessage>, b: seq<ChatMessage>, clearedAt: int, deletedIds: seq<string>)
    ensures Visible(a + b, clearedAt, deletedIds) == Visible(a, clearedAt, deletedIds) + Visible(b, clearedAt, deletedIds)
  {
    if a == [] {
      assert a + b == b;
    } else {
      assert (a + b)[0] == a[0] && (a + b)[1..] == a[1..] + b;
      VisibleAppend(a[1..], b, clearedAt, deletedIds);
    }
  }

  /** A message arriving after a delete of its id stays hidden; a message
      from before the clear time stays hidden. */
  lemma {:induction false} DeletedStaysHidden(messages: seq<ChatMessage>, m: ChatMessage, clearedAt: int,
                                              deletedIds: seq<string>, id: string)
    requires m.id == id
    ensures m !in Visible(messages + [m], clearedAt, AddIfAbsent(deletedIds, id))
    ensures m.timestamp <= clearedAt ==> m !in Visible(messages + [m], clearedAt, deletedIds)
  {
  }

  /** A call the chat context makes on the socket service. */
  datatype SocketCall = DisconnectCall | ConnectCall

  /** With no clear time and no deleted ids, every message stamped after
      time 0 is shown, in order. */
  lemma {:induction false} VisibleAfterReset(messages: seq<ChatMessage>)
    requires forall m :: m in messages ==> m.timestamp > 0
    ensures Visible(messages, 0, []) == messages
  {
    if messages != [] {
      assert forall m :: m in messages[1..] ==> m in messages;
      VisibleAfterReset(messages[1..]);
    }
  }

  /** The chat context's state. `lastRead`, `clearedAt` and `deletedIds`
      are the values the source keeps in local storage. */
  class ChatProvider {
    var messages: seq<ChatMessage>
    var unread: nat
    var modalOpen: bool
    var identity: Option<UserIdentity>
    var lastRead: int
    var clearedAt: int
    var deletedIds: seq<string>
    var error: Option<string>
    var errorTimers: nat

    ghost predicate Valid()
      reads this
    {
      NoDuplicates(deletedIds)
    }

    constructor (identity: Option<UserIdentity>, lastRead: int, clearedAt: int, deletedIds: seq<string>)
      requires NoDuplicates(deletedIds)
      ensures Valid()
      ensures messages == [] && unread == 0 && !modalOpen && this.identity == identity
      ensures this.lastRead == lastRead && this.clearedAt == clearedAt && this.deletedIds == deletedIds
      ensures error == None && errorTimers == 0
    {
      messages := [];
      unread := 0;
      modalOpen := false;
      this.identity := identity;
      this.lastRead := lastRead;
      this.clearedAt := clearedAt;
      this.deletedIds := deletedIds;
      error := None;
      errorTimers := 0;
    }

    /** The messages the context exposes: those shown, in their order. */
    function FilteredMessages(): (r: seq<ChatMessage>)
      reads this
      ensures forall m :: m in r <==> m in messages && Shown(m, clearedAt, deletedIds)
      ensures |r| <= |messages|
    {
      Visible(messages, clearedAt, deletedIds)
    }

    /** The unread effect, run after the messages or the modal state change:
        while closed with messages, unread is recomputed from the stored read
        count; while open, the read count becomes the message count. */
    method SyncUnread()
      requires Valid()
      modifies this
      ensures Valid()
      ensures !modalOpen && |messages| > 0 ==> unread == UnreadFor(|messages|, lastRead)
      ensures !modalOpen && |messages| == 0 ==> unread == old(unread)
      ensures modalOpen ==> unread == old(unread) && lastRead == |messages|
      ensures !modalOpen ==> lastRead == old(lastRead)
      ensures messages == old(messages) && modalOpen == old(modalOpen) && identity == old(identity)
      ensures clearedAt == old(clearedAt) && deletedIds == old(deletedIds)
      ensures error == old(error) && errorTimers == old(errorTimers)
    {
      if !modalOpen && |messages| > 0 {
        unread := UnreadFor(|messages|, lastRead);
      }
      if modalOpen {
        lastRead := |messages|;
      }
    }

    /** `setModalOpen`: opening clears the unread count. */
    method SetModalOpen(isOpen: bool)
      requires Valid()
      modifies this
      ensures Valid()
      ensures modalOpen == isOpen
      ensures isOpen ==> unread == 0 && lastRead == |messages|
      ensures !isOpen && |messages| > 0 ==> unread == UnreadFor(|messages|, lastRead)
      ensures !isOpen && |messages| == 0 ==> unread == old(unread)
      ensures !isOpen ==> lastRead == old(lastRead)
      ensures messages == old(messages) && identity == old(identity)
      ensures clearedAt == old(clearedAt) && deletedIds == old(deletedIds)
      ensures error == old(error) && errorTimers == old(errorTimers)
    {
      modalOpen := isOpen;
      if isOpen {
        unread := 0;
      }
      SyncUnread();
    }

    /** An incoming broadcast is appended. */
    method OnIncoming(m: ChatMessage)
      requires Valid()
      modifies this
      ensures Valid()
      ensures messages == old(messages) + [m]
      ensures !modalOpen ==> unread == UnreadFor(|messages|, lastRead) && lastRead == old(lastRead)
      ensures modalOpen ==> unread == old(unread) && lastRead == |messages|
      ensures modalOpen == old(modalOpen) && identity == old(identity)
      ensures clearedAt == old(clearedAt) && deletedIds == old(deletedIds)
      ensures error == old(error) && errorTimers == old(errorTimers)
    {
      messages := messages + [m];
      SyncUnread();
    }

    /** A received history replaces the whole list. */
    method OnHistory(history: seq<ChatMessage>)
      requires Valid()
      modifies this
      ensures Valid()
      ensures messages == history
      ensures !modalOpen && |messages| > 0 ==> unread == UnreadFor(|messages|, lastRead)
      ensures !modalOpen && |messages| == 0 ==> unread == old(unread)
      ensures !modalOpen ==> lastRead == old(lastRead)
      ensures modalOpen ==> unread == old(unread) && lastRead == |messages|
      ensures modalOpen == old(modalOpen) && identity == old(identity)
      ensures clearedAt == old(clearedAt) && deletedIds == old(deletedIds)
      ensures error == old(error) && errorTimers == old(errorTimers)
    {
      messages := history;
      SyncUnread();
    }

    /** `deleteMessage`: records the id once and drops the message locally. */
    method DeleteMessage(id: string)
      requires Valid()
      modifies this
      ensures Valid()
      ensures deletedIds == AddIfAbsent(old(deletedIds), id)
      ensures messages == RemoveMessage(old(messages), id)
      ensures !modalOpen && |messages| > 0 ==> unread == UnreadFor(|messages|, lastRead)
      ensures !modalOpen && |messages| == 0 ==> unread == old(unread)
      ensures !modalOpen ==> lastRead == old(lastRead)
      ensures modalOpen ==> unread == old(unread) && lastRead == |messages|
      ensures modalOpen == old(modalOpen) && identity == old(identity) && clearedAt == old(clearedAt)
      ensures error == old(error) && errorTimers == old(errorTimers)
    {
      AddIfAbsentKeepsDistinct(deletedIds, id);
      deletedIds := AddIfAbsent(deletedIds, id);
      messages := RemoveMessage(messages, id);
      SyncUnread();
    }

    /** `clearMessages`: records the clear time, forgets the deleted ids and
        empties the list. */
    method ClearMessages(now: int)
      requires Valid()
      modifies this
      ensures Valid()
      ensures messages == [] && deletedIds == [] && clearedAt == now
      ensures FilteredMessages() == []
      ensures !modalOpen ==> unread == old(unread) && lastRead == old(lastRead)
      ensures modalOpen ==> unread == old(unread) && lastRead == 0
      ensures modalOpen == old(modalOpen) && identity == old(identity)
      ensures error == old(error) && errorTimers == old(errorTimers)
    {
      clearedAt := now;
      deletedIds := [];
      messages := [];
      SyncUnread();
    }

    /** `sendMessage`: forwarded to the socket only with an identity; the
        result is what the socket service receives. */
    method SendMessage(text: string) returns (forwarded: Option<string>)
      ensures identity.None? ==> forwarded == None
      ensures identity.Some? ==> forwarded == Some(text)
    {
      if identity.None? {
        return None;
      }
      forwarded := Some(text);
    }

    /** `identify`: stores the identity (and hands it to the socket service). */
    method Identify(who: UserIdentity) returns (forwarded: UserIdentity)
      modifies this
      ensures identity == Some(who) && forwarded == who
      ensures messages == old(messages) && deletedIds == old(deletedIds) && clearedAt == old(clearedAt)
      ensures unread == old(unread) && modalOpen == old(modalOpen) && lastRead == old(lastRead)
      ensures error == old(error) && errorTimers == old(errorTimers)
    {
      identity := Some(who);
      forwarded := who;
    }

    /** A server error is shown and a 5-second timer is started that clears
        whatever error is shown when it fires. */
    method OnError(msg: string)
      modifies this
      ensures error == Some(msg) && errorTimers == old(errorTimers) + 1
      ensures messages == old(messages) && deletedIds == old(deletedIds) && clearedAt == old(clearedAt)
      ensures unread == old(unread) && modalOpen == old(modalOpen) && identity == old(identity)
      ensures lastRead == old(lastRead)
    {
      error := Some(msg);
      errorTimers := errorTimers + 1;
    }

    /** One of the pending error timers fires. */
    method FireErrorTimer()
      requires errorTimers > 0
      modifies this
      ensures error == None && errorTimers == old(errorTimers) - 1
      ensures messages == old(messages) && deletedIds == old(deletedIds) && clearedAt == old(clearedAt)
      ensures unread == old(unread) && modalOpen == old(modalOpen) && identity == old(identity)
      ensures lastRead == old(lastRead)
    {
      error := None;
      errorTimers := errorTimers - 1;
    }

    /** `logout`: forgets the identity, the clear time and the deleted ids,
        empties the list, then drops the socket handle and opens a new one.
        The returned calls are what is made on the socket service; the server
        answers the new connection with its history, which the caller
        delivers with `OnHistory`. */
    method Logout() returns (calls: seq<SocketCall>)
      requires Valid()
      modifies this
      ensures Valid()
      ensures calls == [DisconnectCall, ConnectCall]
      ensures identity == None && messages == [] && clearedAt == 0 && deletedIds == []
      ensures !modalOpen ==> unread == old(unread) && lastRead == old(lastRead)
      ensures modalOpen ==> unread == old(unread) && lastRead == 0
      ensures modalOpen == old(modalOpen)
      ensures error == old(error) && errorTimers == old(errorTimers)
    {
      identity := None;
      clearedAt := 0;
      deletedIds := [];
      messages := [];
      SyncUnread();
      calls := [DisconnectCall, ConnectCall];
    }
  }

  /** After opening the chat and receiving `k` more messages with it closed
      again, the badge counts exactly those `k`. */
  method UnreadCountsArrivals(before: seq<ChatMessage>, arrivals: seq<ChatMessage>)
    returns (count: nat)
    ensures count == |arrivals|
  {
    var c := new ChatProvider(None, 0, 0, []);
    c.OnHistory(before);
    c.SetModalOpen(true);
    c.SetModalOpen(false);
    var i := 0;
    while i < |arrivals|
      invariant 0 <= i <= |arrivals|
      invariant c.Valid() && !c.modalOpen
      invariant c.messages == before + arrivals[..i] && c.lastRead == |before|
      invariant c.unread == i
    {
      c.OnIncoming(arrivals[i]);
      assert arrivals[..i + 1] == arrivals[..i] + [arrivals[i]];
      i := i + 1;
    }
    count := c.unread;
  }

  /** The error timers are not cancelled: a second error that arrives
      before the first one's timer fires is cleared by that earlier timer. */
  method SecondErrorClearedEarly(first: string, second: string) returns (shown: Option<string>, pending: nat)
    ensures shown == None && pending == 1
  {
    var c := new ChatProvider(None, 0, 0, []);
    c.OnError(first);
    c.OnError(second);
    c.FireErrorTimer();
    shown := c.error;
    pending := c.errorTimers;
  }

  /** Logging out forgets the clear time and the deleted ids and reconnects;
      the history the server sends on the new connection is then shown in
      full, including the messages that were cleared or deleted before. */
  method LogoutRevealsHistory(history: seq<ChatMessage>, clearedAt: int, deletedIds: seq<string>)
    returns (calls: seq<SocketCall>, shownBefore: seq<ChatMessage>, shownAfter: seq<ChatMessage>)
    requires NoDuplicates(deletedIds)
    requires forall m :: m in history ==> m.timestamp > 0
    ensures shownBefore == Visible(history, clearedAt, deletedIds)
    ensures calls == [DisconnectCall, ConnectCall] && shownAfter == history
  {
    var c := new ChatProvider(None, 0, clearedAt, deletedIds);
    c.OnHistory(history);
    shownBefore := c.FilteredMessages();
    calls := c.Logout();
    c.OnHistory(history);
    shownAfter := c.FilteredMessages();
    VisibleAfterReset(history);
  }
}
