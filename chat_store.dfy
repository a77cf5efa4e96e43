/**
 * The chat module of the client store (`miniprogram/core/store/modules/chat.js`):
 * the current conversation, its messages, the open watch handles, unread
 * counts and the recent-chat history, with its mutations and actions.
 *
 * The cloud database is abstract: a query's outcome is a parameter, a watch
 * handle is an opaque number, and clock readings are parameters.
 */
module ChatStore {
  import opened Wrappers
  import opened Text
  import Sorting

  /** A chat partner; `id` is the user's `_id`. */
  datatype Peer = Peer(id: string, nickname: string)

  /** A chat message; `id` is `_id`, absent on a local echo. */
  datatype Message = Message(
    id: Option<string>,
    chatId: string,
    senderId: Option<string>,
    receiverId: string,
    content: string,
    kind: string,
    timestamp: int,
    status: string)

  /** The `updates` object of `UPDATE_MESSAGE`: it always sets `status`, sometimes `_id`. */
  datatype Patch = Patch(id: Option<string>, status: string)

  /** An entry of the recent-chat history. */
  datatype ChatInfo = ChatInfo(chatId: string, targetUser: Peer, lastActiveTime: int)

  /** A watch handle, by identity. */
  type WatchHandle = nat

  /** One entry of a watch snapshot's `docChanges`. */
  datatype Change = Change(queueType: string, doc: Message)

  /** The most recent chats kept in the history. */
  const HISTORY_LIMIT: nat := 50

  /** The page size the chat query asks for, `limit(100)`. */
  const REQUESTED_LIMIT: nat := 100

  /** The largest `limit` a query from the mini-program client is served; a larger one is cut to it. */
  const CLIENT_LIMIT_MAX: nat := 20

  /** At most this many messages are fetched when a chat starts: the request, cut to the client's maximum. */
  const FETCH_LIMIT: nat := if REQUESTED_LIMIT <= CLIENT_LIMIT_MAX then REQUESTED_LIMIT else CLIENT_LIMIT_MAX

  // ---------------------------------------------------------------------
  // Pure operations on the state's values
  // ---------------------------------------------------------------------

  /** `messages.findIndex(m => m._id === id)`. */
  function IndexOfId(messages: seq<Message>, id: string): (i: int)
    ensures -1 <= i < |messages|
    ensures i == -1 <==> forall k :: 0 <= k < |messages| ==> messages[k].id != Some(id)
    ensures 0 <= i ==> messages[i].id == Some(id)
    ensures 0 <= i ==> forall k :: 0 <= k < i ==> messages[k].id != Some(id)
  {
    if messages == [] then -1
    else if messages[0].id == Some(id) then 0
    else
      var j := IndexOfId(messages[1..], id);
      if j == -1 then -1 else j + 1
  }

  /** `Object.assign(message, updates)`. */
  function Apply(m: Message, p: Patch): (r: Message)
    ensures r.status == p.status
    ensures r.id == if p.id.Some? then p.id else m.id
    ensures r.(id := m.id, status := m.status) == m
  {
    m.(id := if p.id.Some? then p.id else m.id, status := p.status)
  }

  /** `UPDATE_MESSAGE` on a message list: patch the first message with that `_id`, if any. */
  function UpdateFirst(messages: seq<Message>, id: string, p: Patch): (r: seq<Message>)
    ensures |r| == |messages|
    ensures IndexOfId(messages, id) == -1 ==> r == messages
    ensures IndexOfId(messages, id) >= 0 ==>
              r == messages[IndexOfId(messages, id) := Apply(messages[IndexOfId(messages, id)], p)]
  {
    var i := IndexOfId(messages, id);
    if i == -1 then messages else messages[i := Apply(messages[i], p)]
  }

  /** A message without an `_id` is never reached by `UPDATE_MESSAGE`. */
  lemma UpdateFirstSkipsUnidentified(messages: seq<Message>, id: string, p: Patch, k: int)
    requires 0 <= k < |messages| && messages[k].id.None?
    ensures UpdateFirst(messages, id, p)[k] == messages[k]
  {
  }

  /** The position of a chat in the history, or -1. */
  function IndexOfChat(history: seq<ChatInfo>, chatId: string): (i: int)
    ensures -1 <= i < |history|
    ensures i == -1 <==> forall k :: 0 <= k < |history| ==> history[k].chatId != chatId
    ensures 0 <= i ==> history[i].chatId == chatId
    ensures 0 <= i ==> forall k :: 0 <= k < i ==> history[k].chatId != chatId
  {
    if history == [] then -1
    else if history[0].chatId == chatId then 0
    else
      var j := IndexOfChat(history[1..], chatId);
      if j == -1 then -1 else j + 1
  }

  /** No chat appears twice in the history. */
  predicate DistinctChats(history: seq<ChatInfo>) {
    forall i, j :: 0 <= i < j < |history| ==> history[i].chatId != history[j].chatId
  }

  /** `ADD_CHAT_HISTORY` on a history: replace in place or put in front, then drop the last beyond 50. */
  function UpsertHistory(history: seq<ChatInfo>, info: ChatInfo): (r: seq<ChatInfo>)
    ensures |history| <= HISTORY_LIMIT ==> |r| <= HISTORY_LIMIT
    ensures IndexOfChat(history, info.chatId) >= 0 && |history| <= HISTORY_LIMIT ==>
              r == history[IndexOfChat(history, info.chatId) := info]
    ensures |r| >= 1
    ensures IndexOfChat(history, info.chatId) == -1 ==> r[0] == info
    ensures IndexOfChat(history, info.chatId) == -1 && |history| <= HISTORY_LIMIT ==>
              && |r| == (if |history| < HISTORY_LIMIT then |history| + 1 else HISTORY_LIMIT)
              && r[1..] == history[..|r| - 1]
  {
    var i := IndexOfChat(history, info.chatId);
    var h := if i >= 0 then history[i := info] else [info] + history;
    if |h| > HISTORY_LIMIT then h[..|h| - 1] else h
  }

  /** The history never holds a chat twice, and the chat just recorded is always in it. */
  lemma UpsertHistoryKeepsDistinct(history: seq<ChatInfo>, info: ChatInfo)
    requires DistinctChats(history) && |history| <= HISTORY_LIMIT
    ensures DistinctChats(UpsertHistory(history, info))
    ensures info in UpsertHistory(history, info)
  {
    var r := UpsertHistory(history, info);
    var i := IndexOfChat(history, info.chatId);
    if i == -1 {
      var h := [info] + history;
      assert forall k :: 0 <= k < |r| ==> r[k] == h[k];
      forall a, b | 0 <= a < b < |r|
        ensures r[a].chatId != r[b].chatId
      {
        if a == 0 {
          assert r[b] == history[b - 1];
        } else {
          assert r[a] == history[a - 1] && r[b] == history[b - 1];
        }
      }
      assert r[0] == info;
    } else {
      assert r[i] == info;
    }
  }

  /** Code-unit order on identifiers (the default `Array.prototype.sort` order). */
  predicate LexLe(a: string, b: string) {
    a == [] || (b != [] && (a[0] < b[0] || (a[0] == b[0] && LexLe(a[1..], b[1..]))))
  }

  lemma {:induction false} LexLeTotal(a: string, b: string)
    ensures LexLe(a, b) || LexLe(b, a)
  {
    if a != [] && b != [] && a[0] == b[0] {
      LexLeTotal(a[1..], b[1..]);
    }
  }

  lemma {:induction false} LexLeAntisymmetric(a: string, b: string)
    requires LexLe(a, b) && LexLe(b, a)
    ensures a == b
  {
    if a != [] && b != [] {
      LexLeAntisymmetric(a[1..], b[1..]);
      assert a == [a[0]] + a[1..] && b == [b[0]] + b[1..];
    }
  }

  /** `generateChatId`: the two user ids in sorted order, joined by '_'. */
  function ChatId(self: string, target: string): (r: string)
    ensures r == self + "_" + target || r == target + "_" + self
  {
    if LexLe(self, target) then self + "_" + target else target + "_" + self
  }

  /** Both participants compute the same chat id. */
  lemma ChatIdSymmetric(a: string, b: string)
    ensures ChatId(a, b) == ChatId(b, a)
  {
    LexLeTotal(a, b);
    if LexLe(a, b) && LexLe(b, a) {
      LexLeAntisymmetric(a, b);
    }
  }

  /** The sort key of `orderBy('timestamp', 'asc')`. */
  function TimeKey(m: Message): real {
    m.timestamp as real
  }

  /**
   * The messages of one chat, oldest first (`where … orderBy('timestamp','asc').limit(100)`), at most
   * `FETCH_LIMIT` of them, since the client is served no more than twenty whatever the limit asked.
   */
  function ChatQuery(all: seq<Message>, chatId: string): (r: seq<Message>)
    ensures |r| == if |OfChat(all, chatId)| <= FETCH_LIMIT then |OfChat(all, chatId)| else FETCH_LIMIT
    ensures multiset(r) <= multiset(OfChat(all, chatId))
    ensures forall k :: 0 <= k < |r| ==> r[k] in all && r[k].chatId == chatId
    ensures forall i, j :: 0 <= i < j < |r| ==> r[i].timestamp <= r[j].timestamp
    ensures |OfChat(all, chatId)| <= FETCH_LIMIT ==> multiset(r) == multiset(OfChat(all, chatId))
    ensures forall m, k :: m in OfChat(all, chatId) && m !in r && 0 <= k < |r| ==> r[k].timestamp <= m.timestamp
  {
    var r := Take(Sorting.SortBy(OfChat(all, chatId), TimeKey), FETCH_LIMIT);
    FirstByTimeCount(OfChat(all, chatId), r);
    FirstByTimeOrdered(OfChat(all, chatId), r);
    KeptAreOldest(OfChat(all, chatId), r);
    r
  }

  /** The first `FETCH_LIMIT` of `mine` in time order: a sub-multiset of it, all of it when it fits. */
  lemma {:induction false} FirstByTimeCount(mine: seq<Message>, r: seq<Message>)
    requires r == Take(Sorting.SortBy(mine, TimeKey), FETCH_LIMIT)
    ensures |r| == if |mine| <= FETCH_LIMIT then |mine| else FETCH_LIMIT
    ensures multiset(r) <= multiset(mine)
    ensures |mine| <= FETCH_LIMIT ==> multiset(r) == multiset(mine)
    ensures forall k :: 0 <= k < |r| ==> r[k] in mine
  {
    var sorted := Sorting.SortBy(mine, TimeKey);
    assert |sorted| == |mine|;
    if |mine| <= FETCH_LIMIT {
      assert r == sorted;
    }
    TakeSubMultiset(sorted, FETCH_LIMIT);
    forall k | 0 <= k < |r|
      ensures r[k] in mine
    {
      assert r[k] in multiset(r);
    }
  }

  /** The first `FETCH_LIMIT` of `mine` in time order are in ascending time. */
  lemma {:induction false} FirstByTimeOrdered(mine: seq<Message>, r: seq<Message>)
    requires r == Take(Sorting.SortBy(mine, TimeKey), FETCH_LIMIT)
    ensures forall i, j :: 0 <= i < j < |r| ==> r[i].timestamp <= r[j].timestamp
  {
    var sorted := Sorting.SortBy(mine, TimeKey);
    forall i, j | 0 <= i < j < |r|
      ensures r[i].timestamp <= r[j].timestamp
    {
      assert r[i] == sorted[i] && r[j] == sorted[j];
      assert TimeKey(sorted[i]) <= TimeKey(sorted[j]);
    }
  }

  /** A message left out of the first `FETCH_LIMIT` in time order is no older than any kept one. */
  lemma {:induction false} KeptAreOldest(mine: seq<Message>, r: seq<Message>)
    requires r == Take(Sorting.SortBy(mine, TimeKey), FETCH_LIMIT)
    ensures forall m, k :: m in mine && m !in r && 0 <= k < |r| ==> r[k].timestamp <= m.timestamp
  {
    var sorted := Sorting.SortBy(mine, TimeKey);
    forall m, k | m in mine && m !in r && 0 <= k < |r|
      ensures r[k].timestamp <= m.timestamp
    {
      assert m in multiset(mine);
      assert m in multiset(sorted);
      Sorting.SortedPrefixIsSmallest(sorted, TimeKey, |r|, m);
      assert TimeKey(sorted[k]) <= TimeKey(m);
    }
  }

  function OfChat(all: seq<Message>, chatId: string): (r: seq<Message>)
    ensures forall k :: 0 <= k < |r| ==> r[k] in all && r[k].chatId == chatId
    ensures forall m :: m in all && m.chatId == chatId ==> m in r
  {
    if all == [] then []
    else (if all[0].chatId == chatId then [all[0]] else []) + OfChat(all[1..], chatId)
  }

  /** The messages a watch snapshot delivers: the documents of its 'enqueue' changes, in order. */
  function Enqueued(changes: seq<Change>): (r: seq<Message>)
    ensures |r| <= |changes|
  {
    if changes == [] then []
    else
      Enqueued(changes[..|changes| - 1])
      + (var c := changes[|changes| - 1]; if c.queueType == "enqueue" then [c.doc] else [])
  }

  /** A snapshot's deliveries are the concatenation of its parts' deliveries. */
  lemma {:induction false} EnqueuedAppend(a: seq<Change>, b: seq<Change>)
    ensures Enqueued(a + b) == Enqueued(a) + Enqueued(b)
  {
    if b == [] {
      assert a + b == a;
    } else {
      assert (a + b)[..|a + b| - 1] == a + b[..|b| - 1];
      EnqueuedAppend(a, b[..|b| - 1]);
    }
  }

  // ---------------------------------------------------------------------
  // The module state
  // ---------------------------------------------------------------------

  /** The whole module state as one value. */
  datatype ChatFields = ChatFields(
    currentChatId: Option<string>,
    currentTargetUser: Option<Peer>,
    messages: seq<Message>,
    messageListeners: map<string, WatchHandle>,
    unreadCounts: map<string, int>,
    chatHistory: seq<ChatInfo>,
    isInChatRange: bool)

  const INITIAL: ChatFields := ChatFields(None, None, [], map[], map[], [], true)

  /** The echo `sendMessage` appends before the database write; it has no `_id`. */
  function Echo(chatId: string, self: Option<string>, target: Peer, content: string, kind: string, now: int): (m: Message)
    ensures m.id.None? && m.status == "sending" && m.receiverId == target.id
  {
    Message(None, chatId, self, target.id, content, kind, now, "sending")
  }

  /** The error `sendMessage` throws without an active chat. */
  const NO_ACTIVE_CHAT: string := "当前没有活跃的聊天"

  /**
   * The error reading a property of the undefined `rootState` throws. The text is the
   * wording of one JavaScript engine; it stands for whatever TypeError the engine raises
   * for reading `rootState.user`.
   */
  const ROOT_STATE_UNDEFINED: string := "TypeError: Cannot read properties of undefined (reading 'user')"

  /** The id `sendMessage`'s failure path looks for. */
  function TempId(now: int): string {
    "temp_" + IntToString(now)
  }

  class ChatState {
    var currentChatId: Option<string>
    var currentTargetUser: Option<Peer>
    var messages: seq<Message>
    var messageListeners: map<string, WatchHandle>
    var unreadCounts: map<string, int>
    var chatHistory: seq<ChatInfo>
    var isInChatRange: bool

    function Fields(): ChatFields
      reads this
    {
      ChatFields(currentChatId, currentTargetUser, messages, messageListeners,
                 unreadCounts, chatHistory, isInChatRange)
    }

    /** The history is bounded and holds each chat at most once. */
    ghost predicate Valid()
      reads this
    {
      |chatHistory| <= HISTORY_LIMIT && DistinctChats(chatHistory)
    }

    constructor ()
      ensures Fields() == INITIAL && Valid()
    {
      currentChatId := None;
      currentTargetUser := None;
      messages := [];
      messageListeners := map[];
      unreadCounts := map[];
      chatHistory := [];
      isInChatRange := true;
    }

    // --- mutations -----------------------------------------------------

    method SetCurrentChat(chatId: Option<string>, targetUser: Option<Peer>)
      modifies this
      ensures Fields() == old(Fields()).(currentChatId := chatId, currentTargetUser := targetUser)
    {
      currentChatId, currentTargetUser := chatId, targetUser;
    }

    method SetMessages(ms: seq<Message>)
      modifies this
      ensures Fields() == old(Fields()).(messages := ms)
    {
      messages := ms;
    }

    method AddMessage(m: Message)
      modifies this
      ensures Fields() == old(Fields()).(messages := old(messages) + [m])
    {
      messages := messages + [m];
    }

    method UpdateMessage(id: string, p: Patch)
      modifies this
      ensures Fields() == old(Fields()).(messages := UpdateFirst(old(messages), id, p))
    {
      var i := IndexOfId(messages, id);
      if i >= 0 {
        messages := messages[i := Apply(messages[i], p)];
      }
    }

    method SetMessageListener(chatId: string, handle: WatchHandle)
      modifies this
      ensures Fields() == old(Fields()).(messageListeners := old(messageListeners)[chatId := handle])
    {
      messageListeners := messageListeners[chatId := handle];
    }

    method RemoveMessageListener(chatId: string)
      modifies this
      ensures Fields() == old(Fields()).(messageListeners := old(messageListeners) - {chatId})
    {
      messageListeners := messageListeners - {chatId};
    }

    method SetUnreadCount(chatId: string, count: int)
      modifies this
      ensures Fields() == old(Fields()).(unreadCounts := old(unreadCounts)[chatId := count])
    {
      unreadCounts := unreadCounts[chatId := count];
    }

    method SetChatRangeStatus(inRange: bool)
      modifies this
      ensures Fields() == old(Fields()).(isInChatRange := inRange)
    {
      isInChatRange := inRange;
    }

    method AddChatHistory(info: ChatInfo)
      requires Valid()
      modifies this
      ensures Valid() && info in chatHistory
      ensures Fields() == old(Fields()).(chatHistory := UpsertHistory(old(chatHistory), info))
    {
      UpsertHistoryKeepsDistinct(chatHistory, info);
      var i := IndexOfChat(chatHistory, info.chatId);
      if i >= 0 {
        chatHistory := chatHistory[i := info];
      } else {
        chatHistory := [info] + chatHistory;
      }
      if |chatHistory| > HISTORY_LIMIT {
        chatHistory := chatHistory[..|chatHistory| - 1];
      }
    }

    method ClearCurrentChat()
      modifies this
      ensures Fields() == old(Fields()).(currentChatId := None, currentTargetUser := None, messages := [])
    {
      currentChatId, currentTargetUser, messages := None, None, [];
    }

    method ClearAllChatData()
      modifies this
      ensures Fields() == INITIAL && Valid()
    {
      currentChatId, currentTargetUser, messages := None, None, [];
      messageListeners, unreadCounts, chatHistory, isInChatRange := map[], map[], [], true;
    }

    // --- actions -------------------------------------------------------

    /** `fetchMessages`: the chat's oldest `FETCH_LIMIT` messages become the message list; a failed query throws. */
    method FetchMessages(chatId: string, db: Result<seq<Message>>) returns (r: Result<seq<Message>>)
      modifies this
      ensures db.Err? ==> r == Err(db.error) && Fields() == old(Fields())
      ensures db.Ok? ==> r == Ok(ChatQuery(db.value, chatId))
      ensures db.Ok? ==> Fields() == old(Fields()).(messages := ChatQuery(db.value, chatId))
    {
      if db.Err? {
        return Err(db.error);
      }
      var rows := ChatQuery(db.value, chatId);
      SetMessages(rows);
      r := Ok(rows);
    }

    /** `startMessageListener`: a no-op when the chat already has a handle. */
    method StartMessageListener(chatId: string, handle: WatchHandle)
      modifies this
      ensures chatId in old(messageListeners) ==> Fields() == old(Fields())
      ensures chatId !in old(messageListeners) ==>
                Fields() == old(Fields()).(messageListeners := old(messageListeners)[chatId := handle])
    {
      if chatId in messageListeners {
        return;
      }
      SetMessageListener(chatId, handle);
    }

    /** The watch's `onChange`: every 'enqueue' document is appended, in order. */
    method OnSnapshot(changes: seq<Change>)
      modifies this
      ensures Fields() == old(Fields()).(messages := old(messages) + Enqueued(changes))
    {
      var i := 0;
      while i < |changes|
        invariant 0 <= i <= |changes|
        invariant Fields() == old(Fields()).(messages := old(messages) + Enqueued(changes[..i]))
      {
        assert changes[..i + 1][..i] == changes[..i];
        if changes[i].queueType == "enqueue" {
          AddMessage(changes[i].doc);
        }
        i := i + 1;
      }
      assert changes[..i] == changes;
    }

    /** `stopMessageListener`: closes (returns) and forgets the chat's handle, if any. */
    method StopMessageListener(chatId: string) returns (closed: Option<WatchHandle>)
      modifies this
      ensures chatId in old(messageListeners) ==>
                closed == Some(old(messageListeners)[chatId])
                && Fields() == old(Fields()).(messageListeners := old(messageListeners) - {chatId})
      ensures chatId !in old(messageListeners) ==> closed.None? && Fields() == old(Fields())
    {
      if chatId !in messageListeners {
        return None;
      }
      closed := Some(messageListeners[chatId]);
      RemoveMessageListener(chatId);
    }

    /** `endChat`: stop the current chat's watch, then clear the current chat. */
    method EndChat() returns (closed: Option<WatchHandle>)
      modifies this
      ensures var id := old(currentChatId);
              var watching := id.Some? && id.value in old(messageListeners);
              && closed == (if watching then Some(old(messageListeners)[id.value]) else None)
              && Fields() == old(Fields()).(
                   currentChatId := None, currentTargetUser := None, messages := [],
                   messageListeners := if watching then old(messageListeners) - {id.value} else old(messageListeners))
    {
      closed := None;
      if currentChatId.Some? {
        closed := StopMessageListener(currentChatId.value);
      }
      ClearCurrentChat();
    }

    /**
     * `startChat`: select the chat, load its messages, watch it and record it
     * in the history. A failed load throws after the chat was selected.
     */
    method StartChat(self: string, targetUserId: string, target: Peer, db: Result<seq<Message>>,
                     handle: WatchHandle, now: int) returns (r: Result<string>)
      requires Valid()
      modifies this
      ensures Valid()
      ensures var id := ChatId(self, targetUserId);
              if db.Err? then
                r == Err(db.error)
                && Fields() == old(Fields()).(currentChatId := Some(id), currentTargetUser := Some(target))
              else
                && r == Ok(id)
                && Fields() == old(Fields()).(
                     currentChatId := Some(id),
                     currentTargetUser := Some(target),
                     messages := ChatQuery(db.value, id),
                     messageListeners := if id in old(messageListeners) then old(messageListeners)
                                         else old(messageListeners)[id := handle],
                     chatHistory := UpsertHistory(old(chatHistory), ChatInfo(id, target, now)))
    {
      var chatId := ChatId(self, targetUserId);
      SetCurrentChat(Some(chatId), Some(target));
      var fetched := FetchMessages(chatId, db);
      if fetched.Err? {
        return Err(fetched.error);
      }
      StartMessageListener(chatId, handle);
      AddChatHistory(ChatInfo(chatId, target, now));
      r := Ok(chatId);
    }

    /**
     * `sendMessage` as written. The store hands an action only `state`,
     * `commit` and `dispatch`, so the `rootState` it destructures is
     * undefined. Without an active chat the action throws its own error;
     * with one, reading `rootState.user` throws before the echo is added or
     * anything is written. Either way the catch patches the message whose
     * `_id` is `'temp_' + now` to 'failed' and rethrows.
     */
    method SendMessage(content: string, kind: string, now: int) returns (r: Result<string>)
      modifies this
      ensures r == Err(if old(currentChatId).None? || old(currentTargetUser).None? then NO_ACTIVE_CHAT
                       else ROOT_STATE_UNDEFINED)
      ensures Fields() == old(Fields()).(messages := UpdateFirst(old(messages), TempId(now), Patch(None, "failed")))
    {
      if currentChatId.None? || currentTargetUser.None? {
        r := Err(NO_ACTIVE_CHAT);
      } else {
        // `senderId: rootState.user.userId` with `rootState` undefined
        r := Err(ROOT_STATE_UNDEFINED);
      }
      UpdateMessage(TempId(now), Patch(None, "failed"));
    }

    /**
     * `sendMessage` as evidently intended: the sender id `self` is the user
     * module's `userId`, the echo carries the temporary id `'temp_' + now`,
     * and both outcomes of the write patch it through that id.
     */
    method SendMessageTracked(self: Option<string>, content: string, kind: string, now: int,
                              written: Result<string>) returns (r: Result<string>)
      modifies this
      ensures old(currentChatId).None? || old(currentTargetUser).None? ==>
                r == Err(NO_ACTIVE_CHAT) && Fields() == old(Fields())
      ensures old(currentChatId).Some? && old(currentTargetUser).Some? ==>
                && Fields() == old(Fields()).(messages := messages)
                && |messages| == |old(messages)| + 1
                && r == (match written case Ok(id) => Ok(id) case Err(e) => Err(e))
                && messages == UpdateFirst(
                     old(messages) + [Echo(old(currentChatId).value, self, old(currentTargetUser).value, content, kind, now)
                                        .(id := Some(TempId(now)))],
                     TempId(now),
                     if written.Ok? then Patch(Some(written.value), "sent") else Patch(None, "failed"))
      ensures old(currentChatId).Some? && old(currentTargetUser).Some? && IndexOfId(old(messages), TempId(now)) == -1 ==>
                && messages[..|old(messages)|] == old(messages)
                && var last := messages[|messages| - 1];
                && last.chatId == old(currentChatId).value
                && last.senderId == self
                && last.receiverId == old(currentTargetUser).value.id
                && last.content == content && last.kind == kind && last.timestamp == now
                && last.status == (if written.Ok? then "sent" else "failed")
                && last.id == (if written.Ok? then Some(written.value) else Some(TempId(now)))
    {
      if currentChatId.None? || currentTargetUser.None? {
        return Err(NO_ACTIVE_CHAT);
      }
      var temp := TempId(now);
      var echo := Echo(currentChatId.value, self, currentTargetUser.value, content, kind, now).(id := Some(temp));
      AddMessage(echo);
      ghost var before := messages;
      match written {
        case Ok(id) =>
          UpdateMessage(temp, Patch(Some(id), "sent"));
          r := Ok(id);
        case Err(e) =>
          UpdateMessage(temp, Patch(None, "failed"));
          r := Err(e);
      }
      if IndexOfId(old(messages), temp) == -1 {
        assert IndexOfId(before, temp) == |before| - 1 by {
          IndexOfIdAppend(old(messages), echo, temp);
        }
      }
    }
  }

  /** An id absent from `messages` is found at the appended message that carries it. */
  lemma {:induction false} IndexOfIdAppend(messages: seq<Message>, m: Message, id: string)
    requires IndexOfId(messages, id) == -1 && m.id == Some(id)
    ensures IndexOfId(messages + [m], id) == |messages|
  {
    if messages != [] {
      assert (messages + [m])[1..] == messages[1..] + [m];
      IndexOfIdAppend(messages[1..], m, id);
    }
  }

  /** As written, a send leaves the message list as it was unless some message already has the id `'temp_' + now`. */
  lemma SendLeavesMessagesUnchanged(messages: seq<Message>, now: int)
    requires forall k :: 0 <= k < |messages| ==> messages[k].id != Some(TempId(now))
    ensures UpdateFirst(messages, TempId(now), Patch(None, "failed")) == messages
  {
    assert IndexOfId(messages, TempId(now)) == -1;
  }

  /** With a sender id supplied, a successful send would still leave its echo at 'sending': no message has the new id. */
  lemma EchoStaysSending(chatId: string, self: Option<string>, target: Peer, content: string, now: int, id: string)
    ensures var echo := Echo(chatId, self, target, content, "text", now);
            UpdateFirst([echo], id, Patch(Some(id), "sent"))[0].status == "sending"
  {
  }
}
