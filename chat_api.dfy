/**
 * The client chat API (`miniprogram/core/api/chat.js`): paging a chat's
 * messages, the record written when a message is sent, the recent-chat list
 * built from the newest message of each chat, and the AI request.
 *
 * A database query is given by its result rows; a failed query makes the
 * call throw, which is an `Err`.
 */
module ChatApi {
  import opened Wrappers
  import opened Text
  import ChatStore
  import AiChat

  type Message = ChatStore.Message

  /** One day in milliseconds: a sent message's lifetime. */
  const MESSAGE_TTL: int := 24 * 60 * 60 * 1000

  // ---------------------------------------------------------------------
  // getChatMessages
  // ---------------------------------------------------------------------

  function Reverse<T>(s: seq<T>): (r: seq<T>)
    ensures |r| == |s|
    ensures forall i :: 0 <= i < |s| ==> r[i] == s[|s| - 1 - i]
  {
    if s == [] then [] else Reverse(s[1..]) + [s[0]]
  }

  predicate NewestFirst(page: seq<Message>) {
    forall i, j :: 0 <= i < j < |page| ==> page[i].timestamp >= page[j].timestamp
  }

  predicate OldestFirst(page: seq<Message>) {
    forall i, j :: 0 <= i < j < |page| ==> page[i].timestamp <= page[j].timestamp
  }

  /** `getChatMessages`: the newest-first page, reversed into chronological order. */
  function GetChatMessages(page: Result<seq<Message>>): (r: Result<seq<Message>>)
    ensures page.Err? ==> r == page
    ensures page.Ok? ==> r.Ok? && |r.value| == |page.value|
    ensures page.Ok? && NewestFirst(page.value) ==> OldestFirst(r.value)
  {
    match page
    case Ok(rows) => Ok(Reverse(rows))
    case Err(e) => Err(e)
  }

  /** Reversing twice gives the page back. */
  lemma ReverseReverse<T>(s: seq<T>)
    ensures Reverse(Reverse(s)) == s
  {
  }

  // ---------------------------------------------------------------------
  // sendMessage
  // ---------------------------------------------------------------------

  /** A field of a message record as the API writes it. */
  datatype Field = Str(s: string) | Time(ms: int) | Other

  /** `{ ...messageData, timestamp, status: 'sent', expireAt }`, written at time `now`. */
  function SentRecord(messageData: map<string, Field>, now: int): (r: map<string, Field>)
    ensures r.Keys == messageData.Keys + {"timestamp", "status", "expireAt"}
    ensures r["status"] == Str("sent")
    ensures r["expireAt"] == Time(now + MESSAGE_TTL)
    ensures r["timestamp"] == Time(now)
    ensures forall k :: k in messageData && k !in {"timestamp", "status", "expireAt"} ==> r[k] == messageData[k]
  {
    messageData + map["timestamp" := Time(now), "status" := Str("sent"), "expireAt" := Time(now + MESSAGE_TTL)]
  }

  // ---------------------------------------------------------------------
  // getChatList
  // ---------------------------------------------------------------------

  function ChatIds(ms: seq<Message>): set<string> {
    set i | 0 <= i < |ms| :: ms[i].chatId
  }

  lemma ChatIdsAppend(a: seq<Message>, m: Message)
    ensures ChatIds(a + [m]) == ChatIds(a) + {m.chatId}
  {
    var l := ChatIds(a + [m]);
    var rhs := ChatIds(a) + {m.chatId};
    forall c | c in rhs
      ensures c in l
    {
      if c != m.chatId {
        var i :| 0 <= i < |a| && a[i].chatId == c;
        assert (a + [m])[i].chatId == c;
      } else {
        assert (a + [m])[|a|].chatId == c;
      }
    }
  }

  /** The first message of each chat, in order of first appearance. */
  function FirstPerChat(rows: seq<Message>): (r: seq<Message>)
    ensures |r| <= |rows|
    ensures ChatIds(r) == ChatIds(rows)
    ensures forall k :: 0 <= k < |r| ==> r[k] in rows
  {
    if rows == [] then []
    else
      var front := rows[..|rows| - 1];
      var prev := FirstPerChat(front);
      var m := rows[|rows| - 1];
      assert rows == front + [m];
      ChatIdsAppend(front, m);
      ChatIdsAppend(prev, m);
      if m.chatId in ChatIds(prev) then prev else prev + [m]
  }

  predicate DistinctChats(ms: seq<Message>) {
    forall i, j :: 0 <= i < j < |ms| ==> ms[i].chatId != ms[j].chatId
  }

  /** No chat appears twice in the list. */
  lemma {:induction false} FirstPerChatDistinct(rows: seq<Message>)
    ensures DistinctChats(FirstPerChat(rows))
  {
    if rows != [] {
      var front := rows[..|rows| - 1];
      FirstPerChatDistinct(front);
      var prev := FirstPerChat(front);
      var m := rows[|rows| - 1];
      var r := FirstPerChat(rows);
      if m.chatId !in ChatIds(prev) {
        assert r == prev + [m];
        forall i, j | 0 <= i < j < |r|
          ensures r[i].chatId != r[j].chatId
        {
          if j == |prev| {
            assert prev[i].chatId in ChatIds(prev);
          } else {
            assert r[i] == prev[i] && r[j] == prev[j];
          }
        }
      } else {
        assert r == prev;
      }
    }
  }

  /** The index of the first row of chat `c`. */
  function FirstIndex(rows: seq<Message>, c: string): (i: nat)
    requires c in ChatIds(rows)
    ensures i < |rows| && rows[i].chatId == c
    ensures forall j :: 0 <= j < i ==> rows[j].chatId != c
  {
    if rows[0].chatId == c then 0
    else
      assert c in ChatIds(rows[1..]) by {
        var k :| 0 <= k < |rows| && rows[k].chatId == c;
        assert rows[1..][k - 1].chatId == c;
      }
      1 + FirstIndex(rows[1..], c)
  }

  lemma {:induction false} FirstIndexAppend(front: seq<Message>, m: Message, c: string)
    requires c in ChatIds(front)
    ensures c in ChatIds(front + [m]) && FirstIndex(front + [m], c) == FirstIndex(front, c)
  {
    ChatIdsAppend(front, m);
    if front[0].chatId != c {
      assert (front + [m])[1..] == front[1..] + [m];
      assert c in ChatIds(front[1..]) by {
        var k :| 0 <= k < |front| && front[k].chatId == c;
        assert front[1..][k - 1].chatId == c;
      }
      FirstIndexAppend(front[1..], m, c);
    }
  }

  lemma {:induction false} FirstIndexNew(front: seq<Message>, m: Message)
    requires m.chatId !in ChatIds(front)
    ensures m.chatId in ChatIds(front + [m]) && FirstIndex(front + [m], m.chatId) == |front|
  {
    ChatIdsAppend(front, m);
    if front != [] {
      assert front[0].chatId in ChatIds(front);
      assert (front + [m])[1..] == front[1..] + [m];
      assert m.chatId !in ChatIds(front[1..]);
      FirstIndexNew(front[1..], m);
    }
  }

  /**
   * Each kept message is the first row of its chat — in a newest-first
   * result, the chat's newest message.
   */
  lemma {:induction false} FirstPerChatIsFirst(rows: seq<Message>, k: nat)
    requires k < |FirstPerChat(rows)|
    ensures FirstPerChat(rows)[k].chatId in ChatIds(rows)
    ensures FirstPerChat(rows)[k] == rows[FirstIndex(rows, FirstPerChat(rows)[k].chatId)]
  {
    var front := rows[..|rows| - 1];
    var m := rows[|rows| - 1];
    assert rows == front + [m];
    var prev := FirstPerChat(front);
    if k < |prev| {
      FirstPerChatIsFirst(front, k);
      assert FirstPerChat(rows)[k] == prev[k];
      FirstIndexAppend(front, m, prev[k].chatId);
    } else {
      FirstIndexNew(front, m);
    }
  }

  /** The rows a `forEach` over the query result keeps in its `Map`, in insertion order. */
  method LatestPerChat(rows: seq<Message>) returns (latest: seq<Message>)
    ensures latest == FirstPerChat(rows)
  {
    latest := [];
    var seen: set<string> := {};
    var i := 0;
    while i < |rows|
      invariant 0 <= i <= |rows|
      invariant latest == FirstPerChat(rows[..i])
      invariant seen == ChatIds(latest)
    {
      assert rows[..i + 1][..i] == rows[..i];
      var m := rows[i];
      if m.chatId !in seen {
        latest := latest + [m];
        seen := seen + {m.chatId};
      }
      i := i + 1;
    }
    assert rows[..i] == rows;
  }

  /** `getChatList`: the newest message of each chat among the fetched rows, at most `limit` chats. */
  method GetChatList(rows: Result<seq<Message>>, limit: nat) returns (r: Result<seq<Message>>)
    ensures rows.Err? ==> r == Err(rows.error)
    ensures rows.Ok? ==> r == Ok(Take(FirstPerChat(rows.value), limit))
    ensures r.Ok? ==> |r.value| <= limit && DistinctChats(r.value)
  {
    if rows.Err? {
      return Err(rows.error);
    }
    var latest := LatestPerChat(rows.value);
    FirstPerChatDistinct(rows.value);
    r := Ok(Take(latest, limit));
  }

  // ---------------------------------------------------------------------
  // sendAIMessage
  // ---------------------------------------------------------------------

  /** The payload of `callFunction('aiChat', …)`: the arguments, passed through. */
  function AiRequest(message: string, history: seq<AiChat.RawTurn>, location: Option<AiChat.Location>,
                     userId: Option<string>): (req: AiChat.Request)
    ensures AiChat.MessageOf(req) == message
    ensures AiChat.HistoryOf(req) == history
    ensures req.location == location
    ensures AiChat.UserIdOf(req) == if userId.Some? then userId.value else ""
  {
    AiChat.Request(Some(message), userId, Some(history), location)
  }
}
