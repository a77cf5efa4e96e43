/**
 * The chat page (`pages/chat/chat.js`): the avatar path and clock helpers,
 * the send button flag, sending a message (to a real peer or to the AI
 * companion in a mock chat), marking messages read, deleting one, the
 * status update by id and loading older messages.
 *
 * The page's `data` is the state of a `ChatPage` object; `setData` is an
 * assignment. Clock readings, the send outcome, the AI reply and the
 * random pick of a fallback reply are parameters.
 */
module ChatPage {
  import opened Wrappers
  import opened Text

  const DEFAULT_AVATAR: string := "/images/mock_avatar.png"

  /** `messagePageSize` in the page's initial data. */
  const PAGE_SIZE: nat := 20

  /** The sender id of the AI companion's replies in a mock chat. */
  const AI_SENDER: string := "mock_user_001"

  /** At most this many of the latest messages are sent to the AI as history. */
  const HISTORY_TURNS: nat := 5

  const FALLBACK_REPLIES: seq<string> := [
    "抱歉，我现在信号不太好...",
    "网络似乎有点问题，稍后再和你聊吧",
    "我好像听不清你说什么了，再说一次？",
    "不好意思，刚才走神了，你能再说一遍吗？"]

  // ---------------------------------------------------------------------
  // generateAvatarPath
  // ---------------------------------------------------------------------

  /** `generateAvatarPath`: a colour or anything not a URL or absolute path gives the default image. */
  function GenerateAvatarPath(avatarUrl: Option<string>): (r: string)
    ensures StartsWith(r, "/") || StartsWith(r, "http")
    ensures avatarUrl.Some? && (StartsWith(avatarUrl.value, "http") || StartsWith(avatarUrl.value, "/")) ==>
              r == avatarUrl.value
    ensures avatarUrl.None? || !(StartsWith(avatarUrl.value, "http") || StartsWith(avatarUrl.value, "/")) ==>
              r == DEFAULT_AVATAR
  {
    assert StartsWith(DEFAULT_AVATAR, "/");
    if avatarUrl.Some? && avatarUrl.value != "" && StartsWith(avatarUrl.value, "#") then
      ColourIsNotPath(avatarUrl.value);
      DEFAULT_AVATAR
    else if avatarUrl.Some? && avatarUrl.value != "" &&
            (StartsWith(avatarUrl.value, "http") || StartsWith(avatarUrl.value, "/")) then avatarUrl.value
    else DEFAULT_AVATAR
  }

  /** A value starting with '#' starts with neither 'http' nor '/'. */
  lemma ColourIsNotPath(s: string)
    ensures StartsWith(s, "#") ==> !StartsWith(s, "http") && !StartsWith(s, "/")
  {
    if StartsWith(s, "#") {
      assert s[0] == '#';
    }
  }

  /** A path the helper produced passes through it unchanged. */
  lemma GenerateAvatarPathIdempotent(avatarUrl: Option<string>)
    ensures GenerateAvatarPath(Some(GenerateAvatarPath(avatarUrl))) == GenerateAvatarPath(avatarUrl)
  {
  }

  // ---------------------------------------------------------------------
  // formatTimeMs
  // ---------------------------------------------------------------------

  /** The argument of `formatTimeMs`: a number, an object with `getTime`, or anything else. */
  datatype Stamp = Millis(ms: int) | DateObject(ms: int) | NotATime

  /**
   * `formatTimeMs(ts)`; `hours` and `minutes` are the local clock reading of
   * the instant, which the platform's `Date` provides.
   */
  function FormatTimeMs(ts: Stamp, hours: nat, minutes: nat): (r: string)
    requires hours < 24 && minutes < 60
    ensures ts.NotATime? ==> r == ""
    ensures !ts.NotATime? ==>
              && |r| == 5 && r[2] == ':' && AllDigits(r[..2]) && AllDigits(r[3..])
              && DigitsValue(r[..2]) == hours && DigitsValue(r[3..]) == minutes
  {
    if ts.NotATime? then ""
    else
      var r := Pad2(hours) + ":" + Pad2(minutes);
      assert r[..2] == Pad2(hours) && r[3..] == Pad2(minutes);
      r
  }

  // ---------------------------------------------------------------------
  // onInputChange
  // ---------------------------------------------------------------------

  /** `hasInputContent`: the trimmed input is not empty. */
  predicate HasInputContent(input: string) {
    Trim(input) != ""
  }

  /** The send button shows exactly when the input holds a character other than white space. */
  lemma HasInputContentIff(input: string)
    ensures HasInputContent(input) <==> exists i :: 0 <= i < |input| && !IsWhite(input[i])
  {
    TrimEmptyIff(input);
  }

  // ---------------------------------------------------------------------
  // Page messages
  // ---------------------------------------------------------------------

  /** A message in the page's list; `id` and `docId` (`_id`) are set by different senders. */
  datatype PageMessage = PageMessage(
    id: Option<string>,
    docId: Option<string>,
    content: string,
    senderId: Option<string>,
    readStatus: Option<string>,
    status: Option<string>,
    statusText: Option<string>,
    statusIcon: Option<string>)

  /** The message `sendMessage` appends before sending, stamped with `now`. */
  function Echo(content: string, now: int, userId: Option<string>): PageMessage {
    PageMessage(Some(IntToString(now)), None, content, userId, Some("unread"), Some("sending"), None, None)
  }

  /** A message the mock chat appends itself: already 'sent', identified by `_id`. */
  function MockMessage(docId: string, content: string, senderId: Option<string>): PageMessage {
    PageMessage(None, Some(docId), content, senderId, None, Some("sent"), None, None)
  }

  /** `lastMessage.status = status`. */
  function SetLastStatus(ms: seq<PageMessage>, status: string): (r: seq<PageMessage>)
    requires ms != []
    ensures |r| == |ms| && r[..|ms| - 1] == ms[..|ms| - 1]
    ensures r[|ms| - 1] == ms[|ms| - 1].(status := Some(status))
  {
    ms[..|ms| - 1] + [ms[|ms| - 1].(status := Some(status))]
  }

  /** One turn of the history sent to the AI. */
  datatype Turn = Turn(role: string, content: string)

  /** `messages.slice(-5).map(...)`: the user's own messages are 'user' turns, all others 'assistant'. */
  function AiHistory(ms: seq<PageMessage>, userId: Option<string>): (r: seq<Turn>)
    ensures |r| == if |ms| <= HISTORY_TURNS then |ms| else HISTORY_TURNS
    ensures forall i :: 0 <= i < |r| ==>
              && r[i].content == ms[|ms| - |r| + i].content
              && (r[i].role == "user" <==> ms[|ms| - |r| + i].senderId == userId)
              && (r[i].role == "user" || r[i].role == "assistant")
  {
    var last := LastN(ms, HISTORY_TURNS);
    seq(|last|, i requires 0 <= i < |last| =>
      Turn(if last[i].senderId == userId then "user" else "assistant", last[i].content))
  }

  /** What the AI call of a mock chat yields. */
  datatype MockOutcome =
    | Reply(reply: Option<string>)   // the call returned; `reply` is its `reply` field
    | Throws                         // the call threw

  /** `sendMessage` goes ahead only with a non-blank input while in range. */
  predicate CanSend(input: string, inRange: bool) {
    Trim(input) != "" && inRange
  }

  /** The copy of the user's text the mock chat appends (`_id: 'temp_' + now`). */
  function UserCopy(content: string, now: int, storeUserId: Option<string>): PageMessage {
    MockMessage("temp_" + IntToString(now), content, storeUserId)
  }

  /** What the mock chat appends after the AI call: the reply, nothing, or a fallback. */
  function MockReplies(mock: MockOutcome, now: int, pick: nat): (r: seq<PageMessage>)
    requires pick < |FALLBACK_REPLIES|
    ensures |r| <= 1
    ensures forall i :: 0 <= i < |r| ==> r[i].status == Some("sent") && r[i].senderId == Some(AI_SENDER)
    ensures mock.Throws? ==> |r| == 1 && r[0].content in FALLBACK_REPLIES
    ensures mock.Reply? ==> (|r| == 1 <==> mock.reply.Some? && mock.reply.value != "")
    ensures mock.Reply? && |r| == 1 ==> r[0].content == mock.reply.value
  {
    match mock
    case Reply(reply) =>
      if reply.Some? && reply.value != "" then [MockMessage("ai_" + IntToString(now), reply.value, Some(AI_SENDER))] else []
    case Throws =>
      [MockMessage("fallback_" + IntToString(now), FALLBACK_REPLIES[pick], Some(AI_SENDER))]
  }

  /**
   * In the mock chat the last message is the AI's reply or, without one, the
   * stored copy of the user's text; either is already 'sent', so the final
   * status step changes nothing.
   */
  lemma MockRepliesEndSent(ms: seq<PageMessage>, copy: PageMessage, mock: MockOutcome, now: int, pick: nat)
    requires pick < |FALLBACK_REPLIES| && copy.status == Some("sent")
    ensures var all := ms + [copy] + MockReplies(mock, now, pick);
            SetLastStatus(all, "sent") == all
  {
    var replies := MockReplies(mock, now, pick);
    var all := ms + [copy] + replies;
    assert all[|all| - 1] == if replies == [] then copy else replies[0];
    SetLastStatusKeepsSent(all);
  }

  /** Marking a list whose last message is already 'sent' as 'sent' changes nothing. */
  lemma SetLastStatusKeepsSent(ms: seq<PageMessage>)
    requires ms != [] && ms[|ms| - 1].status == Some("sent")
    ensures SetLastStatus(ms, "sent") == ms
  {
    assert ms == ms[..|ms| - 1] + [ms[|ms| - 1]];
  }

  // ---------------------------------------------------------------------
  // markMessagesAsRead, deleteMessage, status by id
  // ---------------------------------------------------------------------

  predicate UnreadFrom(m: PageMessage, target: string) {
    m.senderId == Some(target) && m.readStatus == Some("unread")
  }

  /** `markMessagesAsRead`: the target's unread messages become read; nothing else changes. */
  function MarkRead(ms: seq<PageMessage>, target: string): (r: seq<PageMessage>)
    ensures |r| == |ms|
    ensures forall i :: 0 <= i < |ms| ==>
              r[i] == if UnreadFrom(ms[i], target) then ms[i].(readStatus := Some("read")) else ms[i]
    ensures forall i :: 0 <= i < |r| ==> !UnreadFrom(r[i], target)
  {
    seq(|ms|, i requires 0 <= i < |ms| =>
      if UnreadFrom(ms[i], target) then ms[i].(readStatus := Some("read")) else ms[i])
  }

  /** Marking twice changes nothing more. */
  lemma MarkReadIdempotent(ms: seq<PageMessage>, target: string)
    ensures MarkRead(MarkRead(ms, target), target) == MarkRead(ms, target)
  {
  }

  /** Where `splice(index, 1)` starts: a negative index counts from the end, clamped to the list. */
  function SpliceStart(len: nat, index: int): (k: nat)
    ensures k <= len
    ensures 0 <= index < len ==> k == index
    ensures index < 0 && 0 <= len + index ==> k == len + index
  {
    if index < 0 then (if len + index < 0 then 0 else len + index)
    else if index > len then len
    else index
  }

  /** `messages.splice(index, 1)` on a copy. */
  function SpliceOne(ms: seq<PageMessage>, index: int): (r: seq<PageMessage>)
    ensures SpliceStart(|ms|, index) < |ms| ==>
              r == ms[..SpliceStart(|ms|, index)] + ms[SpliceStart(|ms|, index) + 1..]
    ensures SpliceStart(|ms|, index) == |ms| ==> r == ms
  {
    var k := SpliceStart(|ms|, index);
    if k < |ms| then ms[..k] + ms[k + 1..] else ms
  }

  /** Deleting a valid index removes exactly that message and keeps the others in order. */
  lemma SpliceOneRemovesIndex(ms: seq<PageMessage>, index: int)
    requires 0 <= index < |ms|
    ensures |SpliceOne(ms, index)| == |ms| - 1
    ensures multiset(SpliceOne(ms, index)) + multiset{ms[index]} == multiset(ms)
    ensures forall i :: 0 <= i < |ms| - 1 ==> SpliceOne(ms, index)[i] == if i < index then ms[i] else ms[i + 1]
  {
    var r := SpliceOne(ms, index);
    assert r == ms[..index] + ms[index + 1..];
    assert ms == ms[..index] + [ms[index]] + ms[index + 1..];
    calc {
      multiset(ms);
      multiset(ms[..index]) + multiset{ms[index]} + multiset(ms[index + 1..]);
      multiset(r) + multiset{ms[index]};
    }
  }

  /** The status update by id: the message whose `id` matches becomes 'sent' with its badge. */
  function MarkSentById(ms: seq<PageMessage>, id: Option<string>): (r: seq<PageMessage>)
    ensures |r| == |ms|
    ensures forall i :: 0 <= i < |ms| && ms[i].id == id ==>
              r[i] == ms[i].(status := Some("sent"), statusText := Some("已发送"), statusIcon := Some("✓"))
    ensures forall i :: 0 <= i < |ms| && ms[i].id != id ==> r[i] == ms[i]
  {
    seq(|ms|, i requires 0 <= i < |ms| =>
      if ms[i].id == id then ms[i].(status := Some("sent"), statusText := Some("已发送"), statusIcon := Some("✓"))
      else ms[i])
  }

  // ---------------------------------------------------------------------
  // The page
  // ---------------------------------------------------------------------

  class ChatPageState {
    var targetUserId: string
    var messages: seq<PageMessage>
    var inputContent: string
    var hasInputContent: bool
    var inRange: bool
    var isMockChat: bool
    var hasMoreMessages: bool
    var isLoadingMore: bool

    /** The initial `data`. */
    constructor (targetUserId: string, isMockChat: bool)
      ensures this.targetUserId == targetUserId && this.isMockChat == isMockChat
      ensures messages == [] && inputContent == "" && !hasInputContent && inRange
      ensures hasMoreMessages && !isLoadingMore
    {
      this.targetUserId := targetUserId;
      this.isMockChat := isMockChat;
      messages, inputContent, hasInputContent, inRange := [], "", false, true;
      hasMoreMessages, isLoadingMore := true, false;
    }

    /** `onInputChange`. */
    method OnInputChange(value: string)
      modifies this
      ensures inputContent == value && (hasInputContent <==> HasInputContent(value))
      ensures messages == old(messages) && isMockChat == old(isMockChat) && inRange == old(inRange)
    {
      inputContent := value;
      var trimmed := Trim(value);
      hasInputContent := |trimmed| > 0;
    }

    /**
     * `sendMessage` at time `now`. `userId` is the app's user id and
     * `storeUserId` the user store's. In a mock chat `mock` is what the AI
     * call yields, `pick` the random index of the fallback reply and
     * `request` the history the AI was sent. In a real chat `delivered` says
     * whether the chat store's `sendMessage` resolved, and `storeMessages`
     * and `storeInRange` are the store's message list and range flag after
     * its last commit, as the page's subscription hands them over;
     * `crashed` says the final status step threw on an empty list.
     */
    method SendMessage(now: int, userId: Option<string>, storeUserId: Option<string>,
                       mock: MockOutcome, pick: nat, delivered: bool,
                       storeMessages: seq<PageMessage>, storeInRange: bool)
      returns (request: Option<seq<Turn>>, crashed: bool)
      requires pick < |FALLBACK_REPLIES|
      modifies this
      ensures isMockChat == old(isMockChat) && targetUserId == old(targetUserId)
      ensures !CanSend(old(inputContent), old(inRange)) ==>
                && request.None? && !crashed && messages == old(messages) && inRange == old(inRange)
                && inputContent == old(inputContent) && hasInputContent == old(hasInputContent)
      ensures CanSend(old(inputContent), old(inRange)) ==> inputContent == "" && !hasInputContent
      ensures CanSend(old(inputContent), old(inRange)) && !isMockChat ==>
                && request.None?
                && inRange == storeInRange
                && crashed == (storeMessages == [])
                && messages == (if storeMessages == [] then []
                                else SetLastStatus(storeMessages, if delivered then "sent" else "failed"))
      ensures CanSend(old(inputContent), old(inRange)) && isMockChat ==>
                var sent := old(messages) + [Echo(Trim(old(inputContent)), now, userId), UserCopy(Trim(old(inputContent)), now, storeUserId)];
                && request == Some(AiHistory(sent, storeUserId))
                && messages == sent + MockReplies(mock, now, pick)
                && inRange == old(inRange) && !crashed
    {
      request, crashed := None, false;
      if !CanSend(inputContent, inRange) {
        return;
      }
      var content := Trim(inputContent);
      inputContent, hasInputContent := "", false;
      request, crashed := AppendAndSend(content, now, userId, storeUserId, mock, pick, delivered, storeMessages, storeInRange);
    }

    /**
     * The rest of `sendMessage` once the trimmed text passed the guard: the
     * echo is appended, the chat's send runs, and the last message's status
     * is set to 'sent', or 'failed' when the send threw. In a real chat every
     * commit of the store's action notifies the page's 'chat' subscription,
     * which replaces `messages` and `inRange` with the store's, so the status
     * lands on the last message of the store's list; on an empty list the
     * status step itself throws.
     */
    method AppendAndSend(content: string, now: int, userId: Option<string>, storeUserId: Option<string>,
                         mock: MockOutcome, pick: nat, delivered: bool,
                         storeMessages: seq<PageMessage>, storeInRange: bool)
      returns (request: Option<seq<Turn>>, crashed: bool)
      requires pick < |FALLBACK_REPLIES|
      modifies this
      ensures inputContent == old(inputContent) && hasInputContent == old(hasInputContent)
      ensures isMockChat == old(isMockChat) && targetUserId == old(targetUserId)
      ensures !isMockChat ==>
                && request.None?
                && inRange == storeInRange
                && crashed == (storeMessages == [])
                && messages == (if storeMessages == [] then []
                                else SetLastStatus(storeMessages, if delivered then "sent" else "failed"))
      ensures isMockChat ==>
                var sent := old(messages) + [Echo(content, now, userId), UserCopy(content, now, storeUserId)];
                && request == Some(AiHistory(sent, storeUserId))
                && messages == sent + MockReplies(mock, now, pick)
                && inRange == old(inRange) && !crashed
    {
      request, crashed := None, false;
      var echo := Echo(content, now, userId);
      ghost var before := messages;
      messages := messages + [echo];
      if isMockChat {
        // sendMockMessage catches the AI call's errors, so the send always counts as done
        request := SendMockMessage(content, now, storeUserId, mock, pick);
        var copy := UserCopy(content, now, storeUserId);
        assert before + [echo, copy] == before + [echo] + [copy];
        MockRepliesEndSent(before + [echo], copy, mock, now, pick);
        messages := SetLastStatus(messages, "sent");
      } else {
        // the store's commits notify the page, which takes the store's list and range
        messages, inRange := storeMessages, storeInRange;
        if messages == [] {
          // `messages[messages.length - 1]` is undefined: setting its status throws
          crashed := true;
          return;
        }
        messages := SetLastStatus(messages, if delivered then "sent" else "failed");
      }
    }

    /**
     * `sendMockMessage`: stores a copy of the user's text, sends the AI the
     * last turns and appends its reply, or a fallback when the call throws.
     */
    method SendMockMessage(content: string, now: int, storeUserId: Option<string>, mock: MockOutcome, pick: nat)
      returns (request: Option<seq<Turn>>)
      requires pick < |FALLBACK_REPLIES|
      modifies this
      ensures var sent := old(messages) + [UserCopy(content, now, storeUserId)];
              request == Some(AiHistory(sent, storeUserId)) && messages == sent + MockReplies(mock, now, pick)
      ensures inputContent == old(inputContent) && hasInputContent == old(hasInputContent)
      ensures isMockChat == old(isMockChat) && inRange == old(inRange) && targetUserId == old(targetUserId)
    {
      messages := messages + [UserCopy(content, now, storeUserId)];
      request := Some(AiHistory(messages, storeUserId));
      messages := messages + MockReplies(mock, now, pick);
    }

    /** `markMessagesAsRead`; `receipt` is the target and time passed on to `updateReadStatus`. */
    method MarkMessagesAsRead(now: int) returns (receipt: (string, int))
      modifies this
      ensures messages == MarkRead(old(messages), targetUserId) && receipt == (targetUserId, now)
      ensures targetUserId == old(targetUserId) && inputContent == old(inputContent)
    {
      messages := MarkRead(messages, targetUserId);
      receipt := (targetUserId, now);
    }

    /** `deleteMessage(index)` once the dialog closes; only a confirmation deletes. */
    method DeleteMessage(index: int, confirmed: bool)
      modifies this
      ensures confirmed ==> messages == SpliceOne(old(messages), index)
      ensures !confirmed ==> messages == old(messages)
      ensures targetUserId == old(targetUserId) && inputContent == old(inputContent)
    {
      if confirmed {
        messages := SpliceOne(messages, index);
      }
    }

    /** The status update by id after a mock image message is sent. */
    method MarkMessageSent(id: Option<string>)
      modifies this
      ensures messages == MarkSentById(old(messages), id)
      ensures targetUserId == old(targetUserId) && inputContent == old(inputContent)
    {
      messages := MarkSentById(messages, id);
    }

    /**
     * `loadMoreMessages`: `older` is what fetching the earlier page yields.
     * The program's `fetchOlderMessages` always yields an empty page, so there
     * the first call turns `hasMoreMessages` off.
     * The loading flag is cleared in every case.
     */
    method LoadMoreMessages(older: Result<seq<PageMessage>>)
      modifies this
      ensures older.Ok? ==> messages == older.value + old(messages) && (hasMoreMessages <==> |older.value| == PAGE_SIZE)
      ensures older.Err? ==> messages == old(messages) && hasMoreMessages == old(hasMoreMessages)
      ensures !isLoadingMore && targetUserId == old(targetUserId)
    {
      isLoadingMore := true;
      if older.Ok? {
        messages := older.value + messages;
        hasMoreMessages := |older.value| == PAGE_SIZE;
      }
      isLoadingMore := false;
    }

    /** `onScrollToUpper`: load only while more pages are expected and none is loading. */
    method OnScrollToUpper(older: Result<seq<PageMessage>>)
      modifies this
      ensures !(old(hasMoreMessages) && !old(isLoadingMore)) ==>
                messages == old(messages) && hasMoreMessages == old(hasMoreMessages) && isLoadingMore == old(isLoadingMore)
      ensures old(hasMoreMessages) && !old(isLoadingMore) && older.Ok? ==>
                messages == older.value + old(messages) && (hasMoreMessages <==> |older.value| == PAGE_SIZE)
    {
      if hasMoreMessages && !isLoadingMore {
        LoadMoreMessages(older);
      }
    }
  }

  /**
   * In a mock chat the message `sendMessage` appended stays 'sending' whatever
   * the AI call does: the final status goes to the last message, which the
   * mock chat appended itself, already 'sent'.
   */
  lemma MockSendLeavesEchoSending(before: seq<PageMessage>, content: string, now: int, userId: Option<string>,
                                  storeUserId: Option<string>, mock: MockOutcome, pick: nat)
    requires pick < |FALLBACK_REPLIES|
    ensures var after := before + [Echo(content, now, userId), UserCopy(content, now, storeUserId)] + MockReplies(mock, now, pick);
            && |after| >= |before| + 2
            && after[|before|].status == Some("sending")
            && after[|before|].content == after[|before| + 1].content == content
  {
  }

  /**
   * The history a mock chat sends ends with the user's text twice when both
   * user ids agree: once for the echo, once for the mock chat's own copy.
   */
  lemma MockHistoryRepeatsUserTurn(before: seq<PageMessage>, content: string, now: int, userId: Option<string>)
    ensures var h := AiHistory(before + [Echo(content, now, userId), UserCopy(content, now, userId)], userId);
            |h| >= 2 && h[|h| - 1] == Turn("user", content) && h[|h| - 2] == Turn("user", content)
  {
  }
}
