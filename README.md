# A verified model of a location-based chat mini-program

The system is a WeChat mini-program for chatting with people and businesses nearby. It has a client (pages, components, a small observer store, a local cache and API wrappers) and a few cloud functions. This project models its core logic in Dafny:

- **`aiChat` reply gateway.** It normalises the conversation history and caches replies for five minutes, keyed on the message and the last two turns. A keyword test decides whether to list nearby merchants. It ranks the merchants and builds the outbound message sequence, and it always answers with a non-empty reply.
- **Client observer store.** A registry of module states, bound mutations and listeners (`ObserverStore`), plus its three modules: chat, location and user.
- **Prefix-namespaced cache with expiry on read** (`Storage`).
- **Chat API wrappers:** page reversal, record construction, the latest-message-per-chat list and the pass-through to `aiChat`.
- **Collection rules of the cloud functions:**
  - merchant cleaning and upsert by provider id (`getMerchants`);
  - the expiry sweep (`autoExpireChats`);
  - the bulk read-status update (`updateReadStatus`);
  - the report threshold (`handleReport`).
- **Chat page:** avatar paths, time formatting, the send flow, mark-read, delete, paging.
- **Map page:** marker limiting and grid clustering, marker taps and zoom, the location-staleness rule, broadcast validation.
- **Components:** the message bubble's relative time and the avatar's displayed source.

Modelling choices:

- **Functions vs. classes.** Pure decisions are functions. Objects whose fields the source updates in place are classes, with `modifies` clauses on their methods. Each class exposes its whole state as a `Fields()` value, and every mutation states its new state as `old(Fields())` with only the changed fields replaced.
- **Loops.** Where the source loops, the model is a method with a `while` loop. The method is proved equal to a specification function, and the lemmas state the properties of that function.
- **Outside the model.** Database and network calls are modelled as abstract outcomes (`Result`, `Upstream`, `Directory`) or in-memory collections (sequences and maps of records). Clock readings and random choices are parameters.

## Model

| member | source | states |
|---|---|---|
| AiChat.RoleOf | cloudfunctions/aiChat/index.js:197 | a turn is the assistant's exactly when its role is the string 'assistant'; otherwise it is the user's, and never a system turn |
| AiChat.ContentOf | cloudfunctions/aiChat/index.js:198 | the content is `content` when truthy, else `text`; a non-empty result comes from one of them |
| AiChat.Normalize | cloudfunctions/aiChat/index.js:194-205 | no longer than the input; every kept turn has non-empty content and a user or assistant role |
| AiChat.NormalizeAppend | cloudfunctions/aiChat/index.js:194-205 | normalisation keeps the order: normalising a concatenation gives the concatenation of the normalised parts |
| AiChat.NormalizeSingle | cloudfunctions/aiChat/index.js:194-205 | a single entry is dropped exactly when its content is empty; otherwise it keeps its role and content |
| AiChat.NormalizeHistory | cloudfunctions/aiChat/index.js:194-205 | the push loop produces exactly the normalised history |
| AiChat.KeyOf | cloudfunctions/aiChat/index.js:68 | the cache key holds the message and the last two turns, or all of them when there are fewer |
| AiChat.KeyIgnoresEarlierTurns | cloudfunctions/aiChat/index.js:68 | two histories with the same last two turns give the same key, whatever came earlier |
| AiChat.FreshReply | cloudfunctions/aiChat/index.js:18 | a cached reply is used exactly when the key is present and its age is strictly below five minutes |
| AiChat.StoreThenLookup | cloudfunctions/aiChat/index.js:69-74 | storing a reply makes it the fresh answer for its key, overwriting an expired entry, and leaves other keys as they were |
| AiChat.ReplyCache.constructor | cloudfunctions/aiChat/index.js:17 | the cache starts empty |
| AiChat.ReplyCache.Lookup | cloudfunctions/aiChat/index.js:69-74 | a hit exactly for a fresh entry; an expired entry is ignored, and a lookup removes nothing |
| AiChat.ReplyCache.Store | cloudfunctions/aiChat/index.js:150-154 | the entry for the key becomes the reply with the current time; every other entry is unchanged |
| AiChat.AskingAboutFoodNearby | cloudfunctions/aiChat/index.js:77 | the question "what is good to eat nearby" passes the keyword test |
| AiChat.ContainsParts | cloudfunctions/aiChat/index.js:77 | an occurrence of a joined keyword contains each of its two parts |
| AiChat.FollowedByContains | cloudfunctions/aiChat/index.js:77 | a match of a `a.*b` branch contains both `a` and `b` |
| AiChat.KeywordAsksNearby | cloudfunctions/aiChat/index.js:77 | any message containing one of the six plain keywords passes the test |
| AiChat.NoKeywordNoQuestion | cloudfunctions/aiChat/index.js:77 | a message with none of the plain keywords and neither 店 nor 吃 fails the test |
| AiChat.DistanceKey | cloudfunctions/aiChat/index.js:321-326 | a record gets a distance key exactly when it has a location with non-zero latitude and longitude; the key is non-negative |
| AiChat.RankKey | cloudfunctions/aiChat/index.js:332 | a missing key and a zero key both rank as the fallback 999, so a merchant at distance zero sorts last |
| Sorting.SortBy | cloudfunctions/aiChat/index.js:332 | the result is a permutation of the input in ascending key order |
| Sorting.InsertSorted | cloudfunctions/aiChat/index.js:332 | inserting one element into a list in key order keeps it in key order |
| Sorting.SortByElements | miniprogram/pages/map/map.js:252 | the sorted list holds exactly the elements of the input |
| Sorting.SortedPrefixIsSmallest | miniprogram/core/store/modules/chat.js:113-114 | no element left out of a sorted prefix has a smaller key than a kept one |
| Sorting.SortByEqualKeys | miniprogram/pages/map/map.js:252 | when every key is equal the sort keeps the input order |
| Text.TrimStartDropsWhite | miniprogram/pages/chat/chat.js:343 | trimming the start keeps a suffix and drops only white characters |
| Text.TrimEndDropsWhite | miniprogram/pages/chat/chat.js:343 | trimming the end keeps a prefix and drops only white characters |
| Text.TakeSubMultiset | miniprogram/core/store/modules/chat.js:114 | a prefix holds no element more often than the whole sequence |
| Text.ContainsAfterPrefix | cloudfunctions/aiChat/index.js:85-88 | text put in front keeps an occurrence |
| Text.JoinHasParts | cloudfunctions/aiChat/index.js:85-88 | every part occurs in the joined text |
| Text.Trim | miniprogram/pages/chat/chat.js:343 | no longer than the input, and neither end of a non-empty result is white |
| Text.TrimEmptyIff | miniprogram/pages/chat/chat.js:318 | the trimmed text is empty exactly when every character is white |
| AiChat.Rank | cloudfunctions/aiChat/index.js:332-333 | the ranked list has at most ten entries |
| AiChat.RankIsSortedPermutation | cloudfunctions/aiChat/index.js:332-333 | for up to ten records the ranking is a permutation in ascending key order |
| AiChat.NearbyMerchants | cloudfunctions/aiChat/index.js:306-368 | at most ten records; an unavailable directory gives none; a present collection gives its first ten re-ordered; a missing collection gives the retried collection only after a successful ingestion |
| AiChat.CategoryPart | cloudfunctions/aiChat/index.js:87 | the category part is present exactly when the category is non-empty |
| AiChat.DistancePart | cloudfunctions/aiChat/index.js:87 | the distance part is present exactly when the distance is non-zero |
| AiChat.RatingPart | cloudfunctions/aiChat/index.js:87 | the rating part is present exactly when the rating is positive |
| AiChat.OptionalPartsReadBack | cloudfunctions/aiChat/index.js:87 | a present part reads back: the category between "(" and ")", the distance's decimal text between " - " and 米, the rating's text between " - ⭐" and 分 |
| AiChat.MerchantHead | cloudfunctions/aiChat/index.js:86-87 | the head of a line starts with its number, ". " and the merchant's name |
| AiChat.MerchantLineParts | cloudfunctions/aiChat/index.js:86-87 | a line starts with its number, ". " and the merchant's name; it is the numbered name with its category part, the address on a second line, then the distance and rating parts |
| AiChat.MerchantLines | cloudfunctions/aiChat/index.js:85-88 | at most five lines, the k-th being the line numbered k+1 for the k-th ranked merchant |
| AiChat.MerchantList | cloudfunctions/aiChat/index.js:85-88 | the list text is the fixed header followed by the merchant lines joined by newlines |
| AiChat.MerchantListShowsEach | cloudfunctions/aiChat/index.js:85-88 | each of the first five merchants has its numbered line in the list text |
| AiChat.Enrichment | cloudfunctions/aiChat/index.js:77-99 | enrichment happens exactly when the keyword test passes and a location is given; then it is never empty: the guidance note without merchants, the list otherwise |
| AiChat.Forwarded | cloudfunctions/aiChat/index.js:106-116 | the forwarded turns are no more than those given |
| AiChat.ForwardedNormalized | cloudfunctions/aiChat/index.js:106-116 | on normalised history every turn is forwarded, in order, with its role and content |
| AiChat.Outbound | cloudfunctions/aiChat/index.js:102-120 | between two and eight messages: the system prompt first and the user's message last |
| AiChat.OutboundCapsAfterFiltering | cloudfunctions/aiChat/index.js:102-120 | the six-turn cap applies to the history after empty turns were dropped |
| AiChat.BuildMessages | cloudfunctions/aiChat/index.js:102-120 | the loop builds exactly the outbound sequence |
| AiChat.ChatWithDoubao | cloudfunctions/aiChat/index.js:66-164 | a fresh cache hit answers without a request; otherwise the request is the outbound sequence with the enrichment appended; only a non-empty completion is cached; a malformed payload answers null; an error is thrown |
| AiChat.GetSimpleBackupReply | cloudfunctions/aiChat/index.js:167-174 | the backup reply is one of the three fixed, non-empty strings |
| AiChat.Handle | cloudfunctions/aiChat/index.js:177-271 | the reply is never empty: a missing message gets the apology and no audit; a hit or completion is returned with a success audit; otherwise a backup string, with a failure audit only for an error; only a non-empty completion is cached, under the message and the last two normalised turns, and every other path leaves the cache as it was |
| ObserverStore.IndexOf | miniprogram/core/store/index.js:72 | the index of the first occurrence, or -1 exactly when absent |
| ObserverStore.RemoveFirst | miniprogram/core/store/index.js:71-76 | nothing changes when absent; otherwise the first occurrence goes and the elements before and after it stay in order |
| ObserverStore.RemoveFirstAfterAppend | miniprogram/core/store/index.js:64-76 | unsubscribing a freshly subscribed callback restores the previous list |
| ObserverStore.IndexOfAppendNew | miniprogram/core/store/index.js:68-72 | a callback appended once is found at the end |
| ObserverStore.RemoveFirstKeepsOthers | miniprogram/core/store/index.js:71-76 | every other callback keeps its count and the removed one loses one |
| ObserverStore.RemoveFirstKeepsOrder | miniprogram/core/store/index.js:71-76 | the callbacks before the first occurrence stay where they were and the later ones move up by one, in order |
| ObserverStore.Deliveries | miniprogram/core/store/index.js:80-86 | each listener, in subscription order, receives the module's state |
| ObserverStore.Bindings | miniprogram/core/store/index.js:18-26 | a (module, key) pair is bound exactly when the module defines that mutation, and it is bound to that mutation |
| ObserverStore.Store.constructor | miniprogram/core/store/index.js:6-10 | no state, no listeners, no bindings |
| ObserverStore.Store.RegisterModule | miniprogram/core/store/index.js:13-26 | installs the module's state, or the empty state when it has none, and binds its mutations; listeners are untouched |
| ObserverStore.Store.Commit | miniprogram/core/store/index.js:21-24 | a bound mutation replaces that module's state and notifies only its listeners; an unbound one changes nothing |
| ObserverStore.Store.Notify | miniprogram/core/store/index.js:80-86 | the module's listeners receive its state in order; no state changes |
| ObserverStore.Store.Subscribe | miniprogram/core/store/index.js:64-69 | creates the module's list when absent and appends the callback at the end |
| ObserverStore.Store.Unsubscribe | miniprogram/core/store/index.js:71-76 | removes the first occurrence of the callback, if any, and nothing else |
| ObserverStore.Store.GetState | miniprogram/core/store/index.js:59-61 | the module's state when registered, undefined otherwise |
| ChatStore.IndexOfId | miniprogram/core/store/modules/chat.js:27 | the first message whose id matches, or -1 exactly when none does |
| ChatStore.Apply | miniprogram/core/store/modules/chat.js:28-29 | merging an update sets the status and, when given, the id; every other field is kept |
| ChatStore.UpdateFirst | miniprogram/core/store/modules/chat.js:26-31 | with no match the list is unchanged; otherwise only the first matching message is merged |
| ChatStore.UpdateFirstSkipsUnidentified | miniprogram/core/store/modules/chat.js:26-31 | a message without an id is never updated |
| ChatStore.IndexOfChat | miniprogram/core/store/modules/chat.js:50 | the first entry with that chat id, or -1 exactly when none has it |
| ChatStore.UpsertHistory | miniprogram/core/store/modules/chat.js:49-61 | an existing entry is replaced in place; a new one is put first, followed by the old history with its last entry dropped once the length would pass fifty |
| ChatStore.UpsertHistoryKeepsDistinct | miniprogram/core/store/modules/chat.js:49-61 | no duplicate chat id is introduced and the new entry is present |
| ChatStore.LexLeTotal | miniprogram/core/store/modules/chat.js:216 | string order as used by `sort` is total |
| ChatStore.LexLeAntisymmetric | miniprogram/core/store/modules/chat.js:216 | string order as used by `sort` is antisymmetric |
| ChatStore.ChatId | miniprogram/core/store/modules/chat.js:214-219 | the chat id joins the two user ids with '_' in one of the two orders |
| ChatStore.ChatIdSymmetric | miniprogram/core/store/modules/chat.js:214-219 | both participants compute the same chat id |
| ChatStore.ChatQuery | miniprogram/core/store/modules/chat.js:108-118 | exactly min(n, 20) of the chat's n messages (the `limit(100)` cut to the client's largest page of 20), none more often than in the chat, in ascending time; all of them when there are no more than twenty, otherwise the oldest: no message left out is earlier than a kept one |
| ChatStore.FirstByTimeCount | miniprogram/core/store/modules/chat.js:112-114 | the first twenty in time order number min(n, 20), form a sub-multiset, and are all the messages when they fit |
| ChatStore.FirstByTimeOrdered | miniprogram/core/store/modules/chat.js:112-114 | the first twenty in time order are in ascending time |
| ChatStore.KeptAreOldest | miniprogram/core/store/modules/chat.js:112-114 | a message left out of the first twenty in time order is no earlier than any kept one |
| ChatStore.OfChat | miniprogram/core/store/modules/chat.js:110-113 | exactly the messages of that chat |
| ChatStore.Enqueued | miniprogram/core/store/modules/chat.js:179-185 | the appended messages are no more than the changes |
| ChatStore.EnqueuedAppend | miniprogram/core/store/modules/chat.js:179-185 | two snapshots in a row append what one combined snapshot would |
| ChatStore.Echo | miniprogram/core/store/modules/chat.js:132-140 | the local echo has no id, status 'sending' and the target as receiver |
| ChatStore.ChatState.constructor | miniprogram/core/store/modules/chat.js:2-10 | every field holds its initial value |
| ChatStore.ChatState.SetCurrentChat | miniprogram/core/store/modules/chat.js:13-16 | only the current chat and target change |
| ChatStore.ChatState.SetMessages | miniprogram/core/store/modules/chat.js:18-20 | only the message list changes |
| ChatStore.ChatState.AddMessage | miniprogram/core/store/modules/chat.js:22-24 | the message is appended at the end and nothing else changes |
| ChatStore.ChatState.UpdateMessage | miniprogram/core/store/modules/chat.js:26-31 | only the first message with that id is merged; nothing else changes |
| ChatStore.ChatState.SetMessageListener | miniprogram/core/store/modules/chat.js:33-35 | only that chat's listener entry changes |
| ChatStore.ChatState.RemoveMessageListener | miniprogram/core/store/modules/chat.js:37-39 | only that chat's listener entry is removed |
| ChatStore.ChatState.SetUnreadCount | miniprogram/core/store/modules/chat.js:41-43 | only that chat's unread count changes |
| ChatStore.ChatState.SetChatRangeStatus | miniprogram/core/store/modules/chat.js:45-47 | only the range flag changes |
| ChatStore.ChatState.AddChatHistory | miniprogram/core/store/modules/chat.js:49-61 | the history is upserted, keeps distinct ids and the fifty limit; nothing else changes |
| ChatStore.ChatState.ClearCurrentChat | miniprogram/core/store/modules/chat.js:63-67 | resets only the current chat, target and messages |
| ChatStore.ChatState.ClearAllChatData | miniprogram/core/store/modules/chat.js:69-77 | every field returns to its initial value |
| ChatStore.ChatState.FetchMessages | miniprogram/core/store/modules/chat.js:108-123 | on success the messages become the chat's query result; on error nothing changes |
| ChatStore.ChatState.StartMessageListener | miniprogram/core/store/modules/chat.js:170-192 | a no-op when that chat already has a listener; otherwise the listener is registered |
| ChatStore.ChatState.OnSnapshot | miniprogram/core/store/modules/chat.js:179-185 | each added document is appended, in order |
| ChatStore.ChatState.StopMessageListener | miniprogram/core/store/modules/chat.js:195-201 | closes and removes the listener only when present, otherwise nothing changes |
| ChatStore.ChatState.EndChat | miniprogram/core/store/modules/chat.js:204-209 | stops the current chat's listener and clears the current chat |
| ChatStore.ChatState.StartChat | miniprogram/core/store/modules/chat.js:82-105 | sets the symmetric chat id and target, fetches the messages, starts the listener and records the history entry |
| ChatStore.ChatState.SendMessage | miniprogram/core/store/modules/chat.js:126-167 | always throws: without a current chat its own error, otherwise the TypeError of the undefined `rootState`; no echo is added and only the 'failed' patch by `'temp_' + now` applies |
| ChatStore.SendLeavesMessagesUnchanged | miniprogram/core/store/modules/chat.js:159-163 | the failure patch by `'temp_' + now` changes nothing when no message has that id |
| ChatStore.ChatState.SendMessageTracked | miniprogram/core/store/modules/chat.js:126-167 | without a current chat the 'no active chat' error and no change; otherwise only the message list changes, by one echo appended and patched through its temporary id; when that id was free the earlier messages stay and the echo carries the current chat, the user module's id as sender, the target as receiver, the content, kind and time, and ends 'sent' with the stored id or 'failed' |
| ChatStore.IndexOfIdAppend | miniprogram/core/store/modules/chat.js:27 | a message appended with a fresh id is found at the end |
| ChatStore.EchoStaysSending | miniprogram/core/store/modules/chat.js:150-153 | even with a sender id supplied, updating by the returned id leaves the id-less echo 'sending' |
| LocationStore.PushRecent | miniprogram/core/store/modules/location.js:15-19 | the new fix comes first, followed by a prefix of the old history; the length stays within ten |
| LocationStore.PushRecentTwice | miniprogram/core/store/modules/location.js:15-19 | two fixes in a row appear newest first ahead of the old history |
| LocationStore.LocationState.constructor | miniprogram/core/store/modules/location.js:2-8 | every field holds its initial value |
| LocationStore.LocationState.SetCurrentLocation | miniprogram/core/store/modules/location.js:11-20 | sets the location and the update time and pushes the fix onto the bounded history; nothing else changes |
| LocationStore.LocationState.SetLocationEnabled | miniprogram/core/store/modules/location.js:22-24 | only the enabled flag changes |
| LocationStore.LocationState.SetLocationWatcher | miniprogram/core/store/modules/location.js:26-28 | only the watcher changes |
| LocationStore.LocationState.ClearLocationData | miniprogram/core/store/modules/location.js:30-36 | all five fields return to their initial values |
| LocationStore.LocationState.StartLocationWatch | miniprogram/core/store/modules/location.js:105-130 | a no-op when a watcher is recorded or the start fails; otherwise updates run, the callback is registered as one more listener, and the watcher recorded is what `wx.onLocationChange` returns, nothing |
| LocationStore.LocationState.StartLocationWatchKept | miniprogram/core/store/modules/location.js:105-130 | as StartLocationWatch, but the watcher recorded is the registered callback itself |
| LocationStore.LocationState.StopLocationWatch | miniprogram/core/store/modules/location.js:133-139 | returns the watcher it stops, if any, and leaves none; with one it ends the updates and unregisters exactly that callback, without one the platform is untouched |
| LocationStore.Without | miniprogram/core/store/modules/location.js:135 | `offLocationChange` leaves exactly the other listeners |
| LocationStore.LocationService.StartLocationUpdate | miniprogram/core/store/modules/location.js:110 | updates run once the start succeeds; the listeners are kept |
| LocationStore.LocationService.OnLocationChange | miniprogram/core/store/modules/location.js:112 | one more listener, appended |
| LocationStore.LocationService.StopLocationUpdate | miniprogram/core/store/modules/location.js:134 | updates stop; the listeners are kept |
| LocationStore.LocationService.OffLocationChange | miniprogram/core/store/modules/location.js:135 | the callback is no longer registered; the update flag is kept |
| LocationStore.WatchAsWrittenLeaks | miniprogram/core/store/modules/location.js:105-139 | as written, start, start, stop leaves both callbacks registered and the updates running |
| LocationStore.WatchKeptStops | miniprogram/core/store/modules/location.js:105-139 | with the callback recorded, start, start, stop leaves no listener and the updates stopped |
| UserStore.IndexOfUser | miniprogram/core/store/modules/user.js:24 | the first user with that id (no earlier user has it), or -1 exactly when none has it |
| UserStore.UpsertUser | miniprogram/core/store/modules/user.js:23-30 | replaces the first match in place or appends; the length grows by at most one |
| UserStore.UpsertKeepsDistinct | miniprogram/core/store/modules/user.js:23-30 | no duplicate id is introduced |
| UserStore.RemoveUserMembers | miniprogram/core/store/modules/user.js:32-34 | exactly the users without that id remain |
| UserStore.RemoveUserAppend | miniprogram/core/store/modules/user.js:32-34 | the filter keeps the relative order of the rest |
| UserStore.RemoveUserAbsent | miniprogram/core/store/modules/user.js:32-34 | removing an absent id changes nothing |
| UserStore.GenerateRandomNickname | miniprogram/core/store/modules/user.js:130-136 | a nickname is an adjective followed by a noun from the fixed lists |
| UserStore.GenerateRandomAvatar | miniprogram/core/store/modules/user.js:138-141 | an avatar is one of the six fixed colours |
| UserStore.UserState.constructor | miniprogram/core/store/modules/user.js:2-7 | every field holds its initial value |
| UserStore.UserState.SetUserInfo | miniprogram/core/store/modules/user.js:10-13 | logged in exactly when profile information is given |
| UserStore.UserState.SetUserId | miniprogram/core/store/modules/user.js:15-17 | only the user id changes |
| UserStore.UserState.SetNearbyUsers | miniprogram/core/store/modules/user.js:19-21 | only the nearby list changes |
| UserStore.UserState.AddNearbyUser | miniprogram/core/store/modules/user.js:23-30 | the nearby list is upserted; nothing else changes |
| UserStore.UserState.RemoveNearbyUser | miniprogram/core/store/modules/user.js:32-34 | the users with that id are filtered out; nothing else changes |
| UserStore.UserState.ClearUserData | miniprogram/core/store/modules/user.js:36-41 | every field returns to its initial value |
| UserStore.UserState.InitUser | miniprogram/core/store/modules/user.js:46-102 | with a stored id the id is set and the profile fetched; without one an anonymous user is created |
| Storage.GetStorage | miniprogram/core/utils/storage.js:17-25 | the default exactly when the stored value is the empty string (absent) |
| Storage.CacheRead | miniprogram/core/utils/storage.js:76-89 | null for an absent, falsy or expired entry; the data of a live entry; undefined for any other truthy value |
| Storage.AfterRead | miniprogram/core/utils/storage.js:83-86 | a read removes the entry exactly when it has expired |
| Storage.SetThenGet | miniprogram/core/utils/storage.js:66-89 | a stored value reads back until its lifetime has passed (strictly), and forever with lifetime zero |
| Storage.WithoutPrefix | miniprogram/core/utils/storage.js:97-112 | exactly the keys not starting with the prefix remain, with their values |
| Storage.DeviceStorage.constructor | miniprogram/core/utils/storage.js:6-36 | the storage holds the given items |
| Storage.DeviceStorage.SetStorage | miniprogram/core/utils/storage.js:6-14 | the key maps to the value; nothing else changes |
| Storage.DeviceStorage.RemoveStorage | miniprogram/core/utils/storage.js:28-36 | only the key is removed |
| Storage.CacheManager.constructor | miniprogram/core/utils/storage.js:61-63 | the manager keeps its prefix and storage |
| Storage.CacheManager.Set | miniprogram/core/utils/storage.js:66-73 | the prefixed key holds the data, the current time and the lifetime |
| Storage.CacheManager.Get | miniprogram/core/utils/storage.js:76-89 | returns the cache read and removes the prefixed key only when expired |
| Storage.CacheManager.Remove | miniprogram/core/utils/storage.js:92-94 | only the prefixed key is removed |
| Storage.CacheManager.Clear | miniprogram/core/utils/storage.js:97-112 | exactly the keys with the prefix are removed |
| ChatApi.Reverse | miniprogram/core/api/chat.js:19 | the i-th element is the i-th from the end |
| ChatApi.GetChatMessages | miniprogram/core/api/chat.js:4-23 | a newest-first page comes back oldest first, with the same length; errors pass through |
| ChatApi.ReverseReverse | miniprogram/core/api/chat.js:19 | reversing twice gives the page back |
| ChatApi.SentRecord | miniprogram/core/api/chat.js:26-35 | the caller's fields plus timestamp now, status 'sent' and expiry a day later |
| ChatApi.ChatIdsAppend | miniprogram/core/api/chat.js:67-72 | the chats seen grow by the appended message's chat |
| ChatApi.FirstPerChat | miniprogram/core/api/chat.js:67-72 | the kept messages cover exactly the chats of the rows |
| ChatApi.FirstPerChatDistinct | miniprogram/core/api/chat.js:67-72 | at most one message per chat |
| ChatApi.FirstIndex | miniprogram/core/api/chat.js:69 | the position of a chat's first occurrence |
| ChatApi.FirstIndexAppend | miniprogram/core/api/chat.js:67-72 | appending a row does not move an existing chat's first occurrence |
| ChatApi.FirstIndexNew | miniprogram/core/api/chat.js:67-72 | a new chat's first occurrence is the appended row |
| ChatApi.FirstPerChatIsFirst | miniprogram/core/api/chat.js:62-72 | each kept message is its chat's first, that is newest, row |
| ChatApi.LatestPerChat | miniprogram/core/api/chat.js:67-72 | the loop keeps exactly the first row per chat, in first-appearance order |
| ChatApi.GetChatList | miniprogram/core/api/chat.js:51-78 | at most the limit, one per chat, in first-appearance order; errors pass through |
| ChatApi.AiRequest | miniprogram/core/api/chat.js:81-88 | message, history, location and user id reach the gateway unchanged |
| GetMerchants.SignOf | cloudfunctions/getMerchants/index.js:54-55 | the sign prefix is at most one character and gives factor 1 or -1 |
| GetMerchants.Fraction | cloudfunctions/getMerchants/index.js:54-55 | the value of a fraction's digits lies in [0, 1] |
| GetMerchants.ParseIntOfIntToString | cloudfunctions/getMerchants/index.js:75 | integer parsing reads an integer's decimal text back |
| GetMerchants.ParseFloatOfIntToString | cloudfunctions/getMerchants/index.js:54-55 | number parsing reads an integer's decimal text back |
| GetMerchants.IntToStringParts | cloudfunctions/getMerchants/index.js:54-55 | an integer's decimal text has no leading white, a minus sign exactly for a negative value, and digits that read back as its magnitude |
| GetMerchants.LeadingDigitsAll | cloudfunctions/getMerchants/index.js:54-55 | a string of digits is read completely |
| GetMerchants.Split | cloudfunctions/getMerchants/index.js:51 | at least one part and no part contains the separator |
| GetMerchants.JoinSplit | cloudfunctions/getMerchants/index.js:51 | joining the parts with the separator gives the string back |
| GetMerchants.Clean | cloudfunctions/getMerchants/index.js:49-85 | a point is kept exactly when it has a name and a location whose two parts parse to in-range coordinates, and its trimmed name and id are non-empty; the kept record is valid, holds those coordinates as longitude then latitude, the trimmed name, id, address, category and phone, the rating and distance read with a default of 0, the run's time and the source 'amap' |
| GetMerchants.Coordinates | cloudfunctions/getMerchants/index.js:51-60 | coordinates exactly when the location has two parts that parse and lie in range; longitude from the first part, latitude from the second |
| GetMerchants.NumberOr0 | cloudfunctions/getMerchants/index.js:73 | 0 for a missing or unparsable rating, else the parsed number |
| GetMerchants.IntegerOr0 | cloudfunctions/getMerchants/index.js:74 | 0 for a missing or unparsable distance, else the parsed integer |
| GetMerchants.ZeroTextIsZero | cloudfunctions/getMerchants/index.js:73-74 | the fallback text '0' parses to zero |
| GetMerchants.SplitNone | cloudfunctions/getMerchants/index.js:51 | a text without a comma is one part |
| GetMerchants.SplitTwo | cloudfunctions/getMerchants/index.js:51 | 'a,b' splits into a and b |
| GetMerchants.IntToStringNoComma | cloudfunctions/getMerchants/index.js:51 | an integer's decimal text has no comma |
| GetMerchants.CleanReadsCoordinates | cloudfunctions/getMerchants/index.js:49-85 | a named, identified point at 'lng,lat' in range is kept with exactly those coordinates |
| GetMerchants.CleanSkipsIncomplete | cloudfunctions/getMerchants/index.js:49 | a point without name or location is skipped |
| GetMerchants.ReplaceAll | cloudfunctions/getMerchants/index.js:100-102 | every record with the provider id becomes the new record; the rest are kept |
| GetMerchants.Upsert | cloudfunctions/getMerchants/index.js:87-110 | a database error changes nothing; otherwise at most one record is added and counted |
| GetMerchants.Ingest | cloudfunctions/getMerchants/index.js:48-110 | the saved count is at most the number of points and equals the growth of the collection |
| GetMerchants.Step | cloudfunctions/getMerchants/index.js:48-110 | one turn saves at most one record; a skipped point changes nothing |
| GetMerchants.UpsertKeepsInvariant | cloudfunctions/getMerchants/index.js:87-104 | upserts keep provider ids unique and every record valid |
| GetMerchants.IngestKeepsInvariant | cloudfunctions/getMerchants/index.js:48-110 | the whole run keeps provider ids unique and every record valid |
| GetMerchants.StepKeepsId | cloudfunctions/getMerchants/index.js:87-110 | a later turn never loses a stored provider id |
| GetMerchants.StepStores | cloudfunctions/getMerchants/index.js:87-104 | a successful save stores the record under its provider id |
| GetMerchants.IngestStoresEachPoint | cloudfunctions/getMerchants/index.js:48-110 | after the run every kept point whose save succeeded is stored |
| GetMerchants.SaveMerchant | cloudfunctions/getMerchants/index.js:87-110 | one loop turn's save is the specified step |
| GetMerchants.IngestAll | cloudfunctions/getMerchants/index.js:48-110 | the loop computes exactly the specified collection and count |
| GetMerchants.Run | cloudfunctions/getMerchants/index.js:10-122 | a failed call or a status other than '1' fails and stores nothing; success reports saved ≤ total and a preview of at most ten |
| AutoExpire.IdsAppend | cloudfunctions/autoExpireChats/index.js:34-36 | the ids of a longer list gain the new document's id |
| AutoExpire.Query | cloudfunctions/autoExpireChats/index.js:17-23 | exactly the documents whose expiry is strictly before now |
| AutoExpire.Live | cloudfunctions/autoExpireChats/index.js:17-23 | exactly the documents whose expiry is not before now |
| AutoExpire.QueryLivePartition | cloudfunctions/autoExpireChats/index.js:17-23 | expired and live documents partition the collection |
| AutoExpire.QueryLiveStep | cloudfunctions/autoExpireChats/index.js:17-23 | one more document goes to exactly one of the expired and live lists, at its end |
| AutoExpire.LiveHasNothingExpired | cloudfunctions/autoExpireChats/index.js:14-38 | no expired document remains after the sweep |
| AutoExpire.RemoveIds | cloudfunctions/autoExpireChats/index.js:34-38 | exactly the documents whose id was not deleted remain |
| AutoExpire.RemoveIdsIgnoresAbsent | cloudfunctions/autoExpireChats/index.js:35 | deleting an id not in the collection changes nothing |
| AutoExpire.RemoveExpiredIsLive | cloudfunctions/autoExpireChats/index.js:14-38 | deleting the queried ids leaves exactly the live documents |
| AutoExpire.RemoveIdsMonotone | cloudfunctions/autoExpireChats/index.js:34-38 | deleting in two rounds equals deleting the union |
| AutoExpire.KeepsUniqueIds | cloudfunctions/autoExpireChats/index.js:34-38 | deletion keeps ids unique |
| AutoExpire.SubsequenceOfRemoveIds | cloudfunctions/autoExpireChats/index.js:34-38 | the remaining documents keep their relative order |
| AutoExpire.DeleteEach | cloudfunctions/autoExpireChats/index.js:34-38 | the deletion loop removes exactly the doomed ids |
| AutoExpire.RemoveIdsNone | cloudfunctions/autoExpireChats/index.js:34-38 | deleting nothing keeps the collection |
| AutoExpire.RemoveIdsStep | cloudfunctions/autoExpireChats/index.js:34-38 | one more document survives the deletion exactly when its id is not deleted |
| AutoExpire.RemoveIdsDisjoint | cloudfunctions/autoExpireChats/index.js:34-38 | deleting ids no document carries changes nothing |
| AutoExpire.QueryRemoveIds | cloudfunctions/autoExpireChats/index.js:17-38 | deleting by id and then selecting the expired documents equals selecting first and deleting after |
| AutoExpire.LiveRemoveIds | cloudfunctions/autoExpireChats/index.js:17-38 | deleting by id and then selecting the live documents equals selecting first and deleting after |
| AutoExpire.QueryUniqueIds | cloudfunctions/autoExpireChats/index.js:17-23 | the fetched expired documents have unique ids when the collection does |
| AutoExpire.RemovePrefixIds | cloudfunctions/autoExpireChats/index.js:34-38 | deleting the ids of the first n documents of a list with unique ids leaves exactly the rest |
| AutoExpire.LiveIdsApart | cloudfunctions/autoExpireChats/index.js:17-38 | no live document shares its id with an expired one |
| AutoExpire.Page | cloudfunctions/autoExpireChats/index.js:17-21 | one `get()` returns the first min(n, 100) of the n expired documents, in collection order |
| AutoExpire.SweptSplit | cloudfunctions/autoExpireChats/index.js:17-38 | one round keeps every live document in order, and the expired documents left are exactly those after the first page |
| AutoExpire.SweepLeavesNothingExpired | cloudfunctions/autoExpireChats/index.js:14-56 | when the expired documents fit in one page, one round leaves exactly the live documents and nothing expired; otherwise a hundred fewer expired documents remain |
| AutoExpire.Collections.constructor | cloudfunctions/autoExpireChats/index.js:8 | the two collections as given |
| AutoExpire.Collections.Sweep | cloudfunctions/autoExpireChats/index.js:12-74 | no expired chat means cleaned 0 and nothing changes; otherwise each collection loses the documents of its first page of expired ones, the counts are the page sizes, and a failure stops where it happens |
| ReadStatus.MarkRead | cloudfunctions/updateReadStatus/index.js:16-28 | exactly the caller's unread messages from the target become read at the timestamp; all others are unchanged |
| ReadStatus.CountMatches | cloudfunctions/updateReadStatus/index.js:16-22 | the count is at most the collection size |
| ReadStatus.CountZeroIff | cloudfunctions/updateReadStatus/index.js:16-22 | the count is zero exactly when no message matches |
| ReadStatus.RepeatUpdatesNothing | cloudfunctions/updateReadStatus/index.js:16-28 | after an update a repeat call matches no message |
| ReadStatus.MarkReadIdempotent | cloudfunctions/updateReadStatus/index.js:16-28 | a repeat call leaves the messages as they are, even with a new timestamp |
| ReadStatus.BulkUpdate | cloudfunctions/updateReadStatus/index.js:16-28 | the loop produces the marked collection and the number of matched messages |
| ReadStatus.Collections.constructor | cloudfunctions/updateReadStatus/index.js:7 | the two collections as given |
| ReadStatus.Collections.UpdateReadStatus | cloudfunctions/updateReadStatus/index.js:10-52 | on success the messages are marked and exactly one receipt is appended; a failure after the update keeps the update |
| HandleReport.ClientEvent | miniprogram/core/api/user.js:79-85 | the client sends the target as `targetId` and no `reportedUser` |
| HandleReport.CountReports | cloudfunctions/handleReport/index.js:24-30 | the count is at most the number of reports |
| HandleReport.CountAfterReport | cloudfunctions/handleReport/index.js:24-30 | one more report for a user raises only that user's count by one |
| HandleReport.Block | cloudfunctions/handleReport/index.js:34-39 | only the reported user becomes blocked, with the time |
| HandleReport.Decide | cloudfunctions/handleReport/index.js:14-54 | missing user: no writes; blocked exactly when the count is at least three, and only then written |
| HandleReport.HandleReport | cloudfunctions/handleReport/index.js:12-63 | reads `reportedUser`; missing means a failure with no writes; otherwise blocked exactly at three or more reports |
| HandleReport.ClientReportsAreRejected | cloudfunctions/handleReport/index.js:14-21 | every report the client sends is rejected as missing its parameter |
| HandleReport.HandleReportTargetId | cloudfunctions/handleReport/index.js:12-63 | the same decision keyed on the field the client sends |
| HandleReport.ClientReportsAreCounted | cloudfunctions/handleReport/index.js:24-54 | a client report is counted and blocks at three or more |
| MessageBubble.Classify | miniprogram/components/message-bubble/message-bubble.js:27-35 | the four buckets are disjoint and exhaustive; minutes lie in 1..59 and hours in 1..23, as floors of the difference |
| MessageBubble.FormatTime | miniprogram/components/message-bubble/message-bubble.js:22-36 | under a minute, including negative differences, is '刚刚'; the text is never empty |
| MessageBubble.NatToStringInjective | miniprogram/components/message-bubble/message-bubble.js:30-34 | different numbers print differently |
| MessageBubble.RenderEnds | miniprogram/components/message-bubble/message-bubble.js:27-35 | each bucket's text ends with its own suffix |
| MessageBubble.RenderInjective | miniprogram/components/message-bubble/message-bubble.js:27-35 | different buckets render differently |
| MessageBubble.LeadingDigitsBeforeSlash | miniprogram/components/message-bubble/message-bubble.js:34 | the month is read back up to the slash |
| MessageBubble.MinutesReadBack | miniprogram/components/message-bubble/message-bubble.js:29-30 | the minute count is read back from the text |
| MessageBubble.HoursReadBack | miniprogram/components/message-bubble/message-bubble.js:31-32 | the hour count is read back from the text |
| Avatar.DisplaySrc | miniprogram/components/avatar/avatar.js:44-51 | empty or a colour (trimmed start '#') gives the default; anything else is shown unchanged |
| Avatar.DisplaySrcIsImage | miniprogram/components/avatar/avatar.js:44-51 | the displayed source is never empty and never a colour |
| Avatar.DefaultIsImage | miniprogram/components/avatar/avatar.js:27-28 | the default avatar is an image path |
| Avatar.DisplaySrcIdempotent | miniprogram/components/avatar/avatar.js:44-51 | choosing again from the chosen source changes nothing |
| Avatar.AvatarComponent.constructor | miniprogram/components/avatar/avatar.js:26-41 | on attach the displayed source is chosen from the property |
| Avatar.AvatarComponent.SetSrc | miniprogram/components/avatar/avatar.js:31-35 | a new source is displayed through the same choice |
| Avatar.AvatarComponent.UpdateDisplaySrc | miniprogram/components/avatar/avatar.js:44-51 | only the displayed source changes, to the choice |
| Avatar.AvatarComponent.OnImageError | miniprogram/components/avatar/avatar.js:53-57 | an image error resets to the default |
| Avatar.AvatarComponent.OnAvatarTap | miniprogram/components/avatar/avatar.js:59-65 | an event with the displayed source only when clickable |
| ChatPage.GenerateAvatarPath | miniprogram/pages/chat/chat.js:329-337 | the path starts with '/' or 'http'; such a value is kept; anything else, colour or empty, gives the default |
| ChatPage.ColourIsNotPath | miniprogram/pages/chat/chat.js:331-334 | a colour value never counts as a path |
| ChatPage.GenerateAvatarPathIdempotent | miniprogram/pages/chat/chat.js:329-337 | applying the rule to its own result changes nothing |
| ChatPage.FormatTimeMs | miniprogram/pages/chat/chat.js:109-122 | empty for a non-time; otherwise five characters "HH:MM" whose two fields read back as hours and minutes |
| ChatPage.HasInputContentIff | miniprogram/pages/chat/chat.js:314-326 | the input counts as content exactly when it has a non-white character |
| ChatPage.SetLastStatus | miniprogram/pages/chat/chat.js:374-383 | only the last message's status changes |
| ChatPage.AiHistory | miniprogram/pages/chat/chat.js:451-454 | the last five messages, each the user's exactly when sent by the current user |
| ChatPage.MockReplies | miniprogram/pages/chat/chat.js:471-509 | at most one reply from the AI account: a fallback on an error, the reply when non-empty, none otherwise |
| ChatPage.SetLastStatusKeepsSent | miniprogram/pages/chat/chat.js:374-383 | marking the last message sent again changes nothing |
| ChatPage.MockRepliesEndSent | miniprogram/pages/chat/chat.js:374-383 | in the AI chat the last message is the reply or, without one, the stored copy; both are already sent, so the final status step changes nothing |
| ChatPage.MarkRead | miniprogram/pages/chat/chat.js:390-400 | only the target's unread messages flip to read, and none remains unread |
| ChatPage.MarkReadIdempotent | miniprogram/pages/chat/chat.js:390-400 | marking twice equals marking once |
| ChatPage.SpliceStart | miniprogram/pages/chat/chat.js:943-945 | the start index `splice` uses, including negative indexes counted from the end |
| ChatPage.SpliceOne | miniprogram/pages/chat/chat.js:943-945 | removes the element at the start index, or nothing past the end |
| ChatPage.SpliceOneRemovesIndex | miniprogram/pages/chat/chat.js:943-945 | for a valid index exactly that element goes and the rest keep their order |
| ChatPage.MarkSentById | miniprogram/pages/chat/chat.js:1142-1152 | only messages with the matching id change, to 'sent' |
| ChatPage.ChatPageState.constructor | miniprogram/pages/chat/chat.js:6-30 | an empty conversation in range with more history to load |
| ChatPage.ChatPageState.OnInputChange | miniprogram/pages/chat/chat.js:314-326 | stores the input and flags whether it has content |
| ChatPage.ChatPageState.SendMessage | miniprogram/pages/chat/chat.js:342-388 | a no-op for blank input or out of range; otherwise clears the input; a real chat ends with the store's list and range flag, its last message marked sent or failed, and throws when that list is empty; the AI chat ends with the echo, the stored copy and the reply, having sent the last five turns |
| ChatPage.ChatPageState.AppendAndSend | miniprogram/pages/chat/chat.js:351-383 | a real chat's echo is replaced by the store's list when the store notifies the page, and the status lands on that list's last message, or throws on an empty one; the AI chat appends the copy and reply and sends the last five turns |
| ChatPage.ChatPageState.SendMockMessage | miniprogram/pages/chat/chat.js:423-516 | appends the stored copy, sends the history ending with it, then appends the reply |
| ChatPage.ChatPageState.MarkMessagesAsRead | miniprogram/pages/chat/chat.js:390-420 | the list is marked read and a receipt for the target is sent |
| ChatPage.ChatPageState.DeleteMessage | miniprogram/pages/chat/chat.js:937-953 | after confirmation exactly the element at the index is removed |
| ChatPage.ChatPageState.MarkMessageSent | miniprogram/pages/chat/chat.js:1142-1152 | the status-by-id update on the list |
| ChatPage.ChatPageState.LoadMoreMessages | miniprogram/pages/chat/chat.js:855-870 | an older page is prepended and more exists exactly when the page was full; an error keeps the list |
| ChatPage.ChatPageState.OnScrollToUpper | miniprogram/pages/chat/chat.js:855-870 | loads only when more history exists and no load is running |
| ChatPage.MockSendLeavesEchoSending | miniprogram/pages/chat/chat.js:374-383 | in the AI chat the status step marks the reply, so the echo stays 'sending' and the text appears twice |
| ChatPage.MockHistoryRepeatsUserTurn | miniprogram/pages/chat/chat.js:439-454 | the AI history ends with the user's text twice |
| MapPage.Or | miniprogram/pages/map/map.js:322-324 | the first value when truthy, else the second |
| MapPage.Located | miniprogram/pages/map/map.js:241-244 | exactly the users with coordinates |
| MapPage.Nearest | miniprogram/pages/map/map.js:241-255 | at most sixty located users, ascending by distance |
| MapPage.NearestAreClosest | miniprogram/pages/map/map.js:241-255 | every kept user is no farther than every dropped one |
| MapPage.NearestAsWrittenIsListOrder | miniprogram/pages/map/map.js:241-255 | as written, the users shown are the first sixty located ones in list order |
| MapPage.FartherUserStaysFirst | miniprogram/pages/map/map.js:245-252 | two users with the farther listed first: as written it stays first, the nearest-first order puts it second |
| MapPage.Grid | miniprogram/pages/map/map.js:261-267 | every cell holds at least one user |
| MapPage.CellKeys | miniprogram/pages/map/map.js:261-267 | the cells in first-seen order, each once |
| MapPage.SumSizesOther | miniprogram/pages/map/map.js:261-267 | a cell outside the list does not change the sum |
| MapPage.SumSizesUpdate | miniprogram/pages/map/map.js:261-267 | growing one listed cell changes the sum by its growth |
| MapPage.GridSizesSum | miniprogram/pages/map/map.js:261-267 | the cell sizes sum to the number of users |
| MapPage.EmitCell | miniprogram/pages/map/map.js:272-316 | one marker per cell whose count adds the cell's users; ids stay as handed out |
| MapPage.ClusterMarkers | miniprogram/pages/map/map.js:258-318 | one marker per cell; the counts sum to the users |
| MapPage.PlainMarkers | miniprogram/pages/map/map.js:322-339 | the i-th user gets id i+1 and a user id falling back from `_id` to `id` to i+1 |
| MapPage.MarkersCountUsers | miniprogram/pages/map/map.js:241-339 | the markers count exactly the kept users, at most sixty, in at most sixty markers |
| MapPage.SumAtLeastCount | miniprogram/pages/map/map.js:261-267 | no more cells than users |
| MapPage.PlainCount | miniprogram/pages/map/map.js:322-339 | single markers count one user each |
| MapPage.MarkerIdsDistinct | miniprogram/pages/map/map.js:270-339 | all marker ids are distinct |
| MapPage.HandedOutDistinct | miniprogram/pages/map/map.js:270-316 | cluster ids from 10000 and single ids below never collide |
| MapPage.ClustersOnlyAboveForty | miniprogram/pages/map/map.js:258 | a cluster appears only above forty users and holds at least two |
| MapPage.ClusterCountsAtLeastTwo | miniprogram/pages/map/map.js:272-316 | a cluster marker counts at least two users |
| MapPage.GenerateMarkers | miniprogram/pages/map/map.js:241-339 | the method computes exactly the specified markers |
| MapPage.BuildGrid | miniprogram/pages/map/map.js:261-267 | the loop builds exactly the grid and its cells |
| MapPage.EmitMarkers | miniprogram/pages/map/map.js:270-318 | the loop emits exactly the cell markers |
| MapPage.MarkersAsWritten | miniprogram/pages/map/map.js:243 | any non-empty user list fails at the undefined helper |
| MapPage.OneUserShowsNoMarker | miniprogram/pages/map/map.js:243 | one user gives an error as written and one marker with id 1 when corrected |
| MapPage.FindMarker | miniprogram/pages/map/map.js:344 | a marker with the id, or none exactly when no marker has it |
| MapPage.FindMarkerById | miniprogram/pages/map/map.js:344 | with distinct ids the tapped marker is the one found |
| MapPage.ZoomIn | miniprogram/pages/map/map.js:354 | two levels closer, capped at twenty |
| MapPage.ZoomInRepeated | miniprogram/pages/map/map.js:354 | repeated taps never exceed twenty and never zoom out |
| MapPage.FreshFixIsKept | miniprogram/pages/map/map.js:147-154 | a fix younger than thirty seconds is not refetched |
| MapPage.CheckBroadcast | miniprogram/pages/map/map.js:410-440 | blank content is rejected exactly; accepted text is the trimmed content, 1 to 200 characters, and needs a location |
| MapPage.AcceptedTextStable | miniprogram/pages/map/map.js:410-440 | the accepted text passes the check unchanged |
| MapPage.MapPageState.constructor | miniprogram/pages/map/map.js:6-17 | the initial centre and scale 16, no markers, modal closed |
| MapPage.MapPageState.UpdateMarkers | miniprogram/pages/map/map.js:167-211 | the markers become the generated ones; the view is unchanged |
| MapPage.MapPageState.OnMarkerTap | miniprogram/pages/map/map.js:342-366 | an unknown id does nothing; a cluster zooms in and recentres; a single marker navigates to the chat |
| MapPage.MapPageState.ShowBroadcastModal | miniprogram/pages/map/map.js:380-385 | opens the modal with empty content |
| MapPage.MapPageState.OnBroadcastInput | miniprogram/pages/map/map.js:400-404 | stores the typed content |
| MapPage.MapPageState.SendBroadcast | miniprogram/pages/map/map.js:410-507 | the verdict is the check of the content; only a sent broadcast closes and clears the modal |

## Left out

- Network and platform calls: the HTTPS requests to the completion service and the place search, all database, storage and `wx.*` calls, toasts, navigation other than the returned page path, the recorder, uploads and the clipboard. Each is an abstract outcome or an in-memory collection.
- Concurrency: the deadline race against a timer in `aiChat`, the fire-and-forget audit writes (only which audit record is chosen is modelled), polling and throttling timers, and the delays before mock replies. Each operation runs to completion with one clock reading.
- Floating point: the haversine distance and the `Math.sqrt` distance (a squared distance, which orders the same, stands in for the latter), averaged cluster coordinates and `toFixed` formatting. Distances and coordinates are `real`. The grid cell comes from a floor of the coordinate divided by 0.01.
- AiChat.RatingPart: the rating is carried as text rather than printed from a JavaScript number.
- AutoExpire.Page: the page size of 100 is the server SDK's default for a `get()` without `.limit()`; the SDK is not part of this model, so the constant is taken as given.
- ChatStore.ChatQuery: the client's largest page of 20 is the platform's documented maximum for a query from the mini-program; the platform is not part of this model, so the constant is taken as given. With the ascending order a chat of more than twenty messages therefore shows only its twenty oldest.
- LocationStore.LocationService: the platform's location service is modelled only as an update flag and a list of listeners; positions are not delivered, and `offLocationChange` is taken to remove every registration of the callback.
- Sorting.SortBy: stability (equal keys keep their input order) is not stated, only sortedness and permutation.
- GetMerchants.Clean: number parsing covers leading white space, an optional sign, digits and a decimal fraction; exponents, `Infinity` and hexadecimal integers are not modelled.
- Randomness: backup and fallback replies, nicknames and avatar colours are a choice from the fixed lists (a parameter or an arbitrary pick).
- Dates and time zones: hours, minutes, month and day of a timestamp are inputs.
- Strings are sequences of characters. UTF-16 lengths and code-unit ordering are not distinguished from characters.
- The shadowed first `getNearbyMerchants` of `aiChat` (index.js:274-304) is dead code and is not modelled.
- ObserverStore.Store.Notify: for a module without state the program still calls each listener, with `undefined`; the model delivers nothing then. Notify is only reached through a commit, which runs on a registered module, so that case never arises.
- ChatPage.ChatPageState.LoadMoreMessages: the earlier page is an input. In the program `fetchOlderMessages` (miniprogram/pages/chat/chat.js:873-875) always yields an empty list, so the first scroll to the top turns `hasMoreMessages` off; the model covers any page the fetch could return.
- ObserverStore.Store.GetState: the call without a module name, which returns the whole state, is not modelled; the program never makes it.
- The store's cross-module `dispatch` filter (store/index.js:40-45) is not modelled; the store binds each mutation by its (module, key) pair instead of the joined "module/key" string.
- Storage failures: `setStorage` and `removeStorage` are modelled as always succeeding, and `clearStorage` is not modelled.
- The user store's asynchronous fetch and creation are outcomes passed to InitUser, not the database calls themselves.
- The deletes of `autoExpireChats` are all-or-nothing per collection; partial completion of `Promise.all` is not modelled.
- ChatPage.ChatPageState.SendMessage: the store's message list and range flag after the store's action are inputs, not computed from the store; the page's mapping that adds display times is not modelled, and the message object the page passes to the store as `content` is not modelled. The mock marker with id 999 that the map page adds for the current user, display-time fields, `cancelReply`, `scrollToBottom` and the thrown storage error in the mock chat are not modelled.
- The map page's `generateAvatarPath` (map.js:217-230) is the same rule as the chat page's and is modelled once, as ChatPage.GenerateAvatarPath.
- MapPage.GenerateMarkers: the distance of each user from the map centre is an input (the haversine formula is floating point); the as-written call with two objects is covered under Findings.
- Thin wrappers (`api/index.js`, `api/user.js` other than the report event, `api/broadcast.js`, `api/location.js`), the app lifecycle and the display-only components are not part of this model.

## Findings

| source | as written | input that shows it | evidently intended | confidence | as-written member | corrected member |
|---|---|---|---|---|---|---|
| miniprogram/core/store/modules/chat.js:126-134 | the action destructures `rootState`, but the store passes an action only `state`, `commit` and `dispatch` (miniprogram/core/store/index.js:32-52) | any send with a current chat and target: reading `rootState.user` throws before the echo is added or the message is written | the sender id is read from the user module's state | high, not executed | ChatStore.ChatState.SendMessage, ChatStore.SendLeavesMessagesUnchanged | ChatStore.ChatState.SendMessageTracked |
| miniprogram/core/store/modules/chat.js:143-163 | the local echo is appended without an `_id`, and the status updates look it up by the stored id or by `'temp_' + now` | once the sender id is supplied, any send with a current chat and target: the echo stays 'sending' whether the save succeeds or fails | the echo carries a temporary id that the updates match, so it ends 'sent' or 'failed' | high, not executed | ChatStore.EchoStaysSending | ChatStore.ChatState.SendMessageTracked |
| cloudfunctions/handleReport/index.js:14-21 | the function reads `reportedUser`, but the client sends `targetId` (miniprogram/core/api/user.js:79-85) | any report from the client: it is rejected as missing its parameter and never counted | the function reads the field the client sends | high, not executed | HandleReport.HandleReport, HandleReport.ClientReportsAreRejected | HandleReport.HandleReportTargetId, HandleReport.ClientReportsAreCounted |
| miniprogram/pages/map/map.js:245-252 | `calculateDistance(lat1, lon1, lat2, lon2)` (miniprogram/core/utils/location.js:6) is called with two objects, so every distance is NaN; `a.dist - b.dist` is then NaN, which ECMA-262's `Array.prototype.sort` takes as equal, and the stable sort keeps the list order | once `extractCoordinates` exists, two located users with the farther one listed first: it stays first, and with more than sixty users a nearer user late in the list is not shown | each user's distance from the centre is computed and the nearest sixty are shown | high, not executed | MapPage.NearestAsWrittenIsListOrder, MapPage.FartherUserStaysFirst | MapPage.Nearest, MapPage.NearestAreClosest |
| miniprogram/pages/map/map.js:243 | `extractCoordinates` is called but defined nowhere, so marker generation throws for any user | a single nearby user with coordinates: no marker is shown | the located users are kept and turned into markers | high, not executed | MapPage.MarkersAsWritten, MapPage.OneUserShowsNoMarker | MapPage.GenerateMarkers |
| miniprogram/core/store/modules/location.js:105-139 | `wx.onLocationChange` returns nothing, so `SET_LOCATION_WATCHER` records `undefined`; the guard at line 106 then never fires and the stop at line 134 finds no watcher | start, start, stop: two listeners are registered and neither is removed, and the updates never stop | the registered callback is recorded, a second start is refused, and the stop ends the updates and unregisters it | medium, not executed | LocationStore.LocationState.StartLocationWatch, LocationStore.WatchAsWrittenLeaks | LocationStore.LocationState.StartLocationWatchKept, LocationStore.WatchKeptStops |
