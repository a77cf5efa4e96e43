/**
 * The AI reply gateway (cloud function `aiChat`): history normalisation, a
 * process-wide reply cache with a five-minute lifetime, the keyword test that
 * decides whether to look up nearby merchants, the merchant ranking and list
 * text, the outbound message sequence, and the handler that always answers
 * with a non-empty reply.
 *
 * The HTTPS call to the completion service and the database reads are
 * abstract outcomes (`Upstream`, `Directory`); clock readings are parameters.
 */
module AiChat {
  import opened Wrappers
  import opened Text
  import Sorting

  // ---------------------------------------------------------------------
  // Requests and conversation turns
  // ---------------------------------------------------------------------

  datatype Role = System | User | Assistant

  /** A normalised conversation turn. */
  datatype Turn = Turn(role: Role, content: string)

  /** One caller-supplied history entry; `Missing` is a `null` entry (`history[i] || {}`). */
  datatype RawTurn =
    | Missing
    | Entry(role: Option<string>, content: Option<string>, text: Option<string>)

  datatype Location = Location(latitude: real, longitude: real)

  /**
   * The event the cloud function receives. `message` is `None` when absent or
   * not a string, `history` is `None` when it is not an array.
   */
  datatype Request = Request(
    message: Option<string>,
    userId: Option<string>,
    history: Option<seq<RawTurn>>,
    location: Option<Location>)

  /** JavaScript truthiness of an optional string. */
  predicate Truthy(o: Option<string>) {
    o.Some? && o.value != ""
  }

  function MessageOf(req: Request): string {
    req.message.GetOr("")
  }

  function UserIdOf(req: Request): string {
    if Truthy(req.userId) then req.userId.value else ""
  }

  function HistoryOf(req: Request): seq<RawTurn> {
    req.history.GetOr([])
  }

  /** Role kept only when it is 'assistant' or 'user'; anything else becomes 'user'. */
  function RoleOf(raw: RawTurn): (r: Role)
    ensures r == Assistant <==> raw.Entry? && raw.role == Some("assistant")
    ensures r != System
  {
    if raw.Entry? && raw.role == Some("assistant") then Assistant else User
  }

  /** `msg.content || msg.text || ''`. */
  function ContentOf(raw: RawTurn): (c: string)
    ensures c != "" ==>
              && raw.Entry?
              && ((Truthy(raw.content) && c == raw.content.value)
                  || (!Truthy(raw.content) && Truthy(raw.text) && c == raw.text.value))
    ensures raw.Entry? && Truthy(raw.content) ==> c == raw.content.value
  {
    match raw
    case Missing => ""
    case Entry(_, content, text) =>
      if Truthy(content) then content.value
      else if Truthy(text) then text.value
      else ""
  }

  /** The turns kept from one raw entry: none when its content is empty. */
  function NormalizeOne(raw: RawTurn): seq<Turn> {
    if ContentOf(raw) != "" then [Turn(RoleOf(raw), ContentOf(raw))] else []
  }

  /** History normalisation, entry by entry in caller order. */
  function Normalize(h: seq<RawTurn>): (r: seq<Turn>)
    ensures |r| <= |h|
    ensures forall i :: 0 <= i < |r| ==> r[i].content != "" && r[i].role != System
  {
    if h == [] then [] else Normalize(h[..|h| - 1]) + NormalizeOne(h[|h| - 1])
  }

  /** Normalisation works entry by entry, so it preserves the callers' order. */
  lemma {:induction false} NormalizeAppend(a: seq<RawTurn>, b: seq<RawTurn>)
    ensures Normalize(a + b) == Normalize(a) + Normalize(b)
  {
    if b == [] {
      assert a + b == a;
    } else {
      assert (a + b)[..|a + b| - 1] == a + b[..|b| - 1];
      NormalizeAppend(a, b[..|b| - 1]);
    }
  }

  /** Turns with empty resolved content are dropped; the others are kept. */
  lemma NormalizeSingle(raw: RawTurn)
    ensures Normalize([raw]) == [] <==> ContentOf(raw) == ""
    ensures ContentOf(raw) != "" ==> Normalize([raw]) == [Turn(RoleOf(raw), ContentOf(raw))]
  {
    assert [raw][..0] == [];
  }

  /** The normalisation loop of the handler. */
  method NormalizeHistory(history: seq<RawTurn>) returns (formatted: seq<Turn>)
    ensures formatted == Normalize(history)
  {
    formatted := [];
    var i := 0;
    while i < |history|
      invariant 0 <= i <= |history|
      invariant formatted == Normalize(history[..i])
    {
      assert history[..i + 1][..i] == history[..i];
      var content := ContentOf(history[i]);
      if content != "" {
        formatted := formatted + [Turn(RoleOf(history[i]), content)];
      }
      i := i + 1;
    }
    assert history[..i] == history;
  }

  // ---------------------------------------------------------------------
  // Reply cache
  // ---------------------------------------------------------------------

  /** Five minutes, in milliseconds. */
  const CACHE_TTL: int := 5 * 60 * 1000

  /** `JSON.stringify({ message, history: history.slice(-2) })`, kept structured. */
  datatype CacheKey = CacheKey(message: string, recent: seq<Turn>)

  datatype CacheEntry = CacheEntry(response: string, timestamp: int)

  function KeyOf(message: string, history: seq<Turn>): (k: CacheKey)
    ensures k.message == message
    ensures |k.recent| == if |history| <= 2 then |history| else 2
    ensures k.recent == history[|history| - |k.recent|..]
  {
    CacheKey(message, LastN(history, 2))
  }

  /** Two histories that share their last two turns give the same key. */
  lemma {:induction false} KeyIgnoresEarlierTurns(message: string, earlier: seq<Turn>, recent: seq<Turn>)
    requires |recent| >= 2
    ensures KeyOf(message, earlier + recent) == KeyOf(message, recent)
  {
    var h := earlier + recent;
    assert h[|h| - 2..] == recent[|recent| - 2..];
  }

  /** The cached reply for `key`, if it was stored less than `CACHE_TTL` ago. */
  function FreshReply(entries: map<CacheKey, CacheEntry>, key: CacheKey, now: int): (r: Option<string>)
    ensures r.Some? <==> key in entries && now - entries[key].timestamp < CACHE_TTL
    ensures r.Some? ==> r.value == entries[key].response
  {
    if key in entries && now - entries[key].timestamp < CACHE_TTL then Some(entries[key].response)
    else None
  }

  /**
   * After storing `reply` at time `t`, a lookup of the same key returns it
   * exactly while `now - t < CACHE_TTL`; other keys are not affected.
   */
  lemma StoreThenLookup(entries: map<CacheKey, CacheEntry>, key: CacheKey, reply: string, t: int, now: int, other: CacheKey)
    ensures FreshReply(entries[key := CacheEntry(reply, t)], key, now)
            == if now - t < CACHE_TTL then Some(reply) else None
    ensures other != key ==>
            FreshReply(entries[key := CacheEntry(reply, t)], other, now) == FreshReply(entries, other, now)
  {
  }

  /** The process-wide `responseCache` map. */
  class ReplyCache {
    var entries: map<CacheKey, CacheEntry>

    /** Only non-empty replies are ever stored. */
    ghost predicate Valid()
      reads this
    {
      forall k :: k in entries ==> entries[k].response != ""
    }

    constructor ()
      ensures entries == map[] && Valid()
    {
      entries := map[];
    }

    /** `responseCache.get(key)` with the age test; an expired entry is ignored, not deleted. */
    method Lookup(key: CacheKey, now: int) returns (r: Option<string>)
      ensures r.Some? <==> key in entries && now - entries[key].timestamp < CACHE_TTL
      ensures r.Some? ==> r.value == entries[key].response
    {
      r := FreshReply(entries, key, now);
    }

    /** `responseCache.set(key, { response, timestamp: now })`: overwrites any old entry. */
    method Store(key: CacheKey, response: string, now: int)
      requires Valid() && response != ""
      modifies this
      ensures Valid()
      ensures entries == old(entries)[key := CacheEntry(response, now)]
    {
      entries := entries[key := CacheEntry(response, now)];
    }
  }

  // ---------------------------------------------------------------------
  // Keyword test
  // ---------------------------------------------------------------------

  predicate NoLineTerminator(s: string) {
    forall i :: 0 <= i < |s| ==> !IsLineTerminator(s[i])
  }

  /** The regular-expression branch `a.*b`: `a`, then `b` later on the same line. */
  predicate FollowedBy(s: string, a: string, b: string) {
    exists i, j :: 0 <= i <= j <= |s| && i + |a| <= j && OccursAt(s, a, i) && OccursAt(s, b, j)
      && NoLineTerminator(s[i + |a|..j])
  }

  /** `/附近|旁边|周围|附近有什么|有什么.*店|.*饭店|.*餐厅|.*美食|吃.*的|哪里.*吃/.test(message)`. */
  predicate IsAskingNearby(message: string) {
    Contains(message, "附近") || Contains(message, "旁边") || Contains(message, "周围")
    || Contains(message, "附近有什么") || FollowedBy(message, "有什么", "店")
    || Contains(message, "饭店") || Contains(message, "餐厅") || Contains(message, "美食")
    || FollowedBy(message, "吃", "的") || FollowedBy(message, "哪里", "吃")
  }

  /** An occurrence of `p + q` contains an occurrence of `p` and one of `q`. */
  lemma ContainsParts(s: string, p: string, q: string)
    requires Contains(s, p + q)
    ensures Contains(s, p) && Contains(s, q)
  {
    var i :| 0 <= i <= |s| - |p + q| && OccursAt(s, p + q, i);
    assert s[i..i + |p|] == (p + q)[..|p|] == p;
    assert s[i + |p|..i + |p| + |q|] == (p + q)[|p|..] == q;
    assert 0 <= i <= |s| - |p| && OccursAt(s, p, i);
    assert 0 <= i + |p| <= |s| - |q| && OccursAt(s, q, i + |p|);
  }

  /** A match of `a.*b` contains both `a` and `b`. */
  lemma FollowedByContains(s: string, a: string, b: string)
    requires FollowedBy(s, a, b)
    ensures Contains(s, a) && Contains(s, b)
  {
    var i, j :| 0 <= i <= j <= |s| && i + |a| <= j && OccursAt(s, a, i) && OccursAt(s, b, j)
      && NoLineTerminator(s[i + |a|..j]);
    assert 0 <= i <= |s| - |a| && OccursAt(s, a, i);
    assert 0 <= j <= |s| - |b| && OccursAt(s, b, j);
  }

  /** Each of the six plain keywords on its own makes the message a nearby question. */
  lemma KeywordAsksNearby(message: string)
    requires Contains(message, "附近") || Contains(message, "旁边") || Contains(message, "周围")
             || Contains(message, "饭店") || Contains(message, "餐厅") || Contains(message, "美食")
    ensures IsAskingNearby(message)
  {
  }

  /**
   * The test fails on a message with none of the plain keywords and neither
   * 店 (shop) nor 吃 (eat): every other branch needs one of those two.
   */
  lemma {:induction false} NoKeywordNoQuestion(message: string)
    requires !Contains(message, "附近") && !Contains(message, "旁边") && !Contains(message, "周围")
    requires !Contains(message, "餐厅") && !Contains(message, "美食")
    requires !Contains(message, "店") && !Contains(message, "吃")
    ensures !IsAskingNearby(message)
  {
    if Contains(message, "附近有什么") {
      assert "附近有什么" == "附近" + "有什么";
      ContainsParts(message, "附近", "有什么");
    }
    if Contains(message, "饭店") {
      assert "饭店" == "饭" + "店";
      ContainsParts(message, "饭", "店");
    }
    if FollowedBy(message, "有什么", "店") {
      FollowedByContains(message, "有什么", "店");
    }
    if FollowedBy(message, "吃", "的") {
      FollowedByContains(message, "吃", "的");
    }
    if FollowedBy(message, "哪里", "吃") {
      FollowedByContains(message, "哪里", "吃");
    }
  }

  /** The example question "what good food is nearby" passes the test. */
  lemma AskingAboutFoodNearby()
    ensures IsAskingNearby("附近有什么好吃的")
  {
    assert OccursAt("附近有什么好吃的", "附近", 0);
  }

  // ---------------------------------------------------------------------
  // Merchant directory and ranking (the second, reachable getNearbyMerchants)
  // ---------------------------------------------------------------------

  datatype Coordinates = Coordinates(longitude: real, latitude: real)

  /**
   * A merchant record as stored by `getMerchants`. `ratingText` is how
   * JavaScript prints the number `rating`.
   */
  datatype Merchant = Merchant(
    name: string,
    category: string,
    address: string,
    location: Option<Coordinates>,
    distance: int,
    rating: real,
    ratingText: string)

  /** The merchants collection as one read finds it. */
  datatype Directory =
    | Collection(records: seq<Merchant>)
    | CollectionMissing   // error code -502005
    | Unavailable         // any other database error

  /** Squared planar distance in degrees, for records whose coordinates are both non-zero. */
  function DistanceKey(m: Merchant, here: Location): (d: Option<real>)
    ensures d.Some? <==> m.location.Some? && m.location.value.longitude != 0.0 && m.location.value.latitude != 0.0
    ensures d.Some? ==> d.value >= 0.0
  {
    match m.location
    case Some(c) =>
      if c.longitude != 0.0 && c.latitude != 0.0 then
        var dx := c.longitude - here.longitude;
        var dy := c.latitude - here.latitude;
        Some(dx * dx + dy * dy)
      else None
    case None => None
  }

  /** `(calculatedDistance || 999)`, on squared distances: a missing or zero key becomes 999². */
  const FALLBACK_KEY: real := 999.0 * 999.0

  function RankKey(m: Merchant, here: Location): (k: real)
    ensures DistanceKey(m, here).None? ==> k == FALLBACK_KEY
    ensures DistanceKey(m, here) == Some(0.0) ==> k == FALLBACK_KEY
  {
    match DistanceKey(m, here)
    case Some(d) => if d != 0.0 then d else FALLBACK_KEY
    case None => FALLBACK_KEY
  }

  /** The fetched records sorted by `RankKey`, at most 10. */
  function Rank(records: seq<Merchant>, here: Location): (r: seq<Merchant>)
    ensures |r| == if |records| <= 10 then |records| else 10
  {
    if |records| > 0 then Take(Sorting.SortBy(records, m => RankKey(m, here)), 10) else records
  }

  /** A ranked list of at most 10 fetched records is sorted ascending and loses nothing. */
  lemma RankIsSortedPermutation(records: seq<Merchant>, here: Location)
    requires |records| <= 10
    ensures multiset(Rank(records, here)) == multiset(records)
    ensures forall i, j :: 0 <= i < j < |records| ==> RankKey(Rank(records, here)[i], here) <= RankKey(Rank(records, here)[j], here)
  {
  }

  /** `db.collection('merchants').limit(10).get()`. */
  function FirstTen(d: Directory): seq<Merchant>
    requires d.Collection?
  {
    Take(d.records, 10)
  }

  /**
   * The reachable `getNearbyMerchants`: rank what one read returns; on a
   * missing collection, run the ingestion once and read again (unranked); any
   * other failure gives the empty list.
   */
  function NearbyMerchants(first: Directory, ingested: bool, retry: Directory, here: Location): (r: seq<Merchant>)
    ensures |r| <= 10
    ensures first.Unavailable? ==> r == []
    ensures first.Collection? ==> multiset(r) == multiset(FirstTen(first))
    ensures first.CollectionMissing? && !(ingested && retry.Collection?) ==> r == []
    ensures first.CollectionMissing? && ingested && retry.Collection? ==> r == FirstTen(retry)
  {
    match first
    case Collection(_) => Rank(FirstTen(first), here)
    case CollectionMissing => if ingested && retry.Collection? then FirstTen(retry) else []
    case Unavailable => []
  }

  // ---------------------------------------------------------------------
  // Enrichment text
  // ---------------------------------------------------------------------

  const LIST_HEADER: string := "\n\n📍 附近商户推荐:\n"

  const GUIDANCE_NOTE: string :=
    "\n\n[系统提示] 已获取用户位置信息，但当前数据库暂无附近商户数据。请给出不超过100字的通用建议（如提示稍后再试、放宽范围或打开地图App），不要说“无法获取位置”。"

  /** `${m.category ? `(${m.category})` : ''}`: the category in parentheses, only when non-empty. */
  function CategoryPart(m: Merchant): (r: string)
    ensures r != "" <==> m.category != ""
  {
    if m.category != "" then "(" + m.category + ")" else ""
  }

  /** `${m.distance ? ` - ${m.distance}米` : ''}`: the distance in metres, only when non-zero. */
  function DistancePart(m: Merchant): (r: string)
    ensures r != "" <==> m.distance != 0
  {
    if m.distance != 0 then " - " + IntToString(m.distance) + "米" else ""
  }

  /** `${m.rating > 0 ? ` - ⭐${m.rating}分` : ''}`: the rating, only when positive. */
  function RatingPart(m: Merchant): (r: string)
    ensures r != "" <==> m.rating > 0.0
  {
    if m.rating > 0.0 then " - ⭐" + m.ratingText + "分" else ""
  }

  /**
   * A present optional part reads back: the category between parentheses,
   * the distance's decimal text between " - " and 米, the rating's text
   * between " - ⭐" and 分.
   */
  lemma OptionalPartsReadBack(m: Merchant)
    ensures var c := CategoryPart(m);
            c != "" ==> |c| == |m.category| + 2 && c[0] == '(' && c[|c| - 1] == ')' && c[1..|c| - 1] == m.category
    ensures var d := DistancePart(m);
            d != "" ==> StartsWith(d, " - ") && d[|d| - 1] == '米' && d[3..|d| - 1] == IntToString(m.distance)
    ensures var r := RatingPart(m);
            r != "" ==> StartsWith(r, " - ⭐") && r[|r| - 1] == '分' && r[4..|r| - 1] == m.ratingText
  {
    var c := CategoryPart(m);
    if c != "" {
      assert c[1..|c| - 1] == m.category;
    }
    var d := DistancePart(m);
    if d != "" {
      assert d[..3] == " - " && d[3..|d| - 1] == IntToString(m.distance);
    }
    var r := RatingPart(m);
    if r != "" {
      assert r[..4] == " - ⭐" && r[4..|r| - 1] == m.ratingText;
    }
  }

  /** The number, the name and the category part. */
  function MerchantHead(n: nat, m: Merchant): (r: string)
    ensures StartsWith(r, NatToString(n) + ". " + m.name)
  {
    var head := NatToString(n) + ". " + m.name;
    assert (head + CategoryPart(m))[..|head|] == head;
    head + CategoryPart(m)
  }

  /** The address on its own line, after the pin. */
  function AddressPart(m: Merchant): string {
    "\n   📍 " + m.address
  }

  /** Line `n` of the list: number, name, optional category, address, optional distance and rating. */
  function MerchantLine(n: nat, m: Merchant): string {
    MerchantHead(n, m) + AddressPart(m) + (DistancePart(m) + RatingPart(m))
  }

  /**
   * A merchant line splits into the numbered name with its category part,
   * the address on a second line, and the distance and rating parts.
   */
  lemma MerchantLineParts(n: nat, m: Merchant)
    ensures StartsWith(MerchantLine(n, m), NatToString(n) + ". " + m.name)
    ensures var line := MerchantLine(n, m);
            var head := MerchantHead(n, m);
            var addr := AddressPart(m);
            && |line| == |head| + |addr| + |DistancePart(m)| + |RatingPart(m)|
            && line[..|head|] == head
            && line[|head|..|head| + |addr|] == addr
            && line[|head| + |addr|..] == DistancePart(m) + RatingPart(m)
  {
    var head, line := MerchantHead(n, m), MerchantLine(n, m);
    ConcatThree(head, AddressPart(m), DistancePart(m) + RatingPart(m));
    var prefix := NatToString(n) + ". " + m.name;
    assert line[..|prefix|] == head[..|prefix|] == prefix;
  }

  /** The three pieces of `a + b + c` are found back at their offsets. */
  lemma ConcatThree(a: string, b: string, c: string)
    ensures var s := a + b + c;
            && |s| == |a| + |b| + |c|
            && s[..|a|] == a && s[|a|..|a| + |b|] == b && s[|a| + |b|..] == c
  {
    var s := a + b + c;
    assert s[..|a|] == a;
    assert s[|a|..|a| + |b|] == b;
    assert s[|a| + |b|..] == c;
  }

  /** The lines for `nearby.slice(0, 5)`, numbered from 1. */
  function MerchantLines(nearby: seq<Merchant>): (lines: seq<string>)
    ensures |lines| == if |nearby| <= 5 then |nearby| else 5
    ensures forall k :: 0 <= k < |lines| ==> lines[k] == MerchantLine(k + 1, nearby[k])
  {
    var n := if |nearby| <= 5 then |nearby| else 5;
    seq(n, k requires 0 <= k < n => MerchantLine(k + 1, nearby[k]))
  }

  /** The list text: the header, then the numbered merchant lines joined by newlines. */
  function MerchantList(nearby: seq<Merchant>): (text: string)
    ensures StartsWith(text, LIST_HEADER)
    ensures text[|LIST_HEADER|..] == Join(MerchantLines(nearby), "\n")
  {
    var text := LIST_HEADER + Join(MerchantLines(nearby), "\n");
    assert text[..|LIST_HEADER|] == LIST_HEADER;
    assert text[|LIST_HEADER|..] == Join(MerchantLines(nearby), "\n");
    text
  }

  /** Each of the first five merchants has its numbered line in the list text. */
  lemma {:induction false} MerchantListShowsEach(nearby: seq<Merchant>, k: nat)
    requires k < |nearby| && k < 5
    ensures Contains(MerchantList(nearby), MerchantLine(k + 1, nearby[k]))
  {
    var lines := MerchantLines(nearby);
    JoinHasParts(lines, "\n", k);
    ContainsAfterPrefix(LIST_HEADER, Join(lines, "\n"), lines[k]);
  }

  /**
   * The `merchantInfo` appended to the user turn: empty unless the keyword
   * test passes and a location is present; then the merchant list, or the
   * guidance note when no merchant was found.
   */
  function Enrichment(message: string, location: Option<Location>, nearby: seq<Merchant>): (info: string)
    ensures !(IsAskingNearby(message) && location.Some?) ==> info == ""
    ensures IsAskingNearby(message) && location.Some? ==> info != ""
    ensures IsAskingNearby(message) && location.Some? && nearby == [] ==> info == GUIDANCE_NOTE
    ensures IsAskingNearby(message) && location.Some? && nearby != [] ==> StartsWith(info, LIST_HEADER)
  {
    if IsAskingNearby(message) && location.Some? then
      if |nearby| > 0 then MerchantList(nearby) else GUIDANCE_NOTE
    else ""
  }

  // ---------------------------------------------------------------------
  // Outbound message sequence
  // ---------------------------------------------------------------------

  datatype OutMessage = OutMessage(role: Role, content: string)

  const SYSTEM_PROMPT: string :=
    "你是小凼，出行陪伴助手。回答要简洁友好，不超过100字。如果用户询问附近商户，要结合提供的商户信息给出具体推荐。"

  /** The history turns the loop forwards: role 'assistant' only if exactly 'assistant', empty ones skipped. */
  function Forwarded(h: seq<Turn>): (r: seq<OutMessage>)
    ensures |r| <= |h|
  {
    if h == [] then []
    else
      var t := h[|h| - 1];
      Forwarded(h[..|h| - 1])
      + (if t.content != "" then [OutMessage(if t.role == Assistant then Assistant else User, t.content)] else [])
  }

  /** One system turn, at most six history turns, and the user turn. */
  function Outbound(history: seq<Turn>, userMessage: string): (msgs: seq<OutMessage>)
    ensures 2 <= |msgs| <= 8
    ensures msgs[0] == OutMessage(System, SYSTEM_PROMPT)
    ensures msgs[|msgs| - 1] == OutMessage(User, userMessage)
  {
    [OutMessage(System, SYSTEM_PROMPT)] + Forwarded(LastN(history, 6)) + [OutMessage(User, userMessage)]
  }

  function AsOut(t: Turn): OutMessage {
    OutMessage(t.role, t.content)
  }

  /** On normalised turns nothing is dropped or re-labelled by the forwarding loop. */
  lemma {:induction false} ForwardedNormalized(h: seq<Turn>)
    requires forall i :: 0 <= i < |h| ==> h[i].content != "" && h[i].role != System
    ensures Forwarded(h) == seq(|h|, i requires 0 <= i < |h| => AsOut(h[i]))
  {
    if h != [] {
      ForwardedNormalized(h[..|h| - 1]);
    }
  }

  /**
   * For a raw history, the forwarded turns are the last six of the
   * normalised history: the cap of six is taken after empty turns are dropped.
   */
  lemma OutboundCapsAfterFiltering(raw: seq<RawTurn>, userMessage: string)
    ensures var kept := LastN(Normalize(raw), 6);
            var msgs := Outbound(Normalize(raw), userMessage);
            |msgs| == |kept| + 2
            && forall i :: 0 <= i < |kept| ==> msgs[i + 1] == AsOut(kept[i])
  {
    var norm := Normalize(raw);
    var kept := LastN(norm, 6);
    forall i | 0 <= i < |kept|
      ensures kept[i].content != "" && kept[i].role != System
    {
      assert kept[i] == norm[|norm| - |kept| + i];
    }
    ForwardedNormalized(kept);
    var fwd := Forwarded(kept);
    var msgs := [OutMessage(System, SYSTEM_PROMPT)] + fwd + [OutMessage(User, userMessage)];
    assert Outbound(norm, userMessage) == msgs;
    forall i | 0 <= i < |kept|
      ensures msgs[i + 1] == AsOut(kept[i])
    {
      assert msgs[i + 1] == fwd[i];
    }
  }

  /** The message-building loop of `chatWithDoubao`. */
  method BuildMessages(history: seq<Turn>, userMessage: string) returns (msgs: seq<OutMessage>)
    ensures msgs == Outbound(history, userMessage)
  {
    msgs := [OutMessage(System, SYSTEM_PROMPT)];
    var recent := LastN(history, 6);
    var i := 0;
    while i < |recent|
      invariant 0 <= i <= |recent|
      invariant msgs == [OutMessage(System, SYSTEM_PROMPT)] + Forwarded(recent[..i])
    {
      assert recent[..i + 1][..i] == recent[..i];
      var h := recent[i];
      var role := if h.role == Assistant then Assistant else User;
      if h.content != "" {
        msgs := msgs + [OutMessage(role, h.content)];
      }
      i := i + 1;
    }
    assert recent[..i] == recent;
    msgs := msgs + [OutMessage(User, userMessage)];
  }

  // ---------------------------------------------------------------------
  // Upstream call and the request handler
  // ---------------------------------------------------------------------

  /** What the completion call settles with; a timeout is a `Failed`. */
  datatype Upstream =
    | Completion(content: string)   // a payload with `choices[0].message.content`
    | Malformed                     // any other payload shape
    | Failed(reason: string)        // network error, parse error or the 6000 ms deadline

  /** Everything outside the function: clock readings, database reads and the upstream result. */
  datatype Environment = Environment(
    lookupAt: int,
    directory: Directory,
    ingested: bool,
    retryDirectory: Directory,
    upstream: Upstream,
    repliedAt: int)

  /** What `chatWithDoubao` produces: a reply (`None` is `null`) or a thrown error. */
  datatype Answer = Answered(reply: Option<string>) | Threw(reason: string)

  /** The merchants found for the request, when the lookup runs. */
  function NearbyFor(env: Environment, location: Option<Location>): seq<Merchant> {
    if location.Some? then NearbyMerchants(env.directory, env.ingested, env.retryDirectory, location.value)
    else []
  }

  /** `chatWithDoubao`: the cache, the enrichment, the call and the cache write. */
  method ChatWithDoubao(cache: ReplyCache, message: string, history: seq<Turn>,
                        location: Option<Location>, env: Environment)
    returns (answer: Answer, request: Option<seq<OutMessage>>)
    requires cache.Valid()
    modifies cache
    ensures cache.Valid()
    ensures var key := KeyOf(message, history);
            var hit := FreshReply(old(cache.entries), key, env.lookupAt);
            if hit.Some? then
              answer == Answered(hit) && request.None? && cache.entries == old(cache.entries)
            else
              && request == Some(Outbound(history, message + Enrichment(message, location, NearbyFor(env, location))))
              && match env.upstream
                 case Completion(c) =>
                   if c != "" then
                     answer == Answered(Some(c)) && cache.entries == old(cache.entries)[key := CacheEntry(c, env.repliedAt)]
                   else
                     answer == Answered(None) && cache.entries == old(cache.entries)
                 case Malformed => answer == Answered(None) && cache.entries == old(cache.entries)
                 case Failed(e) => answer == Threw(e) && cache.entries == old(cache.entries)
  {
    var key := KeyOf(message, history);
    var cached := cache.Lookup(key, env.lookupAt);
    if cached.Some? {
      return Answered(cached), None;
    }
    var merchantInfo := "";
    if IsAskingNearby(message) && location.Some? {
      var nearby := NearbyMerchants(env.directory, env.ingested, env.retryDirectory, location.value);
      if |nearby| > 0 {
        merchantInfo := MerchantList(nearby);
      }
      if merchantInfo == "" {
        merchantInfo := GUIDANCE_NOTE;
      }
    }
    var msgs := BuildMessages(history, message + merchantInfo);
    request := Some(msgs);
    match env.upstream {
      case Completion(c) =>
        if c != "" {
          cache.Store(key, c, env.repliedAt);
          answer := Answered(Some(c));
        } else {
          answer := Answered(None);
        }
      case Malformed =>
        answer := Answered(None);
      case Failed(e) =>
        answer := Threw(e);
    }
  }

  const APOLOGY: string := "抱歉，我现在遇到了一点问题，无法正常回复。请稍后再试。"

  const BACKUP_REPLIES: seq<string> := [
    "网络似乎不太顺畅，请再发一次你的问题吧",
    "我需要休息一下，稍后再聊",
    "服务暂时不可用，请稍候"
  ]

  /** `getSimpleBackupReply`: a random one of the three fixed replies. */
  method GetSimpleBackupReply() returns (r: string)
    ensures r in BACKUP_REPLIES && r != ""
  {
    var i :| 0 <= i < |BACKUP_REPLIES|;
    r := BACKUP_REPLIES[i];
  }

  /** The audit record scheduled after the reply (the success one writes both log collections). */
  datatype Audit =
    | NoAudit
    | SuccessAudit(userId: string, query: string, result: string)
    | FailureAudit(userId: string, query: string, error: string)

  /** `exports.main`: validation, normalisation, the call, the fallback and the audit decision. */
  method Handle(cache: ReplyCache, req: Request, env: Environment) returns (reply: string, audit: Audit)
    requires cache.Valid()
    modifies cache
    ensures cache.Valid()
    ensures reply != ""
    ensures MessageOf(req) == "" ==>
              reply == APOLOGY && audit == NoAudit && cache.entries == old(cache.entries)
    ensures MessageOf(req) != "" ==>
              var message := MessageOf(req);
              var uid := UserIdOf(req);
              var key := KeyOf(message, Normalize(HistoryOf(req)));
              var hit := FreshReply(old(cache.entries), key, env.lookupAt);
              if hit.Some? then
                reply == hit.value && audit == SuccessAudit(uid, message, reply) && cache.entries == old(cache.entries)
              else match env.upstream
                case Completion(c) =>
                  if c != "" then
                    && reply == c && audit == SuccessAudit(uid, message, c)
                    && cache.entries == old(cache.entries)[key := CacheEntry(c, env.repliedAt)]
                  else reply in BACKUP_REPLIES && audit == NoAudit && cache.entries == old(cache.entries)
                case Malformed => reply in BACKUP_REPLIES && audit == NoAudit && cache.entries == old(cache.entries)
                case Failed(e) =>
                  reply in BACKUP_REPLIES && audit == FailureAudit(uid, message, e) && cache.entries == old(cache.entries)
  {
    var message := MessageOf(req);
    var userId := UserIdOf(req);
    if message == "" {
      return APOLOGY, NoAudit;
    }
    var history := NormalizeHistory(HistoryOf(req));
    ghost var hit := FreshReply(cache.entries, KeyOf(message, history), env.lookupAt);
    assert hit.Some? ==> hit.value != "";
    var answer, _ := ChatWithDoubao(cache, message, history, req.location, env);
    audit := NoAudit;
    reply := "";
    match answer {
      case Answered(r) =>
        if r.Some? && r.value != "" {
          return r.value, SuccessAudit(userId, message, r.value);
        }
      case Threw(e) =>
        audit := FailureAudit(userId, message, e);
    }
    reply := GetSimpleBackupReply();
  }
}
