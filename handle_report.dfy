/**
 * Report handling (cloud function `handleReport`): check the parameter, count
 * the reports filed against the user, and block the user from the third
 * report on.
 *
 * The `reports` collection is a sequence the function only reads; `users` is
 * a map from document id to the fields the block writes; a database error is
 * a stage (`failAt`) at which the run throws.
 */
module HandleReport {
  import opened Wrappers

  /** The fields of the event the function or its client use. */
  datatype ReportEvent = ReportEvent(
    reportedUser: Option<string>,
    targetId: Option<string>,
    kind: Option<string>,
    reason: Option<string>,
    description: Option<string>)

  /** The event the client's `reportUser(targetUserId, reason, description)` sends. */
  function ClientEvent(targetUserId: string, reason: string, description: string): (e: ReportEvent)
    ensures e.targetId == Some(targetUserId) && e.reportedUser.None?
  {
    ReportEvent(None, Some(targetUserId), Some("user"), Some(reason), Some(description))
  }

  datatype ReportDoc = ReportDoc(reportedUser: Option<string>)

  datatype UserDoc = UserDoc(nickname: string, isBlocked: bool, blockedAt: Option<int>)

  /** A user is blocked from this many reports on (the code compares with `>=`). */
  const BLOCK_THRESHOLD: nat := 3

  /** `!x` on a string field: absent or empty is falsy. */
  predicate Truthy(o: Option<string>) {
    o.Some? && o.value != ""
  }

  /** `where({ reportedUser }).count()`. */
  function CountReports(reports: seq<ReportDoc>, user: string): (n: nat)
    ensures n <= |reports|
  {
    if reports == [] then 0
    else CountReports(reports[..|reports| - 1], user) + if reports[|reports| - 1].reportedUser == Some(user) then 1 else 0
  }

  /** Filing one more report against a user raises that user's count by one and no one else's. */
  lemma CountAfterReport(reports: seq<ReportDoc>, user: string, other: string)
    ensures CountReports(reports + [ReportDoc(Some(user))], user) == CountReports(reports, user) + 1
    ensures other != user ==> CountReports(reports + [ReportDoc(Some(user))], other) == CountReports(reports, other)
  {
    assert (reports + [ReportDoc(Some(user))])[..|reports|] == reports;
  }

  /** `doc(id).update({ isBlocked: true, blockedAt })`; updating a missing document writes nothing. */
  function Block(users: map<string, UserDoc>, id: string, now: int): (r: map<string, UserDoc>)
    ensures r.Keys == users.Keys
    ensures id in users ==> r[id] == users[id].(isBlocked := true, blockedAt := Some(now))
    ensures forall k :: k in users && k != id ==> r[k] == users[k]
  {
    if id in users then users[id := users[id].(isBlocked := true, blockedAt := Some(now))] else users
  }

  datatype Stage = CountStage | BlockStage

  datatype Reply =
    | MissingParameter                            // `{ success: false, message: '缺少必要参数' }`
    | Recorded(reportCount: nat, userBlocked: bool)
    | Failed                                      // `{ success: false, message: '处理举报失败' }`

  /** The body of the handler for the user id it was given, with the users collection afterwards. */
  function Decide(user: Option<string>, reports: seq<ReportDoc>, users: map<string, UserDoc>, now: int,
                  failAt: Option<Stage>): (r: (Reply, map<string, UserDoc>))
    ensures !Truthy(user) ==> r == (MissingParameter, users)
    ensures Truthy(user) && failAt.None? ==>
              r.0 == Recorded(CountReports(reports, user.value), CountReports(reports, user.value) >= BLOCK_THRESHOLD)
    ensures r.0.Recorded? ==> (r.0.userBlocked <==> r.0.reportCount >= BLOCK_THRESHOLD)
    ensures r.0.Recorded? && r.0.userBlocked ==> r.1 == Block(users, user.value, now)
    ensures !(r.0.Recorded? && r.0.userBlocked) ==> r.1 == users
    ensures failAt == Some(CountStage) && Truthy(user) ==> r.0 == Failed
  {
    if !Truthy(user) then (MissingParameter, users)
    else if failAt == Some(CountStage) then (Failed, users)
    else
      var count := CountReports(reports, user.value);
      if count >= BLOCK_THRESHOLD then
        if failAt == Some(BlockStage) then (Failed, users)
        else (Recorded(count, true), Block(users, user.value, now))
      else (Recorded(count, false), users)
  }

  /** `exports.main` as written: the user is read from `event.reportedUser`. */
  function HandleReport(event: ReportEvent, reports: seq<ReportDoc>, users: map<string, UserDoc>, now: int,
                        failAt: Option<Stage>): (r: (Reply, map<string, UserDoc>))
    ensures !Truthy(event.reportedUser) ==> r == (MissingParameter, users)
    ensures r.0.Recorded? ==> (r.0.userBlocked <==> r.0.reportCount >= BLOCK_THRESHOLD)
  {
    Decide(event.reportedUser, reports, users, now, failAt)
  }

  /** Every report the client sends is rejected as missing its parameter, and nothing is written. */
  lemma ClientReportsAreRejected(target: string, reason: string, description: string,
                                 reports: seq<ReportDoc>, users: map<string, UserDoc>, now: int, failAt: Option<Stage>)
    ensures HandleReport(ClientEvent(target, reason, description), reports, users, now, failAt) == (MissingParameter, users)
  {
  }

  /** The handler reading the field the client sends, `targetId`. */
  function HandleReportTargetId(event: ReportEvent, reports: seq<ReportDoc>, users: map<string, UserDoc>, now: int,
                                failAt: Option<Stage>): (r: (Reply, map<string, UserDoc>))
    ensures !Truthy(event.targetId) ==> r == (MissingParameter, users)
    ensures r.0.Recorded? ==> (r.0.userBlocked <==> r.0.reportCount >= BLOCK_THRESHOLD)
  {
    Decide(event.targetId, reports, users, now, failAt)
  }

  /**
   * With the corrected field a client report is counted, and the reported
   * user is blocked exactly from the third report on.
   */
  lemma ClientReportsAreCounted(target: string, reason: string, description: string,
                                reports: seq<ReportDoc>, users: map<string, UserDoc>, now: int)
    requires target != ""
    ensures var r := HandleReportTargetId(ClientEvent(target, reason, description), reports, users, now, None);
            && r.0 == Recorded(CountReports(reports, target), CountReports(reports, target) >= BLOCK_THRESHOLD)
            && (CountReports(reports, target) >= BLOCK_THRESHOLD ==>
                  target in users ==> r.1[target].isBlocked && r.1[target].blockedAt == Some(now))
            && (CountReports(reports, target) < BLOCK_THRESHOLD ==> r.1 == users)
  {
  }
}
