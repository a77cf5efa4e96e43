/**
 * Read receipts (cloud function `updateReadStatus`): mark every unread
 * message the target sent to the caller as read, then append one receipt.
 *
 * The `messages` and `readReceipts` collections are sequences; the caller's
 * identity (`OPENID`) is a parameter; a database error is a stage (`failAt`)
 * at which the run throws.
 */
module ReadStatus {
  import opened Wrappers

  /** The fields of a stored message that the update reads or writes. */
  datatype StoredMessage = StoredMessage(
    receiverId: Option<string>,
    senderId: Option<string>,
    readStatus: Option<string>,
    readTime: Option<int>,
    content: string)

  /** A document of `readReceipts` (its server-side creation time is not modelled). */
  datatype Receipt = Receipt(senderId: string, receiverId: string, timestamp: int)

  /** The `where` filter: sent by the target to the caller, still unread. */
  predicate Matches(m: StoredMessage, caller: string, target: string) {
    m.receiverId == Some(caller) && m.senderId == Some(target) && m.readStatus == Some("unread")
  }

  /** The `update` on one message. */
  function MarkOne(m: StoredMessage, caller: string, target: string, timestamp: int): StoredMessage {
    if Matches(m, caller, target) then m.(readStatus := Some("read"), readTime := Some(timestamp)) else m
  }

  /** The collection after the bulk update. */
  function MarkRead(ms: seq<StoredMessage>, caller: string, target: string, timestamp: int): (r: seq<StoredMessage>)
    ensures |r| == |ms|
    ensures forall i :: 0 <= i < |ms| && Matches(ms[i], caller, target) ==>
              r[i] == ms[i].(readStatus := Some("read"), readTime := Some(timestamp))
    ensures forall i :: 0 <= i < |ms| && !Matches(ms[i], caller, target) ==> r[i] == ms[i]
  {
    seq(|ms|, i requires 0 <= i < |ms| => MarkOne(ms[i], caller, target, timestamp))
  }

  /** The number of matching messages: what `stats.updated` reports. */
  function CountMatches(ms: seq<StoredMessage>, caller: string, target: string): (n: nat)
    ensures n <= |ms|
  {
    if ms == [] then 0
    else CountMatches(ms[..|ms| - 1], caller, target) + if Matches(ms[|ms| - 1], caller, target) then 1 else 0
  }

  /** No message matches exactly when the count is zero. */
  lemma {:induction false} CountZeroIff(ms: seq<StoredMessage>, caller: string, target: string)
    ensures CountMatches(ms, caller, target) == 0 <==> forall i :: 0 <= i < |ms| ==> !Matches(ms[i], caller, target)
  {
    if ms != [] {
      var front := ms[..|ms| - 1];
      CountZeroIff(front, caller, target);
      assert forall i :: 0 <= i < |front| ==> front[i] == ms[i];
    }
  }

  /** A repeat call finds nothing left to update. */
  lemma RepeatUpdatesNothing(ms: seq<StoredMessage>, caller: string, target: string, timestamp: int)
    ensures CountMatches(MarkRead(ms, caller, target, timestamp), caller, target) == 0
  {
    CountZeroIff(MarkRead(ms, caller, target, timestamp), caller, target);
  }

  /** Marking twice is marking once: the second pass changes nothing. */
  lemma MarkReadIdempotent(ms: seq<StoredMessage>, caller: string, target: string, t1: int, t2: int)
    ensures MarkRead(MarkRead(ms, caller, target, t1), caller, target, t2) == MarkRead(ms, caller, target, t1)
  {
  }

  /** The bulk update, one document at a time, counting what it changes. */
  method BulkUpdate(ms: seq<StoredMessage>, caller: string, target: string, timestamp: int)
    returns (r: seq<StoredMessage>, updated: nat)
    ensures r == MarkRead(ms, caller, target, timestamp)
    ensures updated == CountMatches(ms, caller, target)
  {
    r := [];
    updated := 0;
    var i := 0;
    while i < |ms|
      invariant 0 <= i <= |ms|
      invariant |r| == i
      invariant forall k :: 0 <= k < i ==> r[k] == MarkOne(ms[k], caller, target, timestamp)
      invariant updated == CountMatches(ms[..i], caller, target)
    {
      assert ms[..i + 1][..i] == ms[..i];
      if Matches(ms[i], caller, target) {
        r := r + [ms[i].(readStatus := Some("read"), readTime := Some(timestamp))];
        updated := updated + 1;
      } else {
        r := r + [ms[i]];
      }
      i := i + 1;
    }
    assert ms[..i] == ms;
  }

  /** Where the run throws, if it does. */
  datatype Stage = UpdateMessages | AddReceipt

  datatype Outcome =
    | Updated(updatedCount: nat)   // `{ success: true, updatedCount }`
    | Failed                       // `{ success: false, error }`

  /** The two collections the function writes. */
  class Collections {
    var messages: seq<StoredMessage>
    var receipts: seq<Receipt>

    constructor (messages: seq<StoredMessage>, receipts: seq<Receipt>)
      ensures this.messages == messages && this.receipts == receipts
    {
      this.messages := messages;
      this.receipts := receipts;
    }

    /** `exports.main` for caller `caller` with `{ targetUserId: target, timestamp }`. */
    method UpdateReadStatus(caller: string, target: string, timestamp: int, failAt: Option<Stage>)
      returns (r: Outcome)
      modifies this
      ensures failAt == Some(UpdateMessages) ==>
                r == Failed && messages == old(messages) && receipts == old(receipts)
      ensures failAt == Some(AddReceipt) ==>
                r == Failed && messages == MarkRead(old(messages), caller, target, timestamp) && receipts == old(receipts)
      ensures failAt.None? ==>
                && r == Updated(CountMatches(old(messages), caller, target))
                && messages == MarkRead(old(messages), caller, target, timestamp)
                && receipts == old(receipts) + [Receipt(target, caller, timestamp)]
    {
      if failAt == Some(UpdateMessages) {
        return Failed;
      }
      var updated;
      messages, updated := BulkUpdate(messages, caller, target, timestamp);
      if failAt == Some(AddReceipt) {
        return Failed;
      }
      receipts := receipts + [Receipt(target, caller, timestamp)];
      r := Updated(updated);
    }
  }
}
