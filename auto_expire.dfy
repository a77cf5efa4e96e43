/**
 * The expiry sweep (cloud function `autoExpireChats`): with one clock reading
 * `now`, fetch the chats whose `expireAt` is before `now` and remove them,
 * then do the same for the broadcasts, and report how many of each were
 * removed. Each fetch is a single `get()` without `.limit()`, so it returns
 * one page of at most `PAGE_LIMIT` documents, and one run removes at most
 * that many of each.
 *
 * Each collection is a sequence of documents; a database error is a stage
 * (`failAt`) at which the run throws, after which the catch block reports the
 * failure.
 */
module AutoExpire {
  import opened Wrappers
  import opened Text

  /** A document of `chats` or `broadcasts`: its `_id` and its optional `expireAt`. */
  datatype Doc = Doc(id: string, expireAt: Option<int>)

  /** `expireAt: _.lt(now)`: a document without the field never matches. */
  predicate ExpiredAt(d: Doc, now: int) {
    d.expireAt.Some? && d.expireAt.value < now
  }

  predicate UniqueIds(docs: seq<Doc>) {
    forall i, j :: 0 <= i < j < |docs| ==> docs[i].id != docs[j].id
  }

  function Ids(docs: seq<Doc>): set<string> {
    set i | 0 <= i < |docs| :: docs[i].id
  }

  lemma IdsAppend(docs: seq<Doc>, d: Doc)
    ensures Ids(docs + [d]) == Ids(docs) + {d.id}
  {
    var l := Ids(docs + [d]);
    forall x | x in Ids(docs) + {d.id}
      ensures x in l
    {
      if x != d.id {
        var i :| 0 <= i < |docs| && docs[i].id == x;
        assert (docs + [d])[i].id == x;
      } else {
        assert (docs + [d])[|docs|].id == x;
      }
    }
  }

  /** The query result: the expired documents, in collection order. */
  function Query(docs: seq<Doc>, now: int): (r: seq<Doc>)
    ensures |r| <= |docs|
    ensures forall d :: d in r <==> d in docs && ExpiredAt(d, now)
  {
    if docs == [] then []
    else
      var front := docs[..|docs| - 1];
      var d := docs[|docs| - 1];
      assert docs == front + [d];
      Query(front, now) + if ExpiredAt(d, now) then [d] else []
  }

  /** The documents the sweep keeps: those not expired at `now`, in order. */
  function Live(docs: seq<Doc>, now: int): (r: seq<Doc>)
    ensures |r| <= |docs|
    ensures forall d :: d in r <==> d in docs && !ExpiredAt(d, now)
  {
    if docs == [] then []
    else
      var front := docs[..|docs| - 1];
      var d := docs[|docs| - 1];
      assert docs == front + [d];
      Live(front, now) + if ExpiredAt(d, now) then [] else [d]
  }

  /** One more document goes to exactly one side: the expired list or the kept one. */
  lemma QueryLiveStep(front: seq<Doc>, d: Doc, now: int)
    ensures Query(front + [d], now) == Query(front, now) + (if ExpiredAt(d, now) then [d] else [])
    ensures Live(front + [d], now) == Live(front, now) + (if ExpiredAt(d, now) then [] else [d])
  {
    var docs := front + [d];
    assert docs[..|docs| - 1] == front;
  }

  /** Sending one more element to one of two sides keeps the two sides a split of the whole. */
  lemma SplitStep<T>(q: seq<T>, l: seq<T>, front: seq<T>, d: T, left: bool)
    requires |q| + |l| == |front|
    requires multiset(q) + multiset(l) == multiset(front)
    ensures var q', l' := q + (if left then [d] else []), l + (if left then [] else [d]);
            |q'| + |l'| == |front + [d]| && multiset(q') + multiset(l') == multiset(front + [d])
  {
    assert multiset(front + [d]) == multiset(front) + multiset{d};
    if left {
      assert multiset(q + [d]) == multiset(q) + multiset{d};
      assert l + [] == l;
    } else {
      assert multiset(l + [d]) == multiset(l) + multiset{d};
      assert q + [] == q;
    }
  }

  /** Every document is either counted as expired or kept, never both. */
  lemma {:induction false} QueryLivePartition(docs: seq<Doc>, now: int)
    ensures |Query(docs, now)| + |Live(docs, now)| == |docs|
    ensures multiset(Query(docs, now)) + multiset(Live(docs, now)) == multiset(docs)
  {
    if docs != [] {
      var front := docs[..|docs| - 1];
      var d := docs[|docs| - 1];
      assert docs == front + [d];
      QueryLivePartition(front, now);
      QueryLiveStep(front, d, now);
      SplitStep(Query(front, now), Live(front, now), front, d, ExpiredAt(d, now));
    }
  }

  /** A second sweep with the same clock finds nothing left to remove. */
  lemma {:induction false} LiveHasNothingExpired(docs: seq<Doc>, now: int)
    ensures Query(Live(docs, now), now) == []
  {
    if docs != [] {
      var front := docs[..|docs| - 1];
      var d := docs[|docs| - 1];
      assert docs == front + [d];
      LiveHasNothingExpired(front, now);
      var kept := Live(docs, now);
      if ExpiredAt(d, now) {
        assert kept == Live(front, now);
      } else {
        assert kept == Live(front, now) + [d];
        assert kept[..|kept| - 1] == Live(front, now);
        assert Query(kept, now) == Query(Live(front, now), now);
      }
    }
  }

  /** `doc(id).remove()` for each id in `ids`: every document with one of those ids goes. */
  function RemoveIds(docs: seq<Doc>, ids: set<string>): (r: seq<Doc>)
    ensures |r| <= |docs|
    ensures forall d :: d in r <==> d in docs && d.id !in ids
  {
    if docs == [] then []
    else
      var front := docs[..|docs| - 1];
      var d := docs[|docs| - 1];
      assert docs == front + [d];
      RemoveIds(front, ids) + if d.id in ids then [] else [d]
  }

  /** An id no document carries removes nothing. */
  lemma {:induction false} RemoveIdsIgnoresAbsent(docs: seq<Doc>, ids: set<string>, x: string)
    requires x !in Ids(docs)
    ensures RemoveIds(docs, ids + {x}) == RemoveIds(docs, ids)
  {
    if docs != [] {
      var front := docs[..|docs| - 1];
      var d := docs[|docs| - 1];
      assert docs == front + [d];
      IdsAppend(front, d);
      RemoveIdsIgnoresAbsent(front, ids, x);
    }
  }

  /** Removing by the ids of the expired documents keeps exactly the live ones, since ids are unique. */
  lemma {:induction false} RemoveExpiredIsLive(docs: seq<Doc>, now: int)
    requires UniqueIds(docs)
    ensures RemoveIds(docs, Ids(Query(docs, now))) == Live(docs, now)
  {
    if docs != [] {
      var front := docs[..|docs| - 1];
      var d := docs[|docs| - 1];
      assert docs == front + [d];
      RemoveExpiredIsLive(front, now);
      var expired := Query(front, now);
      forall i | 0 <= i < |front|
        ensures front[i].id != d.id
      {
        assert docs[i] == front[i];
      }
      if ExpiredAt(d, now) {
        IdsAppend(expired, d);
        RemoveIdsIgnoresAbsent(front, Ids(expired), d.id);
      } else {
        assert Query(docs, now) == expired;
        forall i | 0 <= i < |expired|
          ensures expired[i].id != d.id
        {
          assert expired[i] in front;
        }
      }
    }
  }

  lemma {:induction false} RemoveIdsMonotone(docs: seq<Doc>, a: set<string>, b: set<string>)
    ensures RemoveIds(RemoveIds(docs, a), b) == RemoveIds(docs, a + b)
  {
    if docs != [] {
      var front := docs[..|docs| - 1];
      var d := docs[|docs| - 1];
      assert docs == front + [d];
      RemoveIdsMonotone(front, a, b);
      var once := RemoveIds(docs, a);
      if d.id in a {
        assert once == RemoveIds(front, a);
      } else {
        assert once == RemoveIds(front, a) + [d];
        assert once[..|once| - 1] == RemoveIds(front, a);
        assert RemoveIds(once, b) == RemoveIds(RemoveIds(front, a), b) + if d.id in b then [] else [d];
      }
    }
  }

  lemma KeepsUniqueIds(docs: seq<Doc>, ids: set<string>)
    requires UniqueIds(docs)
    ensures UniqueIds(RemoveIds(docs, ids))
  {
    var r := RemoveIds(docs, ids);
    if !UniqueIds(r) {
      var i, j :| 0 <= i < j < |r| && r[i].id == r[j].id;
      SubsequenceOfRemoveIds(docs, ids, i, j);
    }
  }

  /** Two positions of the result come from two increasing positions of the input. */
  lemma {:induction false} SubsequenceOfRemoveIds(docs: seq<Doc>, ids: set<string>, i: nat, j: nat)
    requires i < j < |RemoveIds(docs, ids)|
    ensures exists p, q :: 0 <= p < q < |docs| && docs[p] == RemoveIds(docs, ids)[i] && docs[q] == RemoveIds(docs, ids)[j]
  {
    var front := docs[..|docs| - 1];
    var d := docs[|docs| - 1];
    assert docs == front + [d];
    var r := RemoveIds(docs, ids);
    var prev := RemoveIds(front, ids);
    if j < |prev| {
      SubsequenceOfRemoveIds(front, ids, i, j);
      var p, q :| 0 <= p < q < |front| && front[p] == prev[i] && front[q] == prev[j];
      assert docs[p] == r[i] && docs[q] == r[j];
    } else {
      assert r[j] == d;
      assert prev[i] in front;
      var p :| 0 <= p < |front| && front[p] == prev[i];
      assert docs[p] == r[i] && docs[|docs| - 1] == r[j];
    }
  }

  /** Removing one more doomed id extends the set of removed ids by that id. */
  lemma DeleteEachStep(docs: seq<Doc>, doomed: seq<Doc>, i: nat)
    requires i < |doomed|
    ensures RemoveIds(RemoveIds(docs, Ids(doomed[..i])), {doomed[i].id}) == RemoveIds(docs, Ids(doomed[..i + 1]))
  {
    RemoveIdsMonotone(docs, Ids(doomed[..i]), {doomed[i].id});
    IdsAppend(doomed[..i], doomed[i]);
    assert doomed[..i + 1] == doomed[..i] + [doomed[i]];
  }

  /** `Promise.all(expired.map(doc => remove(doc._id)))`: one removal per expired document. */
  method DeleteEach(docs: seq<Doc>, doomed: seq<Doc>) returns (r: seq<Doc>)
    ensures r == RemoveIds(docs, Ids(doomed))
  {
    r := docs;
    RemoveIdsNone(docs);
    assert Ids(doomed[..0]) == {};
    var i := 0;
    while i < |doomed|
      invariant 0 <= i <= |doomed|
      invariant r == RemoveIds(docs, Ids(doomed[..i]))
    {
      DeleteEachStep(docs, doomed, i);
      r := RemoveIds(r, {doomed[i].id});
      i := i + 1;
    }
    assert doomed[..i] == doomed;
  }

  /** `RemoveIds` on a longer list: the new document stays exactly when its id is not deleted. */
  lemma RemoveIdsStep(front: seq<Doc>, d: Doc, ids: set<string>)
    ensures RemoveIds(front + [d], ids) == RemoveIds(front, ids) + (if d.id in ids then [] else [d])
  {
    var docs := front + [d];
    assert docs[..|docs| - 1] == front;
  }

  /** Deleting ids no document carries changes nothing. */
  lemma {:induction false} RemoveIdsDisjoint(docs: seq<Doc>, ids: set<string>)
    requires forall d :: d in docs ==> d.id !in ids
    ensures RemoveIds(docs, ids) == docs
  {
    if docs != [] {
      var front := docs[..|docs| - 1];
      var d := docs[|docs| - 1];
      assert docs == front + [d];
      RemoveIdsDisjoint(front, ids);
      RemoveIdsStep(front, d, ids);
    }
  }

  /** Deleting by id and selecting the expired documents can be done in either order. */
  lemma {:induction false} QueryRemoveIds(docs: seq<Doc>, ids: set<string>, now: int)
    ensures Query(RemoveIds(docs, ids), now) == RemoveIds(Query(docs, now), ids)
  {
    if docs != [] {
      var front := docs[..|docs| - 1];
      var d := docs[|docs| - 1];
      assert docs == front + [d];
      QueryRemoveIds(front, ids, now);
      QueryRemoveIdsStep(front, d, ids, now);
    }
  }

  lemma QueryRemoveIdsStep(front: seq<Doc>, d: Doc, ids: set<string>, now: int)
    requires Query(RemoveIds(front, ids), now) == RemoveIds(Query(front, now), ids)
    ensures Query(RemoveIds(front + [d], ids), now) == RemoveIds(Query(front + [d], now), ids)
  {
    var kept, q := RemoveIds(front, ids), Query(front, now);
    RemoveIdsStep(front, d, ids);
    QueryLiveStep(front, d, now);
    if ExpiredAt(d, now) {
      RemoveIdsStep(q, d, ids);
      assert Query(front + [d], now) == q + [d];
      if d.id in ids {
        assert RemoveIds(front + [d], ids) == kept;
        assert RemoveIds(q + [d], ids) == RemoveIds(q, ids);
      } else {
        QueryLiveStep(kept, d, now);
        assert RemoveIds(front + [d], ids) == kept + [d];
        assert Query(kept + [d], now) == Query(kept, now) + [d];
        assert RemoveIds(q + [d], ids) == RemoveIds(q, ids) + [d];
      }
    } else {
      assert Query(front + [d], now) == q;
      if d.id in ids {
        assert RemoveIds(front + [d], ids) == kept;
      } else {
        QueryLiveStep(kept, d, now);
        assert RemoveIds(front + [d], ids) == kept + [d];
        assert Query(kept + [d], now) == Query(kept, now);
      }
    }
  }

  /** Deleting by id and selecting the live documents can be done in either order. */
  lemma {:induction false} LiveRemoveIds(docs: seq<Doc>, ids: set<string>, now: int)
    ensures Live(RemoveIds(docs, ids), now) == RemoveIds(Live(docs, now), ids)
  {
    if docs != [] {
      var front := docs[..|docs| - 1];
      var d := docs[|docs| - 1];
      assert docs == front + [d];
      LiveRemoveIds(front, ids, now);
      LiveRemoveIdsStep(front, d, ids, now);
    }
  }

  lemma LiveRemoveIdsStep(front: seq<Doc>, d: Doc, ids: set<string>, now: int)
    requires Live(RemoveIds(front, ids), now) == RemoveIds(Live(front, now), ids)
    ensures Live(RemoveIds(front + [d], ids), now) == RemoveIds(Live(front + [d], now), ids)
  {
    var kept, l := RemoveIds(front, ids), Live(front, now);
    RemoveIdsStep(front, d, ids);
    QueryLiveStep(front, d, now);
    if !ExpiredAt(d, now) {
      RemoveIdsStep(l, d, ids);
      assert Live(front + [d], now) == l + [d];
      if d.id in ids {
        assert RemoveIds(front + [d], ids) == kept;
        assert RemoveIds(l + [d], ids) == RemoveIds(l, ids);
      } else {
        QueryLiveStep(kept, d, now);
        assert RemoveIds(front + [d], ids) == kept + [d];
        assert Live(kept + [d], now) == Live(kept, now) + [d];
        assert RemoveIds(l + [d], ids) == RemoveIds(l, ids) + [d];
      }
    } else {
      assert Live(front + [d], now) == l;
      if d.id in ids {
        assert RemoveIds(front + [d], ids) == kept;
      } else {
        QueryLiveStep(kept, d, now);
        assert RemoveIds(front + [d], ids) == kept + [d];
        assert Live(kept + [d], now) == Live(kept, now);
      }
    }
  }

  /** The expired documents of a collection with unique ids have unique ids. */
  lemma {:induction false} QueryUniqueIds(docs: seq<Doc>, now: int)
    requires UniqueIds(docs)
    ensures UniqueIds(Query(docs, now))
  {
    if docs != [] {
      var front := docs[..|docs| - 1];
      var d := docs[|docs| - 1];
      assert docs == front + [d];
      assert UniqueIds(front) by {
        forall i, j | 0 <= i < j < |front|
          ensures front[i].id != front[j].id
        {
          assert docs[i] == front[i] && docs[j] == front[j];
        }
      }
      QueryUniqueIds(front, now);
      QueryLiveStep(front, d, now);
      var q := Query(front, now);
      if ExpiredAt(d, now) {
        forall i, j | 0 <= i < j < |q + [d]|
          ensures (q + [d])[i].id != (q + [d])[j].id
        {
          if j == |q| {
            assert q[i] in front;
            var p :| 0 <= p < |front| && front[p] == q[i];
            assert docs[p] == q[i];
          }
        }
      }
    }
  }

  /** Deleting the ids of the first `n` documents of a list with unique ids leaves the rest. */
  lemma {:induction false} RemovePrefixIds(s: seq<Doc>, n: nat)
    requires UniqueIds(s) && n <= |s|
    ensures RemoveIds(s, Ids(s[..n])) == s[n..]
  {
    if s != [] {
      var front := s[..|s| - 1];
      var d := s[|s| - 1];
      assert s == front + [d];
      assert UniqueIds(front) by {
        forall i, j | 0 <= i < j < |front|
          ensures front[i].id != front[j].id
        {
          assert s[i] == front[i] && s[j] == front[j];
        }
      }
      assert d.id !in Ids(front) by {
        forall i | 0 <= i < |front|
          ensures front[i].id != d.id
        {
          assert s[i] == front[i];
        }
      }
      if n < |s| {
        assert s[..n] == front[..n];
        assert d.id !in Ids(front[..n]);
        RemovePrefixIds(front, n);
        RemoveIdsStep(front, d, Ids(s[..n]));
        assert s[n..] == front[n..] + [d];
      } else {
        assert s[..n] == front + [d];
        IdsAppend(front, d);
        RemoveIdsStep(front, d, Ids(s[..n]));
        RemoveIdsIgnoresAbsent(front, Ids(front), d.id);
        RemovePrefixIds(front, |front|);
        assert front[..|front|] == front;
      }
    }
  }

  /** One `get()` of the server SDK without `.limit()` returns at most this many records. */
  const PAGE_LIMIT: nat := 100

  /** What `.where({ expireAt: _.lt(now) }).get()` returns: the first page of the expired documents. */
  function Page(docs: seq<Doc>, now: int): (r: seq<Doc>)
    ensures |r| == if |Query(docs, now)| <= PAGE_LIMIT then |Query(docs, now)| else PAGE_LIMIT
    ensures r == Query(docs, now)[..|r|]
  {
    Take(Query(docs, now), PAGE_LIMIT)
  }

  /** A collection after one round of removals: the documents of the page are gone. */
  function Swept(docs: seq<Doc>, now: int): seq<Doc> {
    RemoveIds(docs, Ids(Page(docs, now)))
  }

  /** With unique ids, no live document shares its id with an expired one. */
  lemma LiveIdsApart(docs: seq<Doc>, expired: seq<Doc>, now: int)
    requires UniqueIds(docs)
    requires forall e :: e in expired ==> e in docs && ExpiredAt(e, now)
    ensures forall x :: x in Live(docs, now) ==> x.id !in Ids(expired)
  {
    forall x | x in Live(docs, now)
      ensures x.id !in Ids(expired)
    {
      forall k | 0 <= k < |expired|
        ensures expired[k].id != x.id
      {
        var e := expired[k];
        assert e in expired;
        var i :| 0 <= i < |docs| && docs[i] == x;
        var j :| 0 <= j < |docs| && docs[j] == e;
        assert i != j;
      }
    }
  }

  /**
   * One round keeps every live document, in order, and removes the first
   * page of the expired ones: those beyond the page are still there.
   */
  lemma SweptSplit(docs: seq<Doc>, now: int)
    requires UniqueIds(docs)
    ensures Live(Swept(docs, now), now) == Live(docs, now)
    ensures Query(Swept(docs, now), now) == Query(docs, now)[|Page(docs, now)|..]
  {
    var page, q := Page(docs, now), Query(docs, now);
    QueryRemoveIds(docs, Ids(page), now);
    LiveRemoveIds(docs, Ids(page), now);
    QueryUniqueIds(docs, now);
    RemovePrefixIds(q, |page|);
    LiveIdsApart(docs, page, now);
    RemoveIdsDisjoint(Live(docs, now), Ids(page));
  }

  /**
   * When the expired documents fit in one page, one round leaves exactly the
   * live documents and nothing expired; otherwise the expired documents left
   * are all but the first page.
   */
  lemma SweepLeavesNothingExpired(docs: seq<Doc>, now: int)
    requires UniqueIds(docs)
    ensures |Query(docs, now)| <= PAGE_LIMIT ==> Query(Swept(docs, now), now) == [] && Swept(docs, now) == Live(docs, now)
    ensures |Query(docs, now)| > PAGE_LIMIT ==> |Query(Swept(docs, now), now)| == |Query(docs, now)| - PAGE_LIMIT
  {
    SweptSplit(docs, now);
    if |Query(docs, now)| <= PAGE_LIMIT {
      assert Page(docs, now) == Query(docs, now);
      RemoveExpiredIsLive(docs, now);
    }
  }

  /** Where the run throws, if it does. */
  datatype Stage = QueryChats | DeleteChats | QueryBroadcasts | DeleteBroadcasts

  /** The function's result. */
  datatype Report =
    | NothingToClean                        // `{ success: true, cleaned: 0 }`
    | Cleaned(chats: nat, broadcasts: nat)  // `{ success: true, cleaned: { chats, broadcasts } }`
    | Failed                                // `{ success: false }`

  /** The two collections the sweep works on. */
  class Collections {
    var chats: seq<Doc>
    var broadcasts: seq<Doc>

    ghost predicate Valid()
      reads this
    {
      UniqueIds(chats) && UniqueIds(broadcasts)
    }

    constructor (chats: seq<Doc>, broadcasts: seq<Doc>)
      requires UniqueIds(chats) && UniqueIds(broadcasts)
      ensures this.chats == chats && this.broadcasts == broadcasts && Valid()
    {
      this.chats := chats;
      this.broadcasts := broadcasts;
    }

    /** `exports.main` with `Date.now()` as `now`. */
    method Sweep(now: int, failAt: Option<Stage>) returns (r: Report)
      requires Valid()
      modifies this
      ensures Valid()
      ensures failAt == Some(QueryChats) ==> r == Failed && chats == old(chats) && broadcasts == old(broadcasts)
      ensures failAt != Some(QueryChats) && Query(old(chats), now) == [] ==>
                r == NothingToClean && chats == old(chats) && broadcasts == old(broadcasts)
      ensures Query(old(chats), now) != [] && failAt == Some(DeleteChats) ==>
                r == Failed && chats == old(chats) && broadcasts == old(broadcasts)
      ensures Query(old(chats), now) != [] && failAt == Some(QueryBroadcasts) ==>
                r == Failed && chats == Swept(old(chats), now) && broadcasts == old(broadcasts)
      ensures Query(old(chats), now) != [] && failAt == Some(DeleteBroadcasts) && Query(old(broadcasts), now) != [] ==>
                r == Failed && chats == Swept(old(chats), now) && broadcasts == old(broadcasts)
      ensures Query(old(chats), now) != [] &&
              (failAt.None? || (failAt == Some(DeleteBroadcasts) && Query(old(broadcasts), now) == [])) ==>
                && r == Cleaned(|Page(old(chats), now)|, |Page(old(broadcasts), now)|)
                && chats == Swept(old(chats), now)
                && broadcasts == Swept(old(broadcasts), now)
    {
      if failAt == Some(QueryChats) {
        return Failed;
      }
      var expiredChats := Page(chats, now);
      if |expiredChats| == 0 {
        return NothingToClean;
      }
      if failAt == Some(DeleteChats) {
        return Failed;
      }
      KeepsUniqueIds(chats, Ids(expiredChats));
      chats := DeleteEach(chats, expiredChats);
      if failAt == Some(QueryBroadcasts) {
        return Failed;
      }
      var expiredBroadcasts := Page(broadcasts, now);
      if |expiredBroadcasts| > 0 {
        if failAt == Some(DeleteBroadcasts) {
          return Failed;
        }
        KeepsUniqueIds(broadcasts, Ids(expiredBroadcasts));
        broadcasts := DeleteEach(broadcasts, expiredBroadcasts);
      } else {
        assert Swept(broadcasts, now) == broadcasts by {
          assert Ids(expiredBroadcasts) == {};
          RemoveIdsNone(broadcasts);
        }
      }
      r := Cleaned(|expiredChats|, |expiredBroadcasts|);
    }
  }

  lemma {:induction false} RemoveIdsNone(docs: seq<Doc>)
    ensures RemoveIds(docs, {}) == docs
  {
    if docs != [] {
      RemoveIdsNone(docs[..|docs| - 1]);
      assert docs == docs[..|docs| - 1] + [docs[|docs| - 1]];
    }
  }

}
