/**
 * The in-memory store of withdrawal requests. Ids come from a counter that
 * starts at 1; requests are never deleted, so the store's insertion order is
 * id order and it is kept as a sequence with request k at position k - 1.
 */
module Withdrawals {
  import opened Wrappers
  import Seqs

  datatype Status = Pending | Confirmed | Declined

  datatype Request = Request(id: int, userId: string, chatId: int, starAmount: int, scoreAmount: int,
                             status: Status, chargeIds: seq<string>, createdAt: int)

  function CreatedKey(q: Request): int { q.createdAt }

  /** The user's requests in insertion order. */
  function RequestsOf(requests: seq<Request>, userId: string): (mine: seq<Request>)
    ensures forall i :: 0 <= i < |mine| ==> mine[i].userId == userId && mine[i] in requests
    ensures forall i :: 0 <= i < |requests| && requests[i].userId == userId ==> requests[i] in mine
  {
    Seqs.Filter(requests, (q: Request) => q.userId == userId)
  }

  /** Every element of the filtered list belongs to the user and to the store. */
  lemma MineMembers(requests: seq<Request>, userId: string)
    ensures forall x :: x in RequestsOf(requests, userId) ==> x.userId == userId && x in requests
  {
    var mine := RequestsOf(requests, userId);
    forall x | x in mine ensures x.userId == userId && x in requests {
      var j :| 0 <= j < |mine| && mine[j] == x;
    }
  }

  /** The user's requests sorted newest first, cut to `limit` (`slice(0, limit)`). */
  function NewestFirst(requests: seq<Request>, userId: string, limit: int): (r: seq<Request>)
    ensures forall i :: 0 <= i < |r| ==> r[i].userId == userId && r[i] in requests
    ensures Seqs.SortedDesc(r, CreatedKey)
    ensures limit >= 0 ==> |r| == if limit < |RequestsOf(requests, userId)| then limit else |RequestsOf(requests, userId)|
    ensures limit < 0 ==> |r| == if |RequestsOf(requests, userId)| + limit > 0 then |RequestsOf(requests, userId)| + limit else 0
  {
    var mine := RequestsOf(requests, userId);
    var sorted := Seqs.SortDesc(mine, CreatedKey);
    var r := Seqs.SliceTo(sorted, limit);
    Seqs.SortedPrefix(sorted, r, CreatedKey);
    Seqs.SameMembers(mine, sorted);
    MineMembers(requests, userId);
    r
  }

  /**
   * `NewestFirst` returns the newest of the user's requests: a sub-multiset of
   * them in which nothing left out was created after anything returned.
   */
  lemma NewestFirstKeepsNewest(requests: seq<Request>, userId: string, limit: int)
    ensures multiset(NewestFirst(requests, userId, limit)) <= multiset(RequestsOf(requests, userId))
    ensures forall q, x ::
              q in multiset(RequestsOf(requests, userId)) - multiset(NewestFirst(requests, userId, limit)) &&
              x in NewestFirst(requests, userId, limit) ==>
                q.createdAt <= x.createdAt
  {
    Seqs.SortThenSlice(RequestsOf(requests, userId), limit, CreatedKey);
  }

  class WithdrawalStore {
    var nextId: int
    /** The stored requests in insertion order. */
    var requests: seq<Request>

    ghost predicate Valid()
      reads this
    {
      && nextId == |requests| + 1
      && forall i :: 0 <= i < |requests| ==> requests[i].id == i + 1
    }

    constructor ()
      ensures Valid() && requests == [] && nextId == 1
    {
      nextId := 1;
      requests := [];
    }

    /** Stores a new pending request under the next id, larger than every id given before. */
    method CreateRequest(userId: string, chatId: int, starAmount: int, scoreAmount: int, now: int)
      returns (request: Request)
      requires Valid()
      modifies this
      ensures Valid()
      ensures request == Request(old(nextId), userId, chatId, starAmount, scoreAmount, Pending, [], now)
      ensures requests == old(requests) + [request]
      ensures forall q :: q in old(requests) ==> q.id < request.id
    {
      var id := nextId;
      nextId := nextId + 1;
      request := Request(id, userId, chatId, starAmount, scoreAmount, Pending, [], now);
      requests := requests + [request];
    }

    function GetPendingRequests(): (pending: seq<Request>)
      reads this
      ensures forall i :: 0 <= i < |pending| ==> pending[i].status == Pending && pending[i] in requests
      ensures forall i :: 0 <= i < |requests| && requests[i].status == Pending ==> requests[i] in pending
    {
      Seqs.Filter(requests, (q: Request) => q.status == Pending)
    }

    /** The request with this id, or None. */
    function GetRequest(id: int): (r: Option<Request>)
      requires Valid()
      reads this
      ensures r.Some? <==> exists i :: 0 <= i < |requests| && requests[i].id == id
      ensures r.Some? ==> r.value.id == id && r.value in requests
    {
      if 1 <= id <= |requests| then Some(requests[id - 1]) else None
    }

    /** Marks a request confirmed with the charges that paid it; None for an unknown id. */
    method ConfirmRequest(id: int, chargeIds: seq<string>) returns (r: Option<Request>)
      requires Valid()
      modifies this
      ensures Valid() && nextId == old(nextId)
      ensures old(GetRequest(id)).None? ==> r.None? && requests == old(requests)
      ensures old(GetRequest(id)).Some? ==>
        && r == Some(old(GetRequest(id)).value.(status := Confirmed, chargeIds := chargeIds))
        && requests == old(requests)[id - 1 := r.value]
    {
      var found := GetRequest(id);
      if found.None? {
        return None;
      }
      var updated := found.value.(status := Confirmed, chargeIds := chargeIds);
      requests := requests[id - 1 := updated];
      r := Some(updated);
    }

    /** Marks a request declined; None for an unknown id. */
    method DeclineRequest(id: int) returns (r: Option<Request>)
      requires Valid()
      modifies this
      ensures Valid() && nextId == old(nextId)
      ensures old(GetRequest(id)).None? ==> r.None? && requests == old(requests)
      ensures old(GetRequest(id)).Some? ==>
        && r == Some(old(GetRequest(id)).value.(status := Declined))
        && requests == old(requests)[id - 1 := r.value]
    {
      var found := GetRequest(id);
      if found.None? {
        return None;
      }
      var updated := found.value.(status := Declined);
      requests := requests[id - 1 := updated];
      r := Some(updated);
    }

    /** The user's requests, newest first (a stable sort on `createdAt`), at most `limit` of them. */
    function GetUserRequests(userId: string, limit: int): (r: seq<Request>)
      reads this
      ensures forall i :: 0 <= i < |r| ==> r[i].userId == userId && r[i] in requests
      ensures Seqs.SortedDesc(r, CreatedKey)
      ensures limit >= 0 ==> |r| == if limit < |RequestsOf(requests, userId)| then limit else |RequestsOf(requests, userId)|
      ensures limit < 0 ==> |r| == if |RequestsOf(requests, userId)| + limit > 0 then |RequestsOf(requests, userId)| + limit else 0
      ensures multiset(r) <= multiset(RequestsOf(requests, userId))
      ensures forall q, x :: q in multiset(RequestsOf(requests, userId)) - multiset(r) && x in r ==> q.createdAt <= x.createdAt
    {
      NewestFirstKeepsNewest(requests, userId, limit);
      NewestFirst(requests, userId, limit)
    }
  }
}
