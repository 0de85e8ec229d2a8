/** The client's dedup of requests by id (clients/rixi_client.py): an ordered dictionary kept to its
    1024 most recently used ids, against the whole history of calls. */
module Dedup {
  import opened Common

  type Id = string

  const CACHE_SIZE := 1024

  // ---- orders of use -------------------------------------------------------------------------------

  ghost predicate Distinct(order: seq<Id>) {
    forall i, j :: 0 <= i < j < |order| ==> order[i] != order[j]
  }

  function Without(order: seq<Id>, id: Id): (r: seq<Id>)
    decreases |order|
  {
    if order == [] then [] else if order[0] == id then order[1..] else [order[0]] + Without(order[1..], id)
  }

  /** The id moved, or added, to the end. */
  function Touch(order: seq<Id>, id: Id): seq<Id> {
    Without(order, id) + [id]
  }

  /** Every id of a history once, by its last use. */
  function Recency(history: seq<Id>): seq<Id>
    decreases |history|
  {
    if history == [] then [] else Touch(Recency(history[..|history| - 1]), history[|history| - 1])
  }

  function Last(order: seq<Id>, n: nat): seq<Id> {
    if |order| <= n then order else order[|order| - n..]
  }

  lemma {:induction false} WithoutOfBoth(a: seq<Id>, b: seq<Id>, id: Id)
    ensures Without(a + b, id) == if id in a then Without(a, id) + b else a + Without(b, id)
    decreases |a|
  {
    if a == [] {
      assert a + b == b;
    } else {
      assert (a + b)[1..] == a[1..] + b;
      WithoutOfBoth(a[1..], b, id);
    }
  }

  lemma {:induction false} WithoutAbsent(order: seq<Id>, id: Id)
    requires id !in order
    ensures Without(order, id) == order
    decreases |order|
  {
    if order != [] {
      WithoutAbsent(order[1..], id);
    }
  }

  lemma {:induction false} WithoutOne(order: seq<Id>, id: Id)
    requires Distinct(order)
    ensures Distinct(Without(order, id)) && id !in Without(order, id)
    ensures forall x :: x in Without(order, id) <==> x in order && x != id
    ensures |Without(order, id)| == |order| - if id in order then 1 else 0
    decreases |order|
  {
    if order != [] {
      assert order[0] !in order[1..];
      if order[0] != id {
        var rest := Without(order[1..], id);
        WithoutOne(order[1..], id);
        assert Distinct([order[0]] + rest);
      }
    }
  }

  lemma {:induction false} RecencyIsDistinct(history: seq<Id>)
    ensures Distinct(Recency(history))
    ensures forall x :: x in Recency(history) <==> x in history
    decreases |history|
  {
    if history != [] {
      var init := history[..|history| - 1];
      assert history == init + [history[|history| - 1]];
      RecencyIsDistinct(init);
      WithoutOne(Recency(init), history[|history| - 1]);
    }
  }

  // ---- the cache keeps the end of the order --------------------------------------------------------

  /** What one call does to the cache. */
  function Used(cache: seq<Id>, id: Id): seq<Id> {
    if id in cache then Touch(cache, id)
    else if |cache| + 1 > CACHE_SIZE then (cache + [id])[1..] else cache + [id]
  }

  lemma UsedIsLast(order: seq<Id>, id: Id)
    requires Distinct(order)
    ensures Used(Last(order, 1024), id) == Last(Touch(order, id), 1024)
  {
    var cut := |order| - |Last(order, CACHE_SIZE)|;
    var gone, cache := order[..cut], order[cut..];
    assert order == gone + cache && cache == Last(order, CACHE_SIZE);
    if id in cache {
      UsedAgain(gone, cache, id);
    } else {
      UsedNew(gone, cache, id);
    }
  }

  lemma TouchAgain(gone: seq<Id>, cache: seq<Id>, id: Id)
    requires id !in gone
    ensures Touch(gone + cache, id) == gone + Touch(cache, id)
  {
    WithoutOfBoth(gone, cache, id);
    assert gone + Without(cache, id) + [id] == gone + (Without(cache, id) + [id]);
  }

  lemma UsedAgain(gone: seq<Id>, cache: seq<Id>, id: Id)
    requires Distinct(gone + cache) && id in cache && |cache| <= CACHE_SIZE && (gone != [] ==> |cache| == CACHE_SIZE)
    ensures Used(cache, id) == Last(Touch(gone + cache, id), CACHE_SIZE)
  {
    DistinctParts(gone, cache, id);
    TouchAgain(gone, cache, id);
    WithoutOne(cache, id);
    LastOfBoth(gone, Touch(cache, id));
  }

  lemma DistinctParts(gone: seq<Id>, cache: seq<Id>, id: Id)
    requires Distinct(gone + cache) && id in cache
    ensures Distinct(cache) && id !in gone
  {
    var k :| 0 <= k < |cache| && cache[k] == id;
    forall i | 0 <= i < |gone| ensures gone[i] != id {
      assert (gone + cache)[i] == gone[i] && (gone + cache)[|gone| + k] == id;
    }
    forall i, j | 0 <= i < j < |cache| ensures cache[i] != cache[j] {
      assert (gone + cache)[|gone| + i] == cache[i] && (gone + cache)[|gone| + j] == cache[j];
    }
  }

  lemma TouchNew(gone: seq<Id>, cache: seq<Id>, id: Id)
    requires id !in cache
    ensures Touch(gone + cache, id) == Without(gone, id) + cache + [id]
  {
    WithoutOfBoth(gone, cache, id);
    WithoutAbsent(cache, id);
    if id !in gone {
      WithoutAbsent(gone, id);
    }
  }

  lemma UsedNew(gone: seq<Id>, cache: seq<Id>, id: Id)
    requires id !in cache && |cache| <= CACHE_SIZE && (gone != [] ==> |cache| == CACHE_SIZE)
    ensures Used(cache, id) == Last(Touch(gone + cache, id), CACHE_SIZE)
  {
    TouchNew(gone, cache, id);
    if gone != [] {
      UsedWhenFull(Without(gone, id), cache, id);
    } else {
      assert Without([], id) + cache == cache;
      UsedWithRoom(cache, id);
    }
  }

  lemma UsedWithRoom(cache: seq<Id>, id: Id)
    requires id !in cache && |cache| <= CACHE_SIZE
    ensures Used(cache, id) == Last(cache + [id], CACHE_SIZE)
  {
  }

  lemma UsedWhenFull(kept: seq<Id>, cache: seq<Id>, id: Id)
    requires id !in cache && |cache| == CACHE_SIZE
    ensures Used(cache, id) == Last(kept + cache + [id], CACHE_SIZE)
  {
    LastOfBoth(kept + [cache[0]], (cache + [id])[1..]);
    assert kept + cache + [id] == kept + [cache[0]] + (cache + [id])[1..];
  }

  lemma LastOfBoth(a: seq<Id>, b: seq<Id>)
    requires |b| <= CACHE_SIZE && (a != [] ==> |b| == CACHE_SIZE)
    ensures Last(a + b, CACHE_SIZE) == b
  {
  }

  // ---- what being at the end of the order means ------------------------------------------------------

  function Elems(order: seq<Id>): set<Id> {
    set x | x in order
  }

  /** The ids used after the last use of this one. */
  function UsedSince(history: seq<Id>, id: Id): set<Id>
    decreases |history|
  {
    if history == [] || history[|history| - 1] == id then {}
    else UsedSince(history[..|history| - 1], id) + {history[|history| - 1]}
  }

  lemma {:induction false} ElemsCount(order: seq<Id>)
    requires Distinct(order)
    ensures |Elems(order)| == |order|
    decreases |order|
  {
    if order != [] {
      ElemsCount(order[1..]);
      assert Elems(order) == {order[0]} + Elems(order[1..]);
    }
  }

  /** The ids after this one in an order. */
  function Followers(order: seq<Id>, id: Id): set<Id>
    decreases |order|
  {
    if order == [] then {} else if order[0] == id then Elems(order[1..]) else Followers(order[1..], id)
  }

  lemma {:induction false} FollowersAt(order: seq<Id>, k: nat)
    requires Distinct(order) && k < |order|
    ensures Followers(order, order[k]) == Elems(order[k + 1..])
    decreases |order|
  {
    if k > 0 {
      FollowersAt(order[1..], k - 1);
      assert order[1..][k..] == order[k + 1..];
    }
  }

  lemma {:induction false} FollowersOfSnoc(order: seq<Id>, x: Id, id: Id)
    requires id in order
    ensures Followers(order + [x], id) == Followers(order, id) + {x}
    decreases |order|
  {
    assert (order + [x])[1..] == order[1..] + [x];
    if order[0] != id {
      FollowersOfSnoc(order[1..], x, id);
    }
  }

  lemma {:induction false} NoFollowers(order: seq<Id>, id: Id)
    requires id !in order
    ensures Followers(order + [id], id) == {}
    decreases |order|
  {
    if order != [] {
      assert (order + [id])[1..] == order[1..] + [id];
      NoFollowers(order[1..], id);
    }
  }

  lemma {:induction false} FollowersOfTouch(order: seq<Id>, x: Id, id: Id)
    requires Distinct(order) && id in order && id != x
    ensures Followers(Touch(order, x), id) == Followers(order, id) + {x}
    decreases |order|
  {
    if order[0] == x {
      FollowersOfSnoc(order[1..], x, id);
    } else {
      assert Touch(order, x)[1..] == Touch(order[1..], x);
      if order[0] == id {
        WithoutOne(order[1..], x);
      } else {
        FollowersOfTouch(order[1..], x, id);
      }
    }
  }

  /** What follows an id in the order of use is what was used after it. */
  lemma {:induction false} FollowersWereUsedSince(history: seq<Id>, id: Id)
    requires id in history
    ensures Followers(Recency(history), id) == UsedSince(history, id)
    decreases |history|
  {
    var init, last := history[..|history| - 1], history[|history| - 1];
    RecencyIsDistinct(init);
    if last == id {
      WithoutOne(Recency(init), id);
      NoFollowers(Without(Recency(init), id), id);
    } else {
      assert id in init;
      FollowersWereUsedSince(init, id);
      FollowersOfTouch(Recency(init), last, id);
    }
  }

  /** An id is among the last n of the order exactly if it was used, and fewer than n others since. */
  lemma AmongTheLast(history: seq<Id>, id: Id, n: nat)
    ensures id in Last(Recency(history), n) <==> id in history && |UsedSince(history, id)| < n
  {
    var order := Recency(history);
    RecencyIsDistinct(history);
    if id in history {
      var k :| 0 <= k < |order| && order[k] == id;
      FollowersAt(order, k);
      FollowersWereUsedSince(history, id);
      ElemsCount(order[k + 1..]);
      assert id in Last(order, n) <==> k >= |order| - n;
    }
  }

  // ---- the object ---------------------------------------------------------------------------------------

  /** One of the client's two caches. history lists the ids of all calls that had one. */
  class RequestLog {
    var cache: seq<Id>              // the ordered dictionary's keys, oldest first
    ghost var history: seq<Id>

    ghost predicate Valid()
      reads this
    {
      cache == Last(Recency(history), CACHE_SIZE)
    }

    constructor ()
      ensures Valid() && history == []
    {
      cache, history := [], [];
    }

    /** _is_duplicate_request: true exactly for an id that was used before, with fewer than 1024 other
        ids since. A call without an id is not recorded. */
    method IsDuplicate(requestId: Option<Id>) returns (duplicate: bool)
      requires Valid()
      modifies this
      ensures Valid() && |cache| <= 1024
      ensures history == if requestId.GetOr([]) == [] then old(history) else old(history) + [requestId.value]
      ensures duplicate <==>
        requestId.GetOr([]) != [] && requestId.value in old(history) && |UsedSince(old(history), requestId.value)| < 1024
    {
      if requestId.GetOr([]) == [] {
        return false;
      }
      var id := requestId.value;
      AmongTheLast(history, id, CACHE_SIZE);
      RecencyIsDistinct(history);
      UsedIsLast(Recency(history), id);
      assert (history + [id])[..|history|] == history;
      history := history + [id];
      if id in cache {
        cache := Touch(cache, id);
        return true;
      }
      cache := cache + [id];
      if |cache| > CACHE_SIZE {
        cache := cache[1..];
      }
      return false;
    }
  }
}
