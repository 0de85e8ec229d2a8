/** The audit sink's bounded queue (gateway/audit.py): emits that drop the oldest event when it is full,
    and the writer's batches, in any interleaving. What an event says does not matter here. */
module AuditQueue {
  type Event = string

  const BATCH_SIZE := 256

  // ---- ordered subsequences --------------------------------------------------------------------------

  predicate Subsequence(a: seq<Event>, b: seq<Event>)
    decreases |b|
  {
    || a == []
    || (b != [] && a[0] == b[0] && Subsequence(a[1..], b[1..]))
    || (b != [] && Subsequence(a, b[1..]))
  }

  lemma {:induction false} AppendBoth(a: seq<Event>, b: seq<Event>, e: Event)
    requires Subsequence(a, b)
    ensures Subsequence(a + [e], b + [e])
    decreases |b|
  {
    if b == [] {
      assert (a + [e])[1..] == [];
    } else {
      assert (b + [e])[1..] == b[1..] + [e];
      if a == [] {
        AppendBoth(a, b[1..], e);
      } else if a[0] == b[0] && Subsequence(a[1..], b[1..]) {
        assert (a + [e])[1..] == a[1..] + [e];
        AppendBoth(a[1..], b[1..], e);
      } else {
        AppendBoth(a, b[1..], e);
      }
    }
  }

  /** One event may be left out, anywhere. */
  lemma {:induction false} LeaveOut(a: seq<Event>, e: Event, c: seq<Event>, b: seq<Event>)
    requires Subsequence(a + [e] + c, b)
    ensures Subsequence(a + c, b)
    decreases |b|
  {
    if b != [] && a + c != [] {
      var all := a + [e] + c;
      if Subsequence(all, b[1..]) {
        LeaveOut(a, e, c, b[1..]);
      } else if a == [] {
        assert all[1..] == c;
        assert a + c == c;
      } else {
        assert all[1..] == a[1..] + [e] + c && (a + c)[1..] == a[1..] + c;
        LeaveOut(a[1..], e, c, b[1..]);
      }
    }
  }

  lemma {:induction false} NoLonger(a: seq<Event>, b: seq<Event>)
    requires Subsequence(a, b)
    ensures |a| <= |b| && (|a| == |b| ==> a == b)
    decreases |b|
  {
    if a != [] {
      if a[0] == b[0] && Subsequence(a[1..], b[1..]) {
        NoLonger(a[1..], b[1..]);
      } else {
        NoLonger(a, b[1..]);
      }
    }
  }

  /** Positions of b, in order, at which the events of a stand. */
  ghost predicate Picks(at: seq<nat>, a: seq<Event>, b: seq<Event>) {
    && |at| == |a|
    && (forall i :: 0 <= i < |at| ==> at[i] < |b| && b[at[i]] == a[i])
    && (forall i, j :: 0 <= i < j < |at| ==> at[i] < at[j])
  }

  /** What a subsequence is: its events stand in b in the same order. */
  lemma {:induction false} SubsequencePicks(a: seq<Event>, b: seq<Event>) returns (at: seq<nat>)
    requires Subsequence(a, b)
    ensures Picks(at, a, b)
    decreases |b|
  {
    if a == [] {
      at := [];
    } else if a[0] == b[0] && Subsequence(a[1..], b[1..]) {
      var rest := SubsequencePicks(a[1..], b[1..]);
      at := [0] + seq(|rest|, i requires 0 <= i < |rest| => rest[i] + 1);
    } else {
      var rest := SubsequencePicks(a, b[1..]);
      at := seq(|rest|, i requires 0 <= i < |rest| => rest[i] + 1);
    }
  }

  lemma TakenFromTheFront(all: seq<Event>, batch: seq<Event>, queue: seq<Event>)
    requires |batch + queue| <= |all| && batch + queue == all[|all| - |batch + queue|..]
    ensures |queue| <= |all| && queue == all[|all| - |queue|..]
  {
    assert (batch + queue)[|batch|..] == queue;
  }

  // ---- the object ---------------------------------------------------------------------------------------

  class Sink {
    const maxQueue: int            // asyncio.Queue(maxsize): no bound unless positive
    var queue: seq<Event>
    var dropped: nat
    ghost var emitted: seq<Event>
    ghost var handed: seq<Event>   // what the writer has taken for the database, in order

    ghost predicate Valid()
      reads this
    {
      && |queue| <= |emitted| && queue == emitted[|emitted| - |queue|..]
      && Subsequence(handed + queue, emitted)
      && |emitted| == |handed| + |queue| + dropped
      && (maxQueue > 0 ==> |queue| <= maxQueue)
    }

    constructor (maxQueue: int)
      ensures Valid() && emitted == [] && handed == [] && dropped == 0 && this.maxQueue == maxQueue
    {
      this.maxQueue := maxQueue;
      queue, dropped, emitted, handed := [], 0, [], [];
    }

    /** emit: never refuses the event; a full queue loses its oldest. */
    method Emit(ev: Event)
      requires Valid()
      modifies this`queue, this`dropped, this`emitted
      ensures Valid() && emitted == old(emitted) + [ev]
      ensures var full := maxQueue > 0 && old(|queue|) >= maxQueue;
        && queue == old(queue)[if full then 1 else 0..] + [ev]
        && dropped == old(dropped) + if full then 1 else 0
    {
      emitted := emitted + [ev];
      if maxQueue > 0 && |queue| >= maxQueue {
        assert handed + [queue[0]] + queue[1..] == handed + queue;
        LeaveOut(handed, queue[0], queue[1..], old(emitted));
        queue := queue[1..];
        dropped := dropped + 1;
      }
      AppendBoth(handed + queue, old(emitted), ev);
      assert handed + queue + [ev] == handed + (queue + [ev]);
      queue := queue + [ev];
    }

    /** One round of _writer: it waits for an event, so the queue has one when it goes on. */
    method NextBatch() returns (batch: seq<Event>)
      requires Valid() && queue != []
      modifies this`queue, this`handed
      ensures Valid() && 1 <= |batch| <= 256
      ensures batch + queue == old(queue) && handed == old(handed) + batch
      ensures |batch| < 256 ==> queue == []
    {
      batch, queue := [queue[0]], queue[1..];
      while queue != [] && |batch| < BATCH_SIZE
        invariant 1 <= |batch| <= BATCH_SIZE && batch + queue == old(queue) && handed == old(handed)
        decreases |queue|
      {
        batch, queue := batch + [queue[0]], queue[1..];
      }
      assert handed + batch + queue == handed + old(queue);
      TakenFromTheFront(emitted, batch, queue);
      handed := handed + batch;
    }

    /** With nothing dropped, the database has been handed the events emitted, in order, but for those
        still queued. */
    lemma NothingDroppedNothingLost()
      requires Valid() && dropped == 0
      ensures handed + queue == emitted
    {
      NoLonger(handed + queue, emitted);
    }
  }
}
