/** The proxy's response cache (proxy/proxy.py), against an unbounded log of what was stored when.
    The key made from a request is a string; the clock is passed to each call. */
module ResponseCache {
  import opened Common

  type Key = string

  /** One item of the dictionary; the dictionary keeps its keys in the order they were first set. */
  datatype Slot = Slot(key: Key, response: string, at: real)

  datatype Op = Put(slot: Slot) | Clear

  // ---- the dictionary -----------------------------------------------------------------------------

  ghost predicate DistinctKeys(slots: seq<Slot>) {
    forall i, j :: 0 <= i < j < |slots| ==> slots[i].key != slots[j].key
  }

  ghost predicate Has(slots: seq<Slot>, key: Key) {
    exists i :: 0 <= i < |slots| && slots[i].key == key
  }

  /** cache.get(key): the place of the key, or the length. */
  function Find(slots: seq<Slot>, key: Key): (i: nat)
    ensures i <= |slots| && (i < |slots| ==> slots[i].key == key)
    ensures i == |slots| <==> !Has(slots, key)
  {
    if slots == [] then 0
    else if slots[0].key == key then 0
    else
      var i := Find(slots[1..], key);
      assert Has(slots[1..], key) ==> Has(slots, key);
      assert Has(slots, key) ==> Has(slots[1..], key) by {
        if j :| 0 <= j < |slots| && slots[j].key == key {
          assert slots[1..][j - 1].key == key;
        }
      }
      1 + i
  }

  /** del cache[k], for the key at a place */
  function Delete(slots: seq<Slot>, i: nat): seq<Slot>
    requires i < |slots|
  {
    slots[..i] + slots[i + 1..]
  }

  /** The entries of other keys. */
  function Without(slots: seq<Slot>, key: Key): seq<Slot> {
    var i := Find(slots, key);
    if i < |slots| then Delete(slots, i) else slots
  }

  lemma WithoutHasNot(slots: seq<Slot>, key: Key)
    requires DistinctKeys(slots)
    ensures !Has(Without(slots, key), key)
    ensures forall s :: s in Without(slots, key) <==> s in slots && s.key != key
  {
    var i := Find(slots, key);
    if i < |slots| {
      assert slots == slots[..i] + [slots[i]] + slots[i + 1..];
    }
  }

  /** cache[k] = v */
  function Store(slots: seq<Slot>, slot: Slot): seq<Slot> {
    var i := Find(slots, slot.key);
    if i < |slots| then slots[i := slot] else slots + [slot]
  }

  /** min(cache, key=timestamp): the first of the oldest. */
  function Oldest(slots: seq<Slot>): (i: nat)
    requires slots != []
    ensures i < |slots|
    ensures forall j :: 0 <= j < |slots| ==> slots[i].at <= slots[j].at && (j < i ==> slots[i].at < slots[j].at)
  {
    if |slots| == 1 then 0
    else
      var i := Oldest(slots[..|slots| - 1]);
      if slots[|slots| - 1].at < slots[i].at then |slots| - 1 else i
  }

  // ---- reading the log -------------------------------------------------------------------------------

  /** The latest Put of the key since the last Clear. */
  function Latest(log: seq<Op>, key: Key): Option<Slot>
    decreases |log|
  {
    if log == [] then None
    else
      match log[|log| - 1]
      case Clear => None
      case Put(s) => if s.key == key then Some(s) else Latest(log[..|log| - 1], key)
  }

  /** How many Puts came after it. */
  function PutsSince(log: seq<Op>, key: Key): nat
    decreases |log|
  {
    if log == [] then 0
    else
      match log[|log| - 1]
      case Clear => 0
      case Put(s) => if s.key == key then 0 else PutsSince(log[..|log| - 1], key) + 1
  }

  /** Their keys. */
  function KeysSince(log: seq<Op>, key: Key): set<Key>
    decreases |log|
  {
    if log == [] then {}
    else
      match log[|log| - 1]
      case Clear => {}
      case Put(s) => if s.key == key then {} else KeysSince(log[..|log| - 1], key) + {s.key}
  }

  lemma {:induction false} NoMoreKeysThanPuts(log: seq<Op>, key: Key)
    ensures |KeysSince(log, key)| <= PutsSince(log, key)
    decreases |log|
  {
    if log != [] {
      NoMoreKeysThanPuts(log[..|log| - 1], key);
    }
  }

  lemma LogPut(log: seq<Op>, s: Slot, key: Key)
    ensures var l := log + [Put(s)];
      && Latest(l, key) == (if s.key == key then Some(s) else Latest(log, key))
      && PutsSince(l, key) == (if s.key == key then 0 else PutsSince(log, key) + 1)
      && KeysSince(l, key) == (if s.key == key then {} else KeysSince(log, key) + {s.key})
  {
    assert (log + [Put(s)])[..|log|] == log;
  }

  /** When the log's last Put was. */
  function LastPut(log: seq<Op>): Option<real>
    decreases |log|
  {
    if log == [] then None
    else
      match log[|log| - 1]
      case Clear => LastPut(log[..|log| - 1])
      case Put(s) => Some(s.at)
  }

  predicate Before(last: Option<real>, now: real) {
    last.Some? ==> last.value < now
  }

  /** Every Put in the log is later than the ones before it. */
  predicate Ordered(log: seq<Op>)
    decreases |log|
  {
    log == [] ||
    (Ordered(log[..|log| - 1]) && (log[|log| - 1].Put? ==> Before(LastPut(log[..|log| - 1]), log[|log| - 1].slot.at)))
  }

  lemma {:induction false} LatestBounds(log: seq<Op>, key: Key)
    requires Ordered(log) && Latest(log, key).Some?
    ensures Latest(log, key).value.key == key
    ensures LastPut(log).Some? && Latest(log, key).value.at <= LastPut(log).value
    decreases |log|
  {
    if log[|log| - 1].slot.key != key {
      LatestBounds(log[..|log| - 1], key);
    }
  }

  /** Of two keys, the one stored later was stored since the other. */
  lemma {:induction false} LaterIsSince(log: seq<Op>, a: Key, b: Key)
    requires Ordered(log) && Latest(log, a).Some? && Latest(log, b).Some? && a != b
    requires Latest(log, a).value.at <= Latest(log, b).value.at
    ensures b in KeysSince(log, a)
    decreases |log|
  {
    var key := log[|log| - 1].slot.key;
    if key == a {
      LatestBounds(log[..|log| - 1], b);
    } else if key != b {
      LaterIsSince(log[..|log| - 1], a, b);
    }
  }

  // ---- what the dictionary holds of the log ------------------------------------------------------

  ghost predicate Agrees(slots: seq<Slot>, log: seq<Op>) {
    forall i :: 0 <= i < |slots| ==> Latest(log, slots[i].key) == Some(slots[i])
  }

  /** The key's latest Put is in the dictionary, has expired, or has been followed by Puts enough to
      push it out. */
  ghost predicate Accounted(slots: seq<Slot>, log: seq<Op>, clock: real, ttl: real, maxSize: int, key: Key) {
    Latest(log, key).Some? ==>
      || Has(slots, key)
      || clock - Latest(log, key).value.at >= ttl
      || PushedOut(log, maxSize, key)
  }

  ghost predicate PushedOut(log: seq<Op>, maxSize: int, key: Key) {
    PutsSince(log, key) >= maxSize && |KeysSince(log, key)| >= maxSize - 1
  }

  function Keys(slots: seq<Slot>): set<Key> {
    set s | s in slots :: s.key
  }

  lemma {:induction false} KeysCount(slots: seq<Slot>)
    requires DistinctKeys(slots)
    ensures |Keys(slots)| == |slots|
    decreases |slots|
  {
    if slots != [] {
      KeysCount(slots[1..]);
      assert Keys(slots) == {slots[0].key} + Keys(slots[1..]);
      assert slots[0].key !in Keys(slots[1..]);
    }
  }

  /** All other keys in the dictionary were stored since the oldest. */
  lemma OthersAreSinceTheOldest(slots: seq<Slot>, log: seq<Op>)
    requires slots != [] && DistinctKeys(slots) && Agrees(slots, log) && Ordered(log)
    ensures |KeysSince(log, slots[Oldest(slots)].key)| >= |slots| - 1
  {
    var o := slots[Oldest(slots)];
    forall s | s in slots && s.key != o.key
      ensures s.key in KeysSince(log, o.key)
    {
      LaterIsSince(log, o.key, s.key);
    }
    KeysCount(slots);
    assert Keys(slots) - {o.key} <= KeysSince(log, o.key);
    Subset(Keys(slots) - {o.key}, KeysSince(log, o.key));
  }

  lemma {:induction false} Subset(a: set<Key>, b: set<Key>)
    requires a <= b
    ensures |a| <= |b|
    decreases |a|
  {
    if a != {} {
      var x :| x in a;
      Subset(a - {x}, b - {x});
    }
  }

  // ---- what a step does to it ----------------------------------------------------------------------

  lemma DeleteKeeps(slots: seq<Slot>, i: nat, log: seq<Op>)
    requires i < |slots| && DistinctKeys(slots) && Agrees(slots, log)
    ensures DistinctKeys(Delete(slots, i)) && Agrees(Delete(slots, i), log)
    ensures forall key :: key != slots[i].key && Has(slots, key) ==> Has(Delete(slots, i), key)
  {
    var d := Delete(slots, i);
    assert forall j :: 0 <= j < |d| ==> d[j] == slots[if j < i then j else j + 1];
    forall key | key != slots[i].key && Has(slots, key) ensures Has(d, key) {
      var j :| 0 <= j < |slots| && slots[j].key == key;
      assert d[if j < i then j else j - 1].key == key;
    }
  }

  lemma StoreKeeps(slots: seq<Slot>, slot: Slot, log: seq<Op>)
    requires DistinctKeys(slots) && Agrees(slots, log)
    ensures DistinctKeys(Store(slots, slot)) && Agrees(Store(slots, slot), log + [Put(slot)])
    ensures forall key :: key == slot.key || Has(slots, key) ==> Has(Store(slots, slot), key)
  {
    var i := Find(slots, slot.key);
    var t := Store(slots, slot);
    assert t[i] == slot;
    forall j | 0 <= j < |t| ensures Latest(log + [Put(slot)], t[j].key) == Some(t[j]) {
      LogPut(log, slot, t[j].key);
    }
    forall key | key == slot.key || Has(slots, key) ensures Has(t, key) {
      if key != slot.key {
        var j :| 0 <= j < |slots| && slots[j].key == key;
        assert t[j].key == key;
      }
    }
  }

  lemma ExpiredKeeps(slots: seq<Slot>, i: nat, log: seq<Op>, clock: real, ttl: real, maxSize: int, key: Key)
    requires i < |slots| && DistinctKeys(slots) && Agrees(slots, log) && clock - slots[i].at >= ttl
    requires Accounted(slots, log, clock, ttl, maxSize, key)
    ensures Accounted(Delete(slots, i), log, clock, ttl, maxSize, key)
  {
    DeleteKeeps(slots, i, log);
  }

  /** Making room: the oldest goes only if enough was put since. */
  lemma EvictionKeeps(slots: seq<Slot>, slot: Slot, log: seq<Op>, clock: real, ttl: real, maxSize: int, key: Key)
    requires slots != [] && |slots| >= maxSize && DistinctKeys(slots) && Agrees(slots, log) && Ordered(log)
    requires Accounted(slots, log, clock, ttl, maxSize, key) && clock <= slot.at
    ensures Accounted(Store(Delete(slots, Oldest(slots)), slot), log + [Put(slot)], slot.at, ttl, maxSize, key)
  {
    var o := Oldest(slots);
    DeleteKeeps(slots, o, log);
    StoreKeeps(Delete(slots, o), slot, log);
    LogPut(log, slot, key);
    OthersAreSinceTheOldest(slots, log);
    NoMoreKeysThanPuts(log, key);
    Subset(KeysSince(log, key), KeysSince(log, key) + {slot.key});
  }

  lemma RoomKeeps(slots: seq<Slot>, slot: Slot, log: seq<Op>, clock: real, ttl: real, maxSize: int, key: Key)
    requires DistinctKeys(slots) && Agrees(slots, log)
    requires Accounted(slots, log, clock, ttl, maxSize, key) && clock <= slot.at
    ensures Accounted(Store(slots, slot), log + [Put(slot)], slot.at, ttl, maxSize, key)
  {
    StoreKeeps(slots, slot, log);
    LogPut(log, slot, key);
    Subset(KeysSince(log, key), KeysSince(log, key) + {slot.key});
  }

  // ---- the object -------------------------------------------------------------------------------------

  class SimpleCache {
    const maxSize: int
    const ttl: real
    var slots: seq<Slot>
    ghost var log: seq<Op>
    ghost var clock: real      // the time of the last call
    ghost var steady: bool     // the clock never went back, and moved on before every set

    ghost predicate Valid()
      reads this
    {
      && DistinctKeys(slots) && Agrees(slots, log)
      && (if maxSize >= 1 then |slots| <= maxSize else slots == [])
      && (steady ==>
            && Ordered(log)
            && (LastPut(log).Some? ==> LastPut(log).value <= clock)
            && (forall key :: Accounted(slots, log, clock, ttl, maxSize, key)))
    }

    constructor (maxSize: int, ttl: real, ghost now: real)
      ensures Valid() && log == [] && steady && clock == now && this.maxSize == maxSize && this.ttl == ttl
    {
      this.maxSize, this.ttl := maxSize, ttl;
      slots, log, clock, steady := [], [], now, true;
    }

    /** A hit is the latest response stored for the key since the last clear, and younger than the ttl.
        With a steady clock, a miss is a key that was not stored, or has expired, or was pushed out. */
    method Get(key: Key, now: real) returns (response: Option<string>)
      requires Valid()
      modifies this`slots, this`clock, this`steady
      ensures Valid() && clock == now && steady == (old(steady) && old(clock) <= now)
      ensures response.Some? ==>
        && Latest(log, key).Some? && Latest(log, key).value.response == response.value
        && now - Latest(log, key).value.at < ttl
      ensures response.Some? ==> slots == old(slots)
      ensures response.None? ==> slots == Without(old(slots), key) && !Has(slots, key)
      ensures steady && response.None? ==>
        Latest(log, key).None? || now - Latest(log, key).value.at >= ttl || PushedOut(log, maxSize, key)
    {
      steady, clock := steady && clock <= now, now;
      WithoutHasNot(slots, key);
      var i := Find(slots, key);
      if steady {
        forall k ensures Accounted(slots, log, now, ttl, maxSize, k) {
          assert Accounted(slots, log, old(clock), ttl, maxSize, k);
        }
        assert Accounted(slots, log, now, ttl, maxSize, key);
      }
      if i < |slots| {
        if now - slots[i].at < ttl {
          response := Some(slots[i].response);
          return;
        }
        DeleteKeeps(slots, i, log);
        if steady {
          forall k ensures Accounted(Delete(slots, i), log, now, ttl, maxSize, k) {
            assert Accounted(slots, log, now, ttl, maxSize, k);
            ExpiredKeeps(slots, i, log, now, ttl, maxSize, k);
          }
        }
        slots := Delete(slots, i);
      }
      response := None;
    }

    /** Stores the response, unless no entry is allowed at all: then the search for an oldest entry in
        the empty dictionary fails, and nothing changes. */
    method Set(key: Key, response: string, now: real) returns (ok: bool)
      requires Valid()
      modifies this`slots, this`clock, this`steady, this`log
      ensures Valid() && ok == (maxSize >= 1)
      ensures slots == if !ok then old(slots)
                       else Store(if old(|slots|) >= maxSize then Delete(old(slots), Oldest(old(slots))) else old(slots),
                                  Slot(key, response, now))
      ensures log == if ok then old(log) + [Put(Slot(key, response, now))] else old(log)
      ensures steady == if ok then old(steady) && old(clock) < now else old(steady)
    {
      ok := true;
      var slot := Slot(key, response, now);
      if |slots| >= maxSize {
        if slots == [] {
          return false;
        }
        ghost var full := slots;
        DeleteKeeps(slots, Oldest(slots), log);
        slots := Delete(slots, Oldest(slots));
        if steady && clock < now {
          forall k ensures Accounted(Store(slots, slot), log + [Put(slot)], now, ttl, maxSize, k) {
            assert Accounted(full, log, clock, ttl, maxSize, k);
            EvictionKeeps(full, slot, log, clock, ttl, maxSize, k);
          }
        }
      } else if steady && clock < now {
        forall k ensures Accounted(Store(slots, slot), log + [Put(slot)], now, ttl, maxSize, k) {
          assert Accounted(slots, log, clock, ttl, maxSize, k);
          RoomKeeps(slots, slot, log, clock, ttl, maxSize, k);
        }
      }
      StoreKeeps(slots, slot, log);
      slots := Store(slots, slot);
      steady, clock := steady && clock < now, now;
      assert (log + [Put(slot)])[..|log|] == log;
      log := log + [Put(slot)];
    }

    method ClearAll()
      requires Valid()
      modifies this`slots, this`log
      ensures Valid() && slots == [] && log == old(log) + [Clear]
    {
      slots := [];
      assert (log + [Clear])[..|log|] == log;
      log := log + [Clear];
    }
  }
}
