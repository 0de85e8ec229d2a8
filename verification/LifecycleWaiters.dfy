/** Who waits for a named resource, who is told, and exactly when a waiting client is forgotten. */
module LifecycleWaiters {
  import opened Lifecycle
  import opened LifecycleRuns

  /** The client was told "not up yet" at this point of the history, and not signalled since. */
  predicate WaitsSince(log: seq<Log>, c: Client, i: nat)
    requires i < |log|
  {
    log[i] == Answered(c, false) && Signalled(c) !in log[i + 1..]
  }

  lemma WaitsSinceOneEarlier(log: seq<Log>, c: Client, i: nat)
    requires i < |log| - 1
    ensures WaitsSince(log, c, i) <==> WaitsSince(log[..|log| - 1], c, i) && log[|log| - 1] != Signalled(c)
  {
    assert log[i + 1..] == log[..|log| - 1][i + 1..] + [log[|log| - 1]];
  }

  /** Waiting, by positions in the history. */
  lemma {:induction false} WaitsExactly(log: seq<Log>, c: Client)
    ensures Waits(log, c) <==> exists i :: 0 <= i < |log| && WaitsSince(log, c, i)
    decreases |log|
  {
    if log != [] {
      var n := |log| - 1;
      WaitsExactly(log[..n], c);
      forall i | 0 <= i < n
        ensures WaitsSince(log, c, i) <==> WaitsSince(log[..n], c, i) && log[n] != Signalled(c)
      {
        WaitsSinceOneEarlier(log, c, i);
      }
      assert WaitsSince(log, c, n) <==> log[n] == Answered(c, false);
    }
  }

  // ---- exactly when a waiter is forgotten --------------------------------------------------------

  /** The client is on the table's record, on the record being raised, or about to be signalled. */
  ghost predicate Held(s: State, c: Client)
    requires Known(s)
  {
    || (s.current.Some? && c in Current(s).waiters)
    || (s.box.Rising? && c in s.recs[s.box.rec].waiters)
    || (s.box.Signalling? && c in s.box.left)
  }

  /** The event removes the table's record: a teardown that finds no directory, or one whose action is done. */
  ghost predicate Removes(s: State, ev: Event)
    requires Known(s)
  {
    s.current.Some? && ((ev.BeginTeardown? && !Current(s).hasWorkdir) || ev == EndTeardown(true))
  }

  /** The event removes the record the client is on, with no box-up under way that took the client over. */
  ghost predicate Forgets(s: State, ev: Event, c: Client)
    requires Known(s)
  {
    && Removes(s, ev) && c in Current(s).waiters
    && !(s.box.Rising? && c in s.recs[s.box.rec].waiters)
    && !(s.box.Signalling? && c in s.box.left)
  }

  /** The client asks and is told "not up yet". */
  predicate Asks(s: State, ev: Event, c: Client) {
    ev == Request(c) && !Up(s)
  }

  lemma NewRecordHolds(s: State, c: Client)
    requires Known(s) && Known(WithRecord(s))
    ensures Held(WithRecord(s), c) <==> Held(s, c)
  {
  }

  lemma AskedHolds(s: State, d: Client, c: Client)
    requires Known(s) && s.current.Some?
    ensures Known(Asked(s, d))
    ensures Held(Asked(s, d), c) <==> (d == c && !Up(s)) || Held(s, c)
  {
  }

  /** What a request does to who is held, and to who waits. */
  lemma RequestHolds(s: State, d: Client, c: Client)
    requires Known(s) && Known(RequestStep(s, d))
    ensures Held(RequestStep(s, d), c) <==> Asks(s, Request(d), c) || Held(s, c)
  {
    NewRecordIsKnown(s);
    NewRecordHolds(s, c);
    AskedHolds(WithRecord(s), d, c);
  }

  lemma RequestWaits(s: State, d: Client, c: Client)
    requires Known(s)
    ensures Waits(RequestStep(s, d).log, c) <==> Asks(s, Request(d), c) || Waits(s.log, c)
  {
    var t := WithRecord(s);
    var u := Asked(t, d);
    ReadingsOfNote(s.log, Launch(t.current.value), c, 0);
    ReadingsOfNote(u.log, Answered(d, Up(s)), c, 0);
  }

  lemma PrewarmHolds(s: State, c: Client)
    requires Known(s) && Known(PrewarmStep(s))
    ensures Held(PrewarmStep(s), c) <==> Held(s, c)
    ensures Waits(PrewarmStep(s).log, c) <==> Waits(s.log, c)
  {
    ReadingsOfNote(s.log, Launch(WithRecord(s).current.value), c, 0);
  }

  predicate OfAsking(ev: Event) {
    ev.Request? || ev.Prewarm? || ev.Heal?
  }

  lemma AskingHolds(s: State, ev: Event, c: Client)
    requires Known(s) && Enabled(s, ev) && OfAsking(ev) && Known(Step(s, ev))
    ensures Held(Step(s, ev), c) <==> Asks(s, ev, c) || (Held(s, c) && !Forgets(s, ev, c))
    ensures Waits(Step(s, ev).log, c) <==> Asks(s, ev, c) || Waits(s.log, c)
  {
    if ev.Request? {
      RequestHolds(s, ev.c, c);
      RequestWaits(s, ev.c, c);
    } else {
      PrewarmHolds(if ev.Heal? then s.(healing := s.healing - 1) else s, c);
    }
  }

  predicate OfProvision(ev: Event) {
    ev.BeginProvision? || ev.EndProvision? || ev.Register?
  }

  lemma RegisterHolds(s: State, c: Client)
    requires Known(s) && s.box.Down? && Known(WithRecord(s)) && Known(Step(s, Register))
    ensures Held(Step(s, Register), c) <==> Held(s, c)
  {
    NewRecordHolds(s, c);
  }

  lemma BeginHolds(s: State, c: Client)
    requires Known(s) && s.launched > 0 && Known(WithRecord(s)) && Known(Step(s, BeginProvision))
    ensures Held(Step(s, BeginProvision), c) <==> Held(s, c)
  {
    NewRecordHolds(s, c);
  }

  lemma EndHolds(s: State, r: RecId, ok: bool, c: Client)
    requires Known(s) && r in s.running && Known(Step(s, EndProvision(r, ok)))
    ensures Held(Step(s, EndProvision(r, ok)), c) <==> Held(s, c)
  {
  }

  lemma ProvisionHolds(s: State, ev: Event, c: Client)
    requires Known(s) && Enabled(s, ev) && OfProvision(ev) && Known(Step(s, ev))
    ensures Held(Step(s, ev), c) <==> Held(s, c)
  {
    if ev.EndProvision? {
      EndHolds(s, ev.rec, ev.ok, c);
    } else {
      NewRecordIsKnown(s);
      if ev.Register? {
        RegisterHolds(s, c);
      } else {
        BeginHolds(s, c);
      }
    }
  }

  lemma ProvisionWaits(s: State, ev: Event, c: Client)
    requires Known(s) && Enabled(s, ev) && OfProvision(ev)
    ensures Waits(Step(s, ev).log, c) <==> Waits(s.log, c)
  {
    if ev.EndProvision? {
      ReadingsOfNote(s.log, Failure(ev.rec), c, 0);
    } else {
      ReadingsOfNote(s.log, BoxUp(WithRecord(s).current.value), c, 0);
    }
  }

  predicate OfBox(ev: Event) {
    ev.Empty? || ev.SignalOne? || ev.SignalsDone? || ev.Notify? || ev.Gone?
  }

  lemma BoxHolds(s: State, ev: Event, c: Client)
    requires Known(s) && Enabled(s, ev) && OfBox(ev) && Known(Step(s, ev)) && ev != SignalOne(c)
    ensures Held(Step(s, ev), c) <==> Asks(s, ev, c) || (Held(s, c) && !Forgets(s, ev, c))
  {
  }

  lemma BoxWaits(s: State, ev: Event, c: Client)
    requires Known(s) && Enabled(s, ev) && OfBox(ev)
    ensures Waits(Step(s, ev).log, c) <==> Waits(s.log, c) && ev != SignalOne(c) && ev != Notify(c)
  {
    if ev.SignalOne? || ev.Notify? {
      ReadingsOfNote(s.log, Signalled(ev.c), c, 0);
    }
  }

  predicate OfTeardown(ev: Event) {
    ev.BeginTeardown? || ev.EndTeardown?
  }

  lemma BeginTeardownHolds(s: State, c: Client)
    requires Known(s) && Known(Step(s, BeginTeardown))
    ensures Held(Step(s, BeginTeardown), c) <==> Held(s, c) && !Forgets(s, BeginTeardown, c)
  {
  }

  lemma EndTeardownHolds(s: State, ok: bool, c: Client)
    requires Known(s) && Enabled(s, EndTeardown(ok)) && Known(Step(s, EndTeardown(ok)))
    ensures Held(Step(s, EndTeardown(ok)), c) <==> Held(s, c) && !Forgets(s, EndTeardown(ok), c)
  {
  }

  lemma TeardownHolds(s: State, ev: Event, c: Client)
    requires Known(s) && Enabled(s, ev) && OfTeardown(ev) && Known(Step(s, ev))
    ensures Held(Step(s, ev), c) <==> Held(s, c) && !Forgets(s, ev, c)
  {
    if ev.BeginTeardown? {
      BeginTeardownHolds(s, c);
    } else {
      EndTeardownHolds(s, ev.ok, c);
    }
  }

  lemma TeardownWaits(s: State, ev: Event, c: Client)
    requires Known(s) && Enabled(s, ev) && OfTeardown(ev)
    ensures Step(s, ev).log == s.log
  {
  }

  /** Unless it is its signal, an event makes a client held exactly by its asking, and no longer held
      exactly by removing its record from under it. */
  lemma HeldAfter(s: State, ev: Event, c: Client)
    requires Known(s) && Enabled(s, ev) && Known(Step(s, ev)) && ev != SignalOne(c)
    ensures Held(Step(s, ev), c) <==> Asks(s, ev, c) || (Held(s, c) && !Forgets(s, ev, c))
  {
    if OfAsking(ev) {
      AskingHolds(s, ev, c);
    } else if OfProvision(ev) {
      ProvisionHolds(s, ev, c);
    } else if OfBox(ev) {
      BoxHolds(s, ev, c);
    } else {
      TeardownHolds(s, ev, c);
    }
  }

  /** A client starts to wait exactly by asking, and stops exactly by being signalled. */
  lemma WaitsAfter(s: State, ev: Event, c: Client)
    requires Known(s) && Enabled(s, ev) && Known(Step(s, ev))
    ensures Waits(Step(s, ev).log, c) <==>
      Asks(s, ev, c) || (Waits(s.log, c) && ev != SignalOne(c) && ev != Notify(c))
  {
    if OfAsking(ev) {
      AskingHolds(s, ev, c);
    } else if OfProvision(ev) {
      ProvisionWaits(s, ev, c);
    } else if OfBox(ev) {
      BoxWaits(s, ev, c);
    } else {
      TeardownWaits(s, ev, c);
    }
  }

  /** A held client that goes on waiting stops being held if and only if a teardown removes the table's
      record, with the client on it and not yet taken over by a box-up. */
  lemma StopsBeingHeldExactly(s: State, ev: Event, c: Client)
    requires Inv(s) && Enabled(s, ev)
    requires Waits(s.log, c) && Waits(Step(s, ev).log, c) && Held(s, c)
    ensures Known(Step(s, ev))
    ensures !Held(Step(s, ev), c) <==>
      && s.current.Some? && ((ev.BeginTeardown? && !Current(s).hasWorkdir) || ev == EndTeardown(true))
      && c in Current(s).waiters
      && !(s.box.Rising? && c in s.recs[s.box.rec].waiters) && !(s.box.Signalling? && c in s.box.left)
  {
    StepKeepsInv(s, ev);
    WaitsAfter(s, ev, c);
    HeldAfter(s, ev, c);
  }

  // ---- over every run ----------------------------------------------------------------------------------

  /** The client has asked, and no later event forgets it; `before` says so of the time before the run. */
  ghost predicate Remembered(s: State, evs: seq<Event>, c: Client, before: bool)
    requires Possible(s, evs)
    decreases |evs|
  {
    if evs == [] then before
    else Remembered(Step(s, evs[0]), evs[1..], c, Asks(s, evs[0], c) || (before && !Forgets(s, evs[0], c)))
  }

  /** The client asks at the i-th event. */
  ghost predicate AsksAt(s: State, evs: seq<Event>, i: nat, c: Client)
    requires Possible(s, evs) && i < |evs|
  {
    Asks(At(s, evs, i), evs[i], c)
  }

  ghost predicate ForgetsAt(s: State, evs: seq<Event>, i: nat, c: Client)
    requires Possible(s, evs) && i < |evs|
  {
    Forgets(At(s, evs, i), evs[i], c)
  }

  /** No event from the i-th on forgets the client. */
  ghost predicate KeptFrom(s: State, evs: seq<Event>, i: nat, c: Client)
    requires Possible(s, evs)
  {
    forall j: nat :: i <= j < |evs| ==> !ForgetsAt(s, evs, j, c)
  }

  lemma KeptFromNext(s: State, evs: seq<Event>, i: nat, c: Client)
    requires Possible(s, evs) && evs != []
    ensures KeptFrom(s, evs, i + 1, c) <==> KeptFrom(Step(s, evs[0]), evs[1..], i, c)
    ensures KeptFrom(s, evs, 0, c) <==> !Forgets(s, evs[0], c) && KeptFrom(s, evs, 1, c)
  {
    var t, rest := Step(s, evs[0]), evs[1..];
    assert forall j: nat :: j < |rest| ==> ForgetsAt(s, evs, j + 1, c) == ForgetsAt(t, rest, j, c);
    if KeptFrom(s, evs, i + 1, c) {
      forall j: nat | i <= j < |rest| ensures !ForgetsAt(t, rest, j, c) {
        assert !ForgetsAt(s, evs, j + 1, c);
      }
    }
    if KeptFrom(t, rest, i, c) {
      forall j: nat | i + 1 <= j < |evs| ensures !ForgetsAt(s, evs, j, c) {
        assert !ForgetsAt(t, rest, j - 1, c);
      }
    }
    assert ForgetsAt(s, evs, 0, c) == Forgets(s, evs[0], c);
  }

  /** Some event asks, and none from the next on forgets. */
  ghost predicate AskedAndKept(s: State, evs: seq<Event>, c: Client)
    requires Possible(s, evs)
  {
    exists i: nat :: i < |evs| && AsksAt(s, evs, i, c) && KeptFrom(s, evs, i + 1, c)
  }

  lemma AskedAndKeptShift(s: State, evs: seq<Event>, i: nat, c: Client)
    requires Possible(s, evs) && i + 1 < |evs|
    ensures AsksAt(s, evs, i + 1, c) == AsksAt(Step(s, evs[0]), evs[1..], i, c)
    ensures KeptFrom(s, evs, i + 2, c) == KeptFrom(Step(s, evs[0]), evs[1..], i + 1, c)
  {
    KeptFromNext(s, evs, i + 1, c);
  }

  lemma AskedAndKeptLater(s: State, evs: seq<Event>, c: Client)
    requires Possible(s, evs) && evs != [] && AskedAndKept(Step(s, evs[0]), evs[1..], c)
    ensures AskedAndKept(s, evs, c)
  {
    var t, rest := Step(s, evs[0]), evs[1..];
    var i: nat :| i < |rest| && AsksAt(t, rest, i, c) && KeptFrom(t, rest, i + 1, c);
    AskedAndKeptShift(s, evs, i, c);
    assert AsksAt(s, evs, i + 1, c) && KeptFrom(s, evs, i + 1 + 1, c);
  }

  lemma AskedAndKeptSooner(s: State, evs: seq<Event>, i: nat, c: Client)
    requires Possible(s, evs) && 0 < i < |evs| && AsksAt(s, evs, i, c) && KeptFrom(s, evs, i + 1, c)
    ensures AskedAndKept(Step(s, evs[0]), evs[1..], c)
  {
    AskedAndKeptShift(s, evs, i - 1, c);
    assert AsksAt(Step(s, evs[0]), evs[1..], i - 1, c) && KeptFrom(Step(s, evs[0]), evs[1..], i - 1 + 1, c);
  }

  lemma AskedFirst(s: State, evs: seq<Event>, c: Client)
    requires Possible(s, evs) && evs != []
    ensures AsksAt(s, evs, 0, c) == Asks(s, evs[0], c)
  {
  }

  lemma AskedAndKeptNext(s: State, evs: seq<Event>, c: Client)
    requires Possible(s, evs) && evs != []
    ensures AskedAndKept(s, evs, c) <==>
      (Asks(s, evs[0], c) && KeptFrom(s, evs, 1, c)) || AskedAndKept(Step(s, evs[0]), evs[1..], c)
  {
    AskedFirst(s, evs, c);
    if i: nat :| i < |evs| && AsksAt(s, evs, i, c) && KeptFrom(s, evs, i + 1, c) {
      if i > 0 {
        AskedAndKeptSooner(s, evs, i, c);
      }
    }
    if AskedAndKept(Step(s, evs[0]), evs[1..], c) {
      AskedAndKeptLater(s, evs, c);
    }
  }

  /** Remembered, by positions in the run. */
  lemma {:induction false} RememberedExactly(s: State, evs: seq<Event>, c: Client, before: bool)
    requires Possible(s, evs)
    ensures Remembered(s, evs, c, before) <==> (before && KeptFrom(s, evs, 0, c)) || AskedAndKept(s, evs, c)
    decreases |evs|
  {
    if evs != [] {
      RememberedExactly(Step(s, evs[0]), evs[1..], c, Asks(s, evs[0], c) || (before && !Forgets(s, evs[0], c)));
      KeptFromNext(s, evs, 0, c);
      AskedAndKeptNext(s, evs, c);
    }
  }

  lemma {:induction false} WaitersAreRemembered(s: State, evs: seq<Event>, c: Client, before: bool)
    requires Possible(s, evs) && Waits(Run(s, evs).log, c)
    requires Waits(s.log, c) ==> (Held(s, c) <==> before)
    ensures Held(Run(s, evs), c) <==> Remembered(s, evs, c, before)
    decreases |evs|
  {
    if evs != [] {
      var ev, t := evs[0], Step(s, evs[0]);
      WaitsAfter(s, ev, c);
      if ev != SignalOne(c) {
        HeldAfter(s, ev, c);
      }
      WaitersAreRemembered(t, evs[1..], c, Asks(s, ev, c) || (before && !Forgets(s, ev, c)));
    }
  }

  /** No wake-up is lost except as said: in every run, a client that was told "not up yet" and not
      signalled since is held, and so will be signalled at the next box-up, if and only if since some
      such answer no teardown has removed the record from under it. */
  lemma NoLostWakeUpExactly(evs: seq<Event>, c: Client)
    requires Possible(START, evs) && Waits(Run(START, evs).log, c)
    ensures Held(Run(START, evs), c) <==>
      exists i: nat :: i < |evs| && AsksAt(START, evs, i, c) && KeptFrom(START, evs, i + 1, c)
  {
    WaitersAreRemembered(START, evs, c, false);
    RememberedExactly(START, evs, c, false);
  }

  lemma {:induction false} WaitersHaveAsked(s: State, evs: seq<Event>, c: Client) returns (i: nat)
    requires Possible(s, evs) && !Waits(s.log, c) && Waits(Run(s, evs).log, c)
    ensures i < |evs| && AsksAt(s, evs, i, c)
    decreases |evs|
  {
    var t := Step(s, evs[0]);
    WaitsAfter(s, evs[0], c);
    if Waits(t.log, c) {
      i := 0;
    } else {
      i := WaitersHaveAsked(t, evs[1..], c);
      assert AsksAt(s, evs, i + 1, c) == AsksAt(t, evs[1..], i, c);
      i := i + 1;
    }
  }

  /** In a run in which no teardown removes the client's record from under it, whatever else teardowns do,
      the client is held for as long as it waits. */
  lemma NoLostWakeUp(evs: seq<Event>, c: Client)
    requires Possible(START, evs) && KeptFrom(START, evs, 0, c)
    requires Waits(Run(START, evs).log, c)
    ensures Held(Run(START, evs), c)
  {
    var i := WaitersHaveAsked(START, evs, c);
    assert KeptFrom(START, evs, i + 1, c);
    NoLostWakeUpExactly(evs, c);
  }

  /** With the box serving nobody is held, so whoever still waits was forgotten. With the box gone, the
      provision of a held client's record is marked in flight, or the last one failed. */
  lemma WaitingHasAReason(evs: seq<Event>, c: Client)
    requires Possible(START, evs)
    ensures var s := Run(START, evs);
      && (s.box.Serving? ==> !Held(s, c))
      && (s.box.Down? && Held(s, c) ==> s.current.Some? && (Marked(s) || Current(s).status.Failed?))
  {
    FromStart(evs);
  }

  // ---- each waiter is signalled once -----------------------------------------------------------

  function SignalsTo(evs: seq<Event>, c: Client): nat
    decreases |evs|
  {
    if evs == [] then 0 else (if evs[0] == SignalOne(c) then 1 else 0) + SignalsTo(evs[1..], c)
  }

  function Owed(s: State, c: Client): nat {
    if s.box.Signalling? && c in s.box.left then 1 else 0
  }

  lemma SignallingStays(s: State, ev: Event)
    requires Known(s) && Enabled(s, ev) && s.box.Signalling? && !ev.SignalsDone?
    ensures Step(s, ev).box == if ev.SignalOne? then Signalling(s.box.left - {ev.c}) else s.box
  {
  }

  lemma SignalIsOwed(s: State, ev: Event, c: Client)
    requires Known(s) && Enabled(s, ev) && s.box.Signalling? && !ev.SignalsDone?
    ensures Step(s, ev).box.Signalling?
    ensures (if ev == SignalOne(c) then 1 else 0) + Owed(Step(s, ev), c) == Owed(s, c)
  {
    SignallingStays(s, ev);
    var t := Step(s, ev);
    assert t.box == if ev.SignalOne? then Signalling(s.box.left - {ev.c}) else s.box;
  }

  lemma {:induction false} SignalsAreOwed(s: State, evs: seq<Event>, c: Client)
    requires s.box.Signalling? && Possible(s, evs)
    requires forall i :: 0 <= i < |evs| ==> !evs[i].SignalsDone?
    ensures Run(s, evs).box.Signalling?
    ensures SignalsTo(evs, c) + Owed(Run(s, evs), c) == Owed(s, c)
    decreases |evs|
  {
    if evs != [] {
      assert !evs[0].SignalsDone?;
      SignalIsOwed(s, evs[0], c);
      SignalsAreOwed(Step(s, evs[0]), evs[1..], c);
    }
  }

  /** Box-up empties the record's waiters, and until the box serves signals each of them once and
      nobody else. */
  lemma BoxUpSignalsEachWaiterOnce(s: State, evs: seq<Event>, c: Client)
    requires Known(s) && s.box.Rising? && Possible(Step(s, Empty), evs)
    requires forall i :: 0 <= i < |evs| ==> !evs[i].SignalsDone?
    ensures Step(s, Empty).recs[s.box.rec].waiters == {}
    ensures Enabled(Run(Step(s, Empty), evs), SignalsDone) ==>
      SignalsTo(evs, c) == if c in s.recs[s.box.rec].waiters then 1 else 0
  {
    SignalsAreOwed(Step(s, Empty), evs, c);
  }
}
