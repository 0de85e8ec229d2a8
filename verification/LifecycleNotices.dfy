/** The clients of a resource that is up: whoever is answered "reused" gets a compute_ready of its own, whatever
    happens to the resource meanwhile. */
module LifecycleNotices {
  import opened Common
  import opened Lifecycle
  import opened LifecycleRuns

  /** A request while a box is registered. */
  predicate Reuses(s: State, ev: Event, c: Client) {
    ev == Request(c) && !s.box.Down?
  }

  function Once(b: bool): nat {
    if b then 1 else 0
  }

  /** A compute_ready task more exactly by such a request, one less exactly when one is done. */
  lemma NotifyAfter(s: State, ev: Event, c: Client)
    requires Known(s) && Enabled(s, ev)
    ensures Step(s, ev).notify[c] + Once(ev == Notify(c)) == s.notify[c] + Once(Reuses(s, ev, c))
  {
    match ev
    case Request(d) => RequestNotifies(s, d);
    case Heal => PrewarmNotifiesNobody(s.(healing := s.healing - 1));
    case Prewarm => PrewarmNotifiesNobody(s);
    case Notify(d) =>
    case _ => OthersNotifyNobody(s, ev);
  }

  lemma RequestNotifies(s: State, d: Client)
    requires Known(s)
    ensures RequestStep(s, d).notify == if s.box.Down? then s.notify else s.notify + multiset{d}
  {
  }

  lemma PrewarmNotifiesNobody(s: State)
    requires Known(s)
    ensures PrewarmStep(s).notify == s.notify
  {
  }

  lemma OthersNotifyNobody(s: State, ev: Event)
    requires Known(s) && Enabled(s, ev) && !ev.Request? && !ev.Heal? && !ev.Prewarm? && !ev.Notify?
    ensures Step(s, ev).notify == s.notify
  {
  }

  // ---- the history ----------------------------------------------------------------------------------

  /** What an event adds to the history about this client: an answer of what is the case, or a signal. */
  function SaidTo(s: State, ev: Event, c: Client): seq<Log> {
    if ev == Request(c) then [Answered(c, !s.box.Down?)]
    else if ev == SignalOne(c) || ev == Notify(c) then [Signalled(c)]
    else []
  }

  predicate About(l: Log, c: Client) {
    (l.Answered? || l.Signalled?) && l.c == c
  }

  /** The client's own part of the history. */
  function Heard(log: seq<Log>, c: Client): seq<Log>
    decreases |log|
  {
    if log == [] then []
    else Heard(log[..|log| - 1], c) + if About(log[|log| - 1], c) then [log[|log| - 1]] else []
  }

  lemma HeardNote(log: seq<Log>, l: Log, c: Client)
    ensures Heard(log + [l], c) == Heard(log, c) + if About(l, c) then [l] else []
  {
    assert (log + [l])[..|log|] == log;
  }

  lemma HeardLaunch(s: State, launch: bool, c: Client)
    requires s.current.Some?
    ensures Heard(LaunchIf(s, launch).log, c) == Heard(s.log, c)
  {
    HeardNote(s.log, Launch(s.current.value), c);
  }

  lemma HeardRequest(s: State, d: Client, c: Client)
    requires Known(s)
    ensures Heard(RequestStep(s, d).log, c) == Heard(s.log, c) + SaidTo(s, Request(d), c)
  {
    var u := Asked(WithRecord(s), d);
    NewRecordIsKnown(s);
    HeardAsked(WithRecord(s), d, c);
    RequestAnswers(s, d);
    HeardNote(u.log, Answered(d, !s.box.Down?), c);
  }

  lemma HeardAsked(t: State, d: Client, c: Client)
    requires Known(t) && t.current.Some?
    ensures Heard(Asked(t, d).log, c) == Heard(t.log, c)
  {
    HeardLaunch(SetCurrent(t, Requested(Current(t), Up(t), d)), Launches(Current(t), Up(t)), c);
  }

  lemma RequestAnswers(s: State, d: Client)
    requires Known(s) && Known(WithRecord(s))
    ensures RequestStep(s, d).log == Asked(WithRecord(s), d).log + [Answered(d, !s.box.Down?)]
    ensures WithRecord(s).log == s.log
  {
  }

  lemma HeardPrewarm(s: State, c: Client)
    requires Known(s)
    ensures Heard(PrewarmStep(s).log, c) == Heard(s.log, c)
  {
    var t := WithRecord(s);
    HeardLaunch(SetCurrent(t, Prewarmed(Current(t), Up(s))), Launches(Current(t), Up(s)), c);
  }

  /** Every request is answered, by whether a box is registered; every signal is in the history. */
  lemma HeardAfter(s: State, ev: Event, c: Client)
    requires Known(s) && Enabled(s, ev)
    ensures Heard(Step(s, ev).log, c) == Heard(s.log, c) + SaidTo(s, ev, c)
  {
    match ev
    case Request(d) => HeardRequest(s, d, c);
    case Heal => HeardPrewarm(s.(healing := s.healing - 1), c);
    case Prewarm => HeardPrewarm(s, c);
    case _ => HeardOther(s, ev, c);
  }

  lemma HeardOther(s: State, ev: Event, c: Client)
    requires Known(s) && Enabled(s, ev) && !ev.Request? && !ev.Heal? && !ev.Prewarm?
    ensures Heard(Step(s, ev).log, c) == Heard(s.log, c) + SaidTo(s, ev, c)
  {
    NoteIsMade(s, ev);
    NoteIsSaid(s, ev, c);
    HeardOne(s.log, NoteOf(s, ev), Step(s, ev).log, c);
  }

  lemma NoteIsMade(s: State, ev: Event)
    requires Known(s) && Enabled(s, ev) && !ev.Request? && !ev.Heal? && !ev.Prewarm?
    ensures Step(s, ev).log == if NoteOf(s, ev).Some? then s.log + [NoteOf(s, ev).value] else s.log
  {
  }

  function Part(said: Option<Log>, c: Client): seq<Log> {
    if said.Some? && About(said.value, c) then [said.value] else []
  }

  lemma HeardOne(log: seq<Log>, said: Option<Log>, after: seq<Log>, c: Client)
    requires after == if said.Some? then log + [said.value] else log
    ensures Heard(after, c) == Heard(log, c) + Part(said, c)
  {
    if said.Some? {
      HeardNote(log, said.value, c);
    } else {
      assert Heard(log, c) + [] == Heard(log, c);
    }
  }

  lemma NoteIsSaid(s: State, ev: Event, c: Client)
    requires !ev.Request?
    ensures SaidTo(s, ev, c) == Part(NoteOf(s, ev), c)
  {
  }

  /** What the other events add to the history. */
  function NoteOf(s: State, ev: Event): Option<Log> {
    match ev
    case SignalOne(c) => Some(Signalled(c))
    case Notify(c) => Some(Signalled(c))
    case EndProvision(r, ok) => if ok then None else Some(Failure(r))
    case Register => Some(BoxUp(WithRecord(s).current.value))
    case _ => None
  }

  // ---- over every run ----------------------------------------------------------------------------------

  function Count(heard: seq<Log>, l: Log): nat {
    multiset(heard)[l]
  }

  function Notices(evs: seq<Event>, c: Client): nat
    decreases |evs|
  {
    if evs == [] then 0 else Once(evs[0] == Notify(c)) + Notices(evs[1..], c)
  }

  lemma {:induction false} NoticesFrom(s: State, evs: seq<Event>, c: Client)
    requires Possible(s, evs)
    ensures Count(Heard(Run(s, evs).log, c), Answered(c, true)) + s.notify[c]
         == Count(Heard(s.log, c), Answered(c, true)) + Notices(evs, c) + Run(s, evs).notify[c]
    decreases |evs|
  {
    if evs != [] {
      NoticesNext(s, evs[0], c);
      NoticesFrom(Step(s, evs[0]), evs[1..], c);
    }
  }

  lemma NoticesNext(s: State, ev: Event, c: Client)
    requires Known(s) && Enabled(s, ev)
    ensures Count(Heard(Step(s, ev).log, c), Answered(c, true)) + s.notify[c]
         == Count(Heard(s.log, c), Answered(c, true)) + Once(ev == Notify(c)) + Step(s, ev).notify[c]
  {
    NotifyAfter(s, ev, c);
    HeardAfter(s, ev, c);
    CountMore(Heard(s.log, c), SaidTo(s, ev, c), Answered(c, true));
    SaidCounts(s, ev, c);
  }

  lemma SaidCounts(s: State, ev: Event, c: Client)
    ensures Count(SaidTo(s, ev, c), Answered(c, true)) == Once(Reuses(s, ev, c))
  {
  }

  lemma CountMore(a: seq<Log>, b: seq<Log>, l: Log)
    ensures Count(a + b, l) == Count(a, l) + Count(b, l)
  {
    assert multiset(a + b) == multiset(a) + multiset(b);
  }

  /** In every run, the answers "reused" to a client are as many as the compute_ready's sent to it for them, and
      those still to be sent. */
  lemma EveryReuseIsNoticed(evs: seq<Event>, c: Client)
    requires Possible(START, evs)
    ensures Count(Heard(Run(START, evs).log, c), Answered(c, true)) == Notices(evs, c) + Run(START, evs).notify[c]
  {
    NoticesFrom(START, evs, c);
  }

  /** The client was answered "reused" at this point of what it heard, and not signalled since. */
  ghost predicate Promised(heard: seq<Log>, c: Client) {
    exists i :: 0 <= i < |heard| && heard[i] == Answered(c, true) && Signalled(c) !in heard[i + 1..]
  }

  lemma PromisedAfter(heard: seq<Log>, l: Log, c: Client)
    ensures Promised(heard + [l], c) <==> l == Answered(c, true) || (Promised(heard, c) && l != Signalled(c))
  {
    var all := heard + [l];
    if l == Answered(c, true) {
      assert all[|heard|] == l && all[|heard| + 1..] == [];
    } else if Promised(heard, c) && l != Signalled(c) {
      var i :| 0 <= i < |heard| && heard[i] == Answered(c, true) && Signalled(c) !in heard[i + 1..];
      TailMore(heard, l, i);
      assert all[i] == Answered(c, true) && Signalled(c) !in all[i + 1..];
    }
    if Promised(all, c) {
      var i :| 0 <= i < |all| && all[i] == Answered(c, true) && Signalled(c) !in all[i + 1..];
      if i < |heard| {
        TailMore(heard, l, i);
        assert heard[i] == Answered(c, true) && Signalled(c) !in heard[i + 1..] && l in all[i + 1..];
      }
    }
  }

  lemma TailMore(heard: seq<Log>, l: Log, i: nat)
    requires i < |heard|
    ensures (heard + [l])[i] == heard[i] && (heard + [l])[i + 1..] == heard[i + 1..] + [l]
  {
  }

  lemma {:induction false} PromisedFrom(s: State, evs: seq<Event>, c: Client)
    requires Possible(s, evs) && (Promised(Heard(s.log, c), c) ==> s.notify[c] > 0)
    ensures Promised(Heard(Run(s, evs).log, c), c) ==> Run(s, evs).notify[c] > 0
    decreases |evs|
  {
    if evs != [] {
      PromisedNext(s, evs[0], c);
      PromisedFrom(Step(s, evs[0]), evs[1..], c);
    }
  }

  /** What is said to the client keeps or ends the promise. */
  lemma PromisedWhenSaid(heard: seq<Log>, s: State, ev: Event, c: Client)
    ensures Promised(heard + SaidTo(s, ev, c), c) <==>
      Reuses(s, ev, c) || (Promised(heard, c) && ev != SignalOne(c) && ev != Notify(c))
  {
    if SaidTo(s, ev, c) != [] {
      PromisedAfter(heard, SaidTo(s, ev, c)[0], c);
    } else {
      assert heard + [] == heard;
    }
  }

  lemma PromisedNext(s: State, ev: Event, c: Client)
    requires Known(s) && Enabled(s, ev) && (Promised(Heard(s.log, c), c) ==> s.notify[c] > 0)
    ensures Promised(Heard(Step(s, ev).log, c), c) ==> Step(s, ev).notify[c] > 0
  {
    NotifyAfter(s, ev, c);
    HeardAfter(s, ev, c);
    PromisedWhenSaid(Heard(s.log, c), s, ev, c);
  }

  /** In every run, a client answered "reused" and not signalled since has a compute_ready on its way, which can
      be sent at any time. */
  lemma ReuseIsSignalled(evs: seq<Event>, c: Client, i: nat)
    requires Possible(START, evs)
    requires var heard := Heard(Run(START, evs).log, c); i < |heard| && heard[i] == Answered(c, true)
    ensures var heard := Heard(Run(START, evs).log, c);
      Signalled(c) in heard[i + 1..] || Enabled(Run(START, evs), Notify(c))
  {
    PromisedFrom(START, evs, c);
  }
}
