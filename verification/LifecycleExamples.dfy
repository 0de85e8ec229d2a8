/** Runs of a named resource that show where its promises end. */
module LifecycleExamples {
  import opened Common
  import opened Lifecycle
  import opened LifecycleRuns
  import opened LifecycleWaiters

  lemma SecondLaunch(s: State, c: Client)
    requires Known(s) && s.box.Down? && (s.current.Some? ==> !Current(s).provisioning)
    ensures Known(Step(s, Request(c))) && InFlight(Step(s, Request(c))) == InFlight(s) + 1
  {
  }

  lemma GoneMidProvision(s: State, spot: bool)
    requires Inv(s) && s.box.Serving?
    ensures var t := Step(s, Gone(spot));
      Inv(t) && t.box.Down? && t.recs == s.recs && t.current == s.current && InFlight(t) == InFlight(s)
  {
    StepKeepsInv(s, Gone(spot));
  }

  /** A box that goes while its provision is still running, with the record unmarked as a box-up
      leaves it: the next request launches a second one. */
  lemma LostMidProvision(s: State, spot: bool, c: Client)
    requires Inv(s) && s.box.Serving? && InFlight(s) > 0
    requires s.current.Some? ==> !Current(s).provisioning
    ensures Possible(s, [Gone(spot), Request(c)])
    ensures InFlight(Run(s, [Gone(spot), Request(c)])) == InFlight(s) + 1
  {
    var t := Step(s, Gone(spot));
    GoneMidProvision(s, spot);
    SecondLaunch(t, c);
    RunOne(t, Request(c), []);
    RunOne(s, Gone(spot), [Request(c)]);
  }

  /** The record comes up while its provision runs: how every box that registers from inside its own
      provisioning gets to serve. */
  lemma ComesUp(s: State)
    requires Inv(s) && s.box.Down? && s.current.Some? && Current(s).waiters == {}
    ensures Possible(s, [Register, Empty, SignalsDone])
    ensures var t := Run(s, [Register, Empty, SignalsDone]);
      && Inv(t) && t.box.Serving? && t.current == s.current && !Current(t).provisioning
      && t.launched == s.launched && t.running == s.running && t.notify == s.notify
      && t.log == s.log + [BoxUp(s.current.value)]
      && Current(t).hasWorkdir && t.healing == s.healing
  {
    var s1 := Step(s, Register);
    StepKeepsInv(s, Register);
    EmptiesAndServes(s1);
    RunOne(s, Register, [Empty, SignalsDone]);
  }

  lemma EmptiesAndServes(s: State)
    requires Inv(s) && s.current.Some? && s.box == Rising(s.current.value) && Current(s).waiters == {}
    ensures Possible(s, [Empty, SignalsDone])
    ensures var t := Run(s, [Empty, SignalsDone]);
      && Inv(t) && t.box.Serving? && t.current == s.current && Current(t) == Current(s)
      && t.launched == s.launched && t.running == s.running && t.notify == s.notify && t.log == s.log
      && t.healing == s.healing
  {
    var s2 := Step(s, Empty);
    StepKeepsInv(s, Empty);
    assert s2.box == Signalling({});
    StepKeepsInv(s2, SignalsDone);
    RunOne(s2, SignalsDone, []);
    RunOne(s, Empty, [SignalsDone]);
  }

  /** The state after a first launch, by a prewarm or by a client's request. */
  ghost predicate FirstLaunch(t: State, ev: Event) {
    && t.box.Down? && t.current == Some(0)
    && t.recs == map[0 := Rec(false, false, Provisioning, if ev == Prewarm then {} else {1}, true, false)]
    && t.launched == 1 && t.running == multiset{} && t.notify == multiset{} && t.healing == 0
    && t.log == if ev == Prewarm then [Launch(0)] else [Launch(0), Answered(1, false)]
  }

  lemma FirstLaunchOf(ev: Event)
    requires ev == Prewarm || ev == Request(1)
    ensures FirstLaunch(Step(START, ev), ev)
  {
  }

  lemma Launched(ev: Event) returns (t: State)
    requires ev == Prewarm || ev == Request(1)
    ensures Leads(START, [ev], t) && Inv(t) && FirstLaunch(t, ev)
  {
    StartInv();
    FirstLaunchOf(ev);
    StepKeepsInv(START, ev);
    RunOne(START, ev, []);
    t := Step(START, ev);
  }

  lemma RegistersThenGoes(s: State)
    requires Inv(s) && s.box.Down? && s.current.Some? && Current(s).waiters == {} && InFlight(s) > 0
    ensures var evs := [Register, Empty, SignalsDone] + [Gone(false), Request(1)];
      Possible(s, evs) && InFlight(Run(s, evs)) == InFlight(s) + 1
  {
    ComesUp(s);
    var t := Run(s, [Register, Empty, SignalsDone]);
    LostMidProvision(t, false, 1);
    var u := Run(t, [Gone(false), Request(1)]);
    LeadsBoth(s, [Register, Empty, SignalsDone], t, [Gone(false), Request(1)], u);
  }

  lemma BeginsAndIsLost(s: State) returns (evs: seq<Event>, u: State)
    requires Inv(s) && s.box.Down? && s.current.Some? && Current(s).waiters == {} && s.launched > 0
    ensures forall i :: 0 <= i < |evs| ==> !OfTeardown(evs[i])
    ensures Leads(s, evs, u) && InFlight(u) == InFlight(s) + 1
  {
    var t := Step(s, BeginProvision);
    StepKeepsInv(s, BeginProvision);
    assert InFlight(t) == InFlight(s);
    RegistersThenGoes(t);
    var rest := [Register, Empty, SignalsDone] + [Gone(false), Request(1)];
    RunOne(s, BeginProvision, rest);
    evs, u := [BeginProvision] + rest, Run(t, rest);
  }

  lemma LostAfter(s0: State, a: seq<Event>, s: State) returns (evs: seq<Event>, u: State)
    requires Leads(s0, a, s) && forall i :: 0 <= i < |a| ==> !OfTeardown(a[i])
    requires Inv(s) && s.box.Down? && s.current.Some? && Current(s).waiters == {} && s.launched > 0
    ensures forall i :: 0 <= i < |evs| ==> !OfTeardown(evs[i])
    ensures Leads(s0, evs, u) && InFlight(u) == InFlight(s) + 1
  {
    var rest;
    rest, u := BeginsAndIsLost(s);
    LeadsBoth(s0, a, s, rest, u);
    evs := a + rest;
  }

  /** "Only one provision in flight per resource" fails when the box comes up and goes again while
      the provision that made it is still running. */
  lemma TwoProvisionsInFlight() returns (evs: seq<Event>)
    ensures forall i :: 0 <= i < |evs| ==> !OfTeardown(evs[i])
    ensures Possible(START, evs) && InFlight(Run(START, evs)) == 2
  {
    var s := Launched(Prewarm);
    var u;
    evs, u := LostAfter(START, [Prewarm], s);
  }

  lemma LogOfAnsweredFirst(s: State)
    requires FirstLaunch(s, Request(1))
    ensures Waits(s.log, 1)
  {
    assert s.log == [Launch(0)] + [Answered(1, false)];
    ReadingsOfNote([Launch(0)], Answered(1, false), 1, 0);
  }

  lemma ForgottenAfter(s0: State, a: seq<Event>, s: State) returns (evs: seq<Event>)
    requires Leads(s0, a, s) && Inv(s) && FirstLaunch(s, Request(1)) && Waits(s.log, 1)
    ensures Possible(s0, evs)
    ensures var t := Run(s0, evs); t.box.Serving? && InFlight(t) == 0 && t.notify == multiset{} && Waits(t.log, 1)
  {
    var rest, u := Forgotten(s);
    LeadsBoth(s0, a, s, rest, u);
    evs := a + rest;
  }

  lemma Forgotten(s: State) returns (evs: seq<Event>, u: State)
    requires Inv(s) && FirstLaunch(s, Request(1)) && Waits(s.log, 1)
    ensures Leads(s, evs, u) && u.box.Serving? && InFlight(u) == 0 && u.notify == multiset{} && Waits(u.log, 1)
  {
    var s1 := Step(s, BeginTeardown);
    StepKeepsInv(s, BeginTeardown);
    assert s1.current == None && s1.launched == 1 && |s1.recs| == 1 && s1.log == s.log;
    evs, u := ComesUpWithoutIt(s1);
    RunOne(s, BeginTeardown, evs);
    evs := [BeginTeardown] + evs;
  }

  lemma ComesUpWithoutIt(s1: State) returns (evs: seq<Event>, u: State)
    requires Inv(s1) && s1.current == None && s1.launched == 1 && |s1.recs| == 1 && s1.box.Down?
    requires s1.running == multiset{} && s1.notify == multiset{} && Waits(s1.log, 1)
    ensures Leads(s1, evs, u) && u.box.Serving? && InFlight(u) == 0 && u.notify == multiset{} && Waits(u.log, 1)
  {
    var s2 := Step(s1, BeginProvision);
    StepKeepsInv(s1, BeginProvision);
    assert s2.running == multiset{1} && s2.launched == 0 && s2.current == Some(1) && s2.recs[1] == NEW_REC;
    var s3 := Step(s2, EndProvision(1, true));
    StepKeepsInv(s2, EndProvision(1, true));
    assert s3.running == multiset{};
    ComesUp(s3);
    ReadingsOfNote(s1.log, BoxUp(1), 1, 0);
    var up := [Register, Empty, SignalsDone];
    RunOne(s2, EndProvision(1, true), up);
    RunOne(s1, BeginProvision, [EndProvision(1, true)] + up);
    evs, u := [BeginProvision] + ([EndProvision(1, true)] + up), Run(s3, up);
  }

  /** A teardown before the box has a directory removes the record with its waiter, who is not told
      when the box does come up. */
  lemma TeardownForgetsAWaiter() returns (evs: seq<Event>)
    ensures Possible(START, evs)
    ensures var s := Run(START, evs); s.box.Serving? && InFlight(s) == 0 && s.notify == multiset{} && Waits(s.log, 1)
  {
    var s := Launched(Request(1));
    LogOfAnsweredFirst(s);
    evs := ForgottenAfter(START, [Request(1)], s);
  }

  // ---- a teardown that fails -----------------------------------------------------------------------

  ghost predicate ServesMarked(s: State) {
    Known(s) && s.box.Serving? && s.current.Some? && Current(s).tearingDown
  }

  ghost predicate SameButMarks(s: State, t: State) {
    t.current == s.current && t.healing == s.healing && InFlight(t) == InFlight(s)
  }

  lemma Marks(s: State)
    requires Known(s) && s.box.Serving? && s.current.Some? && Current(s).hasWorkdir
    ensures var t := Step(s, BeginTeardown); ServesMarked(t) && t.tearing > 0 && SameButMarks(s, t)
  {
  }

  lemma StaysMarked(s: State)
    requires ServesMarked(s) && s.tearing > 0
    ensures Enabled(s, EndTeardown(false))
    ensures ServesMarked(Step(s, EndTeardown(false))) && SameButMarks(s, Step(s, EndTeardown(false)))
  {
  }

  lemma MarkedIsNotHealed(s: State)
    requires ServesMarked(s)
    ensures Enabled(s, Gone(true)) && Step(s, Gone(true)).box.Down? && SameButMarks(s, Step(s, Gone(true)))
  {
  }

  /** A teardown whose action fails leaves the box serving, and when the box is lost later, nothing
      brings it back. */
  lemma FailsAndIsLost(s: State) returns (evs: seq<Event>, u: State)
    requires Inv(s) && s.box.Serving? && s.current.Some? && Current(s).hasWorkdir
    ensures evs == [BeginTeardown] + ([EndTeardown(false)] + [Gone(true)]) && Leads(s, evs, u)
    ensures u.box.Down? && u.current == s.current && u.healing == s.healing && InFlight(u) == InFlight(s)
  {
    Marks(s);
    StepKeepsInv(s, BeginTeardown);
    var s1 := Step(s, BeginTeardown);
    StaysMarked(s1);
    StepKeepsInv(s1, EndTeardown(false));
    var s2 := Step(s1, EndTeardown(false));
    MarkedIsNotHealed(s2);
    StepKeepsInv(s2, Gone(true));
    u := Step(s2, Gone(true));
    RunOne(s2, Gone(true), []);
    RunOne(s1, EndTeardown(false), [Gone(true)]);
    RunOne(s, BeginTeardown, [EndTeardown(false)] + [Gone(true)]);
    evs := [BeginTeardown] + ([EndTeardown(false)] + [Gone(true)]);
  }

  lemma ServesAfter(s0: State, a: seq<Event>, s: State) returns (evs: seq<Event>, u: State)
    requires Leads(s0, a, s) && Inv(s) && s.box.Down? && s.current.Some? && Current(s).waiters == {}
    ensures Leads(s0, evs, u) && Inv(u) && u.box.Serving? && u.current.Some? && Current(u).hasWorkdir && u.healing == s.healing
  {
    ComesUp(s);
    evs, u := a + [Register, Empty, SignalsDone], Run(s, [Register, Empty, SignalsDone]);
    LeadsBoth(s0, a, s, [Register, Empty, SignalsDone], u);
  }

  lemma LostAfterFailing(s0: State, a: seq<Event>, s: State) returns (evs: seq<Event>)
    requires Leads(s0, a, s) && Inv(s) && s.box.Serving? && s.current.Some? && Current(s).hasWorkdir && s.healing == 0
    ensures |evs| > 0 && evs[|evs| - 1] == Gone(true) && evs[..|evs| - 1] == a + [BeginTeardown, EndTeardown(false)]
    ensures Possible(s0, evs)
    ensures var t := Run(s0, evs); t.box.Down? && t.current.Some? && t.healing == 0
  {
    var rest, u := FailsAndIsLost(s);
    LeadsBoth(s0, a, s, rest, u);
    evs := a + rest;
  }

  /** A run in which a teardown fails and a spot box is lost after it: the record stands, and no healing
      is under way. */
  lemma FailedTeardownEndsHealing() returns (evs: seq<Event>)
    ensures Possible(START, evs) && |evs| > 2 && evs[|evs| - 2] == EndTeardown(false) && evs[|evs| - 1] == Gone(true)
    ensures var t := Run(START, evs); t.box.Down? && t.current.Some? && t.healing == 0
  {
    var s := Launched(Prewarm);
    var a, u := ServesAfter(START, [Prewarm], s);
    evs := LostAfterFailing(START, a, u);
    assert evs[..|evs| - 1][|evs| - 2] == EndTeardown(false);
  }
}
