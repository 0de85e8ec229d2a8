/** How many provisions of a named resource are in flight: exactly when a second one is launched, and what
    leads there; and how a lost box is healed. */
module LifecycleFlights {
  import opened Common
  import opened Lifecycle
  import opened LifecycleRuns
  import opened LifecycleWaiters

  // ---- one provision in flight -------------------------------------------------------------------

  /** The event launches a provision: it asks for the box, which is down, on a record that is not marked. */
  predicate LaunchesNow(s: State, ev: Event) {
    OfAsking(ev) && s.box.Down? && !Marked(s)
  }

  lemma RequestFlights(s: State, c: Client)
    requires Known(s)
    ensures InFlight(RequestStep(s, c)) == InFlight(s) + if s.box.Down? && !Marked(s) then 1 else 0
  {
  }

  lemma PrewarmFlights(s: State)
    requires Known(s)
    ensures InFlight(PrewarmStep(s)) == InFlight(s) + if s.box.Down? && !Marked(s) then 1 else 0
  {
  }

  /** What every event does to the number of provisions in flight. */
  lemma FlightsExactly(s: State, ev: Event)
    requires Known(s) && Enabled(s, ev)
    ensures InFlight(Step(s, ev)) ==
      if LaunchesNow(s, ev) then InFlight(s) + 1 else if ev.EndProvision? then InFlight(s) - 1 else InFlight(s)
  {
    if ev.Request? {
      RequestFlights(s, ev.c);
    } else if ev.Prewarm? || ev.Heal? {
      PrewarmFlights(if ev.Heal? then s.(healing := s.healing - 1) else s);
    } else {
      OtherFlights(s, ev);
    }
  }

  lemma OtherFlights(s: State, ev: Event)
    requires Known(s) && Enabled(s, ev) && !OfAsking(ev)
    ensures InFlight(Step(s, ev)) == if ev.EndProvision? then InFlight(s) - 1 else InFlight(s)
  {
    if OfProvision(ev) {
      ProvisionFlights(s, ev);
    }
  }

  lemma ProvisionFlights(s: State, ev: Event)
    requires Known(s) && Enabled(s, ev) && OfProvision(ev)
    ensures InFlight(Step(s, ev)) == if ev.EndProvision? then InFlight(s) - 1 else InFlight(s)
  {
    if ev.EndProvision? {
      assert |s.running - multiset{ev.rec}| == |s.running| - 1;
    } else {
      assert |s.running + multiset{WithRecord(s).current.value}| == |s.running| + 1;
    }
  }

  /** An event leaves at most one provision in flight unless, with one in flight, it asks for a box that is
      down and whose record is not marked; for every event, and in both directions. */
  lemma EventKeepsOneInFlightIff(s: State, ev: Event)
    requires Known(s) && Enabled(s, ev) && InFlight(s) <= 1
    ensures InFlight(Step(s, ev)) <= 1 <==>
      !(InFlight(s) == 1 && (ev.Request? || ev.Prewarm? || ev.Heal?) && s.box.Down? && !Marked(s))
  {
    FlightsExactly(s, ev);
  }

  /** The next event that asks for the box would launch a second provision. */
  predicate Exposed(s: State) {
    s.box.Down? && InFlight(s) > 0 && !Marked(s)
  }

  /** In the middle of a provision the box goes, or its record is removed while it is down. */
  ghost predicate Loses(s: State, ev: Event)
    requires Known(s)
  {
    InFlight(s) > 0 && (ev.Gone? || (Removes(s, ev) && s.box.Down?))
  }

  lemma AskingMarks(s: State, ev: Event)
    requires Known(s) && Enabled(s, ev) && OfAsking(ev) && s.box.Down?
    ensures Step(s, ev).box.Down? && Marked(Step(s, ev))
  {
  }

  lemma AskingWhileUp(s: State, ev: Event)
    requires Known(s) && Enabled(s, ev) && OfAsking(ev) && !s.box.Down?
    ensures !Step(s, ev).box.Down?
  {
  }

  lemma AskingExposes(s: State, ev: Event)
    requires Known(s) && Enabled(s, ev) && OfAsking(ev)
    ensures Exposed(Step(s, ev)) <==> Loses(s, ev)
  {
    if s.box.Down? {
      AskingMarks(s, ev);
    } else {
      AskingWhileUp(s, ev);
    }
  }

  lemma EndExposes(s: State, r: RecId, ok: bool)
    requires Known(s) && r in s.running && InFlight(s) <= 1
    ensures !Exposed(Step(s, EndProvision(r, ok)))
  {
    OtherFlights(s, EndProvision(r, ok));
  }

  lemma BeginExposes(s: State)
    requires Known(s) && s.launched > 0 && !Exposed(s)
    ensures !Exposed(Step(s, BeginProvision))
  {
    OtherFlights(s, BeginProvision);
  }

  lemma ProvisionExposes(s: State, ev: Event)
    requires Known(s) && Enabled(s, ev) && InFlight(s) <= 1 && !Exposed(s) && OfProvision(ev)
    ensures Exposed(Step(s, ev)) <==> Loses(s, ev)
  {
    match ev
    case EndProvision(r, ok) => EndExposes(s, r, ok);
    case BeginProvision => BeginExposes(s);
    case Register =>
  }

  lemma BoxExposes(s: State, ev: Event)
    requires Inv(s) && Enabled(s, ev) && InFlight(s) <= 1 && !Exposed(s) && OfBox(ev)
    ensures Exposed(Step(s, ev)) <==> Loses(s, ev)
  {
    OtherFlights(s, ev);
  }

  lemma TeardownExposes(s: State, ev: Event)
    requires Inv(s) && Enabled(s, ev) && InFlight(s) <= 1 && !Exposed(s) && OfTeardown(ev)
    ensures Exposed(Step(s, ev)) <==> Loses(s, ev)
  {
    OtherFlights(s, ev);
  }

  /** Exactly those events lead there. */
  lemma ExposedExactly(s: State, ev: Event)
    requires Inv(s) && Enabled(s, ev) && InFlight(s) <= 1 && !Exposed(s)
    ensures Exposed(Step(s, ev)) <==> Loses(s, ev)
  {
    if OfAsking(ev) {
      AskingExposes(s, ev);
    } else if OfProvision(ev) {
      ProvisionExposes(s, ev);
    } else if OfBox(ev) {
      BoxExposes(s, ev);
    } else {
      TeardownExposes(s, ev);
    }
  }

  lemma {:induction false} OneInFlightFrom(s: State, evs: seq<Event>)
    requires Inv(s) && Possible(s, evs) && InFlight(s) <= 1 && !Exposed(s)
    requires forall i: nat :: i < |evs| ==> !Loses(At(s, evs, i), evs[i])
    ensures InFlight(Run(s, evs)) <= 1 && !Exposed(Run(s, evs))
    decreases |evs|
  {
    if evs != [] {
      var t, rest := Step(s, evs[0]), evs[1..];
      StepKeepsInv(s, evs[0]);
      assert !Loses(At(s, evs, 0), evs[0]);
      ExposedExactly(s, evs[0]);
      EventKeepsOneInFlightIff(s, evs[0]);
      forall i: nat | i < |rest| ensures !Loses(At(t, rest, i), rest[i]) {
        assert !Loses(At(s, evs, i + 1), evs[i + 1]);
      }
      OneInFlightFrom(t, rest);
    }
  }

  /** Some event of the run asks for the box in an exposed state. */
  ghost predicate EverLaunchesExposed(s: State, evs: seq<Event>)
    requires Possible(s, evs)
  {
    exists i: nat :: i < |evs| && OfAsking(evs[i]) && Exposed(At(s, evs, i))
  }

  /** Some state of the run has two provisions in flight. */
  ghost predicate EverTwoInFlight(s: State, evs: seq<Event>)
    requires Possible(s, evs)
  {
    exists i: nat :: i <= |evs| && InFlight(At(s, evs, i)) >= 2
  }

  lemma EverTwoNext(s: State, evs: seq<Event>)
    requires Possible(s, evs) && evs != [] && InFlight(s) <= 1
    ensures EverTwoInFlight(s, evs) <==> EverTwoInFlight(Step(s, evs[0]), evs[1..])
  {
    var t, rest := Step(s, evs[0]), evs[1..];
    if i: nat :| i <= |evs| && InFlight(At(s, evs, i)) >= 2 {
      assert At(s, evs, i) == At(t, rest, i - 1);
    }
    if i: nat :| i <= |rest| && InFlight(At(t, rest, i)) >= 2 {
      assert At(s, evs, i + 1) == At(t, rest, i);
    }
  }

  lemma EverLaunchesNext(s: State, evs: seq<Event>)
    requires Possible(s, evs) && evs != []
    ensures EverLaunchesExposed(s, evs) <==>
      (OfAsking(evs[0]) && Exposed(s)) || EverLaunchesExposed(Step(s, evs[0]), evs[1..])
  {
    var t, rest := Step(s, evs[0]), evs[1..];
    assert At(s, evs, 0) == s;
    if i: nat :| i < |evs| && OfAsking(evs[i]) && Exposed(At(s, evs, i)) {
      if i > 0 {
        assert OfAsking(rest[i - 1]) && At(s, evs, i) == At(t, rest, i - 1);
      }
    }
    if i: nat :| i < |rest| && OfAsking(rest[i]) && Exposed(At(t, rest, i)) {
      assert OfAsking(evs[i + 1]) && At(s, evs, i + 1) == At(t, rest, i);
    }
  }

  lemma {:induction false} TwoInFlightFromHere(s: State, evs: seq<Event>)
    requires Possible(s, evs) && InFlight(s) <= 1
    ensures EverTwoInFlight(s, evs) <==> EverLaunchesExposed(s, evs)
    decreases |evs|
  {
    if evs == [] {
      assert At(s, evs, 0) == s;
    } else {
      var t := Step(s, evs[0]);
      EverTwoNext(s, evs);
      EverLaunchesNext(s, evs);
      EventKeepsOneInFlightIff(s, evs[0]);
      if InFlight(t) <= 1 {
        TwoInFlightFromHere(t, evs[1..]);
      } else {
        assert InFlight(At(t, evs[1..], 0)) >= 2;
      }
    }
  }

  /** A run reaches a state with two provisions in flight if and only if one of its events asks for the box in
      an exposed state: down, with a provision in flight, and its record not marked. */
  lemma TwoInFlightExactly(evs: seq<Event>)
    requires Possible(START, evs)
    ensures EverTwoInFlight(START, evs) <==> EverLaunchesExposed(START, evs)
  {
    TwoInFlightFromHere(START, evs);
  }

  /** In every run in which no box goes, and no record is removed with the box down, in the middle of a
      provision, at most one provision is in flight. */
  lemma OneProvisionInFlight(evs: seq<Event>)
    requires Possible(START, evs) && forall i: nat :: i < |evs| ==> !Loses(At(START, evs, i), evs[i])
    ensures InFlight(Run(START, evs)) <= 1
  {
    StartInv();
    OneInFlightFrom(START, evs);
  }

  /** And each such event, the first time, lets the next request launch a second provision. */
  lemma LossLetsASecondLaunch(s: State, ev: Event, c: Client)
    requires Inv(s) && Enabled(s, ev) && InFlight(s) <= 1 && !Exposed(s) && Loses(s, ev)
    ensures Possible(s, [ev, Request(c)]) && InFlight(Run(s, [ev, Request(c)])) == 2
  {
    var t := Step(s, ev);
    StepKeepsInv(s, ev);
    ExposedExactly(s, ev);
    LossIsNoEnd(s, ev);
    ExposedRequest(t, c);
    RunOne(s, ev, [Request(c)]);
  }

  lemma ExposedRequest(s: State, c: Client)
    requires Inv(s) && Exposed(s)
    ensures Possible(s, [Request(c)]) && InFlight(Run(s, [Request(c)])) == InFlight(s) + 1
  {
    StepKeepsInv(s, Request(c));
    FlightsExactly(s, Request(c));
    RunOne(s, Request(c), []);
  }

  lemma LossIsNoEnd(s: State, ev: Event)
    requires Known(s) && Enabled(s, ev) && Loses(s, ev)
    ensures InFlight(Step(s, ev)) == InFlight(s)
  {
    FlightsExactly(s, ev);
  }

  // ---- bringing a box up, and giving it up -------------------------------------------------------

  /** Asked for, prewarmed or healed while it is down, a resource ends up with a provision marked in
      flight, and a new one is launched exactly if none was marked. */
  lemma DownMeansProvisioning(s: State, ev: Event)
    requires Known(s) && Enabled(s, ev) && s.box.Down? && (ev.Request? || ev.Prewarm? || ev.Heal?)
    ensures var t := Step(s, ev);
      && t.current.Some? && t.current.value in t.recs && Current(t).provisioning
      && t.launched == s.launched + if s.current.Some? && Current(s).provisioning then 0 else 1
  {
  }

  /** A lost spot box, exactly unless its record is gone or is being torn down, has a healing under way that,
      if it runs next, launches a provision and marks the record. */
  lemma LostBoxIsHealed(s: State)
    requires Inv(s) && s.box.Serving?
    ensures var t := Step(s, Gone(true));
      && Known(t)
      && (t.healing > s.healing <==> s.current.Some? && !Current(s).tearingDown)
      && (t.healing > s.healing ==>
            && Enabled(t, Heal) && Step(t, Heal).box.Down? && Marked(Step(t, Heal))
            && InFlight(Step(t, Heal)) == InFlight(s) + 1)
  {
    var t := Step(s, Gone(true));
    StepKeepsInv(s, Gone(true));
    FlightsExactly(s, Gone(true));
    if t.healing > s.healing {
      assert !Marked(t);
      DownMeansProvisioning(t, Heal);
      FlightsExactly(t, Heal);
      AskingMarks(t, Heal);
    }
  }

  lemma TearingDownStays(s: State, ev: Event, r: RecId)
    requires Known(s) && Enabled(s, ev) && r in s.recs && s.recs[r].tearingDown
    ensures r in Step(s, ev).recs && Step(s, ev).recs[r].tearingDown
  {
    if ev.Request? {
      TearingDownOnRequest(s, ev.c, r);
    } else if ev.Prewarm? || ev.Heal? {
      TearingDownOnPrewarm(if ev.Heal? then s.(healing := s.healing - 1) else s, r);
    } else {
      TearingDownOtherwise(s, ev, r);
    }
  }

  lemma TearingDownOnRequest(s: State, c: Client, r: RecId)
    requires Known(s) && r in s.recs && s.recs[r].tearingDown
    ensures r in RequestStep(s, c).recs && RequestStep(s, c).recs[r].tearingDown
  {
  }

  lemma TearingDownOnPrewarm(s: State, r: RecId)
    requires Known(s) && r in s.recs && s.recs[r].tearingDown
    ensures r in PrewarmStep(s).recs && PrewarmStep(s).recs[r].tearingDown
  {
  }

  lemma TearingDownOtherwise(s: State, ev: Event, r: RecId)
    requires Known(s) && Enabled(s, ev) && !(ev.Request? || ev.Prewarm? || ev.Heal?)
    requires r in s.recs && s.recs[r].tearingDown
    ensures r in Step(s, ev).recs && Step(s, ev).recs[r].tearingDown
  {
    if OfProvision(ev) {
      TearingDownOnProvision(s, ev, r);
    } else {
      TearingDownOnTheRest(s, ev, r);
    }
  }

  lemma TearingDownOnProvision(s: State, ev: Event, r: RecId)
    requires Known(s) && Enabled(s, ev) && OfProvision(ev) && r in s.recs && s.recs[r].tearingDown
    ensures r in Step(s, ev).recs && Step(s, ev).recs[r].tearingDown
  {
    if ev.Register? {
      var t := WithRecord(s);
      assert r in t.recs && t.recs[r].tearingDown;
    }
  }

  lemma TearingDownOnTheRest(s: State, ev: Event, r: RecId)
    requires Known(s) && Enabled(s, ev) && !OfProvision(ev) && !(ev.Request? || ev.Prewarm? || ev.Heal?)
    requires r in s.recs && s.recs[r].tearingDown
    ensures r in Step(s, ev).recs && Step(s, ev).recs[r].tearingDown
  {
  }

  /** Once a teardown has begun on a record, a lost box is not healed as long as that record is the
      table's: not in the teardown's course, and not after the teardown has failed either. */
  lemma {:induction false} TearingDownEndsHealing(s: State, evs: seq<Event>, r: RecId, spot: bool)
    requires Possible(s, evs) && r in s.recs && s.recs[r].tearingDown
    requires Run(s, evs).current == Some(r) && Enabled(Run(s, evs), Gone(spot))
    ensures Step(Run(s, evs), Gone(spot)).healing == Run(s, evs).healing
    decreases |evs|
  {
    if evs == [] {
      assert Current(s).tearingDown;
    } else {
      TearingDownStays(s, evs[0], r);
      TearingDownEndsHealing(Step(s, evs[0]), evs[1..], r, spot);
    }
  }
}
