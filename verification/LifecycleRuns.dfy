/** Runs of a named resource: the invariant holds in all of them, and launches are separated. */
module LifecycleRuns {
  import opened Lifecycle

  ghost predicate Possible(s: State, evs: seq<Event>)
    decreases |evs|
  {
    Known(s) && (evs == [] || (Enabled(s, evs[0]) && Possible(Step(s, evs[0]), evs[1..])))
  }

  ghost function Run(s: State, evs: seq<Event>): (t: State)
    requires Possible(s, evs)
    ensures Known(t)
    decreases |evs|
  {
    if evs == [] then s else Run(Step(s, evs[0]), evs[1..])
  }

  lemma {:induction false} RunKeepsInv(s: State, evs: seq<Event>)
    requires Inv(s) && Possible(s, evs)
    ensures Inv(Run(s, evs))
    decreases |evs|
  {
    if evs != [] {
      StepKeepsInv(s, evs[0]);
      RunKeepsInv(Step(s, evs[0]), evs[1..]);
    }
  }

  lemma StartInv()
    ensures Inv(START)
  {
    assert Known(START);
  }

  lemma FromStart(evs: seq<Event>)
    requires Possible(START, evs)
    ensures Inv(Run(START, evs))
  {
    StartInv();
    RunKeepsInv(START, evs);
  }

  /** The state in which the i-th event of a run happens; the last one after all of them. */
  ghost function At(s: State, evs: seq<Event>, i: nat): (t: State)
    requires Possible(s, evs) && i <= |evs|
    ensures Known(t) && (i < |evs| ==> Enabled(t, evs[i])) && (i == |evs| ==> t == Run(s, evs))
    decreases |evs|
  {
    if i == 0 then s else At(Step(s, evs[0]), evs[1..], i - 1)
  }

  lemma RunOne(s: State, ev: Event, evs: seq<Event>)
    requires Known(s) && Enabled(s, ev) && Possible(Step(s, ev), evs)
    ensures Possible(s, [ev] + evs) && Run(s, [ev] + evs) == Run(Step(s, ev), evs)
  {
    assert ([ev] + evs)[1..] == evs;
  }

  /** Run as a relation: what a run of one list of events leads to. */
  ghost predicate Leads(s: State, evs: seq<Event>, t: State) {
    Possible(s, evs) && Run(s, evs) == t
  }

  lemma LeadsStep(s: State, ev: Event, evs: seq<Event>, t: State)
    ensures Leads(s, [ev] + evs, t) <==> Known(s) && Enabled(s, ev) && Leads(Step(s, ev), evs, t)
  {
    assert ([ev] + evs)[1..] == evs;
  }

  lemma {:induction false} LeadsBoth(s: State, a: seq<Event>, t: State, b: seq<Event>, u: State)
    requires Leads(s, a, t) && Leads(t, b, u)
    ensures Leads(s, a + b, u)
    decreases |a|
  {
    if a == [] {
      assert a + b == b;
    } else {
      var ev, rest := a[0], a[1..];
      assert a == [ev] + rest && a + b == [ev] + (rest + b);
      LeadsStep(s, ev, rest, t);
      LeadsBoth(Step(s, ev), rest, t, b, u);
      LeadsStep(s, ev, rest + b, u);
    }
  }

  // ---- launches ------------------------------------------------------------------------------------

  predicate Closes(l: Log, r: RecId) {
    l == BoxUp(r) || l == Failure(r)
  }

  lemma {:induction false} OpenUnlessClosed(log: seq<Log>, i: nat)
    requires i < |log| && log[i].Launch?
    requires forall k :: i < k < |log| ==> !Closes(log[k], log[i].rec)
    ensures LaunchOpen(log, log[i].rec)
    decreases |log|
  {
    if i < |log| - 1 {
      assert !Closes(log[|log| - 1], log[i].rec);
      OpenUnlessClosed(log[..|log| - 1], i);
    }
  }

  lemma {:induction false} DisciplineOfPrefix(log: seq<Log>, n: nat)
    requires LaunchesDisciplined(log) && n <= |log|
    ensures LaunchesDisciplined(log[..n])
    decreases |log|
  {
    if n < |log| {
      DisciplineOfPrefix(log[..|log| - 1], n);
      assert log[..|log| - 1][..n] == log[..n];
    } else {
      assert log[..n] == log;
    }
  }

  lemma Separated(log: seq<Log>, i: nat, j: nat)
    requires LaunchesDisciplined(log) && i < j < |log| && log[i].Launch? && log[j] == log[i]
    ensures exists k :: i < k < j && Closes(log[k], log[i].rec)
  {
    DisciplineOfPrefix(log, j + 1);
    assert log[..j + 1][..j] == log[..j];
    if forall k :: i < k < j ==> !Closes(log[k], log[i].rec) {
      OpenUnlessClosed(log[..j], i);
    }
  }

  /** Between two launches on one record there is a box-up of it or a failed provision. */
  lemma LaunchesAreSeparated(evs: seq<Event>, i: nat, j: nat)
    requires Possible(START, evs)
    requires var log := Run(START, evs).log; i < j < |log| && log[i].Launch? && log[j] == log[i]
    ensures var log := Run(START, evs).log; exists k :: i < k < j && Closes(log[k], log[i].rec)
  {
    FromStart(evs);
    Separated(Run(START, evs).log, i, j);
  }
}
