/** The records and tasks of a named resource, field by field: which events change each, and how. Over runs, a
    record has a directory exactly if a box came up on it or a provision of it succeeded. */
module LifecycleRecords {
  import opened Common
  import opened Lifecycle
  import opened LifecycleRuns

  /** The record that a request, a launch or a box-up goes to: the table's, or a new one. */
  function TableRecord(s: State): RecId {
    if s.current.Some? then s.current.value else |s.recs|
  }

  /** A record as it was; a new one has nothing. */
  function Before(s: State, r: RecId): Rec {
    if r in s.recs then s.recs[r] else Rec(false, false, Idle, {}, false, false)
  }

  /** The box comes up on the record, or a provision of it succeeds. */
  predicate Establishes(s: State, ev: Event, r: RecId) {
    (ev.Register? && r == TableRecord(s)) || ev == EndProvision(r, true)
  }

  /** Somebody asks for the box, on this record, while it is down. */
  predicate Wants(s: State, ev: Event, r: RecId) {
    (ev.Request? || ev.Prewarm? || ev.Heal?) && r == TableRecord(s) && s.box.Down?
  }

  ghost predicate DirectoryIs(s: State, ev: Event, r: RecId, b: Rec) {
    && (b.hasWorkdir <==> Before(s, r).hasWorkdir || Establishes(s, ev, r))
    && (b.created <==> Before(s, r).created || Establishes(s, ev, r))
    && (b.tearingDown <==>
          Before(s, r).tearingDown || (ev.BeginTeardown? && s.current == Some(r) && Before(s, r).hasWorkdir))
  }

  ghost predicate MarkIs(s: State, ev: Event, r: RecId, b: Rec) {
    b.provisioning <==>
      (Before(s, r).provisioning || Wants(s, ev, r)) && !(ev.Register? && r == TableRecord(s)) && ev != EndProvision(r, false)
  }

  ghost predicate StatusIs(s: State, ev: Event, r: RecId, b: Rec) {
    b.status ==
      if ev.Register? && r == TableRecord(s) then Active
      else if ev.Request? && r == TableRecord(s) && !s.box.Down? then Active
      else if ev == EndProvision(r, false) then Status.Failed
      else if Wants(s, ev, r) && !Before(s, r).provisioning then Provisioning
      else Before(s, r).status
  }

  ghost predicate WaitersAre(s: State, ev: Event, r: RecId, b: Rec) {
    b.waiters ==
      if ev.Empty? && s.box.Rising? && r == s.box.rec then {}
      else if ev.Request? && Wants(s, ev, r) then Before(s, r).waiters + {ev.c}
      else Before(s, r).waiters
  }

  ghost predicate RecordIs(s: State, ev: Event, r: RecId, b: Rec) {
    DirectoryIs(s, ev, r, b) && MarkIs(s, ev, r, b) && StatusIs(s, ev, r, b) && WaitersAre(s, ev, r, b)
  }

  lemma RequestRecord(s: State, c: Client, r: RecId)
    requires Known(s) && r in RequestStep(s, c).recs
    ensures RecordIs(s, Request(c), r, RequestStep(s, c).recs[r])
  {
    RequestRecs(s, c);
  }

  lemma RequestRecs(s: State, c: Client)
    requires Known(s)
    ensures forall r :: r in RequestStep(s, c).recs ==>
      RequestStep(s, c).recs[r] ==
        if r == TableRecord(s) then Requested(Before(s, r), !s.box.Down?, c) else Before(s, r)
  {
    NewRecordIsKnown(s);
    AskedRecs(WithRecord(s), c);
  }

  lemma AskedRecs(t: State, c: Client)
    requires Known(t) && t.current.Some?
    ensures Asked(t, c).recs == t.recs[t.current.value := Requested(t.recs[t.current.value], !t.box.Down?, c)]
  {
  }

  lemma PrewarmRecord(s: State, ev: Event, r: RecId)
    requires Known(s) && (ev.Prewarm? || ev.Heal?) && r in PrewarmStep(s).recs
    ensures RecordIs(s, ev, r, PrewarmStep(s).recs[r])
  {
  }

  lemma BeginRecord(s: State, r: RecId)
    requires Known(s) && s.launched > 0 && r in Step(s, BeginProvision).recs
    ensures RecordIs(s, BeginProvision, r, Step(s, BeginProvision).recs[r])
  {
    assert Step(s, BeginProvision).recs[r] == Before(s, r);
  }

  lemma EndRecord(s: State, q: RecId, ok: bool, r: RecId)
    requires Known(s) && q in s.running && r in s.recs
    ensures r in Step(s, EndProvision(q, ok)).recs
    ensures RecordIs(s, EndProvision(q, ok), r, Step(s, EndProvision(q, ok)).recs[r])
  {
    assert Step(s, EndProvision(q, ok)).recs
        == s.recs[q := if ok then Provisioned(s.recs[q]) else ProvisionFailed(s.recs[q])];
  }

  lemma RegisterRecord(s: State, r: RecId)
    requires Known(s) && Enabled(s, Register) && r in Step(s, Register).recs
    ensures RecordIs(s, Register, r, Step(s, Register).recs[r])
  {
  }

  lemma BoxRecord(s: State, ev: Event, r: RecId)
    requires Known(s) && Enabled(s, ev) && (ev.Empty? || ev.SignalOne? || ev.SignalsDone? || ev.Notify? || ev.Gone?)
    requires r in Step(s, ev).recs
    ensures RecordIs(s, ev, r, Step(s, ev).recs[r])
  {
  }

  lemma TeardownRecord(s: State, ev: Event, r: RecId)
    requires Known(s) && Enabled(s, ev) && (ev.BeginTeardown? || ev.EndTeardown?) && r in Step(s, ev).recs
    ensures RecordIs(s, ev, r, Step(s, ev).recs[r])
  {
  }

  lemma HealedRecord(s: State, r: RecId)
    requires Known(s) && Enabled(s, Heal) && r in Step(s, Heal).recs
    ensures RecordIs(s, Heal, r, Step(s, Heal).recs[r])
  {
    var t := s.(healing := s.healing - 1);
    PrewarmRecord(t, Heal, r);
    assert Before(t, r) == Before(s, r) && TableRecord(t) == TableRecord(s);
  }

  /** Each field of a record changes exactly by these events. */
  lemma RecordAfter(s: State, ev: Event, r: RecId)
    requires Known(s) && Enabled(s, ev) && r in Step(s, ev).recs
    ensures RecordIs(s, ev, r, Step(s, ev).recs[r])
  {
    match ev
    case Request(c) => RequestRecord(s, c, r);
    case Prewarm => PrewarmRecord(s, ev, r);
    case Heal => HealedRecord(s, r);
    case Register => RegisterRecord(s, r);
    case BeginProvision => BeginRecord(s, r);
    case EndProvision(q, ok) => EndRecord(s, q, ok, r);
    case BeginTeardown => TeardownRecord(s, ev, r);
    case EndTeardown(_) => TeardownRecord(s, ev, r);
    case _ => BoxRecord(s, ev, r);
  }

  /** A record that there is not yet has nothing, and nothing is established on it. */
  lemma NotYet(s: State, ev: Event, r: RecId)
    requires Known(s) && Enabled(s, ev) && r !in Step(s, ev).recs
    ensures r !in s.recs && !Establishes(s, ev, r)
  {
    RecsStay(s, ev);
    if ev.Register? {
      RegisterKeepsRecs(s);
    }
  }

  lemma RecsStay(s: State, ev: Event)
    requires Known(s) && Enabled(s, ev)
    ensures s.recs.Keys <= Step(s, ev).recs.Keys
  {
    match ev
    case Request(c) => RequestKeepsRecs(s, c);
    case Prewarm => PrewarmKeepsRecs(s);
    case Heal => PrewarmKeepsRecs(s.(healing := s.healing - 1));
    case Register => RegisterKeepsRecs(s);
    case _ => OthersKeepRecs(s, ev);
  }

  lemma RequestKeepsRecs(s: State, c: Client)
    requires Known(s)
    ensures s.recs.Keys <= RequestStep(s, c).recs.Keys
  {
    NewRecordIsKnown(s);
    AskedRecs(WithRecord(s), c);
  }

  lemma PrewarmKeepsRecs(s: State)
    requires Known(s)
    ensures s.recs.Keys <= PrewarmStep(s).recs.Keys
  {
  }

  lemma RegisterKeepsRecs(s: State)
    requires Known(s) && s.box.Down?
    ensures s.recs.Keys + {TableRecord(s)} <= Step(s, Register).recs.Keys
  {
  }

  lemma OthersKeepRecs(s: State, ev: Event)
    requires Known(s) && Enabled(s, ev) && !ev.Request? && !ev.Prewarm? && !ev.Heal? && !ev.Register?
    ensures s.recs.Keys <= Step(s, ev).recs.Keys
  {
  }

  /** Some event of the run establishes the record. */
  ghost predicate EverEstablishes(s: State, evs: seq<Event>, r: RecId)
    requires Possible(s, evs)
    decreases |evs|
  {
    evs != [] && (Establishes(s, evs[0], r) || EverEstablishes(Step(s, evs[0]), evs[1..], r))
  }

  lemma {:induction false} DirectoryFrom(s: State, evs: seq<Event>, r: RecId)
    requires Possible(s, evs) && r in Run(s, evs).recs
    ensures Run(s, evs).recs[r].hasWorkdir <==> Before(s, r).hasWorkdir || EverEstablishes(s, evs, r)
    ensures Run(s, evs).recs[r].created <==> Before(s, r).created || EverEstablishes(s, evs, r)
    decreases |evs|
  {
    if evs != [] {
      if r in Step(s, evs[0]).recs {
        RecordAfter(s, evs[0], r);
      } else {
        NotYet(s, evs[0], r);
      }
      DirectoryFrom(Step(s, evs[0]), evs[1..], r);
    }
  }

  /** In every run, a record has its directory, which a teardown needs to destroy the box, and its time of creation
      exactly if in the run a box came up on it or a provision of it succeeded. */
  lemma DirectoryExactly(evs: seq<Event>, r: RecId)
    requires Possible(START, evs) && r in Run(START, evs).recs
    ensures Run(START, evs).recs[r].hasWorkdir <==> EverEstablishes(START, evs, r)
    ensures Run(START, evs).recs[r].created <==> EverEstablishes(START, evs, r)
  {
    DirectoryFrom(START, evs, r);
  }

  // ---- the table, the box and the tasks -------------------------------------------------------------

  function Once(b: bool): nat {
    if b then 1 else 0
  }

  /** The table loses its record at the end of a teardown's action, or where a teardown finds no directory; a
      record is made where one is needed. */
  ghost predicate TableIs(s: State, ev: Event, t: State) {
    t.current ==
      if ev == EndTeardown(true) then None
      else if ev.BeginTeardown? && s.current.Some? && !Before(s, s.current.value).hasWorkdir then None
      else if ev.Request? || ev.Register? || ev.BeginProvision? || ((ev.Prewarm? || ev.Heal?) && s.box.Down?) then
        Some(TableRecord(s))
      else s.current
  }

  ghost predicate BoxIs(s: State, ev: Event, t: State) {
    t.box ==
      match ev
      case Register => Rising(TableRecord(s))
      case Empty => if s.box.Rising? then Signalling(Before(s, s.box.rec).waiters) else s.box
      case SignalOne(c) => if s.box.Signalling? then Signalling(s.box.left - {c}) else s.box
      case SignalsDone => Serving
      case Gone(_) => Down
      case _ => s.box
  }

  ghost predicate TasksAre(s: State, ev: Event, t: State) {
    && t.launched + Once(ev.BeginProvision?)
       == s.launched + Once(Wants(s, ev, TableRecord(s)) && !Before(s, TableRecord(s)).provisioning)
    && t.running == (match ev
                     case BeginProvision => s.running + multiset{TableRecord(s)}
                     case EndProvision(r, _) => s.running - multiset{r}
                     case _ => s.running)
    && t.healing + Once(ev.Heal?)
       == s.healing + Once(ev == Gone(true) && s.current.Some? && !Before(s, s.current.value).tearingDown)
    && t.tearing + Once(ev.EndTeardown?)
       == s.tearing + Once(ev.BeginTeardown? && s.current.Some? && Before(s, s.current.value).hasWorkdir)
  }

  ghost predicate RestIs(s: State, ev: Event, t: State) {
    TableIs(s, ev, t) && BoxIs(s, ev, t) && TasksAre(s, ev, t)
  }

  lemma RequestRest(s: State, c: Client)
    requires Known(s)
    ensures RestIs(s, Request(c), RequestStep(s, c))
  {
  }

  lemma PrewarmRest(s: State)
    requires Known(s)
    ensures RestIs(s, Prewarm, PrewarmStep(s))
  {
  }

  lemma HealRest(s: State)
    requires Known(s) && s.healing > 0
    ensures RestIs(s, Heal, Step(s, Heal))
  {
    PrewarmRest(s.(healing := s.healing - 1));
  }

  lemma ProvisionRest(s: State, ev: Event)
    requires Known(s) && Enabled(s, ev) && (ev.BeginProvision? || ev.EndProvision? || ev.Register?)
    ensures RestIs(s, ev, Step(s, ev))
  {
  }

  lemma BoxRest(s: State, ev: Event)
    requires Known(s) && Enabled(s, ev) && (ev.Empty? || ev.SignalOne? || ev.SignalsDone? || ev.Notify? || ev.Gone?)
    ensures RestIs(s, ev, Step(s, ev))
  {
  }

  lemma TeardownRest(s: State, ev: Event)
    requires Known(s) && Enabled(s, ev) && (ev.BeginTeardown? || ev.EndTeardown?)
    ensures RestIs(s, ev, Step(s, ev))
  {
  }

  /** The table's entry, the box and the counts of tasks change exactly by these events. */
  lemma RestAfter(s: State, ev: Event)
    requires Known(s) && Enabled(s, ev)
    ensures RestIs(s, ev, Step(s, ev))
  {
    match ev
    case Request(c) => RequestRest(s, c);
    case Prewarm => PrewarmRest(s);
    case Heal => HealRest(s);
    case BeginProvision => ProvisionRest(s, ev);
    case EndProvision(_, _) => ProvisionRest(s, ev);
    case Register => ProvisionRest(s, ev);
    case BeginTeardown => TeardownRest(s, ev);
    case EndTeardown(_) => TeardownRest(s, ev);
    case _ => BoxRest(s, ev);
  }
}
