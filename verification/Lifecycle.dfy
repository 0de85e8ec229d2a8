/** The life of one named, reusable resource in the gateway (gateway/server.py): requests, launches,
    box-up, loss, self-healing, prewarming and teardown, in any interleaving of their tasks.

    A record is an object that tasks keep hold of across awaits, also after a teardown has taken it
    out of the table; so records have identities. A client stands for its node id. Clocks and costs
    are left out: whether a box is due for teardown is up to the run. */
module Lifecycle {
  import opened Common

  type Client = nat
  type RecId = nat

  datatype Status = Idle | Provisioning | Active | Failed

  /** One entry of `self.resources`. */
  datatype Rec = Rec(
    hasWorkdir: bool, created: bool, status: Status,
    waiters: set<Client>, provisioning: bool, tearingDown: bool)

  /** _res_state's default. */
  const NEW_REC := Rec(false, false, Idle, {}, false, false)

  // ---- what each await-free stretch does to the record it holds ----------------------

  /** _request_resource: an answered request, and whether it launches a provision. */
  function Requested(r: Rec, up: bool, c: Client): Rec {
    if up then r.(status := Active)
    else
      var w := r.(waiters := r.waiters + {c});
      if w.provisioning then w else w.(provisioning := true, status := Provisioning)
  }

  predicate Launches(r: Rec, up: bool) {
    !up && !r.provisioning
  }

  /** _prewarm */
  function Prewarmed(r: Rec, up: bool): Rec {
    if Launches(r, up) then r.(provisioning := true, status := Provisioning) else r
  }

  /** _provision_resource, after the action. */
  function Provisioned(r: Rec): Rec {
    r.(hasWorkdir := true, created := true)
  }

  function ProvisionFailed(r: Rec): Rec {
    r.(status := Failed, provisioning := false)
  }

  /** _on_resource_up, up to its audit; it runs in the stretch that registers the box. */
  function Raised(r: Rec): Rec {
    r.(created := true, status := Active, provisioning := false, hasWorkdir := true)
  }

  /** _on_resource_up, after its audit: the waiters are taken out to be signalled. */
  function Emptied(r: Rec): Rec {
    r.(waiters := {})
  }

  // ---- the whole: one resource, its tasks, and the history ----------------------------------

  /** Where the box's connection stands: gone; registered with its record raised and the audit awaited;
      its waiters being signalled; serving. */
  datatype Box = Down | Rising(rec: RecId) | Signalling(left: set<Client>) | Serving

  datatype Log =
    | Answered(c: Client, reused: bool)
    | Signalled(c: Client)
    | Launch(rec: RecId)
    | BoxUp(rec: RecId)
    | Failure(rec: RecId)

  datatype State = State(
    recs: map<RecId, Rec>,
    current: Option<RecId>,      // the table's entry
    box: Box,
    launched: nat,               // provision tasks created and not yet begun
    running: multiset<RecId>,    // provision tasks in their action, with the record they hold
    notify: multiset<Client>,    // compute_ready tasks for clients answered "reused"
    healing: nat,                // disconnect handlers about to prewarm
    tearing: nat,                // teardowns in their action
    log: seq<Log>)

  const START := State(map[], None, Down, 0, multiset{}, multiset{}, 0, 0, [])

  datatype Event =
    | Request(c: Client)
    | BeginProvision
    | EndProvision(rec: RecId, ok: bool)
    | Register
    | Empty
    | SignalOne(c: Client)
    | SignalsDone
    | Notify(c: Client)
    | Gone(spot: bool)
    | Heal
    | Prewarm
    | BeginTeardown
    | EndTeardown(ok: bool)

  predicate Up(s: State) {
    !s.box.Down?
  }

  function Free(s: State): RecId {
    |s.recs|
  }

  /** _res_state: the table's record, made if there is none. */
  function WithRecord(s: State): State {
    if s.current.Some? then s else s.(current := Some(Free(s)), recs := s.recs[Free(s) := NEW_REC])
  }

  function Current(s: State): Rec
    requires s.current.Some? && s.current.value in s.recs
  {
    s.recs[s.current.value]
  }

  function SetCurrent(s: State, r: Rec): State
    requires s.current.Some?
  {
    s.(recs := s.recs[s.current.value := r])
  }

  function Note(s: State, l: Log): State {
    s.(log := s.log + [l])
  }

  function LaunchIf(s: State, launch: bool): State
    requires s.current.Some?
  {
    if launch then Note(s.(launched := s.launched + 1), Launch(s.current.value)) else s
  }

  /** A request, on the table's record. */
  function Asked(s: State, c: Client): State
    requires s.current.Some? && s.current.value in s.recs
  {
    LaunchIf(SetCurrent(s, Requested(Current(s), Up(s), c)), Launches(Current(s), Up(s)))
  }

  function RequestStep(s: State, c: Client): State
    requires s.current.Some? ==> s.current.value in s.recs
  {
    var u := Asked(WithRecord(s), c);
    if Up(s) then Note(u.(notify := u.notify + multiset{c}), Answered(c, true))
    else Note(u, Answered(c, false))
  }

  function PrewarmStep(s: State): State
    requires s.current.Some? ==> s.current.value in s.recs
  {
    if Up(s) then s
    else
      var t := WithRecord(s);
      var r := Current(t);
      LaunchIf(SetCurrent(t, Prewarmed(r, Up(s))), Launches(r, Up(s)))
  }

  function InFlight(s: State): nat {
    s.launched + |s.running|
  }

  /** resources.pop(rname, None) */
  function Pop(s: State): State {
    s.(current := None)
  }

  /** _teardown_resource, up to its action. */
  function BeginTeardownStep(s: State): State
    requires s.current.Some? ==> s.current.value in s.recs
  {
    if s.current.None? then s
    else if !Current(s).hasWorkdir then Pop(s)
    else SetCurrent(s, Current(s).(tearingDown := true)).(tearing := s.tearing + 1)
  }

  /** The end of a provision task, on the record it holds. */
  function SucceededOn(s: State, r: RecId): State
    requires r in s.recs
  {
    s.(running := s.running - multiset{r}, recs := s.recs[r := Provisioned(s.recs[r])])
  }

  function FailedOn(s: State, r: RecId): State
    requires r in s.recs
  {
    Note(s.(running := s.running - multiset{r}, recs := s.recs[r := ProvisionFailed(s.recs[r])]), Failure(r))
  }

  ghost predicate Known(s: State) {
    && (s.current.Some? ==> s.current.value in s.recs)
    && (forall r :: r in s.running ==> r in s.recs)
    && (s.box.Rising? ==> s.box.rec in s.recs)
    && (forall r: RecId :: r in s.recs <==> r < |s.recs|)
  }

  lemma NewRecordIsKnown(s: State)
    requires Known(s)
    ensures Known(WithRecord(s))
  {
  }

  ghost predicate Enabled(s: State, ev: Event) {
    match ev
    case BeginProvision => s.launched > 0
    case EndProvision(r, ok) => r in s.running
    case Register => s.box.Down?
    case Empty => s.box.Rising?
    case SignalOne(c) => s.box.Signalling? && c in s.box.left
    case SignalsDone => s.box == Signalling({})
    case Notify(c) => c in s.notify
    case Gone(spot) => s.box.Serving?
    case Heal => s.healing > 0
    case EndTeardown(ok) => s.tearing > 0
    case _ => true
  }

  ghost function Step(s: State, ev: Event): State
    requires Known(s) && Enabled(s, ev)
  {
    match ev
    case Request(c) => RequestStep(s, c)
    case BeginProvision =>
      var t := WithRecord(s);
      t.(launched := s.launched - 1, running := s.running + multiset{t.current.value})
    case EndProvision(r, ok) => if ok then SucceededOn(s, r) else FailedOn(s, r)
    case Register =>
      var t := WithRecord(s);
      var r := t.current.value;
      Note(SetCurrent(t, Raised(Current(t))).(box := Rising(r)), BoxUp(r))
    case Empty =>
      var r := s.box.rec;
      s.(box := Signalling(s.recs[r].waiters), recs := s.recs[r := Emptied(s.recs[r])])
    case SignalOne(c) => Note(s.(box := Signalling(s.box.left - {c})), Signalled(c))
    case SignalsDone => s.(box := Serving)
    case Notify(c) => Note(s.(notify := s.notify - multiset{c}), Signalled(c))
    case Gone(spot) =>
      var heal := spot && s.current.Some? && !Current(s).tearingDown;
      s.(box := Down, healing := s.healing + if heal then 1 else 0)
    case Heal => PrewarmStep(s.(healing := s.healing - 1))
    case Prewarm => PrewarmStep(s)
    case BeginTeardown => BeginTeardownStep(s)
    case EndTeardown(ok) => if ok then Pop(s.(tearing := s.tearing - 1)) else s.(tearing := s.tearing - 1)
  }

  // ---- reading the history ---------------------------------------------------------------------

  /** Was the client's last "not up yet" answer followed by no compute_ready? */
  predicate Waits(log: seq<Log>, c: Client) {
    if log == [] then false
    else
      match log[|log| - 1]
      case Answered(d, reused) => if d == c && !reused then true else Waits(log[..|log| - 1], c)
      case Signalled(d) => d != c && Waits(log[..|log| - 1], c)
      case _ => Waits(log[..|log| - 1], c)
  }

  /** Is a launch on the record the last thing that happened to its provisioning? */
  predicate LaunchOpen(log: seq<Log>, r: RecId) {
    if log == [] then false
    else
      match log[|log| - 1]
      case Launch(q) => q == r || LaunchOpen(log[..|log| - 1], r)
      case BoxUp(q) => q != r && LaunchOpen(log[..|log| - 1], r)
      case Failure(q) => q != r && LaunchOpen(log[..|log| - 1], r)
      case _ => LaunchOpen(log[..|log| - 1], r)
  }

  /** Every launch on a record came when no earlier launch on it was open. */
  predicate LaunchesDisciplined(log: seq<Log>) {
    log == [] || (LaunchesDisciplined(log[..|log| - 1])
                  && (log[|log| - 1].Launch? ==> !LaunchOpen(log[..|log| - 1], log[|log| - 1].rec)))
  }

  /** What Note does to these readings. */
  lemma ReadingsOfNote(log: seq<Log>, l: Log, c: Client, r: RecId)
    ensures Waits(log + [l], c) <==>
      if l.Answered? && l.c == c && !l.reused then true
      else if l.Signalled? && l.c == c then false
      else Waits(log, c)
    ensures LaunchOpen(log + [l], r) <==>
      if l.Launch? && l.rec == r then true
      else if (l.BoxUp? || l.Failure?) && l.rec == r then false
      else LaunchOpen(log, r)
    ensures LaunchesDisciplined(log + [l]) <==>
      LaunchesDisciplined(log) && (l.Launch? ==> !LaunchOpen(log, l.rec))
  {
    assert (log + [l])[..|log + [l]| - 1] == log;
  }

  // ---- the invariant ------------------------------------------------------------------------------

  ghost predicate Disciplined(s: State) {
    && LaunchesDisciplined(s.log)
    && (forall r :: LaunchOpen(s.log, r) <==> r in s.recs && s.recs[r].provisioning)
  }

  /** Is the table's record marked as being provisioned? */
  predicate Marked(s: State) {
    s.current.Some? && s.current.value in s.recs && s.recs[s.current.value].provisioning
  }

  ghost predicate UpIsUnmarked(s: State) {
    Up(s) ==> !Marked(s)
  }

  /** Whoever waits on the table's record waits for a provision marked in flight, or for one that
      failed, or is about to be signalled. */
  ghost predicate WaitersHaveHope(s: State) {
    s.current.Some? && s.current.value in s.recs && Current(s).waiters != {} ==>
      || (s.box.Down? && (Current(s).provisioning || Current(s).status.Failed?))
      || s.box == Rising(s.current.value)
  }

  ghost predicate Inv(s: State) {
    Known(s) && Disciplined(s) && UpIsUnmarked(s) && WaitersHaveHope(s)
  }

  lemma EveryoneHasAReading(log: seq<Log>, l: Log)
    ensures forall c :: Waits(log + [l], c) <==>
      if l.Answered? && l.c == c && !l.reused then true
      else if l.Signalled? && l.c == c then false
      else Waits(log, c)
    ensures forall r :: LaunchOpen(log + [l], r) <==>
      if l.Launch? && l.rec == r then true
      else if (l.BoxUp? || l.Failure?) && l.rec == r then false
      else LaunchOpen(log, r)
    ensures LaunchesDisciplined(log + [l]) <==>
      LaunchesDisciplined(log) && (l.Launch? ==> !LaunchOpen(log, l.rec))
  {
    forall c ensures Waits(log + [l], c) <==>
      if l.Answered? && l.c == c && !l.reused then true
      else if l.Signalled? && l.c == c then false
      else Waits(log, c) { ReadingsOfNote(log, l, c, 0); }
    forall r ensures LaunchOpen(log + [l], r) <==>
      if l.Launch? && l.rec == r then true
      else if (l.BoxUp? || l.Failure?) && l.rec == r then false
      else LaunchOpen(log, r) { ReadingsOfNote(log, l, 0, r); }
    ReadingsOfNote(log, l, 0, 0);
  }

  // ---- every step keeps it ---------------------------------------------------------------------------

  lemma WithRecordKeeps(s: State)
    requires Inv(s)
    ensures Inv(WithRecord(s)) && WithRecord(s).current.Some?
  {
  }

  lemma LaunchKeeps(s: State, r: Rec)
    requires Inv(s) && s.current.Some? && !Up(s) && !Current(s).provisioning
    requires r == Current(s).(provisioning := true, status := Provisioning, waiters := r.waiters)
    requires Current(s).waiters <= r.waiters
    ensures Inv(LaunchIf(SetCurrent(s, r), true))
  {
    EveryoneHasAReading(s.log, Launch(s.current.value));
  }

  lemma PrewarmKeeps(s: State)
    requires Inv(s)
    ensures Inv(PrewarmStep(s))
  {
    if !Up(s) {
      var t := WithRecord(s);
      WithRecordKeeps(s);
      if Launches(Current(t), false) {
        LaunchKeeps(t, Prewarmed(Current(t), false));
      } else {
        assert SetCurrent(t, Current(t)) == t;
      }
    }
  }

  lemma AnswerKeeps(s: State, c: Client)
    requires Inv(s)
    ensures Inv(Note(s, Answered(c, true)))
    ensures Inv(Note(s, Answered(c, false)))
  {
    EveryoneHasAReading(s.log, Answered(c, true));
    EveryoneHasAReading(s.log, Answered(c, false));
  }

  lemma AskedWhenUpKeeps(s: State, c: Client)
    requires Inv(s) && s.current.Some? && Up(s)
    ensures Inv(Asked(s, c))
  {
  }

  lemma AskedWhenMarkedKeeps(s: State, c: Client)
    requires Inv(s) && s.current.Some? && !Up(s) && Marked(s)
    ensures Inv(Asked(s, c))
  {
  }

  lemma AskedKeeps(s: State, c: Client)
    requires Inv(s) && s.current.Some?
    ensures Inv(Asked(s, c))
  {
    if Up(s) {
      AskedWhenUpKeeps(s, c);
    } else if Marked(s) {
      AskedWhenMarkedKeeps(s, c);
    } else {
      LaunchKeeps(s, Requested(Current(s), false, c));
    }
  }

  lemma NotifyKeeps(s: State, c: Client)
    requires Inv(s)
    ensures Inv(s.(notify := s.notify + multiset{c}))
  {
  }

  lemma RequestKeeps(s: State, c: Client)
    requires Inv(s)
    ensures Inv(RequestStep(s, c))
  {
    WithRecordKeeps(s);
    var u := Asked(WithRecord(s), c);
    AskedKeeps(WithRecord(s), c);
    NotifyKeeps(u, c);
    AnswerKeeps(u, c);
    AnswerKeeps(u.(notify := u.notify + multiset{c}), c);
  }

  lemma PopKeeps(s: State)
    requires Inv(s)
    ensures Inv(Pop(s))
  {
  }

  lemma EndedKeeps(s: State, r: RecId)
    requires Inv(s) && r in s.running
    ensures Inv(s.(running := s.running - multiset{r}))
  {
    assert |s.running - multiset{r}| == |s.running| - 1;
  }

  lemma FailureKeeps(s: State, r: RecId)
    requires Inv(s) && r in s.recs
    ensures Inv(Note(s.(recs := s.recs[r := ProvisionFailed(s.recs[r])]), Failure(r)))
  {
    EveryoneHasAReading(s.log, Failure(r));
  }

  lemma ProvisionKeeps(s: State, r: RecId, ok: bool)
    requires Inv(s) && r in s.running
    ensures Inv(if ok then SucceededOn(s, r) else FailedOn(s, r))
  {
    EndedKeeps(s, r);
    var t := s.(running := s.running - multiset{r});
    if ok {
      ProvisionedKeeps(t, r);
    } else {
      FailureKeeps(t, r);
    }
  }

  lemma ProvisionedKeeps(s: State, r: RecId)
    requires Inv(s) && r in s.recs
    ensures Inv(s.(recs := s.recs[r := Provisioned(s.recs[r])]))
  {
  }

  lemma BeginProvisionKeeps(s: State)
    requires Inv(s) && s.launched > 0
    ensures Inv(Step(s, BeginProvision))
  {
    WithRecordKeeps(s);
  }

  lemma RaisedKeeps(s: State)
    requires Inv(s) && s.box.Down? && s.current.Some?
    ensures Inv(Note(SetCurrent(s, Raised(Current(s))).(box := Rising(s.current.value)), BoxUp(s.current.value)))
  {
    EveryoneHasAReading(s.log, BoxUp(s.current.value));
  }

  lemma RegisterKeeps(s: State)
    requires Inv(s) && s.box.Down?
    ensures Inv(Step(s, Register))
  {
    WithRecordKeeps(s);
    RaisedKeeps(WithRecord(s));
  }

  lemma SignalKeeps(s: State, ev: Event)
    requires Inv(s) && Enabled(s, ev) && (ev.SignalOne? || ev.Notify? || ev.Empty?)
    ensures Inv(Step(s, ev))
  {
    if ev.SignalOne? || ev.Notify? {
      EveryoneHasAReading(s.log, Signalled(ev.c));
    }
  }

  lemma BeginTeardownKeeps(s: State)
    requires Inv(s)
    ensures Inv(BeginTeardownStep(s))
  {
    PopKeeps(s);
  }

  lemma BoxKeeps(s: State, ev: Event)
    requires Inv(s) && Enabled(s, ev) && (ev.SignalsDone? || ev.Gone?)
    ensures Inv(Step(s, ev))
  {
  }

  lemma CountdownKeeps(s: State, ev: Event)
    requires Inv(s) && Enabled(s, ev) && (ev.Heal? || ev.EndTeardown?)
    ensures Inv(Step(s, ev))
  {
    if ev.Heal? {
      PrewarmKeeps(s.(healing := s.healing - 1));
    } else {
      PopKeeps(s.(tearing := s.tearing - 1));
    }
  }

  lemma StepKeepsInv(s: State, ev: Event)
    requires Inv(s) && Enabled(s, ev)
    ensures Inv(Step(s, ev))
  {
    match ev
    case Request(c) => RequestKeeps(s, c);
    case BeginProvision => BeginProvisionKeeps(s);
    case EndProvision(r, ok) => ProvisionKeeps(s, r, ok);
    case Register => RegisterKeeps(s);
    case Empty => SignalKeeps(s, ev);
    case SignalOne(c) => SignalKeeps(s, ev);
    case Notify(c) => SignalKeeps(s, ev);
    case Heal => CountdownKeeps(s, ev);
    case Prewarm => PrewarmKeeps(s);
    case BeginTeardown => BeginTeardownKeeps(s);
    case EndTeardown(ok) => CountdownKeeps(s, ev);
    case SignalsDone => BoxKeeps(s, ev);
    case Gone(spot) => BoxKeeps(s, ev);
  }
}
