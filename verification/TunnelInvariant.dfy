/** The invariant of the brokered tunnel, one session end at a time: every step changes the view of
    a few ends in a simple way and leaves every other end's view alone. */
module TunnelInvariant {
  import opened Common
  import opened Tunnel

  // ---- one session's part of a channel -----------------------------------------

  /** The frames of session `sid` in a channel, in order. */
  function Only(ch: seq<Frame>, sid: Sid): seq<Frame> {
    if ch == [] then []
    else (if ch[0].sid == sid then [ch[0]] else []) + Only(ch[1..], sid)
  }

  /** What the invariant reads of such a sequence: is its first frame the session's opening, how many
      openings and closings are in it, and which bytes it carries. */
  datatype Queue = Queue(empty: bool, opensFirst: bool, opens: nat, closes: nat, payload: Bytes)

  function One(b: bool): nat {
    if b then 1 else 0
  }

  function Carried(f: Frame): Bytes {
    if f.Data? then f.bytes else []
  }

  /** A queue with one more frame at its end. */
  function Pushed(q: Queue, f: Frame): Queue {
    Queue(false, if q.empty then f.Open? else q.opensFirst, q.opens + One(f.Open?), q.closes + One(f.Close?),
          q.payload + Carried(f))
  }

  /** A queue with one more frame at its front. */
  function Unpopped(q: Queue, f: Frame): Queue {
    Queue(false, f.Open?, q.opens + One(f.Open?), q.closes + One(f.Close?), Carried(f) + q.payload)
  }

  const NOTHING := Queue(true, false, 0, 0, [])

  function Summary(q: seq<Frame>): (r: Queue)
    ensures r.opensFirst ==> r.opens > 0
    ensures r.empty ==> r == NOTHING
  {
    if q == [] then NOTHING else Unpopped(Summary(q[1..]), q[0])
  }

  lemma {:induction false} OnlySnoc(ch: seq<Frame>, f: Frame, sid: Sid)
    ensures Only(ch + [f], sid) == Only(ch, sid) + (if f.sid == sid then [f] else [])
  {
    if ch == [] {
      assert ch + [f] == [f];
      assert [f][1..] == [];
    } else {
      OnlySnoc(ch[1..], f, sid);
      assert (ch + [f])[1..] == ch[1..] + [f];
    }
  }

  lemma PushUnpop(q: Queue, first: Frame, last: Frame)
    ensures q.empty ==> q == NOTHING ==> Pushed(Unpopped(q, first), last) == Unpopped(Pushed(q, last), first)
    ensures !q.empty ==> Pushed(Unpopped(q, first), last) == Unpopped(Pushed(q, last), first)
  {
    assert Carried(first) + (q.payload + Carried(last)) == (Carried(first) + q.payload) + Carried(last);
  }

  lemma {:induction false} SummarySnoc(q: seq<Frame>, f: Frame)
    ensures Summary(q + [f]) == Pushed(Summary(q), f)
  {
    if q == [] {
      assert q + [f] == [f];
      assert [f][1..] == [];
    } else {
      SummarySnoc(q[1..], f);
      assert (q + [f])[1..] == q[1..] + [f];
      PushUnpop(Summary(q[1..]), q[0], f);
    }
  }

  lemma {:induction false} OnlyUnknown(ch: seq<Frame>, sid: Sid)
    requires forall i :: 0 <= i < |ch| ==> ch[i].sid != sid
    ensures Only(ch, sid) == []
  {
    if ch != [] {
      OnlyUnknown(ch[1..], sid);
    }
  }

  // ---- what the invariant says about one end -------------------------------------

  /** Everything the invariant reads about an end: its own state, its frames in both directions, and
      what its peer's state says about it. `left`: its client's gateway task is past its loop.
      `pending`: the gateway has bridged it and not yet announced it. */
  datatype View = View(
    client: bool, s: Sess, up: Queue, down: Queue,
    bridged: bool, agentUp: bool, gwUp: bool, left: bool, pending: bool,
    peerRelayed: Bytes, peerTold: nat, peerGwUp: bool)
  {
    /** The client's session_open is still on its way to the gateway. */
    predicate Asking() {
      up.opens > 0
    }

    predicate Closed() {
      s.started && !s.writer
    }
  }

  ghost predicate Sane(q: Queue) {
    (q.empty ==> q == NOTHING) && (q.opensFirst ==> q.opens > 0)
  }

  /** Only an unbridged client asks, only an unstarted server end is asked; nothing precedes the question. */
  ghost predicate Shape(v: View) {
    && Sane(v.up) && Sane(v.down)
    && (v.s.writer || v.s.pump || v.client ==> v.s.started)
    && (!v.s.started ==> v.up.empty && v.s.sent == [] && v.s.relayed == [] && v.s.delivered == [] && v.s.closes == 0)
    && (v.up.opens > 0 ==> v.up.opens == 1 && v.up.opensFirst && v.client && v.s.peer.None? && v.s.told == 0)
    && (v.s.peer.None? ==> v.client && !v.bridged && !v.s.orphan && v.s.relayed == [] && v.s.delivered == []
                           && v.down.opens == 0 && v.down.payload == [])
    && (v.down.opens > 0 ==> v.down.opens == 1 && v.down.opensFirst && !v.s.started)
    && (!v.s.started && !v.down.empty ==> v.down.opensFirst)
    && (!v.s.started && v.bridged ==> !v.down.empty || v.pending)
    && (v.pending ==> !v.s.started && v.down.empty && v.bridged)
  }

  /** From this end towards its peer, up to the gateway. */
  ghost predicate NearHalf(v: View) {
    if v.bridged || v.Asking() then
      && v.s.relayed + v.up.payload <= v.s.sent
      && (v.agentUp ==> v.s.relayed + v.up.payload == v.s.sent)
    else
      v.s.relayed <= v.s.sent
  }

  /** From the gateway to this end: what it relayed on the peer's behalf. */
  ghost predicate FarHalf(v: View) {
    v.s.peer.Some? ==>
      if !v.s.started then v.peerRelayed == v.down.payload
      else if v.s.writer then v.s.delivered + v.down.payload == v.peerRelayed
      else v.s.delivered <= v.peerRelayed
  }

  /** Closing reaches the gateway, and the gateway's closing reaches the end, unless a connection is gone. */
  ghost predicate ClosePropagates(v: View) {
    && (v.Closed() && v.agentUp ==> v.up.closes > 0 || (!v.bridged && !v.Asking()))
    && (v.down.closes > 0 ==> !v.bridged && !v.Asking())
    && (v.up.closes > 0 ==> v.Closed())
    && (!v.bridged && !v.Asking() && v.gwUp && !v.left && !v.s.orphan ==> v.Closed() || v.down.closes > 0)
    && (v.s.orphan ==> !v.bridged && !v.peerGwUp && v.s.peer.Some? && v.down.closes == 0 && v.s.told == 0)
  }

  ghost predicate CloseCounts(v: View) {
    && v.s.closes + One(v.s.pump) + One(v.s.writer) <= 2
    && v.s.told + v.peerTold + One(v.bridged) <= 1
  }

  ghost predicate EndOk(v: View) {
    Shape(v) && NearHalf(v) && FarHalf(v) && ClosePropagates(v) && CloseCounts(v)
  }

  ghost predicate FramesKnown(s: State, c: Conn, ch: seq<Frame>) {
    forall i :: 0 <= i < |ch| ==> End(c, ch[i].sid) in s.ends
  }

  /** The bridge table is an involution without fixed points; it pairs a client's end with a server's
      end, namely with the one end it was ever bridged to. */
  ghost predicate Involution(s: State) {
    && (forall e :: e in s.bridges ==> e in s.ends && s.bridges[e] in s.bridges && s.bridges[s.bridges[e]] == e)
    && (forall e :: e in s.bridges ==> s.ends[e].peer == Some(s.bridges[e]))
  }

  ghost predicate Peers(s: State) {
    && (forall e :: e in s.ends ==> e.conn in s.conns)
    && (forall e :: e in s.ends && s.ends[e].peer.Some? ==>
         var p := s.ends[e].peer.value;
         p in s.ends && s.ends[p].peer == Some(e)
         && p.conn in s.conns && s.conns[p.conn].node.client != s.conns[e.conn].node.client)
  }

  /** Where the task of connection `c` stands, and the table. */
  ghost predicate TaskOk(s: State, c: Conn)
    requires c in s.conns
  {
    var t := s.conns[c].task;
    && (t.Opening? || t.Leaving? || t.Cleaning? ==> s.conns[c].node.client)
    && (t.Opening? ==> End(c, t.sid) in s.bridges && s.bridges[End(c, t.sid)] == t.target)
    && (t.Cleaning? ==> forall e :: e in s.bridges && e.conn == c ==> e.sid in t.left)
    && (t.Ended? && s.conns[c].node.client ==> forall e :: e in s.bridges ==> e.conn != c)
  }

  ghost predicate Tasks(s: State) {
    forall c :: c in s.conns ==> TaskOk(s, c)
  }

  ghost predicate Frames(s: State) {
    forall c :: c in s.conns ==> FramesKnown(s, c, s.conns[c].up) && FramesKnown(s, c, s.conns[c].down)
  }

  ghost function ViewOf(s: State, e: End): View
    requires e in s.ends && e.conn in s.conns
  {
    var l := s.conns[e.conn];
    var v := s.ends[e];
    var p := if v.peer.Some? then v.peer.value else e;
    var known := v.peer.Some? && p in s.ends && p.conn in s.conns;
    View(l.node.client, v, Summary(Only(l.up, e.sid)), Summary(Only(l.down, e.sid)),
         e in s.bridges, l.agentUp, l.gwUp,
         l.node.client && (l.task.Cleaning? || l.task.Ended?),
         known && s.conns[p.conn].task == Opening(p.sid, e),
         if known then s.ends[p].relayed else [],
         if known then s.ends[p].told else 0,
         known && s.conns[p.conn].gwUp)
  }

  ghost predicate OkAt(s: State, e: End) {
    e in s.ends ==> e.conn in s.conns && EndOk(ViewOf(s, e))
  }

  ghost predicate Tables(s: State) {
    Peers(s) && Involution(s) && Tasks(s) && Frames(s)
  }

  ghost predicate Inv(s: State) {
    Tables(s) && forall e :: OkAt(s, e)
  }

  lemma TablesWired(s: State)
    requires Tables(s)
    ensures Wired(s)
  {
    forall c | c in s.conns && s.conns[c].task.Opening?
      ensures End(c, s.conns[c].task.sid) in s.bridges
      ensures s.bridges[End(c, s.conns[c].task.sid)] == s.conns[c].task.target
    {
      assert TaskOk(s, c);
    }
  }

  // ---- how the primitive updates change the views ----------------------------------

  lemma PeersSetLink(s: State, c: Conn, l: Link)
    requires Peers(s) && c in s.conns && l.node == s.conns[c].node
    ensures Peers(SetLink(s, c, l))
  {
  }

  lemma PeersSetSess(s: State, e: End, v: Sess)
    requires Peers(s) && e in s.ends && v.peer == s.ends[e].peer
    ensures Peers(SetSess(s, e, v))
  {
  }

  lemma ViewSetLink(s: State, c: Conn, l: Link, x: End)
    requires c in s.conns && x in s.ends && x.conn in s.conns
    requires l.node == s.conns[c].node && l.task == s.conns[c].task && l.gwUp == s.conns[c].gwUp
    ensures ViewOf(SetLink(s, c, l), x)
            == if x.conn == c then ViewOf(s, x).(up := Summary(Only(l.up, x.sid)), down := Summary(Only(l.down, x.sid)),
                                                 agentUp := l.agentUp)
               else ViewOf(s, x)
  {
  }

  lemma SummaryPush(ch: seq<Frame>, f: Frame, sid: Sid)
    ensures var q := Summary(Only(ch, sid));
            Summary(Only(ch + [f], sid)) == if f.sid == sid then Pushed(q, f) else q
  {
    OnlySnoc(ch, f, sid);
    SummarySnoc(Only(ch, sid), f);
    assert Only(ch, sid) + [] == Only(ch, sid);
  }

  lemma SummaryPop(ch: seq<Frame>, sid: Sid)
    requires ch != []
    ensures var rest := Summary(Only(ch[1..], sid));
            Summary(Only(ch, sid)) == if ch[0].sid == sid then Unpopped(rest, ch[0]) else rest
  {
    if ch[0].sid == sid {
      assert Only(ch, sid)[1..] == Only(ch[1..], sid);
    } else {
      assert [] + Only(ch[1..], sid) == Only(ch[1..], sid);
    }
  }

  lemma ViewSendUp(s: State, c: Conn, f: Frame, x: End)
    requires c in s.conns && x in s.ends && x.conn in s.conns
    ensures ViewOf(SendUp(s, c, f), x)
            == if s.conns[c].agentUp && x == End(c, f.sid) then ViewOf(s, x).(up := Pushed(ViewOf(s, x).up, f))
               else ViewOf(s, x)
  {
    var l := s.conns[c];
    if l.agentUp {
      ViewSetLink(s, c, l.(up := l.up + [f]), x);
      SummaryPush(l.up, f, x.sid);
    }
  }

  lemma ViewSendDown(s: State, c: Conn, f: Frame, x: End)
    requires c in s.conns && x in s.ends && x.conn in s.conns
    ensures ViewOf(SendDown(s, c, f), x)
            == if s.conns[c].gwUp && x == End(c, f.sid) then ViewOf(s, x).(down := Pushed(ViewOf(s, x).down, f))
               else ViewOf(s, x)
  {
    var l := s.conns[c];
    if l.gwUp {
      ViewSetLink(s, c, l.(down := l.down + [f]), x);
      SummaryPush(l.down, f, x.sid);
    }
  }

  lemma ViewPopUp(s: State, c: Conn, x: End)
    requires c in s.conns && x in s.ends && x.conn in s.conns && s.conns[c].up != []
    ensures var v := ViewOf(PopUp(s, c), x);
            var f := s.conns[c].up[0];
            ViewOf(s, x) == if x == End(c, f.sid) then v.(up := Unpopped(v.up, f)) else v
  {
    var l := s.conns[c];
    ViewSetLink(s, c, l.(up := l.up[1..]), x);
    SummaryPop(l.up, x.sid);
  }

  lemma ViewPopDown(s: State, c: Conn, x: End)
    requires c in s.conns && x in s.ends && x.conn in s.conns && s.conns[c].down != []
    ensures var v := ViewOf(PopDown(s, c), x);
            var f := s.conns[c].down[0];
            ViewOf(s, x) == if x == End(c, f.sid) then v.(down := Unpopped(v.down, f)) else v
  {
    var l := s.conns[c];
    ViewSetLink(s, c, l.(down := l.down[1..]), x);
    SummaryPop(l.down, x.sid);
  }

  lemma ViewSetItself(s: State, e: End, v: Sess)
    requires Peers(s) && e in s.ends && v.peer == s.ends[e].peer
    ensures ViewOf(SetSess(s, e, v), e) == ViewOf(s, e).(s := v)
  {
    if v.peer.Some? {
      assert v.peer.value != e;
    }
  }

  lemma ViewSetPeer(s: State, e: End, v: Sess, x: End)
    requires Peers(s) && e in s.ends && x in s.ends && x != e && s.ends[x].peer == Some(e)
    ensures ViewOf(SetSess(s, e, v), x) == ViewOf(s, x).(peerRelayed := v.relayed, peerTold := v.told)
  {
  }

  lemma ViewSetOther(s: State, e: End, v: Sess, x: End)
    requires Peers(s) && e in s.ends && x in s.ends && x != e && s.ends[x].peer != Some(e)
    ensures ViewOf(SetSess(s, e, v), x) == ViewOf(s, x)
  {
  }

  lemma ViewSetSess(s: State, e: End, v: Sess, x: End)
    requires Peers(s) && e in s.ends && x in s.ends && v.peer == s.ends[e].peer
    ensures ViewOf(SetSess(s, e, v), x)
            == if x == e then ViewOf(s, x).(s := v)
               else if s.ends[x].peer == Some(e) then ViewOf(s, x).(peerRelayed := v.relayed, peerTold := v.told)
               else ViewOf(s, x)
  {
    if x == e {
      ViewSetItself(s, e, v);
    } else if s.ends[x].peer == Some(e) {
      ViewSetPeer(s, e, v, x);
    } else {
      ViewSetOther(s, e, v, x);
    }
  }

  /** When nothing changes that the peer's view reads, only the end's own view changes. */
  lemma ViewSetOwn(s: State, e: End, v: Sess, x: End)
    requires Peers(s) && e in s.ends && x in s.ends
    requires v.peer == s.ends[e].peer && v.relayed == s.ends[e].relayed && v.told == s.ends[e].told
    ensures ViewOf(SetSess(s, e, v), x) == if x == e then ViewOf(s, x).(s := v) else ViewOf(s, x)
  {
    ViewSetSess(s, e, v, x);
  }

  lemma ViewSetTask(s: State, c: Conn, task: Task, x: End)
    requires c in s.conns && x in s.ends && x.conn in s.conns
    ensures var v := ViewOf(s, x);
            ViewOf(SetTask(s, c, task), x)
            == v.(left := if x.conn == c then v.client && (task.Cleaning? || task.Ended?) else v.left,
                  pending := if s.ends[x].peer.Some? && s.ends[x].peer.value in s.ends && s.ends[x].peer.value.conn == c
                             then task == Opening(s.ends[x].peer.value.sid, x) else v.pending)
  {
  }
}
