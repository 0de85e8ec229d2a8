/** The gateway's bridge table as the program keeps it (gateway/server.py): a dictionary keyed by
    `(id(conn), sid)`, whose values hold the connection objects. An `id()` is an address: unique among
    live objects, and free for reuse once an object is gone. */
module BridgeTable {
  import opened Common
  import opened Tunnel

  /** A connection object. `up`: sends succeed. `wire`: the frames sent on it. */
  class AgentConn {
    const ident: nat
    var up: bool
    var wire: seq<Frame>

    constructor (ident: nat)
      ensures this.ident == ident && up && wire == []
    {
      this.ident := ident;
      up, wire := true, [];
    }

    /** `await conn.send(...)`; false is the exception. */
    method Send(f: Frame) returns (ok: bool)
      modifies this`wire
      ensures ok == up
      ensures wire == if up then old(wire) + [f] else old(wire)
    {
      ok := up;
      if up {
        wire := wire + [f];
      }
    }
  }

  /** One end of a session, by object; and as a key of the dictionary. */
  type ObjEnd = (AgentConn, Sid)
  type Key = (nat, Sid)

  function KeyOf(e: ObjEnd): Key {
    (e.0.ident, e.1)
  }

  // ---- the table as pairs of ends -------------------------------------------------

  type Pairs = map<ObjEnd, ObjEnd>

  function Linked(t: Pairs, a: ObjEnd, b: ObjEnd): Pairs {
    t[a := b][b := a]
  }

  function Cut(t: Pairs, e: ObjEnd): Pairs {
    if e in t then t - {e, t[e]} else t
  }

  function CutAll(t: Pairs, es: seq<ObjEnd>): Pairs {
    if es == [] then t else CutAll(Cut(t, es[0]), es[1..])
  }

  ghost predicate Involutive(t: Pairs) {
    forall e :: e in t ==> t[e] != e && t[e] in t && t[t[e]] == e
  }

  /** Cutting many ends, in any order and however often, removes exactly the pairs they are in. */
  lemma {:induction false} CutAllRemovesExactly(t: Pairs, es: seq<ObjEnd>, x: ObjEnd)
    requires Involutive(t)
    ensures x in CutAll(t, es) <==> x in t && x !in es && t[x] !in es
    ensures x in CutAll(t, es) ==> CutAll(t, es)[x] == t[x]
  {
    if es != [] {
      CutAllRemovesExactly(Cut(t, es[0]), es[1..], x);
      assert x in es <==> x == es[0] || x in es[1..];
      assert x in t ==> (t[x] in es <==> t[x] == es[0] || t[x] in es[1..]);
    }
  }

  // ---- a client's cleanup, and what other tasks do at its awaits ----------------------------------

  /** What another task does to the table: it cuts a session, or opens one. */
  datatype Op = CutOff(e: ObjEnd) | Join(a: ObjEnd, b: ObjEnd)

  ghost predicate Among(alive: set<AgentConn>, op: Op) {
    match op
    case CutOff(e) => e.0 in alive
    case Join(a, b) => a.0 in alive && b.0 in alive
  }

  function Apply(t: Pairs, op: Op): Pairs {
    match op
    case CutOff(e) => Cut(t, e)
    case Join(a, b) => Linked(t, a, b)
  }

  function ApplyAll(t: Pairs, ops: seq<Op>): Pairs
    decreases |ops|
  {
    if ops == [] then t else ApplyAll(Apply(t, ops[0]), ops[1..])
  }

  /** A session is opened between two ends that are not bridged; ids are new. Only a client's own task opens
      sessions for it. */
  predicate MayDo(t: Pairs, op: Op, c: AgentConn) {
    op.Join? ==> op.a !in t && op.b !in t && op.a != op.b && op.a.0 != c && op.b.0 != c
  }

  predicate MayDoAll(t: Pairs, ops: seq<Op>, c: AgentConn)
    decreases |ops|
  {
    ops == [] || (MayDo(t, ops[0], c) && MayDoAll(Apply(t, ops[0]), ops[1..], c))
  }

  /** The table after a cleanup over `keys`, with others[i] done at the await after the i-th key. */
  function Cleaned(t: Pairs, c: AgentConn, keys: seq<Sid>, others: seq<seq<Op>>): Pairs
    requires |others| == |keys|
    decreases |keys|
  {
    if keys == [] then t
    else Cleaned(ApplyAll(Cut(t, (c, keys[0])), others[0]), c, keys[1..], others[1..])
  }

  predicate MayInterfere(t: Pairs, c: AgentConn, keys: seq<Sid>, others: seq<seq<Op>>)
    requires |others| == |keys|
    decreases |keys|
  {
    keys == [] ||
    (var u := Cut(t, (c, keys[0]));
     MayDoAll(u, others[0], c) && MayInterfere(ApplyAll(u, others[0]), c, keys[1..], others[1..]))
  }

  lemma CleanedRound(t: Pairs, c: AgentConn, keys: seq<Sid>, others: seq<seq<Op>>)
    requires |others| == |keys| && keys != [] && MayInterfere(t, c, keys, others)
    ensures var u := Cut(t, (c, keys[0]));
      && MayDoAll(u, others[0], c)
      && MayInterfere(ApplyAll(u, others[0]), c, keys[1..], others[1..])
      && Cleaned(t, c, keys, others) == Cleaned(ApplyAll(u, others[0]), c, keys[1..], others[1..])
  {
  }

  /** The connection's entries are among these. */
  ghost predicate Listed(t: Pairs, c: AgentConn, keys: seq<Sid>) {
    forall e :: e in t && e.0 == c ==> e.1 in keys
  }

  lemma CutInvolutive(t: Pairs, e: ObjEnd)
    requires Involutive(t)
    ensures Involutive(Cut(t, e))
  {
  }

  lemma LinkedInvolutive(t: Pairs, a: ObjEnd, b: ObjEnd)
    requires Involutive(t) && a !in t && b !in t && a != b
    ensures Involutive(Linked(t, a, b))
  {
  }

  lemma OneListsNothing(t: Pairs, op: Op, c: AgentConn, keys: seq<Sid>)
    requires Involutive(t) && Listed(t, c, keys) && MayDo(t, op, c)
    ensures Involutive(Apply(t, op)) && Listed(Apply(t, op), c, keys)
  {
    match op
    case CutOff(e) => CutInvolutive(t, e);
    case Join(a, b) => LinkedInvolutive(t, a, b);
  }

  lemma {:induction false} OthersListNothing(t: Pairs, ops: seq<Op>, c: AgentConn, keys: seq<Sid>)
    requires Involutive(t) && Listed(t, c, keys) && MayDoAll(t, ops, c)
    ensures Involutive(ApplyAll(t, ops)) && Listed(ApplyAll(t, ops), c, keys)
    decreases |ops|
  {
    if ops != [] {
      OneListsNothing(t, ops[0], c, keys);
      OthersListNothing(Apply(t, ops[0]), ops[1..], c, keys);
    }
  }

  /** Whatever sessions other tasks cut or open between the awaits of a client's cleanup loop, in the end
      nothing mentions the client's connection, as key or as value. */
  lemma {:induction false} CleanUpForgets(t: Pairs, c: AgentConn, keys: seq<Sid>, others: seq<seq<Op>>)
    requires Involutive(t) && |others| == |keys| && Listed(t, c, keys) && MayInterfere(t, c, keys, others)
    ensures var r := Cleaned(t, c, keys, others);
      Involutive(r) && forall e :: e in r ==> e.0 != c && r[e].0 != c
    decreases |keys|
  {
    if keys != [] {
      var u := Cut(t, (c, keys[0]));
      assert Listed(u, c, keys[1..]);
      OthersListNothing(u, others[0], c, keys[1..]);
      CleanUpForgets(ApplyAll(u, others[0]), c, keys[1..], others[1..]);
    }
  }

  /** And it touches no session of other clients: with nothing done at the awaits, exactly the pairs of the
      listed ends go. */
  lemma {:induction false} CleanUpAlone(t: Pairs, c: AgentConn, keys: seq<Sid>, others: seq<seq<Op>>, x: ObjEnd)
    requires Involutive(t) && |others| == |keys| && forall i :: 0 <= i < |others| ==> others[i] == []
    requires forall sid :: (c, sid) in t ==> t[(c, sid)].0 != c
    ensures x in Cleaned(t, c, keys, others) <==>
      x in t && !(x.0 == c && x.1 in keys) && !(t[x].0 == c && t[x].1 in keys)
    decreases |keys|
  {
    if keys != [] {
      assert others[0] == [];
      CleanUpAlone(Cut(t, (c, keys[0])), c, keys[1..], others[1..], x);
    }
  }

  // ---- the dictionary ---------------------------------------------------------------------

  type Dict = map<Key, ObjEnd>

  ghost predicate Addresses(alive: set<AgentConn>) {
    forall a, b :: a in alive && b in alive && a.ident == b.ident ==> a == b
  }

  /** An entry leads to a live object, whose own entry leads back to a live object with the key's address. */
  ghost predicate Sound(d: Dict, alive: set<AgentConn>) {
    && Addresses(alive)
    && forall k :: k in d ==>
         && d[k].0 in alive && KeyOf(d[k]) in d && KeyOf(d[k]) != k && KeyOf(d[KeyOf(d[k])]) == k
  }

  /** The dictionary with the keys' addresses resolved. */
  ghost function Resolved(d: Dict): Pairs
    requires forall k :: k in d ==> KeyOf(d[k]) in d
  {
    map e | e in d.Values :: d[KeyOf(e)]
  }

  lemma ResolvedAt(d: Dict, alive: set<AgentConn>, e: ObjEnd)
    requires Sound(d, alive) && e.0 in alive
    ensures e in Resolved(d) <==> KeyOf(e) in d
    ensures KeyOf(e) in d ==> Resolved(d)[e] == d[KeyOf(e)]
  {
    if KeyOf(e) in d {
      var p := d[KeyOf(e)];
      var q := d[KeyOf(p)];
      assert q in d.Values && KeyOf(q) == KeyOf(e) && q.0 in alive;
      assert q == e;
    }
  }

  lemma ResolvedInvolutive(d: Dict, alive: set<AgentConn>)
    requires Sound(d, alive)
    ensures Involutive(Resolved(d))
    ensures forall e :: e in Resolved(d) ==> e.0 in alive
  {
    var t := Resolved(d);
    forall e | e in t
      ensures e.0 in alive && t[e] != e && t[e] in t && t[t[e]] == e
    {
      var k :| k in d && d[k] == e;
      ResolvedAt(d, alive, e);
      ResolvedAt(d, alive, t[e]);
      ResolvedAt(d, alive, d[KeyOf(t[e])]);
    }
  }

  lemma SamePairs(d: Dict, alive: set<AgentConn>, t: Pairs)
    requires Sound(d, alive) && forall e :: e in t ==> e.0 in alive
    requires forall e: ObjEnd :: e.0 in alive ==> (e in t <==> KeyOf(e) in d)
    requires forall e :: e in t ==> t[e] == d[KeyOf(e)]
    ensures Resolved(d) == t
  {
    ResolvedInvolutive(d, alive);
    forall e: ObjEnd | e.0 in alive
      ensures e in Resolved(d) <==> e in t
      ensures e in t ==> Resolved(d)[e] == t[e]
    {
      ResolvedAt(d, alive, e);
    }
  }

  lemma CutKeepsSound(d: Dict, alive: set<AgentConn>, e: ObjEnd)
    requires Sound(d, alive) && e.0 in alive && KeyOf(e) in d
    ensures Sound(d - {KeyOf(e), KeyOf(d[KeyOf(e)])}, alive)
  {
    var k, p := KeyOf(e), d[KeyOf(e)];
    var r := d - {k, KeyOf(p)};
    forall x | x in r
      ensures KeyOf(r[x]) in r
    {
      assert KeyOf(d[x]) != k && KeyOf(d[x]) != KeyOf(p) by {
        assert KeyOf(d[KeyOf(d[x])]) == x;
      }
    }
  }

  /** What the cut leaves at one end. */
  lemma CutAt(d: Dict, alive: set<AgentConn>, e: ObjEnd, x: ObjEnd)
    requires Sound(d, alive) && e.0 in alive && KeyOf(e) in d && x.0 in alive
    ensures x in Cut(Resolved(d), e) <==> KeyOf(x) in d - {KeyOf(e), KeyOf(d[KeyOf(e)])}
    ensures x in Cut(Resolved(d), e) ==> KeyOf(x) in d && Cut(Resolved(d), e)[x] == d[KeyOf(x)]
  {
    ResolvedInvolutive(d, alive);
    ResolvedAt(d, alive, e);
    ResolvedAt(d, alive, d[KeyOf(e)]);
    ResolvedAt(d, alive, x);
  }

  lemma CutSound(d: Dict, alive: set<AgentConn>, e: ObjEnd)
    requires Sound(d, alive) && e.0 in alive && KeyOf(e) in d
    ensures Sound(d - {KeyOf(e), KeyOf(d[KeyOf(e)])}, alive)
    ensures Resolved(d - {KeyOf(e), KeyOf(d[KeyOf(e)])}) == Cut(Resolved(d), e)
  {
    CutKeepsSound(d, alive, e);
    ResolvedInvolutive(d, alive);
    forall x: ObjEnd | x.0 in alive
      ensures x in Cut(Resolved(d), e) <==> KeyOf(x) in d - {KeyOf(e), KeyOf(d[KeyOf(e)])}
      ensures x in Cut(Resolved(d), e) ==> KeyOf(x) in d && Cut(Resolved(d), e)[x] == d[KeyOf(x)]
    {
      CutAt(d, alive, e, x);
    }
    SamePairs(d - {KeyOf(e), KeyOf(d[KeyOf(e)])}, alive, Cut(Resolved(d), e));
  }

  function Link(d: Dict, a: ObjEnd, b: ObjEnd): Dict {
    d[KeyOf(a) := b][KeyOf(b) := a]
  }

  lemma LinkSound(d: Dict, alive: set<AgentConn>, a: ObjEnd, b: ObjEnd)
    requires Sound(d, alive) && a.0 in alive && b.0 in alive && a != b
    requires KeyOf(a) !in d && KeyOf(b) !in d
    ensures Sound(Link(d, a, b), alive)
  {
    var r := Link(d, a, b);
    assert KeyOf(a) != KeyOf(b);
    forall k | k in d
      ensures KeyOf(d[k]) != KeyOf(a) && KeyOf(d[k]) != KeyOf(b) && r[k] == d[k]
    {
      assert KeyOf(d[k]) in d;
    }
  }

  /** What the bridge makes of one end. */
  lemma LinkAt(d: Dict, alive: set<AgentConn>, a: ObjEnd, b: ObjEnd, x: ObjEnd)
    requires Sound(d, alive) && a.0 in alive && b.0 in alive && x.0 in alive && a != b
    ensures x in Linked(Resolved(d), a, b) <==> KeyOf(x) in Link(d, a, b)
    ensures x in Linked(Resolved(d), a, b) ==> Linked(Resolved(d), a, b)[x] == Link(d, a, b)[KeyOf(x)]
  {
    ResolvedAt(d, alive, x);
    assert x != a ==> KeyOf(x) != KeyOf(a);
    assert x != b ==> KeyOf(x) != KeyOf(b);
  }

  lemma LinkResolved(d: Dict, alive: set<AgentConn>, a: ObjEnd, b: ObjEnd)
    requires Sound(d, alive) && a.0 in alive && b.0 in alive && a != b
    requires Sound(Link(d, a, b), alive)
    ensures Resolved(Link(d, a, b)) == Linked(Resolved(d), a, b)
  {
    var t := Linked(Resolved(d), a, b);
    forall e | e in t ensures e.0 in alive {
      ResolvedInvolutive(d, alive);
    }
    forall x: ObjEnd | x.0 in alive
      ensures x in t <==> KeyOf(x) in Link(d, a, b)
      ensures x in t ==> t[x] == Link(d, a, b)[KeyOf(x)]
    {
      LinkAt(d, alive, a, b, x);
    }
    SamePairs(Link(d, a, b), alive, t);
  }

  // ---- the gateway's object -----------------------------------------------------------

  class Gateway {
    var bridges: Dict
    /** The connection objects something still refers to: those being served, and those in the table. */
    ghost var alive: set<AgentConn>

    ghost predicate Valid()
      reads this
    {
      Sound(bridges, alive)
    }

    ghost function Table(): Pairs
      requires Valid()
      reads this
    {
      Resolved(bridges)
    }

    constructor ()
      ensures Valid() && bridges == map[] && alive == {}
    {
      bridges, alive := map[], {};
    }

    /** A connection comes in. Its object gets an address that no live object has. */
    method Accept(ident: nat) returns (c: AgentConn)
      requires Valid() && forall a :: a in alive ==> a.ident != ident
      modifies this`alive
      ensures Valid() && fresh(c) && c.ident == ident && alive == old(alive) + {c}
      ensures bridges == old(bridges) && Table() == old(Table())
    {
      c := new AgentConn(ident);
      alive := alive + {c};
    }

    /** _bridge */
    method Bridge(a: AgentConn, aSid: Sid, b: AgentConn, bSid: Sid)
      requires Valid() && a in alive && b in alive && (a, aSid) != (b, bSid)
      requires (a, aSid) !in Table() && (b, bSid) !in Table()
      modifies this`bridges
      ensures Valid() && Table() == Linked(old(Table()), (a, aSid), (b, bSid))
    {
      ResolvedAt(bridges, alive, (a, aSid));
      ResolvedAt(bridges, alive, (b, bSid));
      LinkSound(bridges, alive, (a, aSid), (b, bSid));
      LinkResolved(bridges, alive, (a, aSid), (b, bSid));
      bridges := bridges[(a.ident, aSid) := (b, bSid)];
      bridges := bridges[(b.ident, bSid) := (a, aSid)];
    }

    /** _peer */
    method Peer(c: AgentConn, sid: Sid) returns (peer: Option<ObjEnd>)
      requires Valid() && c in alive
      ensures peer == if (c, sid) in Table() then Some(Table()[(c, sid)]) else None
      ensures peer.Some? ==> peer.value.0 in alive
    {
      ResolvedAt(bridges, alive, (c, sid));
      if (c.ident, sid) in bridges {
        peer := Some(bridges[(c.ident, sid)]);
      } else {
        peer := None;
      }
    }

    /** _unbridge */
    method Unbridge(c: AgentConn, sid: Sid)
      requires Valid() && c in alive
      modifies this`bridges, alive`wire
      ensures Valid() && Table() == Cut(old(Table()), (c, sid))
      ensures forall d :: d in alive ==>
        d.wire == if (c, sid) in old(Table()) && old(Table())[(c, sid)].0 == d && d.up
                  then old(d.wire) + [Close(old(Table())[(c, sid)].1)] else old(d.wire)
    {
      ResolvedAt(bridges, alive, (c, sid));
      if (c.ident, sid) in bridges {
        CutSound(bridges, alive, (c, sid));
        var peer := bridges[(c.ident, sid)];
        ghost var rest := bridges - {(c.ident, sid), KeyOf(peer)};
        bridges := bridges - {(c.ident, sid)};
        bridges := bridges - {(peer.0.ident, peer.1)};
        assert bridges == rest;
        var _ := peer.0.Send(Close(peer.1));
      }
    }

    /** _on_session_data: relay to the bridged peer; a failing send cuts the bridge. */
    method OnSessionData(c: AgentConn, sid: Sid, bytes: Bytes)
      requires Valid() && c in alive
      modifies this`bridges, alive`wire
      ensures Valid()
      ensures var t, e := old(Table()), (c, sid);
        Table() == if e in t && !t[e].0.up then Cut(t, e) else t
      ensures var t, e := old(Table()), (c, sid);
        forall d :: d in alive ==>
          d.wire == if e in t && t[e].0 == d && d.up then old(d.wire) + [Data(t[e].1, bytes)] else old(d.wire)
    {
      var peer := Peer(c, sid);
      if peer.Some? {
        var ok := peer.value.0.Send(Data(peer.value.1, bytes));
        if !ok {
          Unbridge(c, sid);
        }
      }
    }

    /** Other tasks cut and open sessions. */
    method Interfere(ops: seq<Op>, ghost c: AgentConn)
      requires Valid() && MayDoAll(Table(), ops, c)
      requires forall op :: op in ops ==> Among(alive, op)
      modifies this`bridges, alive`wire
      ensures Valid() && Table() == ApplyAll(old(Table()), ops)
    {
      var j := 0;
      while j < |ops|
        invariant 0 <= j <= |ops| && Valid()
        invariant MayDoAll(Table(), ops[j..], c)
        invariant ApplyAll(Table(), ops[j..]) == ApplyAll(old(Table()), ops)
      {
        assert ops[j..][1..] == ops[j + 1..] && ops[j..][0] == ops[j];
        assert ops[j] in ops;
        match ops[j] {
          case CutOff(e) => Unbridge(e.0, e.1);
          case Join(a, b) => Bridge(a.0, a.1, b.0, b.1);
        }
        j := j + 1;
      }
      assert ops[j..] == [];
    }

    /** One round of the loop below, with the await in it. */
    method CleanOne(c: AgentConn, key: Sid, ops: seq<Op>)
      requires Valid() && c in alive && MayDoAll(Cut(Table(), (c, key)), ops, c)
      requires forall op :: op in ops ==> Among(alive, op)
      modifies this`bridges, alive`wire
      ensures Valid() && Table() == ApplyAll(Cut(old(Table()), (c, key)), ops)
    {
      Unbridge(c, key);
      Interfere(ops, c);
    }

    /** The loop over the listed keys. */
    method CleanAll(c: AgentConn, keys: seq<Sid>, others: seq<seq<Op>>)
      requires Valid() && c in alive
      requires |others| == |keys| && MayInterfere(Table(), c, keys, others)
      requires forall ops :: ops in others ==> forall op :: op in ops ==> Among(alive, op)
      modifies this`bridges, alive`wire
      ensures Valid() && Table() == Cleaned(old(Table()), c, keys, others)
    {
      var left, rest := keys, others;
      while left != []
        invariant Valid() && |rest| == |left|
        invariant forall ops :: ops in rest ==> ops in others
        invariant MayInterfere(Table(), c, left, rest)
        invariant Cleaned(Table(), c, left, rest) == Cleaned(old(Table()), c, keys, others)
        decreases |left|
      {
        CleanedRound(Table(), c, left, rest);
        assert rest[0] in others;
        CleanOne(c, left[0], rest[0]);
        left, rest := left[1..], rest[1..];
      }
    }

    /** The cleanup loop of a client that left: each of its listed keys is unbridged; at each await
        other tasks may cut any sessions, and open sessions for other clients. */
    method CleanUp(c: AgentConn, keys: seq<Sid>, others: seq<seq<Op>>)
      requires Valid() && c in alive && Listed(Table(), c, keys)
      requires |others| == |keys| && MayInterfere(Table(), c, keys, others)
      requires forall ops :: ops in others ==> forall op :: op in ops ==> Among(alive, op)
      modifies this`bridges, alive`wire
      ensures Valid() && Table() == Cleaned(old(Table()), c, keys, others)
      ensures forall e :: e in Table() ==> e.0 != c && Table()[e].0 != c
    {
      ResolvedInvolutive(bridges, alive);
      CleanUpForgets(Table(), c, keys, others);
      CleanAll(c, keys, others);
    }

    /** Nothing refers to the object any more: it is collected. No key of the table has its address,
        so the address can be given to a new connection. */
    method Collect(c: AgentConn)
      requires Valid() && c in alive && forall e :: e in Table() ==> Table()[e].0 != c
      modifies this`alive
      ensures Valid() && alive == old(alive) - {c}
      ensures bridges == old(bridges) && Table() == old(Table())
      ensures forall k :: k in bridges ==> k.0 != c.ident
    {
      forall k | k in bridges
        ensures bridges[k].0 != c && k.0 != c.ident
      {
        var p := bridges[k];
        var q := bridges[KeyOf(p)];
        ResolvedAt(bridges, alive, p);
        ResolvedAt(bridges, alive, q);
        assert Table()[p] == q && Table()[q] == p;
      }
      alive := alive - {c};
    }
  }
}
