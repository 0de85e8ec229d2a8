/** The gateway's recount of the sessions each identity holds (_usage in gateway/server.py): the loop over
    the registered clients gives, for every identity, the size of Tunnel's SessionsOf. */
module UsageCount {
  import opened Policy
  import opened Tunnel

  /** The bridge table's keys of one connection. */
  function KeysOf(s: State, c: Conn): set<End> {
    set e | e in s.bridges && e.conn == c
  }

  /** The keys of the first k clients that belong to the actor. */
  function Counted(s: State, clients: seq<Conn>, k: nat, actor: string): set<End>
    requires k <= |clients|
  {
    set e | e in s.bridges && e.conn in clients[..k] && CountedFor(s, e.conn, actor)
  }

  /** registry.list("client"): each registered client connection, once. */
  ghost predicate ListsClients(s: State, clients: seq<Conn>) {
    && (forall c :: c in clients <==> c in s.conns && s.conns[c].node.client && Registered(s, c))
    && (forall i, j :: 0 <= i < j < |clients| ==> clients[i] != clients[j])
  }

  lemma CountedNext(s: State, clients: seq<Conn>, k: nat, actor: string)
    requires ListsClients(s, clients) && k < |clients|
    ensures |Counted(s, clients, k + 1, actor)| == |Counted(s, clients, k, actor)|
      + if s.conns[clients[k]].node.identity.Actor() == actor then |KeysOf(s, clients[k])| else 0
  {
    var c := clients[k];
    assert clients[..k + 1] == clients[..k] + [c];
    var next, now := Counted(s, clients, k + 1, actor), Counted(s, clients, k, actor);
    if s.conns[c].node.identity.Actor() == actor {
      assert next == now + KeysOf(s, c);
      assert now !! KeysOf(s, c);
    } else {
      assert next == now;
    }
  }

  method Recount(s: State, clients: seq<Conn>) returns (perId: map<string, nat>)
    requires ListsClients(s, clients)
    ensures forall actor :: Count(perId, actor) == |SessionsOf(s, actor)|
  {
    perId := map[];
    for k := 0 to |clients|
      invariant forall actor :: Count(perId, actor) == |Counted(s, clients, k, actor)|
    {
      var actor := s.conns[clients[k]].node.identity.Actor();
      var cnt := |KeysOf(s, clients[k])|;
      ghost var before := perId;
      perId := perId[actor := Count(perId, actor) + cnt];
      forall a ensures Count(perId, a) == |Counted(s, clients, k + 1, a)| {
        CountedNext(s, clients, k, a);
        assert Count(before, a) == |Counted(s, clients, k, a)|;
      }
    }
    forall actor ensures Counted(s, clients, |clients|, actor) == SessionsOf(s, actor) {
      assert clients[..|clients|] == clients;
    }
  }
}
