/** One-time registration tokens (gateway/claims.py) and their use by the gateway (gateway/server.py):
    created for a client, redeemed by the box that registers with one, released by a client, or marked
    failed by the provisioning task. Every call carries the clock's reading; nothing is assumed of it.
    Tokens come from secrets and are taken to be new. */
module Claims {
  import opened Common

  type Token = string

  datatype Status = Pending | Active | Released | Failed

  /** The fields of a claim. */
  datatype Terms = Terms(client: string, createdAt: real, ttl: real, status: Status, node: Option<string>)

  type Book = map<Token, Terms>

  datatype Event =
    | Create(token: Token, client: string, now: real, ttl: real)
    | Redeem(token: Token, node: string, now: real)
    | Release(token: Token)
    | Fail(token: Token)

  // ---- what an event does ------------------------------------------------------------------------

  /** Claims.redeem finds a pending claim that is not Claim.expired. */
  predicate Redeemable(b: Book, t: Token, now: real) {
    t in b && b[t].status.Pending? && now - b[t].createdAt <= b[t].ttl
  }

  function Step(b: Book, ev: Event): Book {
    match ev
    case Create(t, client, now, ttl) => b[t := Terms(client, now, ttl, Pending, None)]
    case Redeem(t, node, now) =>
      if Redeemable(b, t, now) then b[t := b[t].(status := Active, node := Some(node))] else b
    case Release(t) => if t in b then b[t := b[t].(status := Released)] else b
    case Fail(t) => if t in b then b[t := b[t].(status := Failed)] else b
  }

  /** The store after these events, from the empty one. */
  function Run(evs: seq<Event>): Book
    decreases |evs|
  {
    if evs == [] then map[] else Step(Run(evs[..|evs| - 1]), evs[|evs| - 1])
  }

  ghost predicate NewTokens(evs: seq<Event>) {
    forall i, j :: 0 <= i < j < |evs| && evs[i].Create? && evs[j].Create? ==> evs[i].token != evs[j].token
  }

  /** The i-th event is a redemption, and succeeds. */
  predicate Redeems(evs: seq<Event>, i: nat)
    requires i < |evs|
  {
    evs[i].Redeem? && Redeemable(Run(evs[..i]), evs[i].token, evs[i].now)
  }

  /** The k-th event ends the token: a release, a failed provision, or a redemption that succeeds. */
  predicate Ends(evs: seq<Event>, k: nat, t: Token)
    requires k < |evs|
  {
    evs[k].token == t && (evs[k].Release? || evs[k].Fail? || Redeems(evs, k))
  }

  predicate Creates(evs: seq<Event>, i: nat, t: Token)
    requires i < |evs|
  {
    evs[i].Create? && evs[i].token == t
  }

  /** Nothing has ended the token since the i-th event. */
  ghost predicate OpenSince(evs: seq<Event>, i: nat, t: Token) {
    forall k: nat :: i < k < |evs| ==> !Ends(evs, k, t)
  }

  /** Every token created is one of these. */
  ghost predicate AreAmong(evs: seq<Event>, tokens: set<Token>) {
    forall i :: 0 <= i < |evs| && evs[i].Create? ==> evs[i].token in tokens
  }

  /** A further call, with a new token if it creates one. */
  lemma OneMore(evs: seq<Event>, ev: Event, tokens: set<Token>)
    requires NewTokens(evs) && AreAmong(evs, tokens) && (ev.Create? ==> ev.token !in tokens)
    ensures NewTokens(evs + [ev]) && Run(evs + [ev]) == Step(Run(evs), ev)
    ensures AreAmong(evs + [ev], tokens + if ev.Create? then {ev.token} else {})
  {
    assert (evs + [ev])[..|evs|] == evs;
  }

  // ---- what a claim says of the run --------------------------------------------------------------------

  lemma PrefixReads(evs: seq<Event>, n: nat, k: nat)
    requires k < n <= |evs|
    ensures Redeems(evs[..n], k) == Redeems(evs, k)
    ensures forall t :: Ends(evs[..n], k, t) == Ends(evs, k, t) && Creates(evs[..n], k, t) == Creates(evs, k, t)
  {
    assert evs[..n][..k] == evs[..k];
  }

  lemma OpenSincePrefix(evs: seq<Event>, i: nat, t: Token)
    requires i < |evs| - 1
    ensures OpenSince(evs, i, t) <==> OpenSince(evs[..|evs| - 1], i, t) && !Ends(evs, |evs| - 1, t)
  {
    var n := |evs| - 1;
    forall k: nat | k < n ensures Ends(evs[..n], k, t) == Ends(evs, k, t) {
      PrefixReads(evs, n, k);
    }
  }

  /** A token that nothing created is not in the store. */
  lemma {:induction false} OnlyCreatedTokens(evs: seq<Event>, t: Token)
    requires forall i: nat :: i < |evs| ==> !Creates(evs, i, t)
    ensures t !in Run(evs)
    decreases |evs|
  {
    if evs != [] {
      var n := |evs| - 1;
      forall i: nat | i < n ensures !Creates(evs[..n], i, t) {
        PrefixReads(evs, n, i);
        assert !Creates(evs, i, t);
      }
      OnlyCreatedTokens(evs[..n], t);
      assert !Creates(evs, n, t);
    }
  }

  /** A created token's claim keeps its terms, and is pending exactly while nothing has ended it. */
  lemma {:induction false} ClaimTells(evs: seq<Event>, i: nat, t: Token)
    requires NewTokens(evs) && i < |evs| && Creates(evs, i, t)
    ensures t in Run(evs)
    ensures var c := Run(evs)[t];
      && c.client == evs[i].client && c.createdAt == evs[i].now && c.ttl == evs[i].ttl
      && (c.status.Pending? <==> OpenSince(evs, i, t))
    decreases |evs|
  {
    var n := |evs| - 1;
    if i < n {
      PrefixReads(evs, n, i);
      ClaimTells(evs[..n], i, t);
      OpenSincePrefix(evs, i, t);
      assert evs[n].Create? ==> evs[n].token != t;
    }
  }

  // ---- over every run --------------------------------------------------------------------------------------

  /** Exactly when a redemption succeeds: the token was created before, its ttl has not run out, and
      since then it was neither released, nor failed, nor redeemed. */
  lemma RedeemsExactly(evs: seq<Event>, j: nat)
    requires NewTokens(evs) && j < |evs| && evs[j].Redeem?
    ensures Redeems(evs, j) <==>
      exists i: nat :: i < j && Creates(evs, i, evs[j].token) && evs[j].now - evs[i].now <= evs[i].ttl
                       && OpenSince(evs[..j], i, evs[j].token)
  {
    var t := evs[j].token;
    if i: nat :| i < j && Creates(evs, i, t) {
      PrefixReads(evs, j, i);
      ClaimTells(evs[..j], i, t);
      forall k: nat | k < j && Creates(evs, k, t) ensures k == i {
      }
    } else {
      forall i: nat | i < j ensures !Creates(evs[..j], i, t) {
        PrefixReads(evs, j, i);
      }
      OnlyCreatedTokens(evs[..j], t);
    }
  }

  /** In every run a token is redeemed at most once. */
  lemma RedeemedAtMostOnce(evs: seq<Event>, i: nat, j: nat)
    requires NewTokens(evs) && i < j < |evs| && Redeems(evs, i) && Redeems(evs, j)
    ensures evs[i].token != evs[j].token
  {
    if evs[i].token == evs[j].token {
      NeverAfterItsEnd(evs, i, j);
    }
  }

  /** In every run, no redemption succeeds after an event that ended its claim: a release, a failed
      provision, or another redemption. */
  lemma NeverAfterItsEnd(evs: seq<Event>, k: nat, j: nat)
    requires NewTokens(evs) && k < j < |evs| && evs[j].Redeem?
    requires evs[j].token in Run(evs[..k]) && Ends(evs, k, evs[j].token)
    ensures !Redeems(evs, j)
  {
    var t := evs[j].token;
    var i := CreatedBefore(evs, k, t);
    PrefixReads(evs, j, i);
    PrefixReads(evs, j, k);
    ClaimTells(evs[..j], i, t);
  }

  /** What is in the store was created. */
  lemma CreatedBefore(evs: seq<Event>, k: nat, t: Token) returns (i: nat)
    requires k <= |evs| && t in Run(evs[..k])
    ensures i < k && Creates(evs, i, t)
  {
    if forall i: nat :: i < k ==> !Creates(evs[..k], i, t) {
      OnlyCreatedTokens(evs[..k], t);
    }
    i :| i < k && Creates(evs[..k], i, t);
  }

  /** In every run, a redemption that succeeds wires the box to the client that the token was created
      for, within the token's ttl. */
  lemma WiredAsCreated(evs: seq<Event>, j: nat) returns (i: nat)
    requires NewTokens(evs) && j < |evs| && Redeems(evs, j)
    ensures i < j && Creates(evs, i, evs[j].token) && evs[j].now - evs[i].now <= evs[i].ttl
    ensures evs[j].token in Run(evs[..j + 1])
    ensures var c := Run(evs[..j + 1])[evs[j].token]; c.client == evs[i].client && c.node == Some(evs[j].node) && c.status == Active
  {
    i := CreatedBefore(evs, j, evs[j].token);
    PrefixReads(evs, j, i);
    ClaimTells(evs[..j], i, evs[j].token);
    assert evs[..j + 1][..j] == evs[..j];
  }

  // ---- the objects --------------------------------------------------------------------------------------

  class Claim {
    const token: Token
    const client: string
    const createdAt: real
    const ttl: real
    var status: Status
    var node: Option<string>

    constructor (token: Token, client: string, now: real, ttl: real)
      ensures this.token == token && Value() == Terms(client, now, ttl, Pending, None)
    {
      this.token, this.client, createdAt, this.ttl := token, client, now, ttl;
      status, node := Pending, None;
    }

    function Value(): Terms
      reads this
    {
      Terms(client, createdAt, ttl, status, node)
    }

    /** Claim.expired */
    predicate Expired(now: real)
      reads this
    {
      status.Pending? && now - createdAt > ttl
    }
  }

  /** The claim store. Its history lists every call made so far; what the store holds is the run of it,
      so that what is proved of runs holds of the store. */
  class Store {
    var byToken: map<Token, Claim>
    ghost var history: seq<Event>

    ghost function Claims(): set<Claim>
      reads this
    {
      set t | t in byToken :: byToken[t]
    }

    ghost function Value(): Book
      reads this, Claims()
    {
      map t | t in byToken :: byToken[t].Value()
    }

    ghost predicate Valid()
      reads this, Claims()
    {
      && (forall t :: t in byToken ==> byToken[t].token == t)
      && NewTokens(history) && Value() == Run(history)
      && AreAmong(history, byToken.Keys)
    }

    constructor ()
      ensures Valid() && byToken == map[] && history == []
    {
      byToken, history := map[], [];
    }

    /** The map's values after a claim with a new token is put in. */
    lemma Stored(claim: Claim, before: Book)
      requires claim.token in byToken && byToken[claim.token] == claim
      requires before.Keys == byToken.Keys - {claim.token} && forall t :: t in before ==> byToken[t].Value() == before[t]
      ensures Value() == before[claim.token := claim.Value()]
    {
    }

    /** Claims.create */
    method Create(token: Token, client: string, now: real, ttl: real) returns (claim: Claim)
      requires Valid() && token !in byToken
      modifies this
      ensures Valid() && fresh(claim) && byToken == old(byToken)[token := claim]
      ensures history == old(history) + [Event.Create(token, client, now, ttl)]
      ensures Value() == Step(old(Value()), Event.Create(token, client, now, ttl))
    {
      ghost var before := Value();
      OneMore(history, Event.Create(token, client, now, ttl), byToken.Keys);
      claim := new Claim(token, client, now, ttl);
      byToken := byToken[token := claim];
      history := history + [Event.Create(token, client, now, ttl)];
      Stored(claim, before);
    }

    /** Claims.redeem; the gateway gives the token as the node id. */
    method Redeem(token: Token, node: string, now: real) returns (claim: Option<Claim>)
      requires Valid()
      modifies this`history, Claims()
      ensures Valid() && byToken == old(byToken)
      ensures history == old(history) + [Event.Redeem(token, node, now)]
      ensures Value() == Step(old(Value()), Event.Redeem(token, node, now))
      ensures claim.Some? <==> Redeems(history, |history| - 1)
      ensures claim.Some? ==> token in byToken && claim.value == byToken[token]
    {
      OneMore(history, Event.Redeem(token, node, now), byToken.Keys);
      assert (history + [Event.Redeem(token, node, now)])[..|history|] == history;
      history := history + [Event.Redeem(token, node, now)];
      if token !in byToken {
        return None;
      }
      var c := byToken[token];
      if !c.status.Pending? || c.Expired(now) {
        return None;
      }
      c.status := Active;
      c.node := Some(node);
      claim := Some(c);
    }

    /** Claims.release: whatever the claim's status, whoever asks. */
    method Release(token: Token) returns (claim: Option<Claim>)
      requires Valid()
      modifies this`history, Claims()
      ensures Valid() && byToken == old(byToken)
      ensures history == old(history) + [Event.Release(token)]
      ensures Value() == Step(old(Value()), Event.Release(token))
      ensures claim == (if token in byToken then Some(byToken[token]) else None)
    {
      OneMore(history, Event.Release(token), byToken.Keys);
      history := history + [Event.Release(token)];
      if token !in byToken {
        return None;
      }
      var c := byToken[token];
      c.status := Released;
      claim := Some(c);
    }

    /** The gateway's _provision, when its action fails: whatever the claim's status by then. */
    method ProvisionFailed(claim: Claim)
      requires Valid() && claim in Claims()
      modifies this`history, Claims()
      ensures Valid() && byToken == old(byToken)
      ensures history == old(history) + [Fail(claim.token)]
      ensures Value() == Step(old(Value()), Fail(claim.token))
    {
      OneMore(history, Fail(claim.token), byToken.Keys);
      history := history + [Fail(claim.token)];
      claim.status := Status.Failed;
    }
  }
}
