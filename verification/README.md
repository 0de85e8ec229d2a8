# Rixi, modelled and proved in Dafny

Rixi runs code on boxes that dial out to a gateway. The gateway brokers TCP sessions between client
machines and those boxes over one encrypted WebSocket each, decides by policy who may have what, brings
named resources up and down, and keeps an audit trail. Around it are a client that streams framed JSON from a
server, a proxy with a response cache, and a router over external servers. This project models the stateful
parts of that program and proves what they promise, over all inputs, all interleavings or all runs.

Run `dafny verify dfyconfig.toml` to check it.

## What is here

- **The brokered tunnel** (`Tunnel*.dfy`). A step system: clients, servers, connections and sessions, any
  number of each. One step is one stretch of code without an await; each WebSocket is an ordered channel each
  way; every session end carries the history of the bytes read, relayed and written, and of the close frames
  sent. `TunnelInvariant` states the invariant one session end at a time, `TunnelSteps`, `TunnelLifetimes` and
  `TunnelTables` show that the steps keep it, `TunnelRuns` puts that together for runs. The results are in
  `TunnelResults` (delivery, isolation, involution, cleanup, closing), `TunnelPairing` (who is connected to
  whom), `TunnelGrants` (exactly when a session_open is granted), `TunnelClosing` (closing terminates),
  `TunnelProgress` (nobody is stuck), `TunnelTelling` (who tells whom that a session is over), `TunnelRecount` and
  `TunnelQuota` (the gateway's count of sessions, and the quota that rests on it) and `TunnelExamples` (two runs where
  a promise ends).
- **The same code as objects.** `BridgeTable` is the gateway's dictionary keyed by `(id(conn), sid)`, with
  addresses that can be reused. `AgentSessions` is an agent's connection object with its map of writers: each
  method is specified by a function on the connection, and each function is proved to be what the tunnel's step
  does to that connection in any state of the whole tunnel, leaving everything else alone. `AgentRuns` composes them:
  any run of the whole tunnel is a sequence of calls to each connection's object, which then agrees with the tunnel's
  state. `UsageCount` is the loop that recounts sessions.
- **Named resources** (`Lifecycle*`, `ResourceTable`). Requests, launches, box-up, loss, healing, prewarming and
  teardown of one resource in any interleaving, with records that tasks hold on to after a teardown.
  `LifecycleRecords` says field by field what changes when, `LifecycleWaiters` is about who waits and is told,
  `LifecycleNotices` about clients of a box that is up, `LifecycleFlights` about provisions in flight and healing,
  `LifecycleExamples` has runs that show where promises end; `ResourceTable` is the table of records as objects.
- **Policy** (`Policy`; `PolicyMeaning` says what its answers mean, `PolicyTightening` that stricter is never looser),
  **frames** (`Frames`, `JsonPeel`), and the components that must agree with a simple
  account of their history or input: `Dedup`, `ResponseCache`, `AuditQueue`, `Routing`, `Scheduler`, `Chunker`,
  `ShellEscape`, `Claims`.

## What turned out not to hold

Each of these is a proved member below, next to the condition under which the promise does hold.

- A server keeps a session open for nobody when its own data meets a dead client connection before the client's
  cleanup: the gateway cuts the bridge and tells only the client (`ServerIsNotToldWhenItsDataFindsTheClientGone`).
  Exactly two kinds of step leave an end behind like that, both a send of the gateway for the end itself that
  fails (`OrphanedExactly`); an end is told exactly unless such a step occurs (`ToldExactly`).
- The concurrency quota bounds the sessions the gateway counts, in every run (`QuotaHolds`), and its count misses those
  of a connection that is not the one registered under its node id. So all sessions of an actor stay within the ceiling
  at every state whose holders are registered, and otherwise exceed it by no more than the sessions missed. With two
  connections under the client program's default id that happens (`SharedNodeIdBreaksTheQuota`). A run exceeds the
  ceiling if and only if it grants a session at the ceiling (`QuotaKeptExactly`), and such a grant finds an unregistered
  holder (`ExceedsExactly`); with distinct node ids there is none (`DistinctIdsKeepTheQuota`).
- "Only one provision in flight per resource" (a comment at gateway/server.py:426) fails when a box comes up and
  is lost while its provision is still running (`TwoProvisionsInFlight`). A second one is launched exactly when the box
  is asked for while it is down, one is in flight and the record is not marked (`EventKeepsOneInFlightIff`; over runs,
  `TwoInFlightExactly`), and exactly a loss or a removal in the middle of a provision leads there (`ExposedExactly`).
- A teardown forgets a client that waits exactly if it removes the record with the client on it and no box-up has taken
  the client over (`StopsBeingHeldExactly`, `TeardownForgetsAWaiter`). After a teardown whose action fails, a lost spot
  box is not healed (`FailedTeardownEndsHealing`, `TearingDownEndsHealing`).
- Narrowing a resource's identity list to the empty list opens it (`EmptyIdentityListOpensTheResource`,
  `NarrowingLoosensExactly`). So does emptying a role's operations, and a role's provider list that reached beyond the
  global one denied every provider until it is narrowed (`NarrowerRolesThatLoosen`, `NarrowingOpsLoosensExactly`,
  `NarrowingProvidersLoosensExactly`).
- The peel loop over a frame's text ends exactly for rows of whole objects (`PeelingEndsIff`); on an incomplete one
  it goes round for ever, although the helper's comment says "need more bytes".

## Model

| member | source | states |
|---|---|---|
| TunnelRuns.StepKeepsInv | gateway/server.py:76-284 | every step of every agent and gateway task keeps the tunnel's invariant |
| TunnelRuns.ReachableStep | gateway/server.py:183-284 | a step that is enabled in a reachable state is well defined there and leads to a reachable state |
| TunnelResults.DeliveredIsPrefix | gateway/server.py:93-103 | relay correctness and isolation: bytes written to a session's socket are a prefix of the bytes read from the socket of its one partner, a client's with a server's |
| TunnelResults.OpenSessionLosesNothing | gateway/protocol.py:78-98 | on a session open at every hop, sent = delivered ++ in flight from gateway to receiver ++ in flight from sender to gateway, in both directions |
| TunnelResults.OpenComesFirst | gateway/server.py:278-284 | on a server's channel, session_open precedes every other frame of a session |
| TunnelResults.BridgesAreAnInvolution | gateway/server.py:76-91 | in every reachable state the bridge table is an involution without fixed points, between clients and servers |
| TunnelResults.CleanedUpClientIsForgotten | gateway/server.py:251-256 | after a client's cleanup loop no bridge entry mentions its connection, as key or value, whatever other tasks did between the loop's awaits |
| TunnelResults.ClosedEverywhere | gateway/server.py:83-109 | with both connections live and the session's channels drained, an end that has closed leaves no hop holding the session |
| TunnelTelling.OrphanedExactly | gateway/server.py:93-103 | a step leaves a bridged end behind if and only if the gateway reads that end's own data, or goes on to announce it, and its partner's connection cannot be sent to |
| TunnelTelling.CutIsToldExactly | gateway/server.py:83-103 | an end that a step cuts off is told exactly if its partner's task did the cutting; otherwise its own task did |
| TunnelTelling.ToldExactly | gateway/server.py:83-103 | over any run from its bridging on, an end that is cut off but open at its agent has a session_close on its way if and only if no step of the run left it behind |
| TunnelTelling.EndedServerTellsNobody | gateway/server.py:216-221 | when a server's connection has ended, its clients' sessions stay bridged until their own tasks cut them, and no step tells them |
| TunnelResults.FewCloseFrames | gateway/protocol.py:78-111 | at most two session_close frames from an agent for a session, and one from the gateway for both ends together |
| TunnelPairing.PairedForever | gateway/server.py:76-91 | over any run a session's end keeps its partner, and the bytes read, relayed and written only grow |
| TunnelGrants.PairedExactly | gateway/server.py:258-284 | a client's session gets its partner if and only if the gateway reads its own session_open, a server is registered under the route, and the identity is an admin's or meets every constraint on "route" for the catalog's entry, its registered sessions counted then; the pair is bridged, and no other bridge changes |
| TunnelGrants.RefusedIsTold | gateway/server.py:258-277 | a session_open that is not granted adds one session_close to its client's channel, or, where that cannot be sent, sends the client's task to its cleanup; nobody else hears anything, and no bridge changes |
| TunnelClosing.SessionNeverRegains | gateway/protocol.py:78-111 | every step of the system leaves a session standing where it is, or uses up some of its budget of opens, writers, pumps, bridges and close frames |
| TunnelClosing.ChangesWithinBudget | gateway/server.py:83-109 | over any run, a session changes at most as often as its budget says: closing terminates |
| TunnelClosing.AtMostThirteenSteps | gateway/client.py:121-132 | from the opening of a session on, at most 13 changes in any run |
| TunnelProgress.TasksCanEnd | gateway/server.py:195-284 | from every reachable state, steps of a connection's own task at the gateway lead to its end, whatever it is doing |
| TunnelProgress.TasksCanGoOn | gateway/server.py:195-284 | a task can read what has arrived, announce what it has bridged and clean up what is left; it can end unless it is at one of the latter two |
| TunnelProgress.AgentsCanGoOn | gateway/protocol.py:78-111 | an agent can read what has arrived, pump and end a pump, lose its connection, and then end its loop |
| TunnelRecount.ExactlyWhenHoldersAreRegistered | gateway/server.py:119-128 | the recount finds every bridged session of an identity if and only if every connection holding one is the one registered under its node id |
| TunnelRecount.RecountStaysExactIff | gateway/server.py:119-284 | from an exact recount, a step keeps it exact if and only if it does not register or unregister a holder's node id, nor grant a session to a connection that is not registered |
| TunnelRecount.DistinctIdsKeepTheRecount | gateway/server.py:186-235 | with distinct node ids every step keeps every identity's recount exact |
| TunnelRecount.RecountIsOpensMinusCloses | gateway/server.py:119-128 | in any run, an exact recount is the number of sessions granted minus the number that lost their bridge |
| TunnelQuota.StepKeepsCounted | gateway/server.py:258-284 | every step keeps the sessions counted for a non-admin on catalog routes within its ceiling, whatever node ids connections present |
| TunnelQuota.QuotaHoldsInEveryRun | gateway/server.py:258-284 | in every run the counted sessions stay within the ceiling; so all bridged sessions of the actor exceed it by no more than those of unregistered connections, and not at all at a state whose holders are registered |
| TunnelQuota.QuotaHolds | gateway/policy.py:172-178 | the same from the empty gateway on |
| TunnelQuota.ExceedsExactly | gateway/server.py:265-278 | from within the ceiling, a step exceeds it if and only if it grants the actor a session at the ceiling; then some holder is not registered |
| TunnelQuota.QuotaKeptExactly | gateway/server.py:119-284 | a run is within the ceiling at all its states if and only if it never grants a session at the ceiling |
| TunnelQuota.GrantingOnExactCountsSuffices | gateway/server.py:119-128 | a run that grants only when the recount is exact is within the ceiling at all its states, also those where it is not exact |
| TunnelRecount.RecountIsExact | gateway/server.py:119-128 | with distinct node ids the recount counts every bridged session of an identity |
| TunnelQuota.DistinctIdsSuffice | gateway/server.py:231-235 | in a run in which connections present node ids not in use, every recount is exact, so every grant finds its holders registered |
| TunnelQuota.DistinctIdsKeepTheQuota | gateway/server.py:231-284 | in such a run all bridged sessions of the actor stay within the ceiling at every state |
| TunnelQuota.AllowedMeansBelow | gateway/server.py:265-278 | a route that policy grants finds the identity's recount below the ceiling |
| TunnelExamples.SharedNodeIdBreaksTheQuota | gateway/client.py:25-27 | a reachable state with two sessions under a ceiling of one, when two connections share a node id |
| TunnelExamples.ServerIsNotToldWhenItsDataFindsTheClientGone | gateway/server.py:98-101 | a reachable state in which a live, idle server holds a session that is bridged nowhere |
| UsageCount.Recount | gateway/server.py:119-128 | the loop gives every identity the number of bridge keys of its registered connections |
| BridgeTable.CutAllRemovesExactly | gateway/server.py:83-91 | cutting any list of ends, in any order, removes exactly the pairs they are in |
| BridgeTable.CleanUpForgets | gateway/server.py:251-256 | after a cleanup loop at whose awaits other tasks cut any sessions and open sessions for others, no entry mentions the client |
| BridgeTable.CleanUpAlone | gateway/server.py:251-254 | with nothing done at the awaits, exactly the client's listed sessions go |
| BridgeTable.ResolvedInvolutive | gateway/server.py:76-81 | a sound dictionary, read through its addresses, is an involution without fixed points among live connections |
| BridgeTable.LinkSound | gateway/server.py:76-78 | bridging two live, unbridged ends keeps every key's connection live and held by its partner's value |
| BridgeTable.CutSound | gateway/server.py:83-87 | unbridging keeps the dictionary sound, and cuts exactly the pair |
| BridgeTable.Gateway.Bridge | gateway/server.py:76-78 | the two entries, and nothing else in the table changes |
| BridgeTable.Gateway.Peer | gateway/server.py:80-81 | the partner of an end, which is a live connection's |
| BridgeTable.Gateway.Unbridge | gateway/server.py:83-91 | both entries go, and the partner alone is sent a session_close if its connection is up |
| BridgeTable.Gateway.OnSessionData | gateway/server.py:93-101 | the data reaches the partner and nobody else, or the bridge is cut |
| BridgeTable.Gateway.CleanUp | gateway/server.py:251-254 | the cleanup loop, with interference, leaves no entry of the client |
| BridgeTable.Gateway.Collect | gateway/server.py:76-81 | a connection object that no entry holds has no key either, so its address can be reused |
| AgentSessions.CloseIsAStep | gateway/protocol.py:100-111 | in any state, the tunnel's close does to its connection what close_session with notify does, and leaves every other connection, the bridges and the registry alone |
| AgentSessions.OpenIsAStep | gateway/client.py:123-132 | the same for on_local and the tunnel's local open, also when the send raises |
| AgentSessions.PumpIsAStep | gateway/protocol.py:78-89 | the same for a round of the pump: data, end of file, and a send that raises |
| AgentSessions.ReceiveIsAStep | tunnel/rixi_tunnel.py:211-243 | the same for a frame of the receive loop, of a known session or not: open the target, deliver, or close |
| AgentSessions.CloseAllIsAStep | gateway/protocol.py:113-115 | the same for close_all |
| AgentSessions.EndIsAStep | tunnel/rixi_tunnel.py:218-231 | the same for the end of a receive loop |
| AgentSessions.ArrivalIsASend | gateway/server.py:93-103 | a frame arrives at an agent when the gateway sends it |
| AgentSessions.OthersKeepTheirValue | gateway/protocol.py:61-72 | a step that leaves the rest of the state alone keeps every other connection's value |
| AgentRuns.ActedAlike | gateway/protocol.py:61-115 | what a call to a connection object does, and whether it can be made, depends only on what the agent can see |
| AgentRuns.StepIsCalls | tunnel/rixi_tunnel.py:211-243 | every step of the tunnel is to each connection one call of its object, or at most the gateway's reading a frame and one frame arriving, and these calls can be made |
| AgentRuns.RunIsCalls | gateway/client.py:121-132 | in any run of the whole tunnel, a connection that has come in is, as far as its agent can see, what the run's calls make of a new one |
| AgentRuns.PerformAll | gateway/protocol.py:78-115 | the object after any sequence of calls that can be made has the value the calls' functions give |
| AgentRuns.Follow | gateway/protocol.py:61-115 | an object given the calls of any run holds exactly the open writers of its connection's ends, each with what was delivered to it, and its wire and inbox are the run's |
| AgentSessions.AgentConn.OnLocal | gateway/client.py:123-132 | a session is in the map with an open writer exactly if session_open could be sent |
| AgentSessions.AgentConn.PumpRound | tunnel/rixi_tunnel.py:88-100 | data goes out on the wire in order, or the session ends |
| AgentSessions.AgentConn.Receive | tunnel/rixi_tunnel.py:220-229 | the dispatch of the oldest frame, of a known session or not |
| AgentSessions.AgentConn.CloseAllSessions | tunnel/rixi_tunnel.py:124-126 | the loop over the keys closes every session without telling |
| PolicyMeaning.AllowedExactly | gateway/policy.py:120-203 | an action is allowed if and only if each constraint is met on its own, in terms of the fields of the policy, identity and resource: jwt, operation, the two provider lists, role, identity and region lists, five ceilings, and the budget for admins too; for the first of the identity's roles that the table knows, or else the default one |
| PolicyMeaning.RoleOfExactly | gateway/policy.py:120-124 | the role a decision goes by, by positions in the identity's roles |
| PolicyMeaning.DenialNamesTheFirst | gateway/policy.py:137-194 | a denial's reason is that of the first constraint not met, the budget last, and it carries no security |
| PolicyMeaning.PermissionEnforces | gateway/policy.py:196-203 | a permission enforces each flag exactly if the global policy, the resource or the request asks for it |
| PolicyTightening.EvaluateTightensOnly | gateway/policy.py:91-203 | stricter flags, lists, quotas, role tables, resource rules, requests or higher usage never turn a denial into a permission, and where both allow, security only grows |
| PolicyTightening.AdminIsAllowedMore | gateway/policy.py:126-159 | whatever an identity is allowed, it is allowed with the admin role too, with the same security |
| PolicyTightening.UserCannotLoosen | gateway/policy.py:197-202 | the resolved security is the least that meets the global floor, the resource's and the request |
| PolicyTightening.EmptyIdentityListOpensTheResource | gateway/policy.py:165-166 | a narrower (empty) identity list that allows what the list denied |
| PolicyTightening.NarrowingLoosensExactly | gateway/policy.py:165-166 | narrowing an identity list turns a denial into a permission exactly if it empties the list of a resource that would otherwise admit the identity |
| PolicyTightening.NarrowingOpsLoosensExactly | gateway/policy.py:144-148 | narrowing a role's operations turns a denial into a permission exactly if it empties the list, for an identity in the role that would be allowed with every operation, and an operation not listed |
| PolicyTightening.NarrowingProvidersLoosensExactly | gateway/policy.py:150-158 | narrowing a role's providers does exactly if the list reached beyond the global one and no longer does, has the provider asked for, and nothing else denies |
| PolicyTightening.NarrowerRolesThatLoosen | gateway/policy.py:144-158 | an input for each of the two |
| PolicyTightening.TightenAllowlistMonotone | gateway/policy.py:96-104 | a narrower admin list gives a narrower combined list, or a violation |
| Lifecycle.StepKeepsInv | gateway/server.py:385-582 | every stretch of every task keeps the invariant: a record is marked exactly while a launch on it is open in the history, launches on a record are separated, the table's record is unmarked while the box is up, and whoever is on it has a marked or failed provision or an imminent signal to wait for |
| LifecycleRecords.RecordAfter | gateway/server.py:385-582 | field by field: which events change a record's directory, creation, teardown mark, provisioning mark, status and waiters, and how |
| LifecycleRecords.RestAfter | gateway/server.py:385-582 | the same for the table's entry, the box and the tasks in flight |
| LifecycleRecords.DirectoryExactly | gateway/server.py:453-483 | in every run, a record has a directory and a time of creation exactly if a box came up on it or a provision of it succeeded |
| LifecycleNotices.HeardAfter | gateway/server.py:406-432 | every request is answered, "reused" exactly if a box is registered, and every signal is one more entry of what its client hears |
| LifecycleNotices.EveryReuseIsNoticed | gateway/server.py:420-425 | in every run, the answers "reused" to a client are as many as the compute_ready's sent for them and those still to be sent |
| LifecycleNotices.ReuseIsSignalled | gateway/server.py:398-425 | in every run, a client answered "reused" has been signalled after that answer, or has a compute_ready on its way that can be sent |
| LifecycleWaiters.StopsBeingHeldExactly | gateway/server.py:502-520 | a held client that goes on waiting stops being held if and only if a teardown removes the table's record, with the client on it and not taken over by a box-up |
| LifecycleWaiters.NoLostWakeUpExactly | gateway/server.py:406-520 | in every run, a client answered "not up yet" and not signalled since is held, on the record or about to be signalled, if and only if since some such answer no step removed its record from under it |
| LifecycleWaiters.NoLostWakeUp | gateway/server.py:406-493 | in every run without such a step, whatever else teardowns do, every waiting client is held |
| LifecycleWaiters.WaitingHasAReason | gateway/server.py:406-493 | with the box serving nobody is held; with it gone, a held client's provision is marked in flight or the last one failed |
| LifecycleWaiters.WaitsExactly | gateway/server.py:398-432 | what waiting means, by positions in the history |
| LifecycleWaiters.BoxUpSignalsEachWaiterOnce | gateway/server.py:491-493 | box-up empties the waiters, and signals each exactly once and nobody else |
| LifecycleRuns.LaunchesAreSeparated | gateway/server.py:428-431 | between two launches on one record there is a box-up of it or a failed provision |
| LifecycleFlights.FlightsExactly | gateway/server.py:406-464 | every event changes the number of provisions in flight by one exactly as it launches or ends one |
| LifecycleFlights.TwoInFlightExactly | gateway/server.py:406-582 | a run reaches a state with two provisions in flight if and only if one of its events asks for the box while it is down, one is in flight and the record is not marked |
| LifecycleFlights.OneProvisionInFlight | gateway/server.py:426-431 | at most one provision in flight in every run in which no box is lost, and no record removed with the box down, in the middle of one |
| LifecycleFlights.ExposedExactly | gateway/server.py:434-520 | exactly such an event leads to a state in which asking for the box launches a second provision |
| LifecycleFlights.LossLetsASecondLaunch | gateway/server.py:428-431 | after each such event the next request makes it two |
| LifecycleFlights.EventKeepsOneInFlightIff | gateway/server.py:406-582 | for every event: it leaves at most one in flight unless, with one in flight, it is a request, prewarm or heal of a box that is down with an unmarked record, and then it does not |
| LifecycleExamples.TwoProvisionsInFlight | gateway/server.py:426-431 | a run without a teardown that ends with two provisions in flight |
| LifecycleExamples.LostMidProvision | gateway/server.py:434-464 | whenever a box goes during its provision, with an unmarked record, the next request launches another |
| LifecycleFlights.LostBoxIsHealed | gateway/server.py:434-451 | a lost spot box has a healing under way exactly unless its record is gone or being torn down, and the healing launches a provision and marks the record |
| LifecycleFlights.TearingDownEndsHealing | gateway/server.py:443-446 | after a teardown has begun on a record, no loss of the box is healed while the record stands |
| LifecycleExamples.FailedTeardownEndsHealing | gateway/server.py:510-520 | a run in which a teardown fails, the spot box is lost after it, and nothing heals it |
| LifecycleExamples.TeardownForgetsAWaiter | gateway/server.py:502-509 | a run after which a client waits for ever on a resource that is up |
| ResourceTable.Table.Request | gateway/server.py:418-432 | what a request does to the table, and whether it launches; other names keep theirs |
| ResourceTable.Table.ResourceUp | gateway/server.py:467-483 | the record is raised and unmarked, and held for the waiters |
| ResourceTable.Table.BeginTeardown | gateway/server.py:502-511 | a box with a directory is marked for teardown; another record goes at once |
| Frames.FramesOfSendAll | proxy/proxy.py:349-352 | reading inverts writing: a stream of sent messages carries exactly those, in order |
| Frames.SendAllIsInjective | proxy/proxy.py:349-352 | no two sequences of messages make the same stream |
| Frames.SendAllOfFrames | proxy/proxy.py:723-744 | writing inverts reading: frames and rest make up the stream, no byte lost or moved |
| Frames.FramesOnlyGrow | clients/rixi_transport.py:190-205 | more bytes never change the frames already read |
| Frames.LengthIsBigEndian | proxy/proxy.py:349-352 | a frame's length is read from four bytes, the most significant first |
| Frames.SentFrameIsRead | proxy/proxy.py:349-352 | a message is sent exactly if its length fits four bytes, and is then read back alone |
| Frames.ConsumeStream | clients/rixi_transport.py:190-206 | for any chunks, the frames of the whole stream; whatever messages were sent, exactly those |
| Frames.StreamResponse | proxy/proxy.py:723-744 | for any chunks, the frames of the whole stream; whatever messages were sent, exactly those |
| Frames.ProcessStream | agent/ai_agent_framework.py:86-129 | for any chunks, the frames of the chunks in time, up to the first that stops the reader; whatever messages were sent, the first of them, and all if nothing is late or stops it |
| Frames.AgentReadsAPrefix | agent/ai_agent_framework.py:86-129 | the agent's frames are the first of the stream's, and all of them unless it is late or stopped |
| Frames.SentIsRead | proxy/proxy.py:349-352 | a stream of sent messages carries exactly those, with nothing left over, for any messages under 2^32 bytes |
| JsonPeel.PeelingEndsIff | clients/rixi_transport.py:214-217 | the peel loop ends if and only if the text is a row of whole objects |
| JsonPeel.IncompleteObjectSpins | clients/rixi_transport.py:177-187 | at an object that cannot be read the loop keeps the same text for ever |
| JsonPeel.SpacesExactly | clients/rixi_transport.py:177-187 | what counts as white space, by code points |
| JsonPeel.WhiteSpaceIsPassedOver | clients/rixi_transport.py:177-187 | blanks, tabs, line feeds and carriage returns before an object change nothing about what is handed over |
| JsonPeel.Peel | clients/rixi_transport.py:214-217 | for any text, the loop hands over its objects in order, and spins for ever exactly if the text is not a row of whole objects |
| JsonPeel.EveryObjectIsHandedOver | clients/rixi_transport.py:177-187 | objects written one after another, with white space anywhere, are a row of whole objects, and come out as they went in |
| JsonPeel.HandOver | clients/rixi_transport.py:206-217 | the objects of all frames that can be decrypted, up to the first frame the loop spins on, if there is one |
| JsonPeel.StreamDeliversEveryObject | clients/rixi_transport.py:190-217 | from sealed, framed and cut messages of whole objects the client hands over every object in order |
| Dedup.UsedIsLast | clients/rixi_client.py:2113-2123 | a call keeps the cache the last 1024 of the recency order of the whole history |
| Dedup.AmongTheLast | clients/rixi_client.py:2111-2117 | an id is among those exactly if it was used and fewer than 1024 distinct others since |
| Dedup.RequestLog.IsDuplicate | clients/rixi_client.py:2113-2123 | true exactly for an id used before with fewer than 1024 distinct others since; calls without an id are not recorded |
| ResponseCache.OthersAreSinceTheOldest | proxy/proxy.py:260-264 | all other keys in the cache were set since the oldest one was |
| ResponseCache.EvictionKeeps | proxy/proxy.py:260-270 | making room pushes an entry out only after max_size sets since its own |
| ResponseCache.SimpleCache.Get | proxy/proxy.py:250-258 | a miss leaves no entry of the key, and a hit the cache as it was; a hit is the latest response set since the last clear and younger than the ttl; with a steady clock a miss was never set, has expired, or has seen max_size sets since |
| ResponseCache.SimpleCache.Set | proxy/proxy.py:260-270 | the entry is put in, the oldest going first if there is no room; the size stays within max_size; with max_size below 1 the call fails and nothing changes |
| ResponseCache.SimpleCache.ClearAll | proxy/proxy.py:272-273 | nothing set before is found again |
| AuditQueue.LeaveOut | gateway/audit.py:121-124 | dropping an event anywhere leaves an ordered subsequence |
| AuditQueue.SubsequencePicks | gateway/audit.py:117-143 | what an ordered subsequence is |
| AuditQueue.NoLonger | gateway/audit.py:117-143 | a subsequence that is as long is the whole |
| AuditQueue.Sink.Emit | gateway/audit.py:117-126 | the event is queued; a full queue loses its oldest, counted; the queue is a suffix of what was emitted, and handed ++ queue an ordered subsequence of it |
| AuditQueue.Sink.NextBatch | gateway/audit.py:128-137 | between 1 and 256 events, the oldest, in order, and fewer only if the queue is empty |
| AuditQueue.Sink.NothingDroppedNothingLost | gateway/audit.py:117-143 | with nothing dropped, handed ++ queue is all that was emitted |
| Routing.SortIsStable | clients/rixi_client.py:1060-1071 | insertion by priority gives the stable sort |
| Routing.StableSortIsUnique | clients/rixi_client.py:1151 | there is only one, so the insertion and the library's sort agree |
| Routing.AddedIsTable | clients/rixi_client.py:1056-1071 | adding a listing keeps every row the stable sort of the servers listing its action |
| Routing.InsertByPriority | clients/rixi_client.py:1063-1071 | the inner loop inserts before the first entry of greater priority |
| Routing.BuildRoutingTable | clients/rixi_client.py:1049-1073 | every row is the stable sort by priority of the servers listing its action, and every listed action has a row |
| Routing.CanHandle | clients/rixi_client.py:1109-1127 | true exactly if some row's text is the action, or a beginning of the action followed by a star |
| Routing.FindServers | clients/rixi_client.py:1129-1151 | the first entry of each name among the row of the action and the rows that stand for it, stably sorted |
| Routing.FoundExactly | clients/rixi_client.py:1129-1151 | the names found are those of the servers that list the action, or a beginning of it followed by a star, each once, in nondecreasing priority, 10 where none is given |
| Routing.FoundServers | clients/rixi_client.py:1129-1151 | with one server to a name, a server is found exactly if it lists the action, or a beginning of it followed by a star |
| Routing.HandledMeansFound | clients/rixi_client.py:1109-1127 | an action can be handled if and only if a server is found for it, and if and only if some server lists it or a beginning of it followed by a star |
| Routing.RouteRequest | clients/rixi_client.py:1153-1184 | the first answer that does not deny its success, in order; the last error if there is none; and a KeyError at a nameless server reached before |
| Scheduler.SelectResource | gateway/scheduler.py:32-58 | a box on offer that meets each requirement, whose rate (the spot rate for a spot box that has one) is least among all such, no rate counting as infinite and ties going to the smaller name; none exactly if no box is such |
| Scheduler.EligibleExactly | gateway/scheduler.py:15-29 | each requirement binds on its own: provider, region, gpu whatever its capitals, counts and sizes, and x86 where no architecture is named |
| Scheduler.PriceExactly | gateway/offerings.py:50-60 | a resource's price is the spot rate, the listed rate, or none |
| Scheduler.OrderDoesNotMatter | gateway/scheduler.py:56-57 | the choice is the same for every order of the catalog |
| Scheduler.MoreIsNeverCheaper | gateway/scheduler.py:15-29 | asking for more never gives a box with a lower rate, nor one where asking for less gave none |
| Scheduler.NameLessExactly | gateway/scheduler.py:56 | the order on names that decides ties, by the first place where they differ |
| Chunker.StreamChunks | proxy/proxy.py:1014-1023 | the chunks concatenate to the words joined by spaces; each holds its share of the words, one for fewer words than the divisor d, else their number divided by d; so there are at least d of them, and at most 2d - 1: 15 for 8, 19 for 10 (proxy/proxy.py:1111-1120) |
| Chunker.FewChunks | proxy/proxy.py:1015-1017 | the bound on the number of chunks |
| ShellEscape.EscapedIsOnePass | clients/rixi_client.py:795 | the four chained replacements equal one pass that puts a backslash before each special character |
| ShellEscape.UnescapedIsMisread | clients/rixi_client.py:795 | what the escaping prevents: put in as it is, the first $ or ` expands, the first " ends the word, and a backslash goes with a line feed after it |
| ShellEscape.ReadInvertsEscape | clients/rixi_client.py:795-802 | read by the shell's double-quote rules, the escaped value is the value: no expansion, no early end, and what follows is untouched |
| Claims.RedeemsExactly | gateway/claims.py:49-59 | in any sequence of calls, a redemption succeeds if and only if the token was created before it, within its ttl, and since then neither released, nor failed, nor redeemed |
| Claims.RedeemedAtMostOnce | gateway/claims.py:49-59 | in any sequence of calls, no token is redeemed twice |
| Claims.NeverAfterItsEnd | gateway/claims.py:49-68 | in any sequence of calls, no redemption succeeds after its claim was released, failed or redeemed |
| Claims.WiredAsCreated | gateway/server.py:223-228 | a redemption that succeeds wires the box to the client the token was created for, within its ttl |
| Claims.ClaimTells | gateway/claims.py:17-68 | a created token's claim keeps its terms, and is pending exactly while nothing has ended it |
| Claims.Store.Create | gateway/claims.py:40-44 | the store's next state and history, with a pending claim under a new token |
| Claims.Store.Redeem | gateway/claims.py:49-59 | the store's next state, and a claim exactly if this redemption of its history succeeds |
| Claims.Store.Release | gateway/claims.py:64-68 | the claim is released, whatever it was |
| Claims.Store.ProvisionFailed | gateway/server.py:592-605 | the claim has failed, whatever it was |

## Left out

- Cryptography and authentication: keys, AES-GCM, proofs and tokens are library calls; a sealed frame stands for
  its plaintext, and a frame that cannot be opened is one for which the opening function says so.
- The direct per-node-port path of the gateway (gateway/server.py:184-193) and the two-party listen mode of
  tunnel/rixi_tunnel.py: their session ids are disjoint from the brokered ones.
- A second box that registers under a resource's node id while the first is still connected: a resource has one
  box connection at a time, and ephemeral (not reusable) resources follow the claims.
- Provisioning, deprovisioning and connecting to a target are events that succeed or fail; prices are a lookup
  function; clocks, network outcomes and interference at awaits are arguments of the methods or choices of a run.
- reload_policy and changes of the catalog: the tunnel's configuration is fixed for a run.
- Money: real arithmetic without rounding. The fleet's burn rate and cumulative spend are inputs of a decision and
  are not proved to be invariants (a box is counted twice while its destruction is awaited).
- Texts: the euro sign in two reasons is written EUR, lower-casing covers ASCII letters, and allowlists are sets.
- TunnelQuota.QuotaHolds: identities that hold the admin role, and routes to boxes outside the catalog, are not under
  the quota in the program either, so the statement is about an actor that has neither.
- JsonPeel.EveryObjectIsHandedOver: the JSON reader is a parameter that finds a written object whatever follows it, as
  holds for objects in braces; the JSON grammar is not modelled.
- JsonPeel.Peel: stops where the program's loop would go round with the same text for ever, and says so.
- AgentSessions.AgentConn.Receive: the id of a session_open is one the connection has no session for, as ids are new.
- ResponseCache.SimpleCache.Get: the key made from a request's fields is a string.
- Routing.RouteRequest: marking a server unhealthy and transforming requests have no part in the order of attempts.
- Claims.Store.Create: tokens are new, as `secrets` gives them; nothing in the program ever sets the documented status
  "expired".
- AuditQueue.Sink.NextBatch: rows that the database refuses count as handed over, as in the program, which ignores the
  error.
- HTTP routes, the command lines, packaging, the proxy's forwarding, agent workflows and the demos: plumbing with only
  easy facts to prove.
