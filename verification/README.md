# Verification of oheco-broker

A Dafny model of the parts of oheco-broker in which correctness is subtle: the control plane (Go on
SQLite) and the native peer engine (C). The model follows the code's branches, error cases and constants;
the theorems are about every input, every run or every reachable state. `dafny verify dfyconfig.toml`
checks the project.

## How it is organised

| component | files |
|---|---|
| tables and transactions as functions | `Tables`, `AuthTx`, `ConnectionTx`, `ControlTx` |
| the handlers that execute them, statement by statement | `ControlServer` |
| login refresh: server, profile store, manager, protocol, recovery | `AuthInvariants`, `LoginRuns`, `AuthStorage`, `ProfileRuns`, `AuthManager`, `AuthRotation`, `AuthRecovery`, `AuthLimit`, `AuthEnvironment` |
| managed connections: evolution of lineages, no resurrection, transports, session rows, proposals, coordinator | `Lineage`, `LineageSteps`, `NoResurrection`, `Transports`, `SessionRows`, `Proposals`, `Coordinator` |
| TURN: joined read, cache, interleaving system, revocation barrier, credential lifetimes, refresher, what handlers revoke and what they leave untold, manager, byte rates, allocations, quota | `TurnJoin`, `TurnCache`, `TurnSystem`, `TurnBarrier`, `TurnLifetime`, `TurnRefresher`, `TurnScopes`, `TurnWithdrawals`, `TurnUntold`, `TurnManager`, `TurnRates`, `TurnAllocations`, `Quota` |
| signaling mailbox and sockets | `Signaling`, `SignalingRuns` |
| UDP over QUIC datagrams, memory budget | `Bytes`, `UdpWire`, `UdpReceiver`, `UdpDelivery`, `UdpArrival`, `UdpSender`, `UdpChannel`, `MappingMemory` |
| START codec, UTF-8 | `Utf8`, `StartCodec`, `StartProtocol`, `StartEncoder` |
| JSON field scanner, timestamps | `Json`, `JsonScan`, `JsonAgree`, `JsonLoops`, `Calendar` |
| sample identifiers and secrets for concrete runs | `Samples` |

Code that updates state in place is a class or a method with loops, proved equal to a specification
function; the protocols are state machines over those functions, with crashes, loss, repetition, delay and
interleaving as explicit steps.

## Abstractions

- A SQLite transaction is one atomic step, because the database has a single connection.
- SHA-256 is injective, and random secrets and identifiers are new when drawn. A digest is therefore the
  secret it was made from.
- Time is an input that does not go back in the control plane; on the TURN path the monotonic clock only advances
  and the wall clock may be set to anything. A deadline computed from the present time carries a monotonic reading
  too, as Go's times do; one read back from a table has wall time alone.
- Lifetimes are positive, because the server replaces zero by its defaults (internal/control/control.go:144-166).
- Locks of the TURN path are explicit owners in a small-step system; the authority's answer is a map from
  keys to deadlines that changes at any step, and `TurnScopes` proves that map to be the joined read on the tables.
- The relay's library reads one request at a time, and the operating system binds no port that is in use: these two
  facts about code outside the repository are the rules of `TurnAllocations`.
- 64-bit bitmaps of the UDP receiver are sets of bit numbers, with the shift and the 64-packet bound explicit.
- Other clients' transactions are modelled by their effects without their admission checks. That allows
  more runs than the program has, so what holds of these runs holds of the program's.

## What the code does not promise

- Rotation of a login ends at generation 2147483647: from then on every attempt of the profile conflicts and
  writes nothing (`AuthRecovery.LimitConflicts`, `AuthRecovery.RotationEndsAtLimit`), and a run gets there
  (`AuthLimit.LimitReached`).
- A login, logout, account-update or password command that stops after saving the profile and before removing the
  refresh journal leaves a journal that the new login's store refuses. No store clears it; the next such
  command does (`ProfileRuns.RefusedExactly`, `ProfileRuns.InterruptedCommandStrands`,
  `ProfileRuns.StrandedUntilCommand`, `ProfileRuns.CommandHeals`).
- An unrevoked TURN credential whose deadline was read back from the sessions row is usable again after that deadline
  if the wall clock is set back below it before its timer has run. A deadline that a renewal or the longest
  lifetime set cannot be revived that way (`TurnLifetime.SetBackRevives`).
- Two transactions withdraw keys and tell the relay nothing: logout with a static bearer, and the eviction of static
  bearers at a legacy login. They are the only ones (`TurnWithdrawals.WithdrawnIsTold`), both occur
  (`TurnUntold.StaticWithdrawals`), and which keys they withdraw is exact (`TurnWithdrawals.LegacyLogoutWithdraws`,
  `TurnWithdrawals.EvictionWithdraws`). The relay may go on forwarding for such a key on answers given in the first five
  seconds, and gives no yes after them (`TurnUntold.StillForwards`, `TurnUntold.UntoldEndsInFiveSeconds`).
- The byte rate of a second holds while the clock's seconds do not go back (`TurnRates.SetBackDoubles`), and per tenant
  only within the life of its record (`TurnManager.FreshRecordDoubles`).
- The joined TURN read agrees with the step-by-step checks only because a static lineage's bearer never
  belongs to a login, which fresh secrets guarantee (`TurnJoin.StaticBearersNeeded`, `TurnJoin.ReachableHasStaticBearers`).
- The pending usage counter is a wrapping 64-bit sum; the quota decision is exact exactly while it does not
  wrap (`Quota.UsageServer.Record`).
- The length of an empty UDP packet is complete before its fragment arrives; delivery is not affected,
  because completeness is looked at only when a fragment was added (`UdpDelivery.CompleteIffAllBits`).

## Model

| member | source | states |
|---|---|---|
| AuthRecovery.RefreshNeverLockedOut | internal/control/auth_refresh.go:152-239 | over every run of one login with crashes, lost, repeated and late messages and any number of processes on one profile: the server is at the profile's generation or one ahead; when ahead, the journal holds the committed request and resending it returns the stored receipt without a write; Begin always succeeds and no process ever sees stale, inconsistent or ahead storage |
| AuthRecovery.RotationAlwaysCompletes | sdk/c/remote/ob_auth.c:164-238 | from every reachable state with a live authority and a free lock, an idle process can run one rotation to the end: journal empty, process, profile and server agree, generation one higher, and with no attempt open before, the tables are those of exactly one committed refresh |
| AuthRecovery.ServerAcceptsExactly | internal/control/auth_refresh.go:175-209 | the journaled attempt gets a receipt if and only if the authority is live and the attempt is already committed or the generation is below 2147483647 |
| AuthRecovery.LimitConflicts | internal/control/auth_refresh.go:197-202 | at generation 2147483647 every valid attempt of a live login is answered with the conflict and the tables do not change |
| AuthRecovery.RotationEndsAtLimit | internal/control/auth_refresh.go:197-202 | and it stays so: after any run from such a state profile and row are still at that generation, and every attempt for the profile meets the conflict and writes nothing |
| AuthLimit.LimitReached | internal/control/auth_refresh.go:197-202 | the limit is reached: there is a run of the protocol from a fresh login to generation 2147483647 with a live login and an attempt under way, which the server answers with the conflict and no write |
| AuthLimit.ClimbsTo | internal/control/auth_refresh.go:197-230 | from any generation that is ready to rotate, a run leads to every higher one up to the limit |
| AuthRotation.StepKeeps | sdk/c/remote/ob_auth.c:164-238 | every step of server, files, lock, processes and network keeps the invariant that ties server row, profile, journal, process memories and messages together |
| AuthRotation.OnlyOpenAttemptRotates | internal/control/auth_refresh.go:175-233 | a delivered request that changes rows is the open journaled attempt at the profile's generation |
| AuthRotation.StoredReceiptSound | internal/control/auth_refresh.go:190-196 | a replayed receipt is the one of the committed attempt and confirms exactly its successor credentials |
| AuthRotation.RotatePutsServerAhead | internal/control/auth_refresh.go:210-233 | committing the open attempt puts the server exactly one generation ahead with the journal's secrets as its current ones |
| AuthRotation.LoadNeverRefused | internal/cli/auth_store.go:135-188 | Begin under the lock never fails in a reachable state and drops the journal only when it is the residue of a finished rotation |
| AuthRotation.DecideNeverInconsistent | sdk/c/remote/ob_auth.c:184-204 | after a successful Begin the manager never finds stale storage, changed authority or an invalid pending attempt |
| AuthEnvironment.EveryTransactionFits | internal/control/auth_refresh.go:246-305 | every other control-plane transaction is a step the rotation protocol allows for: it leaves this login's row alone except for revoking or removing it, and stores none of the secrets reserved by the open attempt |
| AuthStorage.ProfileAuthStorage.constructor | internal/cli/auth_store.go:130-133 | a store starts without lock, profile or attempt |
| AuthStorage.ProfileAuthStorage.Begin | internal/cli/auth_store.go:135-188 | takes the lock unless borrowed, reloads both files, removes only a residue, and returns the credentials with the journaled attempt of their generation or the exact reason for refusing, a residue that cannot be removed included |
| AuthStorage.ProfileAuthStorage.Prepare | internal/cli/auth_store.go:189-205 | journals the exact attempt before it is sent, or refuses or fails with nothing written |
| AuthStorage.ProfileAuthStorage.Commit | internal/cli/auth_store.go:206-231 | replaces the profile by the confirmed credentials and only then removes the journal; a mismatch or a failed save changes neither file, and a failed removal is an error with the profile saved and the journal kept |
| AuthStorage.ProfileAuthStorage.End | internal/cli/auth_store.go:232-238 | gives the lock back if this store holds it |
| AuthStorage.BeginRefusesExactly | internal/cli/auth_store.go:152-188 | on a matching profile Begin fails if and only if the journal is unreadable for this login or ahead of it; the journal of another login is unreadable |
| ProfileRuns.RefusedExactly | internal/cli/auth_store.go:152-188 | over every run of stores and of login, register, logout, account-update and password commands, with crashes and failed writes anywhere: a store on the profile's own login is refused if and only if the journal of an earlier login is on disk, and then a command saved its profile and none has removed the journal since |
| ProfileRuns.StepKeeps | internal/cli/tenant.go:74-77 | every write of a store or a command keeps the journal either the profile's own or that of an earlier login left by an interrupted command |
| ProfileRuns.InterruptedCommandStrands | internal/cli/tenant.go:257-265 | the refused state is reached: wherever an attempt is journaled, a command that stops after saving a new login and before removing the journal leaves a profile whose store is refused |
| ProfileRuns.StrandedUntilCommand | internal/cli/auth_store.go:165-170 | no store clears it: until a command writes again the profile stays refused and neither file changes |
| ProfileRuns.CommandHeals | internal/cli/tenant.go:356-361 | any command that gets through both of its writes leaves a profile whose store begins with no open attempt |
| AuthManager.Manager.constructor | sdk/c/remote/ob_auth.c:302-322 | a manager starts with the given credentials, nothing pending, no failures, and a first refresh due before access expires |
| AuthManager.Manager.Rotate | sdk/c/remote/ob_auth.c:164-238 | nothing is sent that is not journaled; a request that did not succeed stays in the journal and in memory unchanged; the profile changes only to what the receipt confirms, also when a write fails; success means memory equals profile; the generation never falls; the lock is given back |
| AuthManager.Manager.Attempt | sdk/c/remote/ob_auth.c:176-224 | the same guarantees for the body of the rotation up to its common exit, with the lock still held if it was taken |
| AuthManager.Manager.Choose | sdk/c/remote/ob_auth.c:184-204 | decides resend, fresh attempt, nothing to do or the exact error as the decision function of the protocol does, after adopting newer credentials and nothing else |
| AuthManager.Manager.Exchange | sdk/c/remote/ob_auth.c:212-224 | commits exactly the credentials of a valid receipt; every other answer leaves memory, profile and journal as they were, and a failed write leaves memory and journal so |
| AuthManager.Manager.Schedule | sdk/c/remote/ob_auth.c:149-159 | the next refresh is due strictly before access expiry and not before four fifths of the remaining life less the jitter; an expired token is due at once |
| AuthManager.Manager.Finish | sdk/c/remote/ob_auth.c:225-234 | failures back off by one to sixteen seconds, success resets, and only a refusal of the authority is terminal |
| LoginRuns.SecretsAndDeadlines | internal/control/auth_refresh.go:121-230 | after every run of transactions: access <= refresh <= absolute expiry, at most two access rows per login, all current and previous secrets of all logins pairwise different, and no access row ever got a later deadline |
| LoginRuns.LoginsStaySound | internal/control/auth_refresh.go:121-230 | the login invariant holds in every reachable control plane, and no old digest ever becomes an access row again |
| LoginRuns.EmptyHasSoundLogins | internal/control/auth_refresh.go:83-120 | empty tables satisfy the login invariant |
| LoginRuns.StepKeepsLogins | internal/control/auth_refresh.go:152-239 | each of the control plane's transactions keeps every login sound and extends no access row |
| AuthInvariants.RefreshKeepsLogins | internal/control/auth_refresh.go:203-230 | a refresh, committed or refused, keeps deadlines ordered, secrets apart, at most two access rows, and extends no access row |
| AuthInvariants.RotationRows | internal/control/auth_refresh.go:219-227 | a rotation leaves at most the current and the new access row for its login and does not touch another login's rows |
| AuthInvariants.RotationProofs | internal/control/auth_refresh.go:203-209 | after a rotation the login's three secrets are pairwise different and shared with no other login |
| AuthInvariants.IssueKeepsLogins | internal/control/auth_refresh.go:121-148 | a new login with fresh secrets keeps every login sound |
| AuthInvariants.FrameKeepsLogins | internal/control/auth_refresh.go:246-305 | a transaction that only revokes or removes logins and access rows keeps every login sound |
| ControlServer.Server.constructor | internal/control/control.go:131-247 | the server starts with empty tables |
| ControlServer.Server.IssueAuthSession | internal/control/auth_refresh.go:121-148 | refuses the seventeenth live login, else inserts the login and its first access row exactly as the transaction function says |
| ControlServer.Server.RefreshAuth | internal/control/auth_refresh.go:152-239 | the handler's checks and statements in order leave exactly the tables and the reply of the refresh transaction |
| ControlServer.Server.Rotate | internal/control/auth_refresh.go:210-230 | its four statements together are the rotation of the protocol |
| ControlServer.Server.RevokeAuthSession | internal/control/auth_refresh.go:246-305 | collects every affected session and broker before the deletes, and the loop of deletes leaves exactly the revoked tables |
| ControlServer.Server.DeleteTransports | internal/control/auth_refresh.go:292-299 | deleting sessions one at a time removes exactly those sessions and their tokens |
| ControlServer.Server.Logout | internal/control/accounts.go:248-299 | a bearer of a login revokes the whole login, a static bearer revokes exactly the lineages it opened with their transports and itself |
| ControlServer.Server.NewestDevice | internal/control/connections.go:329-333 | finds the live device row with the latest deadline, or none exactly when there is none |
| ControlServer.Server.Room | internal/control/connections.go:312-368 | limits and reuse checks give exactly the specified refusal, with both counts excluding the session to be replaced |
| ControlServer.Server.Verdict | internal/control/connections.go:235-368 | with the newest device found by search, everything before the first write decides exactly as the verdict of the transaction |
| ControlServer.Server.Open | internal/control/connections.go:369-404 | the statements replace the transport, record the new generation and forget history older than 256 generations, exactly as the transaction says |
| ControlServer.Server.ConnectionSession | internal/control/connections.go:235-411 | the whole handler leaves exactly the tables and the reply of the transaction whose runs are studied below |
| ControlServer.Server.PersistObserved | internal/control/connections.go:94-113 | marks a lineage exactly while it still shows the transport that gave the evidence, and reports whether it changed anything |
| ControlServer.Server.CloseConnection | internal/control/connections.go:438-446 | the statements both handlers share revoke the lineage and delete all its transports with their tokens |
| ControlServer.Server.DeleteConnection | internal/control/connections.go:415-453 | closes the lineage if and only if the caller still stands and is the tenant's account or the broker's own device; otherwise nothing changes, and a bad principal is told apart from a missing lineage |
| ControlServer.Server.DeleteSessionLineage | internal/control/connections.go:455-498 | handles exactly the sessions that have a lineage; closes it if and only if the caller still stands and is the account, the broker's device or that very session; otherwise nothing changes |
| ControlServer.Server.PruneConnections | internal/control/connections.go:505-539 | the retire, delete and forget statements, each reading what the one before left, are the one pruning step |
| ControlServer.Server.DeleteBroker | internal/control/signaling.go:166-194 | if and only if the account still stands and owns the broker: revokes, deletes tokens and the broker row, whose cascade removes its sessions, lineages and history; otherwise nothing changes |
| ControlServer.Server.Silence | internal/control/signaling.go:304-336 | every lineage of the broker is revoked and every transport of it deleted |
| ControlServer.Server.OfflineBroker | internal/control/signaling.go:304-336 | if and only if the caller is the broker's own device and still stands, the lease ends and the broker is silenced; otherwise nothing changes |
| ControlServer.Server.RotateDevice | internal/control/signaling.go:195-243 | if and only if the account still stands, owns the broker and the lease is over: silences the broker, replaces its device rows by one bounded by the login's deadline, and renews the lease; otherwise nothing changes |
| ControlServer.Server.UpdateAccountCredentials | internal/control/accounts.go:407-481 | refuses exactly when the caller's login no longer stands, the version changed, the tenant is missing or the name is taken, with nothing written; else bumps the version, revokes everything issued under the old one and issues replacement credentials of the caller's kind under the new one, which the login limit never refuses |
| ControlServer.Server.UpdateCapabilities | internal/control/accounts.go:690-741 | refuses on a changed version, else changes status and relay at the same version and, without relay, drops forced transports and every approval |
| NoResurrection.RevokedNeverReturns | internal/control/connections.go:230-271 | once a lineage is revoked, after any run of all transactions, pruning, broker deletion and version bumps included, every request of its caller for that connection and broker is denied and changes nothing |
| NoResurrection.BarredIsDenied | internal/control/connections.go:256-271 | a barred caller is refused before any write |
| NoResurrection.EvolvesKeepsBarred | internal/control/connections.go:505-539 | whatever a transaction does, a barred caller stays barred |
| NoResurrection.PrunedCallerIsGone | internal/control/connections.go:518-531 | pruning forgets a tombstone only when its caller can never be admitted again |
| NoResurrection.StepEvolves | internal/control/control.go:675-698 | every transaction, maintenance included, follows the evolution relation and keeps the stored lineages sound; only opening a session changes a transport |
| NoResurrection.EmptyIsSound | internal/control/control.go:347-399 | the empty control plane is sound, so every reachable one is |
| LineageSteps.RefreshEvolves | internal/control/auth_refresh.go:210-230 | a refresh never revives a finished login and gives it a digest nobody had |
| LineageSteps.LogoutEvolves | internal/control/auth_refresh.go:246-305 | a logout only revokes and removes |
| LineageSteps.ResetTenantEvolves | internal/control/accounts.go:443-465 | a reset moves the version forward and revokes what it had issued |
| LineageSteps.DeleteBrokerEvolves | internal/control/signaling.go:180-188 | a lineage disappears with its broker, whose identifier never comes back |
| LineageSteps.PruneEvolves | internal/control/connections.go:511-534 | a lineage disappears only with a dead caller, and tombstones stay |
| LineageSteps.ForgetLoginsEvolve | internal/control/control.go:695-695 | a finished login is forgotten only when no token, connection or session refers to it, and never reappears |
| Transports.OneLiveTransport | internal/control/connections.go:350-404 | in every reachable control plane a lineage's only session row is its current one, its history has pairwise different generations of which the current is the latest, and at most 257 rows |
| Transports.EndedForGood | internal/control/connections.go:163-181 | a transport that was replaced, closed or revoked stands in no later state |
| Transports.RunKeepsTransports | internal/control/connections.go:369-404 | every run keeps the relation between lineages, history and session rows |
| Transports.EmptyHasSoundTransports | internal/control/control.go:347-399 | the empty control plane satisfies the transport invariant |
| Transports.WindowSize | internal/control/connections.go:398-401 | distinct generations in a window of width w are at most w rows |
| SessionRows.RunKeepsRows | internal/control/connections.go:369-404 | over every run session rows, their tokens and the lineages that show them agree: a live session has a token, every token of a session row has its tenant, broker, login and deadline, and a lineage's current session row the lineage's tenant and broker |
| SessionRows.StepKeepsRows | internal/control/signaling.go:500-556 | each transaction keeps that agreement, renewal of a session included |
| SessionRows.EmptyHasSoundRows | internal/control/control.go:347-399 | empty tables satisfy it |
| Proposals.AtMostOneAhead | internal/control/connections.go:290-404 | with lost, late and repeated messages and any other transactions between: the stored generation is the client's or one more, then the stored request is the client's pending one, and no request commits twice |
| Proposals.Settled | sdk/c/remote/peer/coordinator.c:115-149 | a reply settles the client only at a generation that is not behind it |
| Proposals.ReplayReturnsSame | internal/control/connections.go:290-305 | resending the committed pending proposal changes nothing, returns the same session and generation or reports its expiry, and settles the client |
| Proposals.StaleNeverCommits | internal/control/connections.go:306-368 | a proposal other than the pending one, or one that committed already, never changes the tables |
| Proposals.OnlyPendingOpens | internal/control/connections.go:306-368 | whatever opens a session is the client's uncommitted pending proposal at the client's own generation |
| Proposals.ExecutionKeeps | sdk/c/remote/peer/coordinator.c:59-151 | every action of client, network and control plane keeps client, rows, wire and commits in step |
| Coordinator.Peer.constructor | sdk/c/remote/peer/coordinator.c:59-151 | a peer starts undiscovered, at generation 0 with nothing pending |
| Coordinator.Peer.OpenSession | sdk/c/remote/peer/coordinator.c:60-151 | nothing is sent before the server was discovered, and what discovery found never changes; the proposal sent is the kept one if there is one, resent unchanged once after a refused bearer was refreshed; it is dropped exactly when the answer settles the client; session and bearer change only on a grant; an unmanaged session touches neither generation nor proposal |
| Coordinator.Peer.Discover | sdk/c/remote/peer/coordinator.c:63-75 | discovery succeeds once and for all, unless the server cannot be reached |
| Coordinator.Peer.Propose | sdk/c/remote/peer/coordinator.c:78-151 | the managed half: the same proposal until an answer settles it, with the one retry after a refresh |
| Coordinator.Peer.DelayNext | sdk/c/remote/peer/coordinator.c:201-214 | the delay is the initial one doubled once per earlier attempt, capped, plus at most a quarter of jitter and never past the maximum |
| TurnJoin.JoinRefinesSteps | internal/control/turn_authorization.go:10-91 | the joined read allows a key if and only if the step-by-step session, broker and lineage checks allow it, given that a static lineage's bearer has no login |
| TurnJoin.EvidenceAgrees | internal/control/turn_authorization.go:71-81 | the joined read reports revocation evidence exactly when the lineage check would observe it, names that lineage and then refuses |
| TurnJoin.ValidExactlyUntil | internal/control/turn_authorization.go:66-91 | on unchanged rows an allowed key is allowed at time t if and only if t is before the returned deadline |
| TurnJoin.LineageColumns | internal/control/connections.go:115-162 | the lineage columns of the join decide exactly what the connection check decides, evidence included |
| TurnJoin.ReachableHasStaticBearers | internal/control/connections.go:334-336 | the invariant that refinement needs holds in every reachable control plane |
| TurnJoin.StaticBearersNeeded | internal/control/turn_authorization.go:10-35 | without it there are tables on which the join allows and the steps refuse |
| TurnScopes.RevokersBeginDenied | internal/control/control.go:647-673 | after any run of transactions, every scope the next handler passes to revokeTenant, revokeBroker or revokeSession is refused by the tables it committed, so a revoker of that scope begins with its scope denied: the assumption of the barrier theorem |
| TurnScopes.ToldScopesAreDenied | internal/control/auth_refresh.go:306-316 | logout, reset, relay withdrawal, broker deletion, offline, device rotation, replacement, observed revocation, close, delete and disapproval: the committed tables deny every key of each scope told, at any time; `TurnWithdrawals.WithdrawnIsTold` is the other direction |
| TurnScopes.ReadIsTheQuery | internal/control/turn_authorization.go:10-91 | the map of grants and deadlines that the relay's callers read answers at every later time exactly as the joined query on the same tables |
| TurnScopes.RefusedStays | internal/control/turn_authorization.go:66-91 | on unchanged rows a refused key stays refused |
| TurnScopes.MarkedDenies | internal/control/connections.go:94-113 | evidence against the transport a lineage shows ends the lineage, so that transport is denied even while its session row is left |
| TurnWithdrawals.WithdrawnIsTold | internal/control/accounts.go:199-298 | after any run of transactions, a key that the joined read allows before the next transaction and refuses after it lies in a scope that the handler revokes on the relay, if and only if the transaction is neither a logout with a static bearer nor the eviction of static bearers at a legacy login |
| TurnWithdrawals.TellsOrLeaves | internal/control/auth_refresh.go:306-316 | every other transaction either tells the relay about an allowed key or leaves all the rows it rests on good |
| TurnWithdrawals.GoodExactly | internal/control/turn_authorization.go:10-91 | the joined read allows a key exactly when each of the rows it rests on is good at that time: tenant, broker and session, and for a managed session its lineage, caller, device and token |
| TurnWithdrawals.EmptyIsReady | internal/control/control.go:144-166 | empty tables under a configuration as the server completes it meet all the invariants these results start from |
| TurnWithdrawals.LegacyLogoutWithdraws | internal/control/accounts.go:279-298 | a logout with a static bearer withdraws exactly the allowed keys of lineages this bearer opened, and tells the relay nothing |
| TurnWithdrawals.EvictionWithdraws | internal/control/accounts.go:203-209 | an eviction withdraws exactly the allowed keys of static lineages whose bearer is evicted, and tells the relay nothing |
| TurnUntold.StaticWithdrawals | internal/control/accounts.go:199-298 | both happen: a run from empty tables reaches a state in which each of the two withdraws an allowed key untold |
| TurnUntold.NoYesAfterFiveSeconds | internal/control/turn_authorization_cache.go:83-102 | under every interleaving: five seconds after the authority began to refuse a key, and while it does, nobody is answered yes for it |
| TurnUntold.UntoldEndsInFiveSeconds | internal/control/turn_authorization_cache.go:83-167 | so a withdrawal the relay is not told about ends its yes answers within five seconds of the commit, as long as no later transaction grants the key again |
| TurnUntold.StillForwards | internal/control/turn.go:716-746 | until then forwarding can go on: for every withdrawn key there is a run in which a packet that arrives after the commit is forwarded |
| TurnBarrier.NoForwardAfterRevocation | internal/control/turn.go:567-610 | under every interleaving of cold reads, refresher, mints, renewals, expiries and writers: once a revocation has returned, and while the authority keeps refusing its scope, no write for that scope is possible |
| TurnBarrier.PositiveIsBacked | internal/control/turn_authorization_cache.go:83-167 | whoever is answered yes is backed by a positive read of that key begun less than five seconds ago whose deadline lies ahead |
| TurnBarrier.WitnessedWhenGranted | internal/control/turn_authorization_cache.go:192-252 | a read is recorded as positive only while the authority grants the key and with the authority's own deadline |
| TurnBarrier.CacheNeverOverflows | internal/control/turn_authorization_cache.go:104-167 | the cache never holds more entries than its limit in any reachable state |
| TurnBarrier.ExecutionKeeps | internal/control/turn.go:716-746 | every step of every thread keeps gates, cache and barrier sound |
| TurnBarrier.StepKeeps | internal/control/turn.go:716-746 | each single step does |
| TurnLifetime.DeadNeverUsed | internal/control/turn.go:516-565 | under every interleaving of renewals, timers, revokers and forwarders: a credential that was revoked or whose deadline passed is usable in no later state; no forwarder, however far it had come, writes for it and no renewal moves it; only a deadline read back from the sessions row needs a wall clock that is not set back below it |
| TurnLifetime.DeadlinesOnlyGrow | internal/control/turn.go:531-549 | over every run deadlines only grow, by their monotonic readings when both have one and by wall time otherwise, and a revoked credential stays revoked with its deadline |
| TurnLifetime.PassedForGood | internal/control/turn.go:531-549 | a passed deadline never moves and stays passed; one without a monotonic reading, while the wall clock stays at or above it |
| TurnLifetime.SetBackRevives | internal/control/signaling.go:768-772 | that condition is exact: a passed, unrevoked credential can be live again after setting the wall clock back if and only if its deadline was read back from the sessions row, which has wall time alone |
| TurnLifetime.TimerKillsOnlyPassed | internal/control/turn.go:556-565 | a timer revokes only a credential whose deadline, read under its gate, has passed, with no renewal in between |
| TurnLifetime.LivesUntilDeadline | internal/control/turn.go:556-565 | over every run, whatever timers fired before which renewals: a credential that no revoker touches and that is found revoked has a current deadline that has passed |
| TurnCache.SettledFits | internal/control/turn_authorization_cache.go:151-163 | admitting an answer to a full cache evicts a victim first, so the limit holds |
| TurnRefresher.StalePointerIgnored | internal/control/turn_authorization_cache.go:228-251 | over every run: once the entry a refresher is reading for was replaced, evicted, swept or invalidated, the result it comes back with, however much later, leaves the cache as it is |
| TurnRefresher.StaleForGood | internal/control/turn_authorization_cache.go:233-238 | a pointer that is no longer the key's entry never becomes it again |
| TurnCache.TurnAuthorizationCache.constructor | internal/control/turn_authorization_cache.go:51-78 | an empty cache whose limit is the configured one inside its bounds |
| TurnCache.TurnAuthorizationCache.Lookup | internal/control/turn_authorization_cache.go:83-102 | hit, stale refusal or miss exactly as specified, touching only the entry hit |
| TurnCache.TurnAuthorizationCache.Announce | internal/control/turn_authorization_cache.go:124-133 | forgets the key and announces the cold read unless closed |
| TurnCache.TurnAuthorizationCache.Oldest | internal/control/turn_authorization_cache.go:151-160 | finds an entry with the smallest use stamp |
| TurnCache.TurnAuthorizationCache.Settle | internal/control/turn_authorization_cache.go:136-165 | retries an invalidated read, denies a stale one, else stores the answer after evicting the oldest entry of a full cache |
| TurnCache.TurnAuthorizationCache.Invalidate | internal/control/turn_authorization_cache.go:169-186 | drops exactly the entries in scope and flags the cold read if it is in scope |
| TurnCache.TurnAuthorizationCache.Sweep | internal/control/turn_authorization_cache.go:203-217 | drops idle entries and returns the rest with their pointers |
| TurnCache.TurnAuthorizationCache.Refresh | internal/control/turn_authorization_cache.go:228-251 | renews or drops the very entry the read was for, and asks for revocation exactly when it was current and is no longer good |
| TurnCache.TurnAuthorizationCache.Close | internal/control/turn_authorization_cache.go:268-281 | closes and empties the cache |
| TurnManager.Manager.constructor | internal/control/turn.go:135-191 | an empty manager satisfies the bookkeeping invariant |
| TurnManager.Manager.Mint | internal/control/turn.go:206-244 | mints if and only if the arguments, the authority, both limits and the clock under the lock allow it; a refusal changes nothing; counters stay exact |
| TurnManager.Manager.RemoveCredential | internal/control/turn.go:574-594 | forgets exactly this credential object, never a namesake, and closes exactly the relays it owns |
| TurnManager.Manager.ExpireCredential | internal/control/turn.go:556-565 | a timer that fires before the current deadline or after revocation changes nothing; otherwise the credential is revoked and forgotten |
| TurnManager.Manager.RevokeCredential | internal/control/turn.go:567-572 | the credential is revoked, forgotten, and its relays closed |
| TurnManager.Manager.Revoke | internal/control/turn.go:595-619 | revokes and forgets every credential in scope and no other |
| TurnManager.Manager.RenewOne | internal/control/turn.go:531-549 | moves one deadline, capped by the longest lifetime, only forward and exactly when the credential is usable throughout, the manager is open and still maps the name to this very credential; its timer moves with it |
| TurnManager.Manager.RenewSession | internal/control/turn.go:516-551 | when nothing else runs, renews exactly the snapshot's credentials that are renewable, and no other; the interleaved renewal is that of `TurnLifetime` |
| TurnManager.Manager.Snapshot | internal/control/turn.go:516-529 | collects exactly the credentials of the session, and none from a closed manager or for a past deadline |
| TurnManager.Manager.Quota | internal/control/turn.go:280-288 | admits a request exactly when the manager is open, the credential is held, the client has no allocation, and the server's and the tenant's allocation limits leave room |
| TurnManager.Manager.Enter | internal/control/turn.go:343-356 | enters a new, unowned relay under its advertised address unless the manager closed meanwhile |
| TurnManager.Manager.AllocationCreated | internal/control/turn.go:358-382 | for every call: attaches a known relay to its client and credential and counts it for the owner's tenant; the relay stays in the map exactly when the manager is open, the credential is still held and the tenant had room; the books stay exact if and only if the client had no allocation and the relay no other client |
| TurnManager.CountsOnce | internal/control/turn.go:365-377 | counting an allocation keeps the counters exact if and only if the client had none |
| TurnManager.Manager.AllocationDeleted | internal/control/turn.go:384-401 | detaches the client's relay unless another user owns it, and uncounts it |
| TurnAllocations.Serve | internal/control/turn.go:280-509 | over every sequence of requests, binds, callbacks, deletions, closings, mints, revocations, timers, forwarded bytes and shutdown: each tenant's counters are exact, relays, clients and each tenant's allocations stay within their limits, and while the clock's seconds do not go back no second is charged more than the server's byte rate |
| TurnAllocations.Reader.Step | internal/control/turn.go:280-401 | every event, in whatever order, keeps counters exact and limits held, and keeps the request in progress sound: its client has no allocation, its tenant has room, its relay belongs to no client and its address names no other relay |
| TurnAllocations.Reader.OnCreated | internal/control/turn.go:358-382 | in such a state the created callback overwrites nothing, counts once and passes no limit |
| TurnAllocations.Reader.OnReserving | internal/control/turn.go:479-509 | a forwarder's reservation keeps the books and the account of every second's bytes |
| TurnManager.Manager.ReserveBytes | internal/control/turn.go:479-509 | admits bytes if and only if the manager is open, the tenant has a record and both buckets have room in this second, and then charges both; a refusal charges neither |
| TurnRates.ChargeKeeps | internal/control/turn.go:485-507 | a call not behind the bucket's second keeps the account: in every second what was admitted is within the limit, and the bucket holds what was admitted in its own |
| TurnRates.SetBackDoubles | internal/control/turn.go:485-492 | the condition is needed: a clock that comes back to a second it left admits twice the limit in it |
| TurnManager.FreshRecordDoubles | internal/control/turn.go:479-509 | per tenant the bound is one of a record's life: revoking a tenant's last credential drops its record, and with a new credential it is admitted its limit again in the same second |
| TurnManager.CredentialAdded | internal/control/turn.go:230-239 | adding a credential keeps every tenant's counters equal to what it holds |
| TurnManager.CredentialRemoved | internal/control/turn.go:575-583 | removing one keeps them, and drops the record when nothing is left |
| TurnManager.AllocationAdded | internal/control/turn.go:365-377 | attaching an allocation keeps the counters exact |
| TurnManager.AllocationRemoved | internal/control/turn.go:387-399 | detaching one keeps them, and drops the record when nothing is left |
| Quota.UsageServer.constructor | internal/control/turn_quota_cache.go:22-24 | an empty pending table and an unknown snapshot are sound |
| Quota.UsageServer.Record | internal/control/control.go:700-710 | adds to one bucket and to the snapshot; the accounting stays exact if and only if the bucket's 64-bit counter does not wrap |
| Quota.UsageServer.Flush | internal/control/control.go:711-787 | success moves every bucket into its daily and per-minute, tenant and broker rows and drops minute rows before the cutoff; failure changes nothing; either way the exact total of every day row and of every minute row still kept is conserved |
| Quota.UsageServer.Applied | internal/control/control.go:721-775 | after the loop every row of the four tables holds exactly stored plus pending |
| Quota.UsageServer.AddBucket | internal/control/control.go:721-775 | the updates and inserts for one bucket add its bytes to exactly its two or four rows |
| Quota.UsageServer.Refresh | internal/control/turn_quota_cache.go:29-74 | publishes a snapshot only when complete, and then the saturating totals equal min(MaxInt64, stored + pending) |
| Quota.UsageServer.StoredTotals | internal/control/turn_quota_cache.go:43-59 | the stored rows of one day, or failure exactly when one no longer fits 64 bits |
| Quota.UsageServer.AddPending | internal/control/turn_quota_cache.go:60-68 | adds the day's pending buckets with saturation, refusing exactly when one is negative |
| Quota.UsageServer.Authorize | internal/control/turn_quota_cache.go:78-89 | allows if and only if there is no quota or a fresh snapshot of today exists and the exact usage is below the quota |
| Quota.AddSaturating | internal/control/turn_quota_cache.go:104-109 | the saturating sum is min(MaxInt64, total + n) |
| Quota.PendingUpdate | internal/control/control.go:700-710 | setting one bucket changes the pending sum of exactly its own rows |
| SignalingRuns.ExactlyOnceInOrder | internal/control/signaling.go:603-654 | over any disconnects, resumes, repeated sends and pushes: what the receiver consumed and what the sender was told is stored are prefixes of one history, apart by at most the one message in doubt |
| SignalingRuns.WindowHolds | internal/control/websocket.go:749-769 | on every socket acked <= sent <= queued <= min(acked + 4, history) |
| SignalingRuns.NeverStuck | internal/control/websocket.go:749-769 | a live socket whose messages are all acknowledged can always send the next stored one |
| SignalingRuns.AllDelivered | internal/control/websocket.go:749-769 | from every reachable state, whatever sockets were lost and however far each got, some continuation delivers every stored row exactly once and in order, all that the sender was told is stored included |
| SignalingRuns.ExecutionKeeps | sdk/c/remote/peer/control.c:118-202 | every action of sender, mailbox, sockets and receiver keeps the channel sound |
| Signaling.Mailbox.constructor | internal/control/signaling.go:603-654 | an empty mailbox is contiguous |
| Signaling.Mailbox.SendMessage | internal/control/signaling.go:603-654 | appends exactly the next sequence, recognises an identical repeat and refuses everything else without a write |
| Signaling.Mailbox.PollMessages | internal/control/signaling.go:655-691 | returns the rows after the cursor in order, at most sixteen, and the cursor behind them |
| Signaling.SendKeepsRows | internal/control/signaling.go:603-654 | rows stay contiguous and are only added; a yes means the row is stored with that data |
| Signaling.WsPeer.constructor | internal/control/websocket.go:371-400 | a resumed socket starts at a cursor inside the history |
| Signaling.WsPeer.CatchUp | internal/control/websocket.go:749-769 | queues the next rows while the window of four is open and the queue accepts them |
| Signaling.WsPeer.Acknowledge | internal/control/websocket.go:582-600 | accepts exactly a sequence that was sent, and moves the acknowledged cursor only forward |
| Signaling.WsPeer.WriteNext | internal/control/websocket.go:510-548 | writes the next queued message and moves the sent cursor, or drops it on a terminating socket |
| Signaling.CatchupFills | internal/control/websocket.go:749-769 | with room in the queue a catch-up fills the window or reaches the end of the history |
| Signaling.NextRowIsSent | internal/control/websocket.go:510-548 | catching up and writing sends exactly the next stored row |
| Signaling.Receiver.constructor | sdk/c/remote/peer/control.c:144-181 | the receiver starts before the first sequence |
| Signaling.Receiver.ReceiveSignal | sdk/c/remote/peer/control.c:144-202 | skips repeats, consumes only the very next sequence and stops at the first message it cannot decode |
| UdpChannel.DeliveredIntact | sdk/c/remote/peer/mapping.c:811-1047 | over every run of a network that loses, repeats and reorders datagrams, each delivered packet is byte for byte the one enqueued under its number, and no number is delivered twice |
| UdpChannel.PieceAdded | sdk/c/remote/peer/mapping.c:1012-1030 | a genuine new fragment keeps every assembled piece true, and the buffer is the packet once the lengths add up |
| UdpDelivery.DeliveredAtMostOnce | sdk/c/remote/peer/mapping.c:989-1046 | for every sequence of accepted fragments no packet number is delivered twice, and each delivered one stays on record |
| UdpDelivery.ReceiveSound | sdk/c/remote/peer/mapping.c:989-1046 | the window, the slots and the bitmaps stay consistent: no live slot has its delivered bit set, ids are distinct, received length is what the bits cover |
| UdpDelivery.ReceiveMarks | sdk/c/remote/peer/mapping.c:989-1046 | deliveries stay on record, and only a packet not on record is delivered |
| UdpDelivery.AdvanceKeepsSeen | sdk/c/remote/peer/mapping.c:989-993 | moving the window forgets no delivery: an id is 64 or more behind or its bit moved with the shift |
| UdpDelivery.CompleteIffAllBits | sdk/c/remote/peer/mapping.c:1021-1030 | received equals total if and only if all fragment bits are set, exactly except for an empty packet before its only fragment |
| UdpDelivery.DeliversExactlyWhenComplete | sdk/c/remote/peer/mapping.c:1012-1046 | a new fragment is delivered with its packet if and only if all the other bits were set; otherwise it is stored |
| UdpDelivery.NewPacketStarts | sdk/c/remote/peer/mapping.c:989-1010 | the first fragment of a new highest packet is taken up whenever a slot and memory are free |
| UdpArrival.PacketArrives | sdk/c/remote/peer/mapping.c:989-1046 | if the first arrival is a fragment of a new highest packet with a free slot and memory, and all its fragments come within the time limit in any order, repeated and among fragments of other packets inside the window, the packet is delivered with its own bytes |
| UdpArrival.RestCompletes | sdk/c/remote/peer/mapping.c:1012-1046 | from any partly assembled packet, the arrivals that bring the missing fragments deliver it |
| UdpReceiver.UdpFlow.constructor | sdk/c/remote/peer/mapping.c:444-455 | a new flow has no packet, an empty window and four empty slots |
| UdpReceiver.UdpFlow.Read | sdk/c/remote/peer/mapping.c:989-1046 | the C body, in place, is the receive function that the results are about |
| UdpReceiver.UdpFlow.Scan | sdk/c/remote/peer/mapping.c:996-1004 | one pass drops dead slots and finds the packet's slot and the first free one |
| UdpReceiver.UdpFlow.Add | sdk/c/remote/peer/mapping.c:1011-1046 | adds a fragment in place, gives the packet up on a contradiction, or delivers it |
| UdpSender.UdpQueue.constructor | sdk/c/remote/peer/mapping.c:444-455 | an empty queue is sound |
| UdpSender.UdpQueue.EnqueuePacket | sdk/c/remote/peer/mapping.c:775-803 | numbers and appends the packet, or drops it when oversized, the queue is full, the counter is spent or memory is out |
| UdpSender.UdpQueue.FlushTurn | sdk/c/remote/peer/mapping.c:811-861 | one turn drops an old or unsendable packet or offers one fragment, and advances only on success |
| UdpSender.UdpQueue.FlushPackets | sdk/c/remote/peer/mapping.c:811-861 | the loop, in place, is the flush function within both budgets |
| UdpSender.BuildDatagram | sdk/c/remote/peer/mapping.c:831-837 | the header bytes written one field at a time are the fragment's encoding |
| UdpSender.Flush | sdk/c/remote/peer/mapping.c:811-861 | flushing keeps the queue sound and never touches flow or counter |
| UdpWire.DecodeEncode | sdk/c/remote/peer/mapping.c:977-985 | every well-formed fragment passes the receiver's checks and comes back as it was |
| UdpWire.EncodeDecode | sdk/c/remote/peer/mapping.c:977-985 | an accepted datagram is the encoding of what was read from it |
| UdpWire.CutAccepted | sdk/c/remote/peer/mapping.c:831-837 | every fragment the sender builds passes the receiver's header checks |
| Bytes.Read | sdk/c/remote/peer/mapping.c:357-362 | folding the bytes gives the big-endian number |
| Bytes.Write | sdk/c/remote/peer/mapping.c:367-370 | writing backwards gives its big-endian bytes and touches nothing else |
| Bytes.GetPut | sdk/c/remote/peer/mapping.c:353-370 | reading what was written gives the number back |
| Bytes.PutGet | sdk/c/remote/peer/mapping.c:353-370 | writing what was read gives the bytes back |
| MappingMemory.Engine.constructor | sdk/c/remote/peer/mapping.c:230-247 | an empty engine is balanced and its reserve fits the limit |
| MappingMemory.Engine.ControlAlloc | sdk/c/remote/peer/mapping.c:248-255 | allocates if and only if the counter stays within 16 MiB, and adds exactly the size |
| MappingMemory.Engine.Alloc | sdk/c/remote/peer/mapping.c:256-267 | allocates payload if and only if max_flows + 2 contexts still fit afterwards |
| MappingMemory.Engine.Free | sdk/c/remote/peer/mapping.c:268-274 | frees with the size of the allocation, keeping the counter equal to the sum of live blocks |
| MappingMemory.Engine.FlowNew | sdk/c/remote/peer/mapping.c:444-455 | makes a context if and only if the context cap and the hard limit allow it |
| MappingMemory.Engine.CreateBatch | sdk/c/remote/peer/mapping.c:444-455 | after any payload allocation a batch of max_flows + 2 contexts all succeed |
| MappingMemory.Engine.TcpBuffers | sdk/c/remote/peer/mapping.c:477-483 | both stream buffers if and only if both fit; otherwise the flow's io is released |
| MappingMemory.Engine.Enqueue | sdk/c/remote/peer/mapping.c:775-803 | a packet block if and only if size, queue, counter and memory allow it |
| MappingMemory.Engine.Pop | sdk/c/remote/peer/mapping.c:804-810 | releases the head packet with the size it was allocated with |
| MappingMemory.Engine.AssemblyStart | sdk/c/remote/peer/mapping.c:1005-1010 | an assembly buffer of the packet's size, one byte for an empty packet, if and only if it fits |
| MappingMemory.Engine.AssemblyDrop | sdk/c/remote/peer/mapping.c:960-970 | releases exactly what the slot holds, nothing for an empty slot |
| MappingMemory.Engine.DropUdp | sdk/c/remote/peer/mapping.c:401-414 | releases every waiting packet and every assembly of the flow |
| MappingMemory.Engine.ReleaseIo | sdk/c/remote/peer/mapping.c:415-422 | leaves the flow without buffers, packets or assemblies |
| MappingMemory.Engine.FlowFree | sdk/c/remote/peer/mapping.c:456-463 | gives back everything the flow held and its context |
| MappingMemory.Engine.ResolveStart | sdk/c/remote/peer/mapping.c:308-330 | a job block if and only if fewer than 32 jobs exist and memory allows it |
| MappingMemory.Engine.ResolveDetach | sdk/c/remote/peer/mapping.c:331-338 | the job stays allocated after its flow lets go |
| MappingMemory.Engine.Reap | sdk/c/remote/peer/mapping.c:339-352 | releases exactly the detached jobs that no worker runs |
| MappingMemory.Engine.Cleanup | sdk/c/remote/peer/mapping.c:1274-1306 | afterwards nothing is allocated and the counter is zero |
| StartProtocol.StartBijection | internal/protocol/protocol.go:141-229 | decoding undoes encoding on every valid request, and every accepted payload is valid and re-encodes to itself |
| StartProtocol.DetachedBijection | internal/protocol/protocol.go:185-207 | the same for detached requests |
| StartCodec.DecodeEncodeStart | internal/protocol/protocol.go:141-229 | for any exact number and text encoding, decode after encode is the identity on valid requests |
| StartCodec.EncodeDecodeStart | internal/protocol/protocol.go:141-229 | for any exact number and text encoding, an accepted payload is valid and re-encodes to itself |
| StartProtocol.StandardExact | internal/protocol/protocol.go:103-131 | the 32-bit big-endian numbers and length-prefixed UTF-8 texts are exact both ways |
| StartProtocol.Decoder.constructor | internal/protocol/protocol.go:98-101 | a decoder starts at the payload without an error |
| StartProtocol.Decoder.U32 | internal/protocol/protocol.go:103-114 | reads four bytes or fails for good |
| StartProtocol.Decoder.Str | internal/protocol/protocol.go:115-131 | reads a length-prefixed text, refusing short input, NUL and ill-formed UTF-8 |
| StartProtocol.Decoder.Count | internal/protocol/protocol.go:132-139 | reads a count within its bound |
| StartProtocol.Decoder.Args | internal/protocol/protocol.go:143-146 | the argument loop is the recursive parser |
| StartProtocol.Decoder.Env | internal/protocol/protocol.go:147-156 | the environment loop is the recursive parser, refusing empty, ill-formed and repeated keys |
| StartProtocol.Decoder.Start | internal/protocol/protocol.go:141-169 | the decoder object parses exactly what the grammar function parses |
| StartProtocol.DecodePayload | internal/protocol/protocol.go:171-178 | accepts exactly complete payloads with nothing behind them |
| StartProtocol.DecodeDetachedPayload | internal/protocol/protocol.go:185-202 | accepts exactly complete detached payloads, without standard input |
| StartEncoder.Encode | sdk/c/oheco_broker.c:106-141 | returns a payload if and only if the options are acceptable and fit one MiB; it has exactly the measured size and is exactly the encoding the Go decoder expects; every refusal has its cause |
| StartEncoder.ServerReadsClient | sdk/c/oheco_broker.c:106-141 | whatever the C client encodes the Go decoder accepts and reads as the same request |
| StartEncoder.SizeExact | sdk/c/oheco_broker.c:114-127 | the precomputed size is the length of the encoding |
| StartEncoder.Measure | sdk/c/oheco_broker.c:109-127 | accepts exactly the acceptable options that fit, with the exact size, overflow-safe |
| StartEncoder.SizeString | sdk/c/oheco_broker.c:98-105 | adds four and the length exactly when the text is valid and the frame limit holds |
| StartEncoder.PutString | sdk/c/oheco_broker.c:94-97 | writes length and bytes behind what was written and nothing before it |
| StartEncoder.PutRequest | sdk/c/oheco_broker.c:128-137 | the moving pointer writes the whole encoding in order |
| Utf8.Check | sdk/c/oheco_broker.c:66-86 | the C loop accepts exactly NUL-free text that is well formed by section 4 of RFC 3629 |
| Utf8.ValueMatchesGrammar | sdk/c/oheco_broker.c:66-86 | decoding and range-checking a value accepts exactly the octets of the grammar: no overlong form, surrogate or value past U+10FFFF |
| Utf8.Multibyte | sdk/c/oheco_broker.c:72-84 | the masks and shifts of the inner loop give the length of the well-formed character behind a lead octet, or refuse |
| Utf8.ThreeOctets | sdk/c/oheco_broker.c:74-84 | among three octets the masked value is out of range exactly for overlong forms and surrogates |
| Utf8.FourOctets | sdk/c/oheco_broker.c:75-84 | among four octets exactly for overlong forms and values past U+10FFFF |
| JsonAgree.ScannerAgrees | sdk/c/remote/ob_json.c:85-123 | on every JSON object the scanner succeeds if and only if the named member is an unsigned decimal integer in range, and returns it; white space, nesting and escapes make no difference (sections 2 to 7 of RFC 8259) |
| JsonAgree.ValueSkip | sdk/c/remote/ob_json.c:66-84 | a whole value is skipped, whatever its nesting, strings and escapes |
| JsonAgree.MembersAgree | sdk/c/remote/ob_json.c:85-123 | the member loop finds exactly what a lookup in the parsed members finds |
| JsonLoops.UintField | sdk/c/remote/ob_json.c:85-123 | the index loops of the C function compute the scanner's result on every text |
| JsonLoops.ValueEnd | sdk/c/remote/ob_json.c:66-84 | the depth-counting loop finds the end of the value |
| JsonLoops.StringEnd | sdk/c/remote/ob_json.c:19-27 | the loop finds the end of a string, skipping escapes |
| JsonLoops.KeyEqual | sdk/c/remote/ob_json.c:35-65 | compares a key with its escapes decoded to an ASCII name |
| JsonLoops.ParseUint | sdk/c/remote/ob_json.c:106-115 | reads the digits with an exact 64-bit overflow test and the range check |
| JsonLoops.OverflowTestExact | sdk/c/remote/ob_json.c:111-112 | the division test is true exactly when the next digit would pass 64 bits |
| Calendar.ClosedFormCounts | sdk/c/remote/ob_auth.c:91-94 | the closed form equals the year-by-year, month-by-month day count for every valid date from 1970 on |
| Calendar.Timestamp | sdk/c/remote/ob_auth.c:77-95 | zero for anything but a complete valid UTC spelling, else milliseconds by counting days |
| Calendar.Fraction | sdk/c/remote/ob_auth.c:88-90 | the first three of one to nine fractional digits, missing ones being zero |
| Calendar.CheckShape | sdk/c/remote/ob_auth.c:80-84 | accepts exactly digits and separators in place |

## Left out

- Sockets, curl, xquic, libjuice, Pion, TLS, DNS, files, permissions, processes and signals: events or parameters of the model.
- Cryptography: SPAKE2, HMAC, HKDF, SHA-256, bcrypt and certificates are taken as injective or fresh values.
- HTTP routing, JSON encoding, admin listing, configuration, ACME and discovery: plumbing with easy properties.
- TCP resume, the peer RPC retry loop and the server watcher loop: `mapping_v2.inc`, `mapping_recovery.inc`, `ws_control.inc` and `ws_server.inc` are not part of this model.
- The broker watch branch, snapshots, byte budget and registration of WebSocket peers: `Signaling.WsPeer` takes the room of the bounded queue as a parameter.
- The process management of the local command server, the .NET client and the cgo wrappers.
- The joined string keys of the pending usage table: buckets are records, and the four usage tables are one map over their rows.
- The coordinator's state reporting and `schedule`: waiting and callbacks, no decision that the proposal protocol depends on.
- The manager without a credential store: `AuthManager.Manager` always has one, as the CLI does.
- The lookup of a principal before a handler's transaction: handlers take the principal that was found and repeat the check inside the transaction, as the code does; the broker or tenant row looked up before it is looked up in the same step.
- ControlServer.Server.UpdateAccountCredentials: names, e-mail and password hash are not columns of the model, so whether the name is taken is an input.
- Registration, legacy login, heartbeats, approval and the maintenance deletes are transaction functions without a handler body, because their bodies are a few checks and statements in a row.
- Coordinator.Peer.OpenSession: the identifiers' randomness, cancellation and memory failures are not modelled.
- TurnManager.Manager.RenewSession: nothing runs between its sections and a deadline is one number; `TurnSystem` interleaves the sections with everything else and gives deadlines both readings.
- TurnManager.Manager.Mint: a deadline is one number here too.
- TurnCache.SettledFits: needs use stamps below the largest 64-bit integer, which a clock reaches after 292 years.
- Forwarding itself (`WriteTo`, `ReadFrom`): the write is one guarded step of the interleaving system, and the bytes are not modelled.
