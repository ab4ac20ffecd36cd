# Verified models of the home router add-ons

A Dafny 4.11 model of four components of the repository, with proofs about whole runs of each:

- **VPN peer service** (`addons/homerouter-vpn`): the peer list with its file and its WireGuard
  backend, the address pool, owner records, OpenID Connect sign-ins, sessions and the reconciler.
- **Cleaner extension** (`addons/developer-cleaner`): the normaliser and planner, and the service
  worker whose handlers interleave at every await.
- **Router firewall** (`config/nftables`, `scripts/lib.sh`): the forward chain as a first-match rule
  list, run together with a connection table.
- **Proxy accounting and address policy** (`addons/proxy-router`): the registry of open connections
  with its finish callbacks, and the test for public addresses.

`dafny verify dfyconfig.toml` checks the project.

## How it is built

State that the source changes in place is a class (`Service`, `Backend`, `File`, `OwnerStore`,
`Authenticator`, `Activity`, `Finish`, `Worker`). Each method's `ensures` says that the new state is
a function of the old one, and the theorems are about those functions: an invariant for one step,
then induction over every sequence of events. `VpnAnswers` and `CleanerAnswers` say again what single
operations answer, from requests, replies, list members and literal bounds, so that the functions
that decide rest on something else than themselves. Failures are inputs: every backend call, save and
provider answer may succeed or fail at each place, and a death of the process may fall between any
two durable steps (`WriteTrace` and the `trace` of an `Effect` list the states it can leave).

| files | what they hold |
|---|---|
| `Wrappers`, `FiniteSets`, `Prefixes`, `AddressPool` | result types; set sizes; masks, intervals and prefixes; lowest free address |
| `AtomicFiles`, `PeerService`, `PeerRuns` | file replacement; peer operations; their runs with crashes |
| `OwnerStores`, `SignIn`, `SignInRuns` | owner records; locked sections of a sign-in; their interleavings |
| `Reconciler`, `ReconcilerDisks`, `VpnHandlers`, `VpnRuns`, `VpnPeers` | the reconcile pass; what it leaves in backend and files; handlers; runs of the whole service; the peer runs inside them |
| `VpnAnswers`, `CleanerAnswers` | what single operations answer and change, in terms of requests, replies, raw values and literal bounds |
| `CleanerCore`, `CleanerTheorems` | normaliser and planner; what they guarantee |
| `CleanerWorker`, `CleanerTraces`, `CleanerRuns` | stretches of the worker; facts about one task; runs |
| `CleanerSafety`, `CleanerOrigins`, `CleanerSync`, `CleanerTriggers` | what runs guarantee; the messages behind cleanups; sync; triggers |
| `CleanerScenes`, `CleanerTurningOff` | runs that end otherwise than documented; when turning developer mode off stops a cleanup |
| `Firewall`, `FirewallRuns`, `VpnFirewall` | the gated rule list; packet runs with connection tracking; the firewall behind the peer service |
| `ProxyActivity`, `AddressPolicy` | the registry and its interleavings; public addresses and the dial loop |

## Where the code and its promises differ

The model follows the code. Each difference below is a theorem, with its exact condition and a
concrete case.

- *Settings that lock themselves out.* The bound of 100 origins is tested before bare hosts double
  into two origins. Accepted settings can be read back exactly when no list that counts names more
  than 100 distinct origins (`SettingsIdempotentIff`); `FiftyOneHostsLockOut` is a value that is
  accepted, stored and refused on every later read.
- *Turning developer mode off.* The cleaner's README (lines 84-85) says that it stops the remaining
  steps of a cleanup. A save goes through the serialized chain, so it takes effect exactly when the
  chain is free (`SaveTakesEffectIff`), and it stops a cleanup with two or more calls left, after at
  most one more, exactly when the chain is free as it comes in (`TurningOffStopsIff`). An automatic
  cleanup holds the chain itself (`AutomationHoldsTheChain`), so it always runs on: the run is
  `AutomationOutlastsSaves` for all settings and saves and `TurningOffComesTooLate` for an hourly
  cleanup of both caches. A confirmed cleanup runs on too while a trigger, another save or an
  incoming change is in the chain: `ManualOutlastsSaves` for all settings, `ConfirmedCleanupRunsOn`
  for the same two caches. Settings that are stored do stop every cleanup
  (`SwitchingOffStopsCleanups`).
- *Late echoes.* The echo of a save changes nothing while that save is current. The echo of an older
  save replaces newer settings and turns developer mode off (`EchoChangesIff`). `LateEchoReverts` is
  the run of two saves and the echo of the first, `ThemeComesBack` that run with a changed theme.
- *The WireGuard source rule* sees IPv4 sources only: an IPv6 packet from a peer passes it whatever
  its source (`SourceRuleIsIpv4Only`). Peers that the service itself added cannot send one, because
  their allowed IPs are their own address with length 32 (`addons/homerouter-vpn/backend.go:127-129`);
  for them VPN_NET4 holds in full (`ServicePeersStayInTheirNet`). What remains are peers configured
  past the service, with `wg` by hand or through an IPv6 address written into `peers.json`.
- *Connection identifiers* are 64-bit and wrap. The counts are right throughout a run exactly when no
  wrapped identifier meets an open connection of the same user (`CountsExactIff`), which cannot
  happen in fewer than 2^64 events (`ShortRunsNeverCollide`) and does happen when one user opens
  2^64 + 1 connections that never end (`WrapCollides`). From a collision on the older closure ends
  the newer connection (`OlderFinishEndsNewer`, `FirstFinishEndsNewest`).

## Assumptions

- Random values (sign-in states, session ids, ticket tokens) are new: a step that would repeat one is
  not taken. Peer ids need no such assumption.
- A failing backend call leaves the backend as it was; a failing save leaves the target file as it
  was; a rename is atomic.
- `VpnRuns` takes a handler's session check and its service call as one step, and a reconcile pass as
  one step, but lets the process die between any two durable steps of either. `SignInRuns`
  interleaves the locked sections of sign-ins and sessions instead.
- In `VpnFirewall` WireGuard delivers from a peer only sources within its allowed IPs, and the service
  and the firewall have the same VPN_NET4.
- In `CleanerRuns` a storage read happens at one moment between two stretches of its handler, and a
  storage write at the moment its handler resumes. The serialized chain may move on as soon as its
  operation has stored its last value, which allows more orders than the code does.
- In `FirewallRuns` the interface names are pairwise distinct and none is a wildcard or a Docker
  bridge, hosts stay behind their interfaces, related packets stay between the two interfaces of
  their parent, and no flow is destination-translated.

## Model

| member | source | states |
|---|---|---|
| Prefixes.MaskIsInterval | addons/proxy-router/proxy.go:354-359 | comparing two addresses under a mask is membership in an interval, for every width and every mask length |
| Prefixes.NetworkNumberIsBase | addons/proxy-router/proxy.go:354-359 | masking the base of a valid prefix gives the base back |
| AddressPool.NewPool | addons/homerouter-vpn/pool.go:16-29 | a pool exists exactly for IPv4 subnets of at most 29 bits, contains the given address, and each other input has its own error |
| AddressPool.Pool.Allocate | addons/homerouter-vpn/pool.go:37-48 | returns the least unused address strictly between server and broadcast, or none if there is none; ends for every prefix, also at the top of the address space |
| AddressPool.Pool.ExhaustedIff | addons/homerouter-vpn/pool.go:37-48 | nothing is free exactly when 2^(32-bits) - 3 distinct assignable addresses are used |
| AtomicFiles.WriteTrace | addons/homerouter-vpn/service.go:93-103 | until the last step every disk a crash can leave holds the old target; the last one holds the new value exactly when nothing failed |
| AtomicFiles.File.WriteFileAtomic | addons/homerouter-vpn/service.go:93-103 | reports success exactly when the target was replaced and passes through the disks of `WriteTrace` |
| PeerService.Backend.AddPeer | addons/homerouter-vpn/backend.go:49-54 | sets the key's address, or changes nothing when the call fails |
| PeerService.Backend.RemovePeer | addons/homerouter-vpn/backend.go:56-61 | drops the key, or changes nothing when the call fails |
| PeerService.Service.Restore | addons/homerouter-vpn/service.go:59-83 | loads the stored list and re-applies its peers in order, IPv4 and IPv6, up to the first unreadable address or failed call, leaving the file alone |
| PeerService.Service.AdmitPeer | addons/homerouter-vpn/service.go:153-175 | refuses duplicate keys, owners at their limit and an exhausted pool, in that order, and otherwise gives the lowest free address |
| PeerService.Service.Create | addons/homerouter-vpn/service.go:137-202 | backend, memory and file after every mix of failures, including the rollback, and every durable state on the way |
| PeerService.Service.RemoveFromBackend | addons/homerouter-vpn/service.go:241-256 | splits the list into kept and removed peers, reports the first failure, and passes through one durable state per round |
| PeerService.Service.RemoveWhere | addons/homerouter-vpn/service.go:236-268 | the list becomes the kept peers only when the save succeeds; otherwise the old list stays |
| PeerService.Service.DeleteOne | addons/homerouter-vpn/service.go:204-223 | an error of the removal wins, and a removal that matched nothing is not found |
| PeerService.Service.ListOwned | addons/homerouter-vpn/service.go:111-121 | the peers of one owner, in order |
| PeerRuns.RunKeepsInv | addons/homerouter-vpn/service.go:59-103 | over every run with failures, deaths and restarts the stored file is complete, memory equals it, keys and addresses are distinct and addresses lie between server and broadcast |
| PeerRuns.CreateOutcome | addons/homerouter-vpn/service.go:137-202 | a failed create leaves list and file as they were, a successful one adds one sane peer to both, and every state on the way holds one of the two files |
| PeerRuns.RemoveOutcome | addons/homerouter-vpn/service.go:236-268 | after a removal list and file are both old or both new |
| PeerRuns.StartSucceeds | addons/homerouter-vpn/service.go:59-83 | a start without errors shows exactly the stored list and has every peer in the backend |
| PeerRuns.RestartLosesNothing | addons/homerouter-vpn/service.go:85-103 | however the process dies inside an operation, the next start shows the list from before or from after it, nothing else |
| PeerRuns.StrayIffRollbackFails | addons/homerouter-vpn/service.go:186-202 | a create leaves a stray backend entry exactly when its save and then its rollback fail |
| PeerRuns.RemovalMovesMissing | addons/homerouter-vpn/service.go:236-268 | a removal never strays; the keys it removed leave the missing ones when saved and join them when the save fails |
| PeerRuns.NothingMissingIsEqual | addons/homerouter-vpn/backend.go:49-61 | with nothing missing, backend and list are the same table |
| PeerRuns.StartFillsBackend | addons/homerouter-vpn/service.go:59-83 | after a start nothing is missing, and the backend has no stray entry exactly when it had none under other keys |
| PeerRuns.BackendShadowsList | addons/homerouter-vpn/service.go:137-268 | over every run whose rollbacks succeed each backend entry is a listed peer with its address, and nothing is missing unless a removal's save failed |
| PeerRuns.RepeatedRemovalHeals | addons/homerouter-vpn/service.go:236-268 | repeating the removal without failures drops the matching peers and makes backend and list equal again |
| PeerRuns.LivesItsTime | addons/homerouter-vpn/service.go:176-234 | a created peer survives a clean expiry pass exactly when it has no time limit or the limit, counted from the full second, is not reached |
| PeerRuns.LimitKept | addons/homerouter-vpn/service.go:156-170 | no create raises an owner's count above its limit, and the limit error is given only at the limit |
| PeerRuns.ExhaustedExactlyWhenFull | addons/homerouter-vpn/service.go:153-175 | at every point of every run exhaustion is reported exactly when 2^(32-bits) - 3 peers exist and no earlier refusal applies |
| OwnerStores.OwnerStore.Set | addons/homerouter-vpn/owners.go:49-59 | memory changes even when the save fails; an empty token keeps the stored one |
| OwnerStores.OwnerStore.Delete | addons/homerouter-vpn/owners.go:61-66 | the record leaves memory even when the save fails |
| SignIn.Vet | addons/homerouter-vpn/oidc.go:234-271 | a user is accepted exactly for an unexpired sign-in, a completed exchange, a verified token with its nonce and a non-empty subject, and claims with the group; which subject and name that user has |
| SignInRuns.LoginBound | addons/homerouter-vpn/oidc.go:194-210 | a login section stays within 1000 pending sign-ins, and refuses exactly when 1000 live ones are pending |
| SignInRuns.RunKeepsInv | addons/homerouter-vpn/oidc.go:194-333 | under every interleaving a state is pending, held by one callback or behind one session, and the sessions are those opened and not ended |
| SignInRuns.SignInsBounded | addons/homerouter-vpn/oidc.go:197-234 | pending sign-ins never exceed 1000 and one sign-in opens at most one session |
| SignInRuns.AdmittedIff | addons/homerouter-vpn/oidc.go:281-301 | a request is admitted exactly by a session opened at most 8 hours before the check and neither logged out, revoked nor found expired |
| SignInRuns.EndedStaysEnded | addons/homerouter-vpn/oidc.go:327-333 | a session that ended never comes back |
| SignInRuns.SessionsAnswerSignIns | addons/homerouter-vpn/oidc.go:194-287 | every session goes back to a login at most ten minutes before its check, and its token carries the nonce of that login |
| Reconciler.WorkingPass | addons/homerouter-vpn/oidc.go:363-434 | with a working backend and store a pass leaves the old list in order minus expired peers and peers of rejected owners; sessions and records go exactly for rejected owners with an unexpired peer |
| ReconcilerDisks.WorkingPassOutcome | addons/homerouter-vpn/oidc.go:363-434 | the whole state after a working pass, with backend, peers.json and owners.json, read from the state before it alone |
| ReconcilerDisks.PassIgnoresOrder | addons/homerouter-vpn/oidc.go:368-377 | the whole state after the pass does not depend on the order in which the owner map is visited |
| ReconcilerDisks.WorkingPassInStep | addons/homerouter-vpn/oidc.go:363-434 | a working pass keeps list, peers.json and backend equal, and the records equal to owners.json |
| Reconciler.OutageKeepsPeers | addons/homerouter-vpn/oidc.go:380-415 | without a definite rejection a pass loses no session, no record and no unexpired peer, whichever backend calls and saves fail |
| VpnHandlers.Authenticator.Login | addons/homerouter-vpn/oidc.go:194-215 | the in-place pruning loop computes the login section |
| VpnHandlers.Authenticator.Callback | addons/homerouter-vpn/oidc.go:217-287 | every early exit and the sign-in, on the whole state |
| VpnHandlers.Authenticator.Current | addons/homerouter-vpn/oidc.go:289-303 | the session check, which drops an expired session |
| VpnHandlers.Authenticator.Require | addons/homerouter-vpn/oidc.go:312-325 | no session and a foreign origin are refused, in that order |
| VpnHandlers.Authenticator.Logout | addons/homerouter-vpn/oidc.go:327-333 | only the caller's own session ends |
| VpnHandlers.Authenticator.CreateMine | addons/homerouter-vpn/oidc.go:348-350 | creates for the signed-in subject with the configured limit and time |
| VpnHandlers.Authenticator.DeleteMine | addons/homerouter-vpn/oidc.go:352-361 | deletes by id among the caller's own peers only |
| VpnHandlers.Authenticator.StillAllowed | addons/homerouter-vpn/oidc.go:380-415 | which provider answers reject, and that a rotated refresh token is stored |
| VpnHandlers.Authenticator.Revoke | addons/homerouter-vpn/oidc.go:417-435 | peers first; an error there keeps record and sessions |
| VpnHandlers.Authenticator.Reconcile | addons/homerouter-vpn/oidc.go:363-378 | the loop over a snapshot visits every owner once, in some order, and is the fold of its rounds |
| VpnAnswers.OutageCostsNothing | addons/homerouter-vpn/oidc.go:380-415 | if every reply is a connection failure, an error other than `invalid_grant`, 400 and 401, or a success that says nothing against the group, a pass costs no unexpired peer, session or record, whatever else fails |
| VpnAnswers.PassByOwner | addons/homerouter-vpn/oidc.go:363-434 | after a working pass a peer is listed exactly when it is unexpired and its owner has not met a definite answer; records and sessions go exactly for such owners with an unexpired peer |
| VpnAnswers.DefiniteAnswerRevokes | addons/homerouter-vpn/oidc.go:385-390 | `invalid_grant`, 400, 401 or groups without the group remove every peer of an owner with a refresh token, and record and sessions if one of those peers was unexpired |
| VpnAnswers.TokensAfterPass | addons/homerouter-vpn/oidc.go:395-400 | a record that stays has its old name, and the new refresh token exactly when the owner was asked about and the reply carried one |
| VpnAnswers.FailedRevokeKeepsAccess | addons/homerouter-vpn/oidc.go:417-423 | when the backend refuses one of the owner's peers, record and sessions stay |
| VpnAnswers.RequireAnswers | addons/homerouter-vpn/oidc.go:305-325 | a changing request is admitted exactly with a live session and from our origin, as that session's user; only the caller's own expired session can go |
| VpnAnswers.ForeignOriginChangesNothing | addons/homerouter-vpn/oidc.go:312-361 | without live session or from elsewhere nothing is created or deleted, no live session ends, and which of the two refusals is given |
| VpnAnswers.LogoutEndsOwnSession | addons/homerouter-vpn/oidc.go:327-333 | an admitted logout removes exactly the caller's session |
| VpnAnswers.RemovalAnswers | addons/homerouter-vpn/service.go:236-268 | for each of the four questions by which peers are removed: which peers stay, which error is given and when the list changes, whatever fails |
| VpnAnswers.DeleteMineOnlyOwn | addons/homerouter-vpn/service.go:209-223 | self-service delete leaves every peer of another owner or id, success leaves none of that id and owner, and without failures it is not found exactly when there was none |
| VpnAnswers.AdminDeleteOnlyThatId | addons/homerouter-vpn/service.go:204-223 | the admin's delete leaves every peer of another id, with the same answers |
| VpnAnswers.AdmitAnswers | addons/homerouter-vpn/service.go:153-175 | duplicate key, limit and exhaustion read off the list, each exactly when it is given, and otherwise the lowest free address |
| VpnAnswers.CreateAnswers | addons/homerouter-vpn/service.go:137-202 | which of the errors a create gives, exactly when, for every name, key and failure |
| VpnAnswers.CreatedPeer | addons/homerouter-vpn/service.go:176-190 | the listed peer field by field: trimmed name, resolved key, owner, full second, limit counted from it |
| VpnAnswers.CreatedAddress | addons/homerouter-vpn/service.go:171-191 | its address is the lowest free one, and the backend has it under its key |
| VpnAnswers.CreateMineAnswers | addons/homerouter-vpn/oidc.go:348-350 | a self-service peer belongs to the live session's user, lives the configured time and was below the configured number |
| VpnAnswers.AdminCreates | addons/homerouter-vpn/api.go:69-71 | an admin's peer has no owner and no time limit, and is created exactly when name, key, address, backend and save allow it |
| VpnAnswers.OwnedAreTheirs | addons/homerouter-vpn/service.go:111-121 | a user's list is that owner's peers, each as often as it is listed |
| VpnAnswers.StartAnswers | addons/homerouter-vpn/service.go:59-83 | which error a start gives, exactly when, for every file and every failing call |
| VpnAnswers.RecordAfterSet | addons/homerouter-vpn/owners.go:49-59 | the name is replaced, the token only by a token that is not empty, no other record changes, and the file has the new table exactly when it was saved |
| VpnAnswers.RecordsAfterDelete | addons/homerouter-vpn/owners.go:61-66 | exactly that record goes, and from the file exactly when it was saved |
| VpnAnswers.LoginAnswers | addons/homerouter-vpn/oidc.go:194-215 | a login is taken exactly below 1000 unexpired ones, waits ten minutes under its state, and drops the expired ones only |
| VpnAnswers.CallbackAnswers | addons/homerouter-vpn/oidc.go:217-287 | a callback signs in exactly when cookie, pending state, exchange, token, group and save allow it; the right cookie uses the state up, any other changes nothing |
| VpnAnswers.CallbackOpens | addons/homerouter-vpn/oidc.go:260-286 | the session it opens lasts 8 hours under the display name, and a sign-in without refresh token keeps the stored one |
| VpnRuns.RunKeepsInv | addons/homerouter-vpn/oidc.go:194-435 | the coverage invariant over every run of handlers, passes and restarts with failures, and deaths between any two of their durable steps |
| VpnRuns.OwnersAlwaysRecorded | addons/homerouter-vpn/oidc.go:272-284 | every live session and every owned peer has an owner record in memory and on disk, and no subject is empty |
| VpnRuns.OwnersRecordedOnDisk | addons/homerouter-vpn/oidc.go:417-432 | wherever the process died, both files are complete and every stored owned peer has a stored owner record |
| VpnRuns.TrailEnds | addons/homerouter-vpn/oidc.go:363-432 | the durable states that deaths choose from end where the handler or the pass itself ends |
| VpnRuns.AdminPeersStay | addons/homerouter-vpn/api.go:69-71 | a peer without an owner stays, across restarts and deaths, until an admin deletes its id, and never expires |
| VpnPeers.RunMirrored | addons/homerouter-vpn/oidc.go:348-434 | for every run of handlers, passes, restarts and deaths there is a run of locked peer operations with the same list, file and backend |
| VpnPeers.PeersStaySane | addons/homerouter-vpn/service.go:137-268 | in every run of the whole service the list is the file's, keys and addresses are distinct and inside the pool, and the backend agrees as far as rollbacks and saves succeed |
| VpnPeers.ExhaustedExactlyWhenFull | addons/homerouter-vpn/service.go:153-175 | in every run of the whole service exhaustion is reported exactly when 2^(32-bits) - 3 peers exist and no earlier refusal applies |
| CleanerCore.PresetOf | addons/developer-cleaner/core.js:63-90 | the loops over overrides and types compute the normal form or the first problem |
| CleanerCore.MakePlan | addons/developer-cleaner/core.js:110-137 | the planner as run, with its warnings pushed in order |
| CleanerTheorems.NormalSettingsAreGood | addons/developer-cleaner/core.js:92-108 | what is accepted is a normal form: distinct canonical origins, one rule per type, unique ids, existing presets, a bounded schedule |
| CleanerTheorems.SettingsReadBack | addons/developer-cleaner/core.js:36-108 | every normal form is read back as itself when its lists fit, and refused otherwise |
| CleanerTheorems.SettingsIdempotentIff | addons/developer-cleaner/core.js:36-52 | normalising accepted settings again gives them back exactly when no raw list that counts names more than 100 distinct origins, and is refused otherwise |
| CleanerTheorems.FiftyOneHostsLockOut | addons/developer-cleaner/core.js:37-41 | settings with 51 bare hosts are accepted and can never be read again |
| CleanerTheorems.PlanRemovesWhatWasAsked | addons/developer-cleaner/core.js:110-124 | the (type, origin) pairs removed are exactly those that scope and overrides of the raw preset name, with one call per type |
| CleanerTheorems.UnfilterableOnlyWhole | addons/developer-cleaner/core.js:80-88 | unfilterable types and app data appear only unfiltered, and an automatic-safe plan touches only the two caches |
| CleanerAnswers.ListAcceptedIff | addons/developer-cleaner/core.js:36-52 | an origin list is accepted exactly when it has at most 100 entries and each is an exact http or https origin |
| CleanerAnswers.PresetAcceptedIff | addons/developer-cleaner/core.js:63-90 | a raw preset is accepted exactly when id, name, types, range and rules are good and unfilterable types and app data come with scope All |
| CleanerAnswers.PresetFields | addons/developer-cleaner/core.js:74-78 | what each field of an accepted preset becomes, with the scope that counts for every type |
| CleanerAnswers.SettingsAcceptedIff | addons/developer-cleaner/core.js:92-108 | raw settings are accepted exactly when version, presets, ids, selections, schedule and theme are good |
| CleanerAnswers.SettingsFields | addons/developer-cleaner/core.js:92-108 | what each field of accepted settings becomes |
| CleanerAnswers.PlanMadeIff | addons/developer-cleaner/core.js:110-124 | a raw preset gets a plan exactly when it is accepted and, if a selected type is scoped to the active tab, that tab shows an http or https page |
| CleanerAnswers.PlanClearsItsRange | addons/developer-cleaner/core.js:111-114 | every call of a plan starts at 0 for all time and otherwise at the time of planning minus the literal length of the raw range, with the raw origin types |
| CleanerAnswers.PlanFlags | addons/developer-cleaner/core.js:131-136 | name, reload and closing follow the raw preset, and a plan may run unattended exactly when it closes nothing, touches no app data and clears the two caches only |
| CleanerAnswers.PlanWarns | addons/developer-cleaner/core.js:125-130 | the warnings, from the selected types and flags of the raw preset |
| CleanerAnswers.RemovalsClearTheirRange | addons/developer-cleaner/background.js:82-86 | in every run an issued removal starts at the range of its preset, counted from the moment its plan was made |
| CleanerAnswers.RemovalsNeedDeveloperMode | addons/developer-cleaner/background.js:59-145 | in every run a removal belongs to a cleanup that began under settings with developer mode on |
| CleanerAnswers.FreshInstallIsOff | addons/developer-cleaner/core.js:20-34 | before anything is stored nothing is on, and the one preset clears the two caches of the active tab for the last hour |
| CleanerAnswers.PreviewAnswers | addons/developer-cleaner/background.js:57-60 | a preview goes on exactly with readable settings, developer mode on and no cleanup under way |
| CleanerAnswers.PreviewIssues | addons/developer-cleaner/background.js:61-68 | the one ticket it leaves holds tab, URL and settings and is good for a minute; without a tab answer or a plan nothing changes |
| CleanerAnswers.ExecuteAnswers | addons/developer-cleaner/background.js:109-112 | a ticket is used up by its first execute and picked exactly when confirmed and not expired |
| CleanerAnswers.CleanAnswers | addons/developer-cleaner/background.js:122-127 | one click previews the active preset and goes on exactly when the plan needs no confirmation |
| CleanerAnswers.PickedAnswers | addons/developer-cleaner/background.js:113-119 | a picked cleanup starts with the ticket's plan exactly when developer mode is on, the settings are those of the preview, no tab check is due and none runs |
| CleanerAnswers.PickedTabAnswers | addons/developer-cleaner/background.js:115-119 | with a tab check it starts exactly when the tab found has the ticket's URL and none runs |
| CleanerAnswers.InstallAnswers | addons/developer-cleaner/background.js:194-197 | an install saves the settings that were read, or nothing |
| CleanerAnswers.SaveAnswers | addons/developer-cleaner/background.js:32-37 | a save is refused exactly for bad settings or a shared item that is too big, and changes nothing then |
| CleanerAnswers.SavedIsShared | addons/developer-cleaner/background.js:38-41 | what other devices get: presets and appearance with everything that acts switched off, or nothing with sync off |
| CleanerAnswers.IncomingIsItsForm | addons/developer-cleaner/background.js:218-226 | an incoming item is stored in that form, and only if it differs from the current one |
| CleanerAnswers.FollowUpAnswers | addons/developer-cleaner/background.js:90-97 | windows close or the tab reloads exactly as the plan says while developer mode is on, never both |
| CleanerAnswers.CleanupAnswersReview | addons/developer-cleaner/background.js:89-89 | a queued review goes away when a cleanup has cleared everything, and not before |
| CleanerWorker.Worker.IssueTicket | addons/developer-cleaner/background.js:62-68 | a preview replaces all tickets by its own, or changes nothing |
| CleanerWorker.Worker.TakeTicket | addons/developer-cleaner/background.js:109-113 | the ticket is gone whatever the outcome, and is picked only when confirmed and not expired |
| CleanerWorker.Worker.BeginRemoval | addons/developer-cleaner/background.js:76-79 | a cleanup starts only when none runs |
| CleanerWorker.Worker.RemoveCalls | addons/developer-cleaner/background.js:82-86 | the completed types are those of the calls before the first disabled read or failed removal, and at most one call more was issued |
| CleanerWorker.Worker.AutomateRun | addons/developer-cleaner/background.js:129-145 | a trigger does nothing, queues a review or starts an automatic-safe plan without reload |
| CleanerWorker.Worker.SaveBegin | addons/developer-cleaner/background.js:32-37 | rejected settings change nothing; accepted ones clear the tickets before the write |
| CleanerWorker.Worker.SyncApply | addons/developer-cleaner/background.js:218-223 | an incoming item clears the tickets exactly when it changes something |
| CleanerTraces.BodyKeeps | addons/developer-cleaner/background.js:76-107 | every stretch of a cleanup keeps its trace in order: plan order, one start, prefix reports, nothing after a failure |
| CleanerRuns.RunKeepsInv | addons/developer-cleaner/background.js:5-151 | the invariant of the worker over every order of messages, triggers, reads, resumes and restarts |
| CleanerSafety.OneCleanupAtATime | addons/developer-cleaner/background.js:77-104 | at most one cleanup body runs, `running` is true exactly then, and at most one ticket is live |
| CleanerSafety.TicketStartsOnce | addons/developer-cleaner/background.js:109-112 | a ticket starts at most one cleanup over all tasks and restarts |
| CleanerSafety.ManualStartsWerePreviewed | addons/developer-cleaner/background.js:57-119 | a manual cleanup runs the plan of its preview, made at most 60 s before the pick and from settings equal to those then read |
| CleanerSafety.UnconfirmedClearsOnlyCaches | addons/developer-cleaner/background.js:122-145 | a removal without a confirmed message is of the caches with protected and extension origins off |
| CleanerSafety.AutomationNeverUsesATab | addons/developer-cleaner/background.js:135-144 | an automatic removal covers exactly what the preset named for automation asks without any tab, and no selected type of it has an active-tab rule |
| CleanerSafety.UnconfirmedClosesNothing | addons/developer-cleaner/background.js:91-97 | windows close only after a confirmed message, and automatic cleanups reload nothing |
| CleanerSafety.RemovalsAreWhatWasAsked | addons/developer-cleaner/background.js:57-69 | end to end, a removal covers exactly what its preset asks for its type: the preset that the preview message or the automation setting names in the settings read at the start, for the tab that the preview found |
| CleanerSafety.TabUnchangedSincePreview | addons/developer-cleaner/background.js:115-118 | a cleanup whose preset looks at the active tab starts only when the tab found then has the URL of the preview |
| CleanerOrigins.CleanupsWereAskedFor | addons/developer-cleaner/background.js:162-164 | every manual cleanup goes back to a message that asked for its preview, and a confirmed one to an `execute` message confirming its ticket at the time of the pick |
| CleanerSafety.RemovalsFollowThePlan | addons/developer-cleaner/background.js:82-87 | issued removals are the first calls of the plan in order, and the reported list is a prefix of the plan's types |
| CleanerSafety.CompletedSoFar | addons/developer-cleaner/background.js:82-86 | during a cleanup all but perhaps the last issued removal are completed |
| CleanerSafety.FailureEndsTheCleanup | addons/developer-cleaner/background.js:84-102 | after a failed removal its cleanup removes, reloads and closes nothing |
| CleanerSafety.AutomationHoldsSettings | addons/developer-cleaner/background.js:147-161 | while an automatic cleanup runs no event changes the stored settings |
| CleanerSafety.AutomationIsNotStopped | addons/developer-cleaner/background.js:83-83 | inside an automatic cleanup the enabled check fails exactly when the read fails |
| CleanerScenes.AutomationOutlastsSaves | addons/developer-cleaner/background.js:147-161 | a trigger fires and a save comes in while its cleanup waits: every call of the plan is issued, and the save is still waiting then |
| CleanerScenes.TurningOffComesTooLate | addons/developer-cleaner/background.js:82-84 | an hourly cleanup of both caches issues both calls after developer mode was turned off |
| CleanerSafety.SwitchingOffStopsCleanups | addons/developer-cleaner/background.js:82-84 | while disabled settings stay stored, all cleanups together issue at most one further removal |
| CleanerTurningOff.SaveTakesEffectIff | addons/developer-cleaner/background.js:147-161 | a save that comes in is stored at once exactly when no other operation holds the serialized chain |
| CleanerTurningOff.AutomationHoldsTheChain | addons/developer-cleaner/background.js:144-151 | while an automatic cleanup runs it is the operation that the chain waits for |
| CleanerTurningOff.SaveAtFreeChainStops | addons/developer-cleaner/background.js:82-84 | after a disabling save at a free chain at most one further removal is issued while it stays stored, whatever cleanup runs |
| CleanerTurningOff.TurningOffStopsIff | addons/developer-cleaner/background.js:82-84 | a disabling save stops a cleanup with two or more calls left, after at most one more, exactly when the chain is free, and never an automatic one |
| CleanerTurningOff.BusyChainOutlastsSaves | addons/developer-cleaner/background.js:147-161 | behind another operation of the chain every cleanup, confirmed or not, issues all its calls while the save waits |
| CleanerTurningOff.ManualOutlastsSaves | addons/developer-cleaner/background.js:119-151 | preview, confirmation, trigger, save: the confirmed cleanup issues every call of its plan and the save is still waiting |
| CleanerTurningOff.ConfirmedCleanupRunsOn | addons/developer-cleaner/background.js:119-151 | a confirmed cleanup of both caches issues both calls after developer mode was turned off during a trigger |
| CleanerSync.EchoChangesIff | addons/developer-cleaner/background.js:216-227 | the echo of a save changes the state exactly when sync is on, stored and sent settings can be read and they share something else |
| CleanerScenes.LateEchoReverts | addons/developer-cleaner/background.js:216-227 | after two saves the echo of the first brings back the first settings, whenever the two share something else |
| CleanerScenes.ThemeComesBack | addons/developer-cleaner/background.js:15-20 | a theme changed from dark to light comes back dark, and developer mode goes off |
| CleanerSync.OwnEchoChangesNothing | addons/developer-cleaner/background.js:216-227 | the echo of the current save changes nothing, even when its lists cannot be read back |
| CleanerSync.IncomingTwiceIsOnce | addons/developer-cleaner/background.js:218-226 | applying an incoming change twice leaves what applying it once leaves |
| CleanerSync.IncomingIsShared | addons/developer-cleaner/background.js:15-20 | an incoming change is stored with developer mode and every trigger off and sync on |
| CleanerSync.SyncIsQuietInRuns | addons/developer-cleaner/background.js:216-227 | in every run stored settings stay normal forms, their own echo does nothing, and no incoming change turns anything on |
| CleanerTriggers.DueTriggerRunsOrAsks | addons/developer-cleaner/background.js:129-145 | a due trigger over readable settings starts the plan of its preset, made without a tab, exactly when that preset clears caches only, without app data, windows or active-tab rules, and otherwise queues it for review |
| Firewall.LoadEnv | scripts/lib.sh:163-274 | the comment signs for every environment: a line is active exactly when its entry is "1", after an override that is set and not empty, and a LAN exception only with its segment |
| Firewall.CommentsFollowEntries | scripts/lib.sh:163-274 | defaults and overrides in sequence come to what the entries of the environment say |
| Firewall.TrackedVerdict | config/nftables/nftables.conf.template:104-104 | established and related packets are accepted and invalid ones dropped, whatever the flags |
| Firewall.NewFlowAccepted | config/nftables/nftables.conf.template:101-151 | for every packet and flag setting, which new flows the ordered list accepts, in closed form |
| FirewallRuns.RunKeepsInv | config/nftables/nftables.conf.template:101-151 | every flow in the table was accepted as new or shares its parent's interfaces |
| FirewallRuns.ForwardedRestsOnNew | config/nftables/nftables.conf.template:101-151 | every forwarded packet is new, or its root flow was once accepted as new between the same interfaces |
| FirewallRuns.ServersAreIsolated | config/nftables/nftables.conf.template:120-125 | with the comments that `load_env` makes of an environment where SRV_TO_LAN is missing or not "1", or the segment is off, a forwarded server-to-LAN packet goes back to a flow opened from the LAN to the server |
| FirewallRuns.PeersAreIsolated | config/nftables/nftables.conf.template:127-130 | with the comments of an environment where VPN_TO_LAN is missing or not "1", or the VPN is off, no packet of any run is forwarded from a peer to the LAN |
| FirewallRuns.PeersStayInTheirNet | config/nftables/nftables.conf.template:127-130 | with VPN_TO_LAN on such packets go back to a flow opened by a peer whose IPv4 source lay in VPN_NET4 |
| FirewallRuns.SourceRuleIsIpv4Only | config/nftables/nftables.conf.template:129-129 | an opening packet with a source outside VPN_NET4 gets through exactly when it is IPv6 |
| VpnFirewall.RunInPool | addons/homerouter-vpn/backend.go:127-133 | over every run of the service, with failed rollbacks and deaths, the backend holds only IPv4 addresses strictly between server and broadcast |
| VpnFirewall.ServicePeersStayInTheirNet | config/nftables/nftables.conf.template:127-130 | with VPN_TO_LAN on, flows from peers that the service added start only from IPv4 sources strictly inside VPN_NET4 |
| ProxyActivity.Activity.Begin | addons/proxy-router/activity.go:18-30 | registers the connection under the next wrapped identifier; an empty user registers nothing |
| ProxyActivity.Finish.Call | addons/proxy-router/activity.go:31-42 | only the first call acts, and it removes its own identifier and an emptied user |
| ProxyActivity.Activity.Disconnect | addons/proxy-router/activity.go:44-58 | returns the number of the user's connections and cancels exactly those, changing no count |
| ProxyActivity.Activity.CountOf | addons/proxy-router/activity.go:60-67 | the number of registered connections of a user |
| ProxyActivity.Activity.Summary | addons/proxy-router/activity.go:69-83 | the loop over users gives the number of active users and the sum of their counts, whatever the order |
| ProxyActivity.CountsExactIff | addons/proxy-router/activity.go:18-67 | counts equal begins minus first finishes throughout a run exactly when no wrapped identifier meets an open connection of its user |
| ProxyActivity.ShortRunsNeverCollide | addons/proxy-router/activity.go:23-24 | fewer than 2^64 events never collide |
| ProxyActivity.WrapCollides | addons/proxy-router/activity.go:23-24 | 2^64 + 1 connections of one user that never end collide and make its count wrong |
| ProxyActivity.FinishEndsOnlyItself | addons/proxy-router/activity.go:31-42 | a finish, late or repeated, ends at most its own connection and never a newer one |
| ProxyActivity.RegistersIff | addons/proxy-router/activity.go:18-42 | the registry holds exactly the open connections throughout a run exactly when no begin collides |
| ProxyActivity.OlderFinishEndsNewer | addons/proxy-router/activity.go:31-42 | after a collision the first call of the older closure removes the newer connection of the same user |
| ProxyActivity.FirstFinishEndsNewest | addons/proxy-router/activity.go:31-42 | with 2^64 open connections and one more, that happens to the newest one |
| ProxyActivity.DisconnectCancelsOpen | addons/proxy-router/activity.go:44-58 | in every run a disconnect cancels exactly the connections open at its lock |
| ProxyActivity.SummaryExact | addons/proxy-router/activity.go:69-83 | in every run the summary is the users with open connections and the number of open connections |
| AddressPolicy.IsPublicIP | addons/proxy-router/proxy.go:324-363 | the predicate with its early-exit scan decides the declarative definition |
| AddressPolicy.PublicV4IsOutsideBogons | addons/proxy-router/proxy.go:324-363 | public IPv4 addresses are exactly those outside the firewall's bogon set and 192.88.99.0/24 |
| AddressPolicy.SameLine4 | config/nftables/nftables.conf.template:35-44 | the address classes and the block list cover the same IPv4 addresses as the bogon set and the relay prefix |
| AddressPolicy.MappedAgrees | addons/proxy-router/proxy.go:328-330 | an IPv4-mapped address (section 2.5.5.2 of RFC 4291) is judged as the IPv4 address in it |
| AddressPolicy.PublicV4InNumbers | addons/proxy-router/proxy.go:324-363 | the public IPv4 addresses as literal intervals |
| AddressPolicy.PublicV6InNumbers | addons/proxy-router/proxy.go:331-361 | the public IPv6 addresses outside the mapped range as literal intervals |
| AddressPolicy.PublicV6 | addons/proxy-router/proxy.go:331-361 | public IPv6 addresses are exactly those outside the listed intervals |
| AddressPolicy.OrchidEntriesAreRedundant | addons/proxy-router/proxy.go:347-350 | 2001:10::/28 and 2001:20::/28 block nothing that 2001::/23 does not |
| AddressPolicy.DialPublicTarget | addons/proxy-router/proxy.go:287-322 | which error each bad target gives, and that only public candidates are dialed |
| AddressPolicy.DialCandidates | addons/proxy-router/proxy.go:304-321 | the loop returns the first public candidate that connects, or the last public candidate's error, or forbidden when none is public |

## Left out

- HTTP routing, cookies, JSON decoding and encoding, security headers, client-config text and QR codes.
- Cryptography: key pairs, PBKDF2, token hashing, PKCE challenges (section 4 of RFC 7636) and ID-token signatures are inputs that succeed or fail.
- `wgBackend` commands, file permissions and `fsync`: a backend call works or fails, and a finished rename is durable.
- Go's address parser and the browser's URL parser: addresses are integers, and an origin entry comes with what its text parses to.
- The request headers from which the same origin is decided (`oidc.go:305-310`): whether the origin is ours is an input of a request.
- Session checks and service calls of one handler as two steps: owner coverage is proved for handlers taken as one step.
- Nil receivers in `activity.go`: a registry always exists.
- The cleaner's activity list, alarms, badge and context menu, and the read-only `state` and `import-browser` messages: they change no variable that a theorem is about.
- The separate read before a startup trigger: it can only delay or stop the trigger.
- A storage write that is under way when the worker is ended: it either has happened or has not.
- The order of keys in `JSON.stringify`: settings and shared items are compared as values.
- Input, output and NAT chains, rate limits, counters and logging of the firewall: only the forward chain gives verdicts here.
- `addons/proxy-router/users.go` and `sessions.go`: maps with rollback, in harder form in the VPN service.
- `addons/proxy-extension`, `addons/homerouter-hawk`, `addons/status`, pages and styles: user interface or I/O.
