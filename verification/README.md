# Control plane model

A Dafny model of the container control plane: PostgreSQL rows on one side, a Proxmox host on the other, and
multi-step operations between them that can fail part way. `dafny verify dfyconfig.toml` checks every file.

## How it is built

Operations that await are modelled twice, and the two are proved equal.

- As *steps*: a request is a datatype saying at which await it stands, and `Step` performs one await. A reply says that
  the await went through, failed without effect, or failed after taking effect; a request may also stop at any await.
  `Run` folds any list of events, so a statement about `Run` is about every interleaving. Where a promise needs some
  requests not to overlap, the condition says which, and runs from the start show what happens otherwise.
- As *objects*: classes whose fields are the tables, the host, the module-level variables or the queues, with one method
  per SQL statement or host call and one per operation. Their contracts tie the new state to the step-by-step request, or
  say outright what it is. In the table below the members of these classes come last.

The steps themselves are held to an account written independently of them: the `Answers` modules say for every request,
check by check and with the actual limits, texts and bits, what it is answered and what it leaves, and a failure law per group
says what every failing await does.

Each SQL statement or transaction is one atomic step. UUIDs, tokens, codes and secrets are numbers drawn from a counter,
so they are fresh; hashing is injective and therefore left implicit: rows are found by the raw value.

| files | what they model |
|---|---|
| `Basics`, `Text` | shared types, the lowest-free search, splitting and joining text |
| `Ipv4`, `Addressing` | IPv4 blocks, dotted quads, CIDR checks, address allocation |
| `NetworkTables`, `NetworkSteps`, `NetworkInterleaved`, `NetworkConsistency`, `NetworkParallel`, `NetworkLimits`, `NetworkBridges`, `NetworkRequests`, `NetworkAnswers`, `NetworkFailures`, `NetworkService` | private networks and their host side |
| `NetworkScripts`, `NetworkBursts`, `NetworkRivals`, `NetworkMeetings`, `NetworkCollisions` | what follows when network requests get in each other's way |
| `OAuthSteps`, `OAuthSafety`, `OAuthLive`, `OAuthRotation`, `OAuthRequests`, `OAuthAnswers`, `OAuthService` | apps, authorization codes and refresh tokens |
| `Terminal`, `TerminalCauses`, `TerminalTasks` | the terminal stream's three tasks and the exec loops |
| `BrowserAuth`, `BrowserFetch`, `BrowserAnswers`, `BrowserClient` | the dashboard's token refresh and fetches |
| `Sharing`, `SharingAnswers`, `SharingService` | permission masks, invitations, ownership rows |
| `StateSync`, `StateSyncRuns`, `Polling`, `Lifecycle` | container states: reconciliation, polling, start and stop |
| `UpdateBuilder`, `Webhook`, `WebhookRuns`, `WebhookAnswers`, `WebhookService`, `Shell` | webhook configurations, the generated UPDATE, deployments and their commands |
| `Base64Url`, `Cookie` | the two encoders and the cookie parser |

## Where the code differs from its own text

The model follows the code.

- `apps/dashboard/lib/auth.ts:182-187` says a missing refresh token clears all tokens and shows callers sharing one request.
  The early return at line 193 clears nothing and leaves the shared promise settled, so no later call ever refreshes
  (`BrowserAuth.RefreshAskedIffNeverMissed`, `MissedForever`; `TokensLostOnlyByRejection` says what does clear the tokens).
- `apps/dashboard/lib/auth.ts:70-76` clears the tokens at a logout, but a refresh outstanding then stores them again when it
  succeeds: a logout lasts if and only if none is outstanding (`BrowserAuth.LogoutLastsIffNoneOutstanding`, `LogoutIsUndone`).
- `backend/migrations/20240104000000_private_networks.sql:6` says bridge numbers are never reused; the 64-bit sequence value
  is cut to 32 bits on reading. Up to 2^32 draws all stored networks differ, one more can repeat a number
  (`NetworkBridges.DrawsRepeatIffWrapped`, `BridgesAreDistinct`, `ReuseHappens`).
- The limits and the overlap check at `backend/src/services/network_service.rs:188-204` are not one with the insert: n creates
  at once can exceed either limit by n - 1 and no more (`NetworkLimits.LiveNetworksBounded`, `NetworkBursts.LimitsAreExceeded`),
  and one owner's blocks overlap exactly when two creates hold overlapping blocks between check and insert and both go on,
  numbers not repeating (`NetworkLimits.BlocksDisjointUnlessRivals`, `NetworkRivals.RivalsAlwaysOverlap`, `NetworkBursts.RivalsOverlap`).
- Nothing keeps two requests on one network apart. Rows and host match in every interleaving in which no delete meets a
  create or add on its network and no remove meets an add or remove of its membership; two deletes of one network are
  harmless up to 2^32 draws (`NetworkParallel.CrashConsistency`). `NetworkMeetings` says from which states each meeting
  breaks the match, `NetworkCollisions` holds a run from the start for each.
- `backend/src/services/container_service.rs:308` says polling returns the last observed status; it returns the desired
  status or Unknown.
- `backend/src/services/container_service.rs:384-385` speaks of a strict subset; a grant may equal the grantor's mask. Line 427
  speaks of viewer access; the row takes the invitation's mask.
- The log texts at `backend/src/services/network_service.rs:443` and `:573` name the states attaching and detaching; the rows are set
  to failed.
- Refreshing is atomic only for codes: find and revoke of a refresh token are separate statements, so one live token per code
  holds in every interleaving that never presents one token twice at the same time (`OAuthRotation.OneLiveIfPresentedOnce`)
  and is lost when both requests find the token before either revokes it (`DoubleRotationForks`, `ForkHappens`).
- `backend/src/services/terminal_service.rs:173` says a command's channel is drained until end of file or exit status. The loop
  ends at end of file alone: a status that comes later is not seen and the command counts as exited with 0, for a deployment
  as succeeded (`TerminalTasks.CodeIsLastStatusIff`, `LateStatusIsLost`).
- Declining after accepting keeps the ownership row (`Sharing.RowIffEverAccepted`, `DeclinedKeepsRow`).
- The reconciliation loop can overwrite a newer state other than provisioning, exactly when the last write between its
  list and its own put another state there (`StateSync.LoopReplacesListedIffUntouched`, `QuietRowReplacesListed`,
  `FinishedActionIsOverwritten`, `LoopOverwritesNewerState`).

## Model

| member | source | states |
|---|---|---|
| Ipv4.OverlapIsNesting | backend/src/services/network_service.rs:95-110 | two CIDR blocks that share an address are nested (section 3.1 of RFC 4632) |
| Ipv4.TwoSidedTestIsOverlap | backend/src/services/network_service.rs:100-102 | testing each block for the other's network address is exactly range overlap |
| Ipv4.AddressRoundTrip | backend/src/services/network_service.rs:420 | parsing a printed dotted quad gives the address back, for every address |
| Ipv4.AddressParseIsPrint | backend/src/services/network_service.rs:115 | every text that parses is the printed form of the address it parses to, so stored texts and addresses correspond one to one |
| Addressing.AcceptedBlockIsPrivate | backend/src/services/network_service.rs:71-90 | with a prefix of 16 to 28, a private network address already puts the whole block inside one range of section 3 of RFC 1918, and conversely |
| Addressing.ValidateCidrMeaning | backend/src/services/network_service.rs:66-92 | a CIDR is accepted if and only if it parses, its prefix is 16 to 28 and its whole block is private; the accepted value is the parsed one |
| Addressing.AcceptedTexts | backend/src/services/network_service.rs:66-92 | in text: a CIDR is accepted if and only if it parses, its prefix is 16 to 28 and every address of its block, written out, begins with 10, with 172 and 16 to 31, or with 192.168 |
| Addressing.CheckNoOverlap | backend/src/services/network_service.rs:95-110 | the loop answers yes if and only if the new block shares no address with any existing one |
| Addressing.CollectUsed | backend/src/services/network_service.rs:115 | the set collected from the stored texts is exactly the addresses they name; unreadable texts count for nothing |
| Addressing.AllocateIp | backend/src/services/network_service.rs:114-125 | the host loop returns the lowest free address of network+2 to broadcast-1, or none |
| Addressing.AllocatedAddress | backend/src/services/network_service.rs:116-121 | the allocated address is allocatable and unused, all lower ones are used, and with k used addresses its offset is at most k+2 |
| Addressing.AllocationFails | backend/src/services/network_service.rs:122-124 | allocation fails if and only if all 2^(32-p)-3 addresses are used |
| Addressing.AllocatedIsPrivate | backend/src/services/network_service.rs:66-125 | every address handed out of an accepted block is private and is neither network, first host nor broadcast address |
| Basics.FindFree | backend/src/services/network_service.rs:409-413 | the search returns the lowest number of the range outside the set, or none if all are used |
| NetworkInterleaved.StepKeepsTables | backend/migrations/20240104000000_private_networks.sql:10-50 | every await of every operation, with any reply, keeps the tables' constraints, the printed addresses in range and every other network's owner, bridge number and CIDR |
| NetworkInterleaved.MembershipSafety | backend/src/services/network_service.rs:391-425 | in every interleaving with stale reads, stops and failures: memberships never share an address in a network or a slot on a container, addresses lie in the allocatable range, slots in 1..15, and each membership's network exists |
| NetworkInterleaved.UsedIsAllocated | backend/src/services/network_service.rs:400-404 | the used addresses read back from a network's rows are exactly those its memberships hold |
| NetworkInterleaved.NetworkIsImmutable | backend/src/services/network_service.rs:210-219 | over any continuation of any run a network's owner, bridge number and CIDR never change while it exists |
| NetworkConsistency.AloneStep | backend/src/services/network_service.rs:221-237 | each await of a request run alone takes a consistent state to a consistent state and to a place whose own assumptions hold |
| NetworkParallel.StepSpares | backend/src/services/network_service.rs:298-326 | an await of one request takes away nothing that another request in flight relies on, unless the two collide |
| NetworkParallel.CrashConsistency | backend/src/services/network_service.rs:298-326 | in every interleaving without collisions, requests stopping anywhere and host calls failing with or without effect: bridge implies row, active network implies bridge, occupied NIC slot implies its membership row, active membership implies NIC, and the bridge under a NIC exists; a collision is a delete next to a create or add on its network, or a remove next to an add or remove of its membership; deletes of one network may overlap freely in runs of at most 2^32 draws |
| NetworkMeetings.LateBridge | backend/src/services/network_service.rs:298-332 | from every state where a delete of an empty network is past its checks and the network's create before its bridge: the delete finishes, the create goes on, and exactly that bridge has no row |
| NetworkMeetings.LateActivation | backend/src/services/network_service.rs:228-237 | from every state where the create is before its activation instead: an active network without a bridge |
| NetworkMeetings.LateUnbridge | backend/src/services/network_service.rs:306-325 | from every state where an add is at its insert and a delete of the network past its checks: both go on, and exactly that NIC of an active membership has no bridge |
| NetworkMeetings.AddMeetsDelete | backend/src/services/network_service.rs:298-487 | the same from every state with an empty active network and a free address and slot, whatever else is in flight |
| NetworkMeetings.LateAttach | backend/src/services/network_service.rs:415-585 | from every state where an add is before its NIC and a remove of the membership past its reads: the remove finishes, the add goes on, and exactly that slot is occupied without a row |
| NetworkMeetings.LateJoin | backend/src/services/network_service.rs:482-546 | from every state where the add is before its activation instead: an active membership without a NIC |
| NetworkMeetings.LateDetach | backend/src/services/network_service.rs:546-585 | from every state where a remove is before its detach, its row gone and its slot taken by another active row of the container: that row loses its NIC |
| NetworkMeetings.RemoveMeetsRemove | backend/src/services/network_service.rs:507-596 | from every state with two removes of one membership before their detach, and another network the container may join in the same slot: the later remove unplugs it |
| NetworkMeetings.LateDelete | backend/src/services/network_service.rs:312-326 | from every state where a delete is before its bridge removal, its row gone and its number taken by another active network: that network loses its bridge |
| NetworkCollisions.BridgeWithoutRow | backend/src/services/network_service.rs:298-332 | a run from the start: a delete next to a create leaves a bridge without a row |
| NetworkCollisions.NicWithoutBridge | backend/src/services/network_service.rs:306-325 | a run from the start: a delete next to an add leaves an active membership whose NIC has no bridge |
| NetworkCollisions.NicWithoutRow | backend/src/services/network_service.rs:415-487 | a run from the start: a remove next to an add leaves a NIC without a row |
| NetworkCollisions.MemberWithoutNic | backend/src/services/network_service.rs:531-585 | a run from the start: of two removes of one membership the later unplugs the NIC of another network, whose active membership has none then |
| NetworkCollisions.NetworkWithoutBridge | backend/src/services/network_service.rs:312-326 | a run from the start with 2^32 + 1 draws: of two deletes of one network the later removes the bridge of a new network that got the same number back, which is active without a bridge then |
| NetworkLimits.LiveNetworksBounded | backend/src/services/network_service.rs:188-201 | in every interleaving with at most n creates in flight at most 99+n networks are creating or active, and with at most n of one owner at most 4+n of that owner's: with n=1 the limits of 100 and 5 |
| NetworkLimits.BlocksDisjointUnlessRivals | backend/src/services/network_service.rs:203-219 | in every interleaving in which no two creates of one owner hold overlapping blocks between check and insert, one owner's blocks, in any state, share no address |
| NetworkBursts.LimitsAreExceeded | backend/src/services/network_service.rs:188-219 | both bounds are attained for every n, up to the 65536 blocks of prefix 24 in 10.0.0.0/8: runs from the start with at most n requests in flight that end with 99+n live networks, or with 4+n of one user |
| NetworkRivals.RivalsOverlapFromAnyState | backend/src/services/network_service.rs:203-237 | the converse: from every state with two such creates, at whichever await between check and insert each stands, whose numbers are free, letting both finish leaves two active networks of one owner that overlap |
| NetworkRivals.RivalsAlwaysOverlap | backend/src/services/network_service.rs:203-237 | in particular every run from the start with at most 2^32 - 2 draws that ends with two such creates has that continuation |
| NetworkBursts.RivalsOverlap | backend/src/services/network_service.rs:203-219 | a run from the start: two creates of one user for the same block at the same time both succeed |
| NetworkBridges.DrawsRepeatIffWrapped | backend/src/db/network_repo.rs:142-148 | in every interleaving two draws give the same number if and only if the number of draws from the first up to the second is a positive multiple of 2^32; a draw that goes through hands exactly that number to its request |
| NetworkBridges.BridgesAreDistinct | backend/migrations/20240104000000_private_networks.sql:4-18 | in every interleaving with at most 2^32 draws no two networks ever stored share a bridge number, at any two points, also after deletion |
| NetworkBridges.ReuseHappens | backend/src/db/network_repo.rs:142-148 | the bound is exact: a run from the start with 2^32+1 draws stores a second network under the bridge number of a first, deleted one |
| NetworkRequests.PerformKeepsConsistent | backend/src/services/network_service.rs:369-596 | every whole request, wherever it stops, keeps tables and host consistent |
| NetworkRequests.CreateSucceeds | backend/src/services/network_service.rs:173-253 | a successful create adds exactly one active network and its bridge, under the limits and without overlap, and changes nothing else |
| NetworkRequests.DeleteSucceeds | backend/src/services/network_service.rs:298-332 | a successful delete was asked by an admin or the owner and removes exactly the network, which had no members, and its bridge |
| NetworkRequests.AddSucceeds | backend/src/services/network_service.rs:369-504 | a successful add was asked by an admin or the owner with permission on the container, gives it the lowest free address and slot, stores exactly that row and plugs in exactly that NIC |
| NetworkRequests.RemoveSucceeds | backend/src/services/network_service.rs:507-596 | a successful remove was asked by an admin or the owner with permission on the container; it deletes exactly the container's row in that network and unplugs exactly its NIC |
| NetworkRequests.DeleteUndoesCreate | backend/src/services/network_service.rs:298-332 | create then delete restores rows and host; only a bridge number and an id are spent |
| NetworkRequests.RemoveUndoesAdd | backend/src/services/network_service.rs:507-596 | add then remove restores rows and host, freeing address and slot |
| NetworkAnswers.CreateAnswer | backend/src/services/network_service.rs:173-253 | every create when no await fails, check by check: name and CIDR, 100 networks on the node, 5 of the user, overlap; else exactly the new row, number and bridge |
| NetworkAnswers.DeleteAnswer | backend/src/services/network_service.rs:298-332 | every delete when no await fails: missing, not admin or owner, members left, else row and bridge gone |
| NetworkAnswers.AddAnswer | backend/src/services/network_service.rs:369-504 | every add when no await fails: the six refusals in order, no address, no slot, else the row with the lowest address and slot and its NIC |
| NetworkAnswers.RemoveAnswer | backend/src/services/network_service.rs:507-596 | every remove when no await fails: missing network, not admin or owner or without permission, no such member, else exactly that row and NIC gone; a permitted remove of an existing row succeeds |
| NetworkAnswers.AnsweredUnlessFailed | backend/src/services/network_service.rs:173-596 | whatever fails, a request is answered with an internal or host error or ends exactly as if nothing had failed |
| NetworkAnswers.StrangersChangeNothing | backend/src/services/network_service.rs:264-276 | whatever the replies, a delete, add or remove by someone who is neither admin nor owner, or without permission on the container, changes neither rows nor host |
| NetworkFailures.FailureLaw | backend/src/services/network_service.rs:173-596 | every await of every operation: failing without effect changes nothing, failing after taking effect leaves what success leaves; failed host calls are answered as such, by member operations after marking the row, all else as internal errors |
| NetworkFailures.CreateBridgeFails | backend/src/services/network_service.rs:221-226 | a create whose bridge call fails leaves its row creating, and the bridge exactly if the call took effect |
| NetworkFailures.DeleteBridgeFails | backend/src/services/network_service.rs:309-322 | a delete whose bridge call fails leaves its row deleting, and the bridge unless the call took effect |
| NetworkFailures.AttachFails | backend/src/services/network_service.rs:430-459 | an add whose attach call fails leaves its row failed, with the NIC exactly if the call took effect |
| NetworkFailures.DetachFails | backend/src/services/network_service.rs:546-579 | a remove whose detach call fails leaves its row failed, with the NIC unless the call took effect |
| OAuthSafety.StepExtends | backend/src/db/oauth_repo.rs:222-282 | no statement removes a row, un-revokes an app or token, or un-uses a code; only issuing adds a token |
| OAuthSafety.CodeYieldsOneToken | backend/src/db/oauth_repo.rs:316-332 | in every interleaving each code is exchanged for at most one refresh token, only by the client and with the redirect URI it was issued to, and every descendant keeps the code's app and user (sections 4.1.2 and 4.1.3 of RFC 6749) |
| OAuthSafety.RevokedForever | backend/src/db/oauth_repo.rs:378-400 | in every interleaving a revoked token stays revoked, and a token's app, user and code never change |
| OAuthSafety.RevokedAppIssuesNothing | backend/src/api/handlers/oauth.rs:547-557 | once an app is revoked, no token of it ever comes from a request begun later |
| OAuthSafety.DeletedAppIssuesNothing | backend/src/api/handlers/oauth.rs:254-267 | when a delete returns success, in every continuation no request begun afterwards stores a token of that app |
| OAuthLive.AloneStep | backend/src/api/handlers/oauth.rs:559-609 | each await of a request run alone keeps at most one live token per code and the readiness of its next await |
| OAuthRotation.OneLiveIfPresentedOnce | backend/src/api/handlers/oauth.rs:586-603 | in every interleaving in which no refresh token is presented while a refresh with that same token is in flight, at most one unrevoked token descends from each code; all other requests overlap freely |
| OAuthRotation.OneLiveUnlessDouble | backend/src/api/handlers/oauth.rs:591-601 | the same already holds as long as no two requests stand between finding and revoking one token |
| OAuthRotation.DoubleRotationForks | backend/src/api/handlers/oauth.rs:600-602 | and fails otherwise: from every state in which two requests do stand there, finishing both leaves two live tokens of the code |
| OAuthRotation.ConcurrentRefreshesFork | backend/src/api/handlers/oauth.rs:591-601 | from every quiet state with a rotatable token, presenting it twice at once leaves two live tokens of its code |
| OAuthRotation.ForkHappens | backend/src/api/handlers/oauth.rs:542-631 | a run from the start with two live tokens of one code |
| OAuthRequests.PerformKeepsSound | backend/src/api/handlers/oauth.rs:542-693 | every whole request, wherever it stops, keeps keys fresh, tokens agreeing with their codes and one live token per code |
| OAuthRequests.RefreshSucceeds | backend/src/api/handlers/oauth.rs:586-603 | a successful refresh revokes exactly the presented token and stores exactly one for the same app, user and code, for an authenticated live app |
| OAuthRequests.RotationKeepsCount | backend/src/api/handlers/oauth.rs:600-602 | a completed rotation keeps the number of live tokens of every code |
| OAuthRequests.RotationNeverRaises | backend/src/api/handlers/oauth.rs:586-603 | a refresh that succeeds, is refused or stops anywhere never raises the live count of any code |
| OAuthRequests.ReplayIsRefused | backend/src/api/handlers/oauth.rs:596-598 | a rotated token presented again is refused and changes nothing |
| OAuthRequests.ExchangeSucceeds | backend/src/api/handlers/oauth.rs:560-585 | a successful exchange spends an unused, unexpired code of that app and redirect URI for exactly one token |
| OAuthRequests.RevokeSucceeds | backend/src/api/handlers/oauth.rs:673-693 | revocation succeeds for unknown, foreign and revoked tokens without effect and otherwise revokes exactly that token (RFC 7009) |
| OAuthRequests.RotateSecretSucceeds | backend/src/api/handlers/oauth.rs:285-310 | a successful rotation gives a live app a fresh secret and revokes exactly the app's tokens |
| OAuthRequests.DeleteAppSucceeds | backend/src/api/handlers/oauth.rs:254-267 | a successful delete marks exactly that app and revokes exactly its tokens |
| OAuthRequests.DeletedAppIsRefused | backend/src/api/handlers/oauth.rs:547-557 | a revoked app's token requests are refused and change nothing |
| OAuthAnswers.AnsweredUnlessInternal | backend/src/api/handlers/oauth.rs:109-693 | whatever fails, a request is answered with an internal error or ends exactly as if nothing had failed |
| OAuthAnswers.FailureLaw | backend/src/api/handlers/oauth.rs:109-693 | every await: failing without effect changes nothing, failing after taking effect leaves what success leaves, and either is an internal error |
| OAuthAnswers.AuthorizeAnswer | backend/src/api/handlers/oauth.rs:433-504 | every consent for a registered client when no await fails: revoked app, unregistered URI, denied, else one unused code for app, user and URI, expiring in 600 seconds |
| OAuthAnswers.AuthorizeSucceeds | backend/src/api/handlers/oauth.rs:433-504 | whatever the replies, a successful authorization was approved, for a live app with that client id and exactly this redirect URI registered, and stores exactly that one code; every refusal changes nothing |
| OAuthAnswers.CodesGoToRegisteredUris | backend/src/api/handlers/oauth.rs:498-502 | in every interleaving each code stored was approved by its user for its app, live and with that redirect URI registered at the consent check, and expires at most 600 seconds from now |
| OAuthAnswers.CreateAppAnswer | backend/src/api/handlers/oauth.rs:109-146 | every registration when no await fails: refused for a bad name or no URI, else exactly the new app with fresh keys |
| OAuthAnswers.UpdateAppAnswer | backend/src/api/handlers/oauth.rs:211-239 | every profile update when no await fails: only its owner changes a live app's profile, and nothing but the profile; to others the app does not exist |
| OAuthAnswers.DeleteAppAnswer | backend/src/api/handlers/oauth.rs:254-267 | every delete when no await fails: only its owner marks the app and revokes exactly its tokens |
| OAuthAnswers.RotateSecretAnswer | backend/src/api/handlers/oauth.rs:285-310 | every rotation of a secret when no await fails: only its owner; a live app gets a fresh one, the app's tokens are revoked |
| OAuthAnswers.StrangersAreRefused | backend/src/api/handlers/oauth.rs:547-557 | without a live app of that client id and secret every token request is refused without effect |
| OAuthAnswers.ExchangeAnswer | backend/src/api/handlers/oauth.rs:560-585 | every exchange of an authenticated client when no await fails: missing, unknown, used and expired codes refused, a foreign code or URI refused after the code is spent, else one token |
| OAuthAnswers.RefreshAnswer | backend/src/api/handlers/oauth.rs:586-603 | every refresh of an authenticated client when no await fails: missing, unknown, revoked and foreign tokens refused, else the old revoked and one new token |
| OAuthAnswers.OtherGrantAnswer | backend/src/api/handlers/oauth.rs:604-608 | any other grant type of an authenticated client is a validation error without effect |
| OAuthAnswers.RevokeAnswer | backend/src/api/handlers/oauth.rs:673-693 | every revocation by a registered client when no await fails: wrong secret refused, a token of its own app revoked, any other ignored with success |
| OAuthAnswers.RevokeUnknown | backend/src/api/handlers/oauth.rs:673-693 | a revocation by an unregistered client is refused without effect |
| Terminal.RunOk | backend/src/api/handlers/stream.rs:92-218 | every interleaving of reader, bridge and writer keeps the conservation of input bytes and of events |
| Terminal.InputInOrder | backend/src/services/terminal_service.rs:287-297 | in every interleaving the bytes written to SSH are a prefix, in order, of the input the client sent (a first non-text frame is dropped), all of it when the bridge ends because the client left; both queues hold at most 64 |
| Terminal.ClientView | backend/src/api/handlers/stream.rs:163-177 | in every interleaving the writer delivers opened first, then outputs in SSH order, nothing after a close or an error; when the close arrives every output has |
| Terminal.FirstFrameDecides | backend/src/api/handlers/stream.rs:114-139 | in every interleaving the PTY has the size of a first resize and 80 by 24 otherwise; a malformed first text is answered by exactly one error and nothing else is ever sent or written |
| TerminalCauses.ClientIsToldWhatHappened | backend/src/api/handlers/stream.rs:150-177 | in every interleaving the events emitted are exactly those the run's outcomes call for, in order: opened after a first frame, an error for a failed connect or a failed write, one answer per finished upload, one close at the bridge's end while the writer listens |
| TerminalCauses.EveryMessageHasItsCause | backend/src/api/handlers/stream.rs:150-160 | in every interleaving each error emitted comes from a failed connect or a failing message of the client, FileUploaded only from a successful upload and FileUploadError only from a failing one |
| TerminalCauses.ConnectionDecides | backend/src/api/handlers/stream.rs:150-160 | in every interleaving a session whose connect failed writes and reads nothing; a connected one whose writes succeed never emits an error |
| TerminalCauses.EverySessionCanFinish | backend/src/api/handlers/stream.rs:92-218 | from every reachable point the session can come to its end |
| TerminalTasks.DrainExec | backend/src/services/terminal_service.rs:174-194 | standard output and standard error, each in arrival order however the chunks interleave, and the last exit status, of the messages before end of file |
| TerminalTasks.AwaitUpload | backend/src/services/terminal_service.rs:380-391 | an upload fails if and only if its last exit status is there and not 0 |
| TerminalTasks.CodeIsLastStatusIff | backend/src/services/terminal_service.rs:173-194 | the reported code is the channel's last exit status, 0 without one, if and only if that status does not come after an end of file with another value |
| TerminalTasks.LateStatusIsLost | backend/src/services/terminal_service.rs:190 | the concrete case: a status of 1 after the end of file is reported as 0 |
| BrowserAuth.SingleFlight | apps/dashboard/lib/auth.ts:188-218 | in every run at most one refresh request is outstanding, it is the shared promise, and a caller meanwhile sends nothing and waits for it |
| BrowserAuth.SharedAnswer | apps/dashboard/lib/auth.ts:189-217 | in every run all callers told about one refresh are told the same answer |
| BrowserAuth.RefreshAskedIffNeverMissed | apps/dashboard/lib/auth.ts:192-193 | with a refresh token stored and nothing outstanding, a caller causes a request if and only if no earlier caller found the token missing |
| BrowserAuth.MissedForever | apps/dashboard/lib/auth.ts:191-193 | after a caller found the token missing no refresh request is ever sent again, not even after a login |
| BrowserAuth.NoRefreshAfterEarlyFetch | apps/dashboard/lib/auth.ts:247-249 | the concrete case: one fetch on a page without tokens, then any continuation |
| BrowserAuth.LogoutLastsIffNoneOutstanding | apps/dashboard/lib/auth.ts:196-214 | at every point of every run, after a logout both tokens stay away in every continuation without a login if and only if no refresh is outstanding at the logout |
| BrowserAuth.LogoutIsUndone | apps/dashboard/lib/auth.ts:207-209 | such a run from the start: login, refresh, logout, then the refresh succeeds and both tokens are back |
| BrowserAuth.TokensLostOnlyByRejection | apps/dashboard/lib/auth.ts:196-214 | in every run the two tokens come and go together and survive any continuation without a logout and without a rejected refresh |
| BrowserFetch.AtMostOneRetry | apps/dashboard/lib/auth.ts:242-293 | in every run each fetch sends at most two requests for its path, the second only after a 401 and a successful refresh |
| BrowserFetch.RetriedIffRefreshed | apps/dashboard/lib/auth.ts:263-293 | in every run a finished fetch sent exactly two requests if and only if its first was answered 401 and the refresh it waited for succeeded, and the second follows that at once |
| BrowserAnswers.RefreshServed | apps/dashboard/lib/auth.ts:196-214 | an outstanding refresh, answered: only an accepted response with a token succeeds and stores it beside the refresh token the request was started with; a rejection clears both tokens, anything else leaves them |
| BrowserAnswers.RefreshStarts | apps/dashboard/lib/auth.ts:188-196 | asking for a refresh: an outstanding one is shared, without a token the answer is no at once, else exactly one request with the stored token |
| BrowserAnswers.FetchStarts | apps/dashboard/lib/auth.ts:242-266 | a fetch with a fresh access token sends its request with that token at once, headers first exactly for mutating methods |
| BrowserAnswers.FetchRefreshesFirst | apps/dashboard/lib/auth.ts:247-266 | with the token missing or expiring it waits for a refresh first, and sends its request with whatever token is stored then |
| BrowserAnswers.FetchEnds | apps/dashboard/lib/auth.ts:263-293 | a response other than a first 401, or a fetch that throws, ends the call |
| BrowserAnswers.UnauthorizedRefreshes | apps/dashboard/lib/auth.ts:268-293 | a first 401 asks for a refresh with the stored token; exactly if that succeeds the request is sent again, carrying the new access token |
| BrowserAnswers.EveryCallCanFinish | apps/dashboard/lib/auth.ts:188-293 | in every reachable state every call begun can still come to its end |
| Sharing.MasksAreDelegated | backend/src/services/container_service.rs:373-413 | in every interleaving each mask lies in 0..255 with the view bit; primary rows hold all bits; every other row's mask is its invitation's, whose inviter held all of it with the share bit or was an effective admin |
| Sharing.RowsAreForever | backend/src/db/container_repo.rs:456-508 | in every interleaving rows never change or vanish, and an accepted invitation has its row |
| Sharing.MasksShrinkAlongChains | backend/src/services/container_service.rs:384-393 | in every interleaving masks only shrink along every chain of invitations not sent by admins: every permission the last one holds the first one holds |
| Sharing.OnePrimaryOwner | backend/src/db/container_repo.rs:246-287 | in every interleaving every container has exactly one primary owner |
| Sharing.RowIffEverAccepted | backend/src/db/container_repo.rs:456-508 | in every interleaving an invitee who is not the primary owner has a row if and only if some answer so far was to accept, whatever the last one was |
| Sharing.DeclinedKeepsRow | backend/src/db/container_repo.rs:470-502 | a run from the start whose invitation reads declined and whose row stays |
| Sharing.LegacyCheckIsExact | backend/src/db/container_repo.rs:303-325 | in every interleaving the text check passes for owner and operator exactly on those preset masks and for viewer exactly on masks with the view bit, and the stored text stands for the mask exactly on the presets |
| SharingAnswers.CreateAnswer | backend/src/services/container_service.rs:124-152 | a created container has one row, all eight bits for its creator as primary owner |
| SharingAnswers.InviteAnswer | backend/src/services/container_service.rs:366-414 | every invitation when no await fails, check by check: share bit 0x40, view bit 0x01, no bit the inviter lacks (an admin holds 0xFF), known user, then exactly one new unanswered invitation |
| SharingAnswers.RespondAnswer | backend/src/services/container_service.rs:428-461 | every answer when no await fails: unknown text, missing, foreign, else recorded over any earlier one, and an acceptance adds exactly the invitation's mask unless there is a row |
| SharingAnswers.ServedUnlessInternal | backend/src/services/container_service.rs:366-461 | whatever fails, a request is answered with an internal error or ends exactly as if nothing had failed |
| SharingAnswers.FailureLaw | backend/src/db/container_repo.rs:246-508 | every await: failing without effect changes nothing, failing after taking effect leaves what success leaves, and either is an internal error |
| SharingAnswers.ServedAlone | backend/src/services/container_service.rs:366-461 | from every point of a run a request can be served in one go with the outcome it has alone |
| SharingAnswers.Presets | backend/src/models/container.rs:24-64 | the three presets are 0xFF, 0x3F and 0x03; names and masks undo each other |
| StateSync.SyncSparesProvisioning | backend/src/jobs/state_sync.rs:79-95 | in every interleaving with creates, starts, stops and restarts, no write of the loop replaces a provisioning state, despite the stale snapshot |
| StateSync.NeverProvisioningAgain | backend/src/services/container_service.rs:177-254 | in every interleaving a container that has left provisioning never returns to it, and rows keep their host number |
| StateSync.LoopReplacesListedIffUntouched | backend/src/jobs/state_sync.rs:45-95 | in every interleaving a write of the loop replaces exactly the write its pass listed if and only if no other write to that row came between the list and it, and it replaces another state than the listed one if and only if the last such write put another state there |
| StateSync.QuietRowReplacesListed | backend/src/jobs/state_sync.rs:45-95 | if from a pass's list until its write to a row no operation on that row and no other pass is in flight whenever an await ends, the write replaces the state listed, put there by the same write |
| StateSync.FinishedActionIsOverwritten | backend/src/jobs/state_sync.rs:60-95 | conversely, from every state in which the loop is about to write to a row and an operation about to record its outcome there, the operation finishing first is overwritten |
| StateSync.LoopOverwritesNewerState | backend/src/jobs/state_sync.rs:60-95 | a run from the start in which a start is confirmed and recorded as running and the loop, on its older list, then records stopped |
| StateSync.ReconciledAgrees | backend/src/jobs/state_sync.rs:73-86 | after a pass every container with a known status agrees with the host unless provisioning, and a further pass changes nothing |
| StateSyncRuns.PassAlone | backend/src/jobs/state_sync.rs:45-104 | from every state of a run a pass with nothing in between brings exactly the out-of-date rows to the host's state, in whatever order they were listed, and leaves every other row and process alone |
| StateSyncRuns.CreateAlone | backend/src/services/container_service.rs:124-184 | in a run a create ends with a new running container, or a failed one if the poll did not see it run |
| StateSyncRuns.OperationAlone | backend/src/services/container_service.rs:192-303 | in a run a start or restart ends with the row running, a stop with it stopped, and with it failed if the poll did not see that |
| StateSyncRuns.FailureLaw | backend/src/db/container_repo.rs:289-301 | a failing statement of an operation ends it, leaving the table as it was or as after success |
| StateSyncRuns.PassGoesOn | backend/src/jobs/state_sync.rs:79-95 | a failing write of the loop does not end its pass |
| Base64Url.BitsAreDigits | backend/src/api/handlers/auth.rs:450-458 | the shifts and masks are the quotients and remainders the model uses |
| Base64Url.DecodeEncode | backend/src/api/handlers/auth.rs:436-464 | a decoder per section 5 of RFC 4648 gives every byte sequence back |
| Base64Url.EncodeDecode | backend/src/api/handlers/auth.rs:436-464 | the decoder accepts only encoder outputs, so both directions are inverse |
| Base64Url.Injective | backend/src/api/handlers/oauth.rs:40-53 | equal outputs come from equal bytes |
| Base64Url.EncodedShape | backend/src/api/handlers/oauth.rs:40-53 | the output has ceil(4n/3) characters, all of the URL-safe alphabet |
| Base64Url.Base64Standard | backend/src/api/handlers/auth.rs:443-464 | a multiple of four characters, ceil(n/3)*4, of which exactly those from ceil(4n/3) on are padding, and which become the specified encoding under the three replacements |
| Base64Url.Base64UrlEncode | backend/src/api/handlers/auth.rs:436-441 | computes the specified encoding on every byte sequence |
| Base64Url.OAuthBase64UrlEncode | backend/src/api/handlers/oauth.rs:40-53 | computes the same encoding on every byte sequence, so both encoders agree |
| Cookie.ExtractPrinted | backend/src/auth/session.rs:116-127 | extracting from printed pairs (section 4.2.1 of RFC 6265, values may hold "=") gives the value of the first pair of that name, or none; none at all if any character of any pair is not visible ASCII, space or tab |
| Cookie.ExtractMeaning | backend/src/auth/session.rs:116-127 | for every header: a value is found if and only if the header is readable and, between semicolons, some piece is name=value within white space and no earlier piece has that name |
| UpdateBuilder.SetsInStep | backend/src/db/webhook_repo.rs:177-187 | placeholders are numbered consecutively and there are as many as bound values |
| UpdateBuilder.AssignIsOverwrite | backend/src/db/webhook_repo.rs:189-202 | for any list of optional fields each placeholder picks its own field's value |
| UpdateBuilder.OverwriteMeaning | backend/src/db/webhook_repo.rs:181-186 | provided fields take their values, every other column is unchanged |
| UpdateBuilder.BuiltUpdate | backend/src/db/webhook_repo.rs:172-208 | for any list of optional fields, running the statement with its binds overwrites the named row and no other |
| Webhook.OverwriteIsUpdated | backend/src/db/webhook_repo.rs:181-201 | on a stored configuration the assignments are exactly the record update with the update time set |
| Webhook.UpdateKeepsOk | backend/src/services/webhook_service.rs:114-142 | a valid partial update of a valid configuration is valid |
| Webhook.RowRoundTrip | backend/src/db/webhook_repo.rs:160-170 | reading back a stored configuration gives it unchanged |
| Webhook.UpdateColumns | backend/src/db/webhook_repo.rs:177-183 | the generated statement sets no column twice and never the container or the creation time |
| Webhook.BranchMeaning | backend/src/services/webhook_service.rs:59-80 | a branch passes if and only if it has 1 to 255 bytes, all letters, digits, dot, underscore, slash or dash |
| Webhook.DirMeaning | backend/src/services/webhook_service.rs:82-98 | a directory passes if and only if it is absolute, at most 4096 bytes, without quote and null byte |
| WebhookAnswers.CreateConfigAnswer | backend/src/services/webhook_service.rs:150-173 | every create when no await fails: no permission, a field that does not pass (limits and bytes spelled out), else exactly that configuration stored |
| WebhookAnswers.UpdateConfigAnswer | backend/src/services/webhook_service.rs:198-212 | every partial update when no await fails: missing, no permission, no field or a bad one, else exactly the given fields and the update time written |
| WebhookAnswers.DeleteConfigAnswer | backend/src/services/webhook_service.rs:215-224 | every delete when no await fails: missing, no permission, else the configuration and exactly its deliveries gone |
| WebhookAnswers.IncomingAnswer | backend/src/services/webhook_service.rs:247-383 | every event when no await before the command fails: unknown webhook or provider and refused signatures log nothing; a ping or another branch is skipped and runs nothing; a push to the configured branch runs exactly that configuration's command once and its delivery succeeds exactly for exit status 0 |
| WebhookAnswers.AnsweredUnlessInternal | backend/src/services/webhook_service.rs:150-383 | whatever fails, a request is answered with an internal error or ends as if at most the final report had failed |
| WebhookAnswers.LostAwait | backend/src/services/webhook_service.rs:150-383 | an await that fails without effect changes nothing and ends any request not yet answered with an internal error |
| WebhookAnswers.ServedAlone | backend/src/services/webhook_service.rs:150-383 | from every point of a run a request can be served in one go with the outcome it has alone |
| WebhookAnswers.UpdateMeetsDelete | backend/src/services/webhook_service.rs:208-211 | from every state: a configuration deleted between an update's write and its second read is reported missing |
| WebhookAnswers.EventMeetsDelete | backend/src/services/webhook_service.rs:254-272 | from every state: a configuration deleted between an event's load and its log leaves nothing logged |
| WebhookRuns.StoredConfigsPass | backend/src/services/webhook_service.rs:59-224 | in every interleaving of creates, partial updates, deletes and deliveries every stored configuration has a branch of 1 to 255 allowed bytes, an absolute directory without quote or null byte, and a command and secret of allowed length |
| WebhookRuns.CommandsAreExact | backend/src/services/webhook_service.rs:247-344 | in every interleaving each command sent was for a push, no ping, to the configured branch, and splits into cd, exactly the directory, && and the unchanged command, of a valid configuration its delivery's own webhook had stored at some point |
| WebhookRuns.StatusesFollowEvents | backend/src/services/webhook_service.rs:274-305 | in every interleaving a delivery is skipped only if it was a ping or for another branch than a configuration its webhook had, and runs, succeeds or fails only if it was a push to such a configuration's branch |
| WebhookRuns.DeliveriesHaveWebhooks | backend/migrations/20240103000000_webhooks.sql:20-22 | in every interleaving every delivery on record belongs to a stored webhook |
| WebhookRuns.DeliveriesRunOnce | backend/src/services/webhook_service.rs:271-383 | in every interleaving no delivery runs twice, a delivery moves only from pending to skipped or running and from running to succeeded or failed, is completed exactly in the last two and has an error text exactly if failed |
| Shell.DeployTokens | backend/src/services/webhook_service.rs:344 | tokenizing by single-quoting (section 2.2.2 of the POSIX Shell Command Language) gives cd, exactly the directory, &&, and leaves the command |
| Shell.DeployExactIffNoQuote | backend/src/services/webhook_service.rs:89-93 | it does so if and only if the directory holds no single quote |
| Shell.UploadTokens | backend/src/services/terminal_service.rs:332-363 | a path is accepted if and only if it has 1 to 4096 bytes without quote and null byte, and then comes back from the upload command unchanged with nothing after it |
| Polling.OpenIsBounded | backend/src/services/container_service.rs:317-341 | with a monotone clock and full sleeps a query made in time is among the first ceil(timeout/interval)+1 |
| Polling.PollForState | backend/src/services/container_service.rs:312-342 | at most 61 queries, two seconds apart; returns only the desired status or Unknown, the desired one exactly if some query reported it with every earlier one answered and checked before 120000 ms were over |
| Polling.WaitForUnlock | backend/src/proxmox/http_client.rs:555-587 | three seconds apart at most ceil(timeout/3s)+1 queries; succeeds exactly if some query saw no lock with every earlier check before the timeout |
| Polling.WaitForTask | backend/src/proxmox/http_client.rs:592-662 | the same bound; succeeds exactly if the first query in time that saw the task stopped saw exit status OK; an id without a node asks nothing |
| NetworkService.NetworkRepo.NextBridgeId | backend/src/db/network_repo.rs:142-148 | the statement draws the next number and returns it cut to 32 bits; on a failure it may have been drawn |
| NetworkService.NetworkRepo.Create | backend/src/db/network_repo.rs:150-168 | inserts the row unless the bridge number exists; a failed call may have inserted it |
| NetworkService.NetworkRepo.UpdateState | backend/src/db/network_repo.rs:195-203 | sets exactly one row's state, if the row exists |
| NetworkService.NetworkRepo.Delete | backend/src/db/network_repo.rs:205-212 | deletes the row unless a membership refers to it |
| NetworkService.NetworkRepo.ListForUser | backend/src/db/network_repo.rs:170-181 | returns exactly the blocks of the user's networks in every state |
| NetworkService.NetworkRepo.ListUsedIps | backend/src/db/network_repo.rs:286-295 | returns exactly the address texts of the network's rows |
| NetworkService.NetworkRepo.InsertRow | backend/src/db/network_repo.rs:241-258 | inserts the membership only if both references exist, the slot is in 1..15 and none of the three unique keys clashes |
| NetworkService.NetworkRepo.UpdateMemberState | backend/src/db/network_repo.rs:260-272 | sets exactly one membership's state, if it exists |
| NetworkService.NetworkRepo.DeleteMember | backend/src/db/network_repo.rs:274-284 | deletes exactly the rows of that container in that network |
| NetworkService.Proxmox.CreateBridge | backend/src/proxmox/http_client.rs:380-408 | adds exactly that bridge; on failure it may or may not have |
| NetworkService.Proxmox.DeleteBridge | backend/src/proxmox/http_client.rs:410-429 | removes exactly that bridge; on failure it may or may not have |
| NetworkService.Proxmox.AttachContainerNic | backend/src/proxmox/http_client.rs:431-461 | occupies exactly that slot with that bridge; on failure it may or may not have |
| NetworkService.Proxmox.DetachContainerNic | backend/src/proxmox/http_client.rs:463-483 | frees exactly that slot; on failure it may or may not have |
| NetworkService.NetworkManager.CreateNetwork | backend/src/services/network_service.rs:173-253 | the imperative create ends in exactly the state and answer of the step-by-step request for every script of replies, keeps the tables' constraints and, on a consistent host, consistency |
| NetworkService.NetworkManager.Provision | backend/src/services/network_service.rs:206-237 | row, bridge, state in that order, equal to the rest of the step-by-step request |
| NetworkService.NetworkManager.NoOverlapWithOwn | backend/src/services/network_service.rs:203-204 | the listed networks pass the overlap loop exactly when no own network overlaps |
| NetworkService.NetworkManager.DeleteNetwork | backend/src/services/network_service.rs:298-332 | as CreateNetwork, for delete |
| NetworkService.NetworkManager.AddMember | backend/src/services/network_service.rs:369-504 | as CreateNetwork, for add; allocation runs on the stored texts |
| NetworkService.NetworkManager.PlugIn | backend/src/services/network_service.rs:415-487 | row, NIC, state in that order, with the failed state on an attach error |
| NetworkService.NetworkManager.RemoveMember | backend/src/services/network_service.rs:507-596 | as CreateNetwork, for remove |
| NetworkService.NetworkManager.Unplug | backend/src/services/network_service.rs:531-585 | state, NIC, row in that order, with the failed state on a detach error |
| OAuthService.OAuthRepo.CreateApp | backend/src/db/oauth_repo.rs:163-183 | inserts an app with fresh id, client id and secret under its name, description and redirect URIs |
| OAuthService.OAuthRepo.FindByClientId | backend/src/db/oauth_repo.rs:196-208 | finds exactly the app with that client id |
| OAuthService.OAuthRepo.UpdateApp | backend/src/db/oauth_repo.rs:222-242 | writes name, description and redirect URIs of a live app only, and changes no other column or row |
| OAuthService.OAuthRepo.RotateSecret | backend/src/db/oauth_repo.rs:244-262 | writes a fresh secret to a live app only |
| OAuthService.OAuthRepo.RevokeApp | backend/src/db/oauth_repo.rs:275-280 | marks exactly that app |
| OAuthService.OAuthRepo.CreateCode | backend/src/db/oauth_repo.rs:298-314 | inserts an unused code that expires after ten minutes |
| OAuthService.OAuthRepo.Consume | backend/src/db/oauth_repo.rs:316-332 | marks and returns the code if and only if it is unused and unexpired; a failed call may have marked it |
| OAuthService.OAuthRepo.CreateToken | backend/src/db/oauth_repo.rs:349-364 | inserts exactly that token |
| OAuthService.OAuthRepo.RevokeToken | backend/src/db/oauth_repo.rs:378-388 | revokes exactly that token |
| OAuthService.OAuthRepo.RevokeAllForApp | backend/src/db/oauth_repo.rs:390-400 | revokes exactly the app's tokens |
| OAuthService.OAuthHandlers.Token | backend/src/api/handlers/oauth.rs:542-631 | the token endpoint ends in exactly the state and answer of the step-by-step request, for every grant and script of replies, and keeps the tables sound |
| OAuthService.OAuthHandlers.Exchange | backend/src/api/handlers/oauth.rs:560-585 | consume, check, issue in that order |
| OAuthService.OAuthHandlers.Rotate | backend/src/api/handlers/oauth.rs:586-603 | find, revoke, issue in that order |
| OAuthService.OAuthHandlers.IssueRefreshToken | backend/src/api/handlers/oauth.rs:634-651 | stores one token and answers by the statement's reply |
| OAuthService.OAuthHandlers.Revoke | backend/src/api/handlers/oauth.rs:673-693 | as Token, for revocation |
| OAuthService.OAuthHandlers.DeleteApp | backend/src/api/handlers/oauth.rs:254-267 | as Token, for delete: tokens first, then the app |
| OAuthService.OAuthHandlers.RotateSecret | backend/src/api/handlers/oauth.rs:285-310 | as Token, for the secret: secret first, then the tokens |
| OAuthService.OAuthHandlers.Authorize | backend/src/api/handlers/oauth.rs:433-504 | as Token, for consent |
| OAuthService.OAuthHandlers.CreateApp | backend/src/api/handlers/oauth.rs:109-146 | as Token, for registration |
| OAuthService.OAuthHandlers.UpdateApp | backend/src/api/handlers/oauth.rs:211-239 | as Token, for name, description and redirect URIs |
| TerminalTasks.TerminalSession.TakeFirst | backend/src/api/handlers/stream.rs:115-139 | in place, exactly one step of the session, keeping its invariant: first frame: size, forwarded message, dropped frame or end of the session |
| TerminalTasks.TerminalSession.Open | backend/src/api/handlers/stream.rs:142-177 | in place, exactly one step of the session, keeping its invariant: queues the opening event and spawns both tasks |
| TerminalTasks.TerminalSession.TakeNext | backend/src/api/handlers/stream.rs:180-208 | in place, exactly one step of the session, keeping its invariant: later frames: text and binary become messages, malformed text is ignored, a close ends the reader |
| TerminalTasks.TerminalSession.ForwardMessage | backend/src/api/handlers/stream.rs:185-187 | in place, exactly one step of the session, keeping its invariant: waits while the queue is full, ends the reader once the bridge is gone |
| TerminalTasks.TerminalSession.ConnectSsh | backend/src/api/handlers/stream.rs:150-160 | in place, exactly one step of the session, keeping its invariant: a failing session reports its error |
| TerminalTasks.TerminalSession.OnSsh | backend/src/services/terminal_service.rs:269-285 | in place, exactly one step of the session, keeping its invariant: one SSH message |
| TerminalTasks.TerminalSession.OnClient | backend/src/services/terminal_service.rs:287-315 | in place, exactly one step of the session, keeping its invariant: one queued client message; a failing write may have written a part |
| TerminalTasks.TerminalSession.FinishUpload | backend/src/services/terminal_service.rs:303-308 | in place, exactly one step of the session, keeping its invariant: an upload is answered with its path |
| TerminalTasks.TerminalSession.QueueEvent | backend/src/services/terminal_service.rs:273-280 | in place, exactly one step of the session, keeping its invariant: waits while the queue is full; an output that cannot be queued ends the bridge |
| TerminalTasks.TerminalSession.ReceiveEvent | backend/src/api/handlers/stream.rs:164 | in place, exactly one step of the session, keeping its invariant: takes the oldest event, ends when the bridge is over and the queue empty |
| TerminalTasks.TerminalSession.DeliverEvent | backend/src/api/handlers/stream.rs:165-175 | in place, exactly one step of the session, keeping its invariant: delivers one event, stops after a close or a failed send |
| BrowserClient.AuthClient.StoreTokens | apps/dashboard/lib/auth.ts:55-60 | in place, exactly that part of the event loop, keeping single flight and the histories: sets both tokens |
| BrowserClient.AuthClient.ClearTokens | apps/dashboard/lib/auth.ts:70-76 | in place, exactly that part of the event loop, keeping single flight and the histories: clears both tokens |
| BrowserClient.AuthClient.TryRefreshToken | apps/dashboard/lib/auth.ts:188-218 | in place, exactly that part of the event loop, keeping single flight and the histories: the synchronous part: the promise returned is the shared one, and an outstanding one is reused unchanged |
| BrowserClient.AuthClient.OnRefreshReply | apps/dashboard/lib/auth.ts:196-214 | in place, exactly that part of the event loop, keeping single flight and the histories: the response of the refresh request |
| BrowserClient.AuthClient.OnRefreshBody | apps/dashboard/lib/auth.ts:207-214 | in place, exactly that part of the event loop, keeping single flight and the histories: its body |
| BrowserClient.AuthClient.StartFetch | apps/dashboard/lib/auth.ts:246-266 | in place, exactly that part of the event loop, keeping single flight and the histories: a fetch up to its first await |
| BrowserClient.AuthClient.Resume | apps/dashboard/lib/auth.ts:247-276 | in place, exactly that part of the event loop, keeping single flight and the histories: a fetch or caller after an await on a promise or headers |
| BrowserClient.AuthClient.OnResponse | apps/dashboard/lib/auth.ts:263-292 | in place, exactly that part of the event loop, keeping single flight and the histories: a fetch after a response |
| SharingService.ContainerRepo.Create | backend/src/db/container_repo.rs:246-287 | inserts the container and its primary owner together |
| SharingService.ContainerRepo.CreateInvitation | backend/src/db/container_repo.rs:374-393 | inserts unless the container is missing or the pair was invited before |
| SharingService.ContainerRepo.Respond | backend/src/db/container_repo.rs:456-508 | records the answer and, on acceptance, the row unless there is one |
| SharingService.ContainerService.RequirePermission | backend/src/services/container_service.rs:97-116 | admins pass; others pass exactly with all bits of the flag |
| SharingService.ContainerService.CheckInvite | backend/src/services/container_service.rs:373-393 | the three checks in order, with their exact answers; passing means a sane mask the actor may delegate |
| SharingService.ContainerService.InviteByEmail | backend/src/services/container_service.rs:366-414 | without failures the answer is determined by rows and request; success adds exactly one invitation, refusals change nothing; the invariant is kept |
| SharingService.ContainerService.RespondToInvitation | backend/src/services/container_service.rs:428-461 | only the invitee's answer counts; accepting gives exactly the invitation's mask where there was no row, declining leaves all rows |
| SharingService.ContainerService.Create | backend/src/services/container_service.rs:124-152 | a successful create adds exactly the container and its primary owner |
| StateSync.ContainerRepo.ListAll | backend/src/db/container_repo.rs:169-179 | returns every row exactly once |
| StateSync.ContainerRepo.UpdateState | backend/src/db/container_repo.rs:289-301 | sets exactly one row's state |
| StateSync.Reconciler.SyncOnce | backend/src/jobs/state_sync.rs:45-104 | against a quiet host exactly the out-of-date rows take the host's state, all others stay, and the writes counted are exactly those |
| StateSync.Reconciler.SyncTwice | backend/src/jobs/state_sync.rs:27-42 | the second of two passes writes nothing |
| Lifecycle.ContainerService.Create | backend/src/services/container_service.rs:124-184 | the answer and the table for every combination of failures: the row is inserted as provisioning before the start is sent, and ends running if the host took the start and the poll confirmed it, else failed |
| Lifecycle.ContainerService.Act | backend/src/services/container_service.rs:192-303 | the answer, the command sent and the table for every combination of refusals and failures: nothing is sent without both permissions, nothing written unless the host takes the command; then start and restart record running, stop records stopped, if the poll confirmed it, else failed |
| WebhookService.WebhookRepo.BuildUpdate | backend/src/db/webhook_repo.rs:178-202 | the two passes produce exactly the specified statement and bind list |
| WebhookService.WebhookRepo.UpdateConfig | backend/src/db/webhook_repo.rs:172-208 | exactly the named configuration takes the provided fields and the update time |
| WebhookService.WebhookRepo.CreateConfig | backend/src/db/webhook_repo.rs:127-146 | adds exactly that configuration |
| WebhookService.WebhookRepo.DeleteConfig | backend/src/db/webhook_repo.rs:210-217 | removes exactly that configuration |
| WebhookService.WebhookRepo.GetConfig | backend/src/db/webhook_repo.rs:160-170 | returns exactly that configuration, or none |
| WebhookService.WebhookRepo.CreateDelivery | backend/src/db/webhook_repo.rs:219-240 | inserts a pending delivery unless its configuration is gone; a failed call may have inserted it |
| WebhookService.WebhookRepo.UpdateDeliveryStatus | backend/src/db/webhook_repo.rs:242-260 | sets exactly one delivery's status, error text and completion |
| WebhookService.TerminalService.ExecCommand | backend/src/services/terminal_service.rs:156-206 | sends exactly one command and returns how it ended |
| WebhookService.WebhookManager.CreateConfig | backend/src/services/webhook_service.rs:150-173 | ends in exactly the state and answer of the step-by-step request for every script of replies, and keeps every stored configuration valid |
| WebhookService.WebhookManager.UpdateConfig | backend/src/services/webhook_service.rs:198-212 | as CreateConfig, for a partial update and its second read |
| WebhookService.WebhookManager.DeleteConfig | backend/src/services/webhook_service.rs:215-224 | as CreateConfig, for delete |
| WebhookService.WebhookManager.HandleIncoming | backend/src/services/webhook_service.rs:247-324 | up to the answer exactly the step-by-step request: refused, skipped, or handed to a background task with the configuration as loaded |
| WebhookService.WebhookManager.SkipDelivery | backend/src/services/webhook_service.rs:274-292 | marks a ping or a push to another branch skipped |
| WebhookService.WebhookManager.StartDeployment | backend/src/services/webhook_service.rs:294-305 | loads the container, marks the delivery running and hands over the configuration as loaded |
| WebhookService.WebhookManager.RunDeployment | backend/src/services/webhook_service.rs:335-383 | exactly the rest of the step-by-step request: one command, which splits into cd, the directory, && and the stored command, and its outcome recorded |
| WebhookService.WebhookManager.Deliver | backend/src/services/webhook_service.rs:247-383 | the event and the task it starts with nothing in between are exactly the step-by-step request |

## Left out

- Routing, extractors, OpenAPI, logging, audit records, configuration, CORS, and the user interface.
- Cryptography and foreign protocols: SHA-256, HMAC, JWT signing, OIDC, SSH and TLS. Signature checks, permission checks
  outside `Sharing`, name checks and email lookup enter as their answers.
- The CIDR parser and printer: a request carries what parsing gave, and a stored CIDR is kept as a value, so the branch
  for an unparsable stored CIDR is absent.
- The guest-side `ip` commands and the status query before them when a container joins or leaves a network: best effort,
  without effect on recorded state.
- Listing and renaming; outside webhooks and container operations, the second read that returns the updated record at the end.
- Deletion of users and its cascades; `set_permissions`, which nothing calls.
- The user lookup and access token after a refresh token is stored at the token endpoint: they can turn the answer into an
  error but not change the tables.
- NetworkRequests.PerformKeepsConsistent: one request at a time; the clock, other requests and new containers stand still meanwhile.
- OAuthRequests.RefreshSucceeds: the whole-request lemmas keep the clock fixed during one request; `OAuthSafety` lets it run.
- Terminal.InputInOrder: decoding of bytes to text is the identity; a binary frame carries its text already.
- The progress of an upload between its command and its exit status, and the size and Base64 checks of its data.
- BrowserAuth.SingleFlight: the CSRF token's own cache; fetching it is an await that changes nothing modelled. The tokens'
  mirror cookies and their expiry are left out too.
- StateSync.Reconciler.SyncOnce: updates do not fail during the pass; failing queries are skipped as in the code.
- Base64Url.Base64Standard: bytes are numbers below 256 and shifts are written as quotients and remainders, which
  `Base64Url.BitsAreDigits` justifies on 8-bit words.
- WebhookRuns.StoredConfigsPass: texts are sequences of bytes; the foreign key from configurations to containers, and
  containers' deletion, are left out.
- UpdateBuilder.BuiltUpdate: the statement is kept as its assignments and parameter numbers rather than as SQL text.
- Shell.DeployExactIffNoQuote: the tokenizer covers blanks, single quotes, `&&`, `>` and plain characters, and refuses what
  it does not cover; expansion is not modelled.
- The check of the provider column against its two values, and the lookup of provider adapters, which enters as a flag.
- Polling.WaitForTask: the URL built from the node name is not modelled.
