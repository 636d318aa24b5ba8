# Pairfob: models and proofs

Models of the stateful parts of the pairfob daemon and relay, with proofs about whole runs of
them: crashes, failed writes, late timers, refused messages and every order of events.

| files | what they model |
|---|---|
| `Basics` | options, bytes and a fact about sets, shared by the others |
| `SessionTable`, `SessionSteps`, `SessionRuns`, `SessionKeys`, `SessionBans`, `SessionFlows`, `SessionEngine` | the daemon's session table, the hello exchange and the move of a live session to a peer-to-peer link |
| `Hub`, `HubSteps`, `HubPairing`, `HubFlows`, `RelayHub` | the relay hub: daemons, clients, binds and pairing slots |
| `Ledger`, `LedgerStore` | the operation ledger that starts a mutation at most once |
| `Clipping`, `Pages`, `PageChains`, `TraceClip`, `TraceWindow` | transcript pages, clipping, and the trace window |
| `Gate`, `Bandwidth` | the passphrase gate's guess ledger and the media token buckets |
| `Update` | self-update and its recovery after crashes |
| `Credentials` | enrolment and rotation of the relay credential, with their journals |
| `Pairing`, `PairingStore` | pairing slots, and the keys they and the devices hold |
| `Frames` | the envelope codec and the peer-to-peer chunks |
| `Layout` | pane geometry |
| `Terminal` | the sequencing of terminal commands under all interleavings |

Where the source updates things in place the model has two layers. A step function on values says
what a handler does; an invariant is proved over every run of steps; and a class with the handlers'
own loops and updates is proved to take exactly that step. `hide` statements only limit what the
verifier looks at in a proof.

Some promises turned out to hold only under a condition. Each has a lemma that says exactly when,
and a run from the initial state that breaks it:

| promise | holds if and only if | fails in |
|---|---|---|
| a failed device save leaves the session index complete | the device had no session: `SessionSteps.SaveFailureExact` | `SessionFlows.TwoSessions` |
| an announced route leaves no stale index entry | no established session sits there: `SessionRuns.BoundExact` | `SessionFlows.StaleEntry` |
| derived keys are wiped unless a session holds them | no third hello is refused after the derivation, or its keys were zeros: `SessionKeys.RunCleanExactly` | `SessionFlows.KeysLeftBehind`, `SessionFlows.CandidateKeysLeftBehind` |
| one pairing bind at most, in the open slot | no attach meets a taken slot after its deadline: `HubPairing.StepSlotsExactly` | `HubPairing.TwoPairings` |
| clipping an event ends | no field gets stuck, or the limit admits where the fields settle: `TraceClip.EndsExactly` | `TraceClip.StuckExample` |
| reading a trace returns | the same, with the room left on the page: `TraceWindow.FeedEndsExactly` | `TraceWindow.HangingFileHangs` |
| a complete update names the installed binary | the rollback timer does not fire over a complete journal: `Update.TimerIsSafeExactly` | `Update.LateRollbackHappens` |
| the flags of panes follow the focus | the focus is not removed from three panes or more: `Layout.FlagsFollowExactly` | `Layout.FlagsCanBreak` |
| pages read at each other's cursors say what the file says | no line but the last ends in a carriage return and a line feed: `PageChains.WholeExactly` | `PageChains.CarriageReturnsRepeat` |
| a start resumes an interrupted enrolment or rotation | the journals fit the other files and the daemon was not kicked: `Credentials.BootEndsExactly` | `Credentials.ForeignJournal`, `Credentials.StaleJournal`, `Credentials.CrossedJournal` |

Assumptions: random ids (routes, daemons, tokens, slots, devices, key objects) are new when they
are made; clocks do not go back where a bound on time is stated; checksums do not collide; a failed
write leaves the old or the new file.

## Model

| member | source | states |
|---|---|---|
| `SessionTable.RetireKeeps` | internal/daemon/session.go:374-393 | taking one session out of the table, closing it and zeroing its keys keeps entries keyed by their own routes, key ownership, index soundness and candidate uniqueness, for every other session |
| `SessionTable.UnindexKeeps` | internal/daemon/session.go:433-463 | dropping the index entry of a route that is about to close keeps the index sound |
| `SessionTable.CloseKeeps` | internal/daemon/session.go:433-463 | closing any route keeps the whole invariant, never reopens a closed object, and keeps a complete index complete |
| `SessionTable.SpawnKeeps` | internal/daemon/session_direct.go:106-148 | a new session object on an unused nonzero route keeps the invariant, given its parent route has no other candidate |
| `SessionTable.UpdateKeeps` | internal/daemon/session.go:193-283 | a live session may change fields and take up key objects nobody else holds |
| `SessionSteps.Hello1Keeps` | internal/daemon/session.go:193-283 | the first hello, in every branch (bad nonce, unknown or revoked device, rate limit, wrong state), keeps the invariant |
| `SessionSteps.FinishKeeps` | internal/daemon/session.go:287-372 | the third hello with the kick of the device's older route keeps the invariant in every branch, and the complete index whenever the device save succeeds or the device had no session |
| `SessionSteps.SaveFailureExact` | internal/daemon/session.go:341-356 | a failed device save breaks the index if and only if the device already had an established session |
| `SessionSteps.OrphanStays` | internal/daemon/session.go:341-356 | what that failure leaves: the older session still established, its index entry gone |
| `SessionSteps.OrphanIsNotKicked` | internal/daemon/session.go:361-372 | its price: the device's next handshake does not kick the orphan, and the device has two established sessions |
| `SessionSteps.EntriesAreSessions` | internal/daemon/session.go:329-340 | the cap check counts sessions and the invariant counts index entries; the entries of other devices are at most the sessions counted |
| `SessionSteps.KickedIndexed` | internal/daemon/session.go:329-363 | after install and kick the index is complete and holds at most ten devices |
| `SessionFlows.FinishEstablishes` | internal/daemon/session.go:287-372 | a verified third hello that is saved and answered establishes that very session object at its route, with the new key objects and the index pointing at it |
| `SessionFlows.FinishInstallsKeys` | internal/daemon/session.go:303-357 | and those hold exactly the keys agreed on, whatever the kick wiped |
| `SessionFlows.FinishKicksOnlyOlder` | internal/daemon/session.go:329-372 | the device's older route is gone and its object emptied; every other route keeps its object and all its fields |
| `SessionFlows.OfferMakesCandidate` | internal/daemon/session_direct.go:70-171 | an answered offer leaves exactly one candidate under the parent's route, with the parent's device and the new link, and the parent unchanged |
| `SessionFlows.CandidateShakesHands` | internal/daemon/session.go:193-372 | both hellos over a candidate's route bring it to upgrade-ready with the agreed keys and touch no other session |
| `SessionFlows.UpgradeCompletes` | internal/daemon/session_direct.go:70-335 | offer, two hellos and commit with every message delivered leave the parent object established on the direct route, link and keys, with its terminal, and its old route unmapped |
| `SessionFlows.LoginEstablishes` | internal/daemon/session.go:48-372 | in a table where no other device has a session, an announced route and both hellos establish the device there, with the index pointing at it |
| `SessionFlows.TwoSessions` | internal/daemon/session.go:341-372 | three handshakes of one device from an empty table, the second with a failed save: two established sessions of that device |
| `SessionFlows.StaleEntry` | internal/daemon/session.go:48-88 | a handshake from an empty table, then its route announced again: an index entry for a route with no established session |
| `SessionFlows.KeysLeftBehind` | internal/daemon/session.go:341-356 | one handshake from an empty table whose save fails: key bytes that no session holds and that are not zero |
| `SessionFlows.CandidateKeysLeftBehind` | internal/daemon/session.go:308-315 | a login, an offer, the candidate's first hello, the login's end and the candidate's third hello: the same without any failed save |
| `SessionRuns.BoundKeeps` | internal/daemon/session.go:48-88 | a route announced by the relay keeps the invariant unless it lands on an established session |
| `SessionRuns.BoundExact` | internal/daemon/session.go:48-88 | announcing a route keeps the invariant if and only if no established session sits there: the displaced session's index entry is not dropped |
| `SessionRuns.ExpireKeeps` | internal/daemon/session_direct.go:177-195 | a candidate timer, however late, keeps the invariant |
| `SessionRuns.DropCandidateKeeps` | internal/daemon/session_direct.go:139-158 | replacing a pending candidate removes that one and leaves every other session as it was |
| `SessionRuns.OfferKeeps` | internal/daemon/session_direct.go:70-171 | an offer, answered or not, keeps the invariant, at most one candidate per parent route included |
| `SessionRuns.CommitMoves` | internal/daemon/session_direct.go:240-335 | a commit moves the same session object and terminal to the candidate's route, link and un-zeroed keys; the old keys are zeroed, the old route unmapped, the candidate emptied without hanging up the link, no other session touched, and the device is the same on both sides |
| `SessionRuns.CommitKeeps` | internal/daemon/session_direct.go:240-335 | a commit, ready or not, sent or not, keeps the invariant and the complete index |
| `SessionRuns.StepKeeps` | internal/daemon/session.go:48-535 | every handler, timer, callback, reset and revocation keeps the core invariant (keyed entries, owned keys, sound index, candidates), failed device saves included; if its save succeeds it keeps a complete index complete |
| `SessionRuns.RunKeeps` | internal/daemon/session.go:48-535 | so does every run with fresh routes, whatever fails to be saved; the index stays complete over every run whose device saves succeed |
| `SessionRuns.IndexIsExact` | internal/daemon/session.go:287-372 | in every such state byDevice[d]=r exactly when an established session for d sits at r, each device has at most one, and there are at most ten |
| `SessionRuns.CommittedTimerIsDead` | internal/daemon/session_direct.go:177-195 | after a commit and any further run, failed saves included, the candidate's timer changes nothing |
| `SessionRuns.DeviceIsForever` | internal/daemon/session_direct.go:240-335 | over any run, failed saves included, a session past its first hello never changes device |
| `SessionRuns.CloseAllLeaves` | internal/daemon/session.go:465-477 | closing a list of routes in any order removes those and leaves the others with the same objects and fields |
| `SessionRuns.ResetSparesDirect` | internal/daemon/session.go:493-535 | a transport reset leaves exactly the established direct sessions, untouched |
| `SessionRuns.RevokeEndsDevice` | internal/daemon/session.go:556-613 | after a revocation the device is marked and no session of it is left |
| `SessionBans.StepBanned` | internal/daemon/session.go:193-613 | once a device is revoked and has no session, no step gives it one: a first hello that names it costs the session, and offers and commits keep their parent's device |
| `SessionBans.RevokedIsForever` | internal/daemon/session.go:556-613 | from a revocation on, over any run of handshakes, offers, commits, timers and resets, the device never has a session again |
| `SessionKeys.FinishExactly` | internal/daemon/session.go:287-372 | from their derivation on, the two keys of a third hello end up held by a session or all zeros if and only if it is not refused after that (parent gone, too many devices, save failed) or they were zeros; and no other key changes sides |
| `SessionKeys.CommitStill` | internal/daemon/session_direct.go:240-335 | a commit wipes the keys it replaces, moves the candidate's to the session that goes on, and leaves every other key as it was |
| `SessionKeys.StepExactly` | internal/daemon/session.go:48-535 | no step moves a known key between settled (held or all zeros) and left behind, and the keys a step brings in are settled if and only if it is not such a refused third hello |
| `SessionKeys.RunCleanExactly` | internal/daemon/session.go:48-535 | over any run from a table without stray keys, every key is held or all zeros at its end if and only if none of its third hellos was refused after the derivation |
| `SessionKeys.KeysAreWiped` | internal/daemon/session.go:374-393 | a key that some session holds is, after any run, failed saves included, held by a session in the table or all zeros |
| `SessionEngine.Engine.ZeroKey` | internal/daemon/session.go:374-393 | every byte of one key object becomes zero, no other key changes |
| `SessionEngine.Engine.Wipe` | internal/daemon/session.go:374-393 | zeroes the bytes of the keys the session still refers to, then forgets them, the nonce and the ephemeral secret |
| `SessionEngine.Engine.Drop` | internal/daemon/session.go:433-463 | the in-place removal is the specified step |
| `SessionEngine.Engine.CloseSession` | internal/daemon/session.go:433-463 | likewise for closing a route, index entry included |
| `SessionEngine.Engine.HandleSessionBound` | internal/daemon/session.go:48-88 | likewise for a route announced by the relay |
| `SessionEngine.Engine.FailEpochOf` | internal/daemon/session.go:399-423 | likewise for a failed send epoch of an exact session object, in the table or long gone |
| `SessionEngine.Engine.ExpireCandidate` | internal/daemon/session_direct.go:177-195 | likewise for the candidate timer |
| `SessionEngine.Engine.HandleDirectClose` | internal/daemon/session_direct.go:223-236 | likewise for the close callback of a direct link, which acts only on the session still using that link |
| `SessionEngine.Engine.CountOthers` | internal/daemon/session.go:329-340 | the loop counts the established sessions of other devices |
| `SessionEngine.Engine.HandleHello1` | internal/daemon/session.go:193-283 | the handler is the specified step |
| `SessionEngine.Engine.FinishHello` | internal/daemon/session.go:287-372 | the handler is the specified step for two fresh key objects |
| `SessionEngine.Engine.FinishCandidate` | internal/daemon/session.go:309-328 | the candidate branch of it |
| `SessionEngine.Engine.FinishDevice` | internal/daemon/session.go:329-372 | the device branch of it: cap, save failure, kick, reply |
| `SessionEngine.Engine.HandleForward` | internal/daemon/session.go:90-142 | a forwarded frame, relayed or direct, is the specified step |
| `SessionEngine.Engine.FindCandidate` | internal/daemon/session_direct.go:139-147 | the search finds the candidate of a parent route if there is one |
| `SessionEngine.Engine.ReplaceCandidate` | internal/daemon/session_direct.go:139-158 | the handler drops exactly that candidate |
| `SessionEngine.Engine.TransportOffer` | internal/daemon/session_direct.go:70-171 | the handler is the specified step |
| `SessionEngine.Engine.TransportCommit` | internal/daemon/session_direct.go:240-335 | the handler, which deletes two entries, inserts one, rewrites the parent's fields and wipes both objects in place, is the specified step |
| `SessionEngine.Engine.CloseRoutes` | internal/daemon/session.go:465-477 | the loop closes the routes in the order given |
| `SessionEngine.Engine.ResetTransport` | internal/daemon/session.go:493-535 | the collecting loop picks exactly the routes that are not established direct ones, and closes them |
| `SessionEngine.Engine.RevokeDevice` | internal/daemon/session.go:556-613 | the handler marks the device and closes exactly its routes |
| `Hub.ReleaseKeeps` | internal/mux/hub.go:255-276 | taking any set of binds away, with the slots and client states that point at them, keeps the hub invariant and every client's mode |
| `Hub.ReleaseTwice` | internal/mux/hub.go:255-276 | taking binds away one after the other or together is the same |
| `Hub.AddKeeps` | internal/mux/session.go:84-108 | a new bind under an unused route id for an unattached client keeps it, caps permitting |
| `Hub.SetEmptyKeeps` | internal/mux/hub.go:327-339 | an emptied daemon entry, offline or under a websocket that owns no other, keeps it |
| `HubSteps.JoinKeeps` | internal/mux/register.go:34-80 | a join keeps the invariant |
| `HubSteps.ReconnectKeeps` | internal/mux/register.go:81-123 | a reconnect, with the replacement of the previous websocket, keeps it |
| `HubSteps.DropDaemonKeeps` | internal/mux/hub.go:327-339 | dropping a daemon keeps it |
| `HubSteps.PairOpenKeeps` | internal/mux/pairing.go:10-79 | opening a slot, refreshing or replacing, keeps it: one slot across all daemons |
| `HubSteps.SlotGoneKeeps` | internal/mux/pairing.go:81-135 | closing a slot, by its daemon or its timer, keeps it |
| `HubSteps.PairAttachKeeps` | internal/mux/pairing.go:137-258 | a pair attach keeps it in every branch, the expired slot it deletes on the way included |
| `HubSteps.SessionAttachKeeps` | internal/mux/session.go:39-133 | a session attach with its eviction keeps at most two hello exchanges per daemon and the rest |
| `HubSteps.EvictedRoom` | internal/mux/session.go:71-83 | evicting the oldest makes room for one more |
| `HubSteps.SessionEstablishedKeeps` | internal/mux/session.go:135-180 | a promotion, or the refusal at ten, keeps the caps and the rest |
| `HubSteps.ClientHelloKeeps` | internal/mux/session.go:10-37 | a client hello keeps it |
| `HubSteps.HelloTimeoutKeeps` | internal/mux/session.go:28-36 | the attach timeout, which forgets an unattached client, keeps it |
| `HubSteps.FwdFromClientKeeps` | internal/mux/fwd.go:34-67 | a forwarded frame, counted on pairing binds, keeps it |
| `HubSteps.DropClientKeeps` | internal/mux/hub.go:218-233 | a client websocket that goes away keeps it |
| `HubSteps.StepKeeps` | internal/mux/hub.go:218-339 | every frame handler, timer and failed follow-up send keeps the invariant: binds and client states point at each other, a slot's bind is a live pairing bind of its daemon, an offline daemon has nothing, no websocket owns two daemons, one slot at most, two hello and ten established binds per daemon; that a pairing bind has a slot is `HubPairing.StepSlotsExactly` |
| `HubSteps.RunKeeps` | internal/mux/hub.go:218-339 | so does every run, with fresh ids |
| `HubSteps.ModeIsForever` | internal/mux/hub.go:80-88 | over any run a client that stays in the table keeps the mode it attached with |
| `HubSteps.StepInforms` | internal/mux/hub.go:300-312 | whenever a bind leaves the hub, its client is among those told and closed, and nobody else is, unless that client's own websocket was dropped |
| `HubSteps.ClosingIs` | internal/mux/hub.go:300-339 | for every daemon-side event, timer and failed send: exactly the clients of the binds it closes are told, and exactly their states are cleared |
| `HubSteps.DropClientInforms` | internal/mux/hub.go:314-325 | a client that drops takes its bind along and nobody is told |
| `HubSteps.ForwardingIsExact` | internal/mux/fwd.go:9-67 | a client's frame goes to websocket w under route r if and only if a frame of w for r goes to that client |
| `HubPairing.StepSlotsExactly` | internal/mux/pairing.go:10-258 | every step keeps each pairing bind in the open slot of its daemon, except exactly the pair attach that finds the slot expired and taken: it deletes the slot and leaves the bind |
| `HubPairing.PairAttachSlotted` | internal/mux/pairing.go:137-258 | for the pair attach itself, both ways, the condition being the attach check, the deadline and whether the slot has a bind |
| `HubPairing.ExpiredSlotted` | internal/mux/pairing.go:173-193 | deleting the one slot leaves the binds in order if and only if it had none |
| `HubPairing.RunSlots` | internal/mux/pairing.go:10-258 | over any run without such an attach every pairing bind is in the slot |
| `HubPairing.OnePairing` | internal/mux/pairing.go:10-258 | and so there is one pairing bind at most in the whole hub |
| `HubPairing.TwoPairings` | internal/mux/pairing.go:137-258 | a run of eight events from the empty hub after which two clients are pairing at once |
| `HubFlows.SessionAttachBinds` | internal/mux/session.go:39-133 | an attach to an online daemon binds the client in both directions, so frames go between the two |
| `HubFlows.SessionAttachSpares` | internal/mux/session.go:39-133 | and leaves every bind but the evicted one as it was |
| `HubFlows.PairAttachFills` | internal/mux/pairing.go:137-258 | a pair attach to the open, unexpired, free slot fills it with a pairing bind for the client |
| `HubFlows.RunGrows` | internal/mux/session.go:39-180 | over any run in which a bind stays, its client and age stay, its frames are only counted up, and its kind is what it was or went from hello to established |
| `HubFlows.PromotionOutlivesTimer` | internal/mux/session.go:92-180 | a promoted bind that is still there after any run is established, between the same client and daemon, and its hello timer changes nothing |
| `HubFlows.PairOpenLeavesOne` | internal/mux/pairing.go:10-79 | after opening, the named slot is the only one anywhere, with the new deadline |
| `HubFlows.ReconnectTakesOver` | internal/mux/register.go:81-123 | after a reconnect the websocket is the daemon's owner, nothing of the old connection is left and other daemons are untouched |
| `HubFlows.DropDaemonClears` | internal/mux/hub.go:327-339 | a dropped daemon has nothing left; exactly its clients are told and freed |
| `RelayHub.ForConcat` | internal/mux/hub.go:278-288 | what a list of pending sends holds for one client adds up over concatenation |
| `RelayHub.TellsMore` | internal/mux/hub.go:300-312 | two lists that tell disjoint clients exactly one closing frame each tell their union so together |
| `RelayHub.RelayHub.Unbind` | internal/mux/hub.go:255-276 | the two scanning loops, over slots and over all clients, clear exactly the pointers to the bind |
| `RelayHub.RelayHub.QueueCloseBind` | internal/mux/hub.go:300-312 | unbinds, and queues one closing frame for the client and one copy for the daemon exactly when asked, online, an error and with a route id |
| `RelayHub.RelayHub.CloseDaemonBinds` | internal/mux/hub.go:327-339 | the loop over a daemon's binds releases all of them and queues one closing frame per client |
| `RelayHub.RelayHub.DropDaemonOf` | internal/mux/hub.go:327-339 | the handler is the specified step and tells exactly the daemon's clients |
| `RelayHub.RelayHub.DaemonByConn` | internal/mux/hub.go:245-252 | the search finds the daemon a websocket owns, if any |
| `RelayHub.RelayHub.CountKinds` | internal/mux/session.go:220-230 | the loop counts the hello and established binds |
| `RelayHub.RelayHub.LeastRecent` | internal/mux/session.go:73-79 | the loop finds a hello bind that is at least as old as every other |
| `RelayHub.RelayHub.CloseSlot` | internal/mux/pairing.go:81-135 | closes a slot's bind and deletes the slot |
| `RelayHub.RelayHub.HandlePairClose` | internal/mux/pairing.go:81-107 | the handler is the specified step and tells exactly the right clients |
| `RelayHub.RelayHub.SlotExpired` | internal/mux/pairing.go:110-135 | likewise for the expiry timer, which also writes to the daemon |
| `RelayHub.RelayHub.ReplaceSlots` | internal/mux/pairing.go:54-73 | the two nested loops leave no slot anywhere and tell the phone that used one |
| `RelayHub.RelayHub.HandlePairOpen` | internal/mux/pairing.go:10-79 | the handler is the specified step |
| `RelayHub.RelayHub.FindLiveSlot` | internal/mux/pairing.go:167-201 | the search over daemons and slots finds the live slot, and deletes an expired one on its way |
| `RelayHub.RelayHub.HandlePairAttach` | internal/mux/pairing.go:137-258 | the handler is the specified step |
| `RelayHub.RelayHub.HandleSessionAttach` | internal/mux/session.go:39-133 | the handler is the specified step for a least recent bind, and tells exactly its client |
| `RelayHub.RelayHub.HandleSessionEstablished` | internal/mux/session.go:135-180 | the handler is the specified step |
| `RelayHub.RelayHub.HandleDaemonError` | internal/mux/session.go:182-218 | an error for a route closes that bind |
| `RelayHub.RelayHub.HandleJoin` | internal/mux/register.go:34-80 | enters daemon and token, and takes both back when they cannot be saved |
| `RelayHub.RelayHub.HandleReconnect` | internal/mux/register.go:81-123 | the handler is the specified step and tells exactly the replaced connection's clients |
| `RelayHub.RelayHub.DropClientConn` | internal/mux/hub.go:218-233 | the handler is the specified step and tells no client |
| `RelayHub.RelayHub.DropDaemonConn` | internal/mux/hub.go:234-243 | the handler is the specified step |
| `RelayHub.RelayHub.HandleFwdFromClient` | internal/mux/fwd.go:34-67 | the frame goes to the client's own daemon under its own route id, whatever id it wrote |
| `RelayHub.RelayHub.HandleFwdFromDaemon` | internal/mux/fwd.go:9-32 | the frame goes to the client bound to that route of that daemon, or nowhere |
| `Ledger.BeginKeeps` | internal/daemon/operations.go:69-100 | admission with its pruning, cap and save, failed or not, keeps the ledger invariant: what is in memory is backed by the file, in-flight rows are pending there |
| `Ledger.FinishKeeps` | internal/daemon/operations.go:102-114 | so does a completion, saved or not |
| `Ledger.RestartKeeps` | internal/daemon/operations.go:185-209 | so does a restart from the file |
| `Ledger.StepKeeps` | internal/daemon/operations.go:62-209 | every step keeps it, at most 65536 rows included |
| `Ledger.RunKeeps` | internal/daemon/operations.go:62-209 | so does every run with failed saves and crashes |
| `Ledger.StoreRestore` | internal/daemon/operations.go:129-209 | a completed row survives the way to memory and back |
| `Ledger.OnlyOldCompletedRowsGo` | internal/daemon/operations.go:120-127 | a key is forgotten only when its row completed more than 30 days ago; a pending row never is |
| `Ledger.StartIsDurable` | internal/daemon/operations.go:94-102 | a side effect that may start has its pending row, with its fingerprint, on disk |
| `Ledger.AdmittedMayStart` | internal/daemon/operations.go:69-100 | an admitted intent may start exactly once, its row is on disk, and no unexpired record is lost |
| `Ledger.AtMostOnce` | internal/daemon/operations.go:62-209 | over any run of concurrent callers, failed saves, crashes and restarts a key starts at most once, and once more for each time it was forgotten |
| `Ledger.RepeatsRunNothing` | internal/daemon/operations.go:62-209 | from its admission until it is forgotten, over any run of starts, completions, failed saves and restarts, an intent starts at most once; the same intent again waits for its record, another under its key gets a conflict, and neither changes the ledger |
| `Ledger.FinishAnswers` | internal/daemon/operations.go:102-114 | a completion answers the result of the run if saved and unknown if not, and so would the file |
| `Ledger.AnswerIsTheOutcome` | internal/daemon/operations.go:102-209 | from then on the key answers unknown or that very result, over any run, until it is forgotten |
| `Ledger.SavedIsForever` | internal/daemon/operations.go:69-209 | a saved completion is the answer over any run, restarts included: same receipt, same fingerprint, same error up to what the file keeps |
| `Ledger.FingerprintIsForever` | internal/daemon/operations.go:69-209 | a key keeps its fingerprint, so another intent gets a conflict, for as long as it is known |
| `Ledger.CrashAnswersUnknown` | internal/daemon/operations.go:185-209 | a crash while the side effect may be under way leaves an unknown answer |
| `Ledger.KeyIsInjective` | internal/daemon/operations.go:67 | device ids hold no NUL, so a key names one device and one operation |
| `LedgerStore.OperationLedger.Prune` | internal/daemon/operations.go:120-127 | the loop removes exactly the expired records |
| `LedgerStore.OperationLedger.PersistedRows` | internal/daemon/operations.go:146-172 | the loop writes one row per record, pending or completed |
| `LedgerStore.OperationLedger.Persist` | internal/daemon/operations.go:174-183 | the file is the old or the new one, by the outcome of the save |
| `LedgerStore.OperationLedger.RestoreRows` | internal/daemon/operations.go:185-209 | reading the rows back and pruning is the restart step |
| `LedgerStore.OperationLedger.Admit` | internal/daemon/operations.go:62-100 | the handler is the specified step and reply |
| `LedgerStore.OperationLedger.Complete` | internal/daemon/operations.go:102-114 | the handler is the specified step, and answers what the record then says |
| `Clipping.ClipIs` | internal/journal/journal.go:587-596 | a clipped text is the longest valid prefix within the limit and an ellipsis; of valid text at most three bytes below the limit are lost, and the result is valid UTF-8 |
| `Clipping.ClipText` | internal/journal/journal.go:587-596 | the loop computes that |
| `Clipping.Boundary` | internal/journal/journal.go:587-596 | valid text can be cut at most three bytes before any point |
| `Clipping.CostBounds` | internal/journal/journal.go:439-445 | a JSON string takes at least a byte and at most six per byte |
| `Clipping.CutCost` | internal/journal/journal.go:439-445 | cutting three bytes off pays for the ellipsis |
| `Pages.ClippedIs` | internal/journal/journal.go:447-454 | a clipped message fits 64 KiB encoded and keeps its role; its text is whole, or a valid prefix of the original and an ellipsis |
| `Pages.ClipMessage` | internal/journal/journal.go:447-454 | the halving loop ends and computes that |
| `Pages.CountIsExact` | internal/journal/journal.go:407-411 | the position counted for a line is where the next one starts if and only if no carriage return was dropped |
| `Pages.CrlfLine` | internal/journal/journal.go:407-411 | so a scan falls behind by one for each carriage return it dropped |
| `Pages.EntryStarts` | internal/journal/journal.go:383-437 | reading from where the n-th parseable line starts yields the lines from the n-th on |
| `Pages.ReadPage` | internal/journal/journal.go:383-437 | for any file: a page holds the first entries, as many as the limit and the byte budget admit and no fewer; its cursor is where the first one left out starts, less one for each carriage return dropped; the flag says whether an entry read was clipped; it fails only on a bad offset, a line too long or a scan too long |
| `Pages.PageAdvances` | internal/journal/journal.go:383-437 | a page's cursor is strictly further on; if no line but the last ends in a carriage return and a line feed, what follows it is what the page left out |
| `Pages.ChainIsWhole` | internal/journal/journal.go:383-437 | pages read at each other's cursors, with any limits, say together what one read of the file says, once and in order, in files of which no line but the last ends in a carriage return and a line feed |
| `PageChains.WholeExactly` | internal/journal/journal.go:383-437 | for every file: they do so for every format and all limits if and only if no line but the last ends in a carriage return and a line feed |
| `PageChains.ChainLosesNothing` | internal/journal/journal.go:383-437 | for every file and format, the pages together say every entry of the file, in order, with maybe more in between |
| `PageChains.CarriageReturnsRepeat` | internal/journal/journal.go:383-437 | for any format and any accepted line w of up to 198 bytes without the two characters: of |w| + 3 copies of it, each with both, read |w| + 2 at a time, one comes twice |
| `PageChains.CodexCallRepeats` | internal/journal/journal.go:456-470 | a codex tool call of 70 bytes is such a line |
| `Pages.FollowCursors` | internal/journal/journal.go:383-437 | for any file, following the cursors from 0 ends, or stops at a cursor whose read fails; it has then read the clipped form of every parseable line, under the condition of `PageChains.WholeExactly` |
| `Pages.CursorRoundTrip` | internal/journal/journal.go:564-585 | a cursor brings its transcript back to its position and is a conflict on any other |
| `TraceClip.LargestIs` | internal/journal/trace.go:98-112 | the field chosen is non-empty and has the greatest encoded length |
| `TraceClip.LargestField` | internal/journal/trace.go:98-112 | the loop chooses it, the first of equals |
| `TraceClip.FixedIs` | internal/journal/trace.go:85-93 | a round leaves a field as it is if and only if it is two or three valid bytes and an ellipsis |
| `TraceClip.ShrinkDecreases` | internal/journal/trace.go:83-93 | every other round shortens the event, or fixes one more field at the same length, and never lengthens its encoding |
| `TraceClip.RunsForever` | internal/journal/trace.go:79-96 | where the model has no result, the loop still goes on after any number of rounds |
| `TraceClip.StopsAfter` | internal/journal/trace.go:79-96 | where it has one, that is the event after some number of rounds, and the loop goes on before that and stops there |
| `TraceClip.NeverEndsExactly` | internal/journal/trace.go:79-96 | so there is no result if and only if the loop goes on after every number of rounds |
| `TraceClip.FieldFloorKept` | internal/journal/trace.go:85-93 | where a field ends under halving is read off its first bytes: two or three of them and an ellipsis, or nothing; a round does not change it |
| `TraceClip.SettledKept` | internal/journal/trace.go:83-96 | nor does a round change where the three fields settle together |
| `TraceClip.RoundsLead` | internal/journal/trace.go:83-96 | some number of rounds does lead there, to an event with no field left or with its largest field fixed |
| `TraceClip.WinnerIsHeaviest` | internal/journal/trace.go:83-112 | if a field gets stuck, it is one whose end is the heaviest, and no other ends heavier |
| `TraceClip.EndsExactly` | internal/journal/trace.go:79-96 | the loop ends if and only if no field gets stuck or the limit admits the event its fields settle at; then the event fits, or nothing of the three fields is left |
| `TraceClip.EndsAlwaysExactly` | internal/journal/trace.go:79-96 | it ends for every limit if and only if each of the three fields ends at nothing |
| `TraceClip.SettledIsSmall` | internal/journal/trace.go:79-96 | the event the fields settle at takes at most 96 bytes above its fixed part |
| `TraceClip.StuckIsSmall` | internal/journal/trace.go:79-96 | and so does any stuck event |
| `TraceClip.RoomSuffices` | internal/journal/trace.go:79-96 | with that much room the loop ends with an event that fits |
| `TraceClip.StuckExample` | internal/journal/trace.go:79-96 | an event with five bytes of output that has to lose them: after any number of rounds it is what it was |
| `TraceClip.ClipEventToLimit` | internal/journal/trace.go:79-96 | the loop computes the result above, and the flag says whether anything was cut |
| `TraceWindow.AttachKeeps` | internal/journal/trace_reader.go:232-243 | attaching an output, if its clipping ends, keeps the byte count equal to the sum of encoded sizes and within the budget, items and starts equally long and within the limit, starts in order |
| `TraceWindow.MergeKeeps` | internal/journal/trace_reader.go:248-259 | so does merging text |
| `TraceWindow.DropFrontKeeps` | internal/journal/trace_reader.go:209-221 | so does dropping the oldest item |
| `TraceWindow.AppendKeeps` | internal/journal/trace_reader.go:260-274 | so does appending, which always ends |
| `TraceWindow.FeedKeeps` | internal/journal/trace_reader.go:226-276 | so does feeding any event |
| `TraceWindow.WindowKeeps` | internal/journal/trace_reader.go:207-278 | so does feeding a whole file's events in order; a feed that does not return is characterised by `TraceWindow.FeedEndsExactly` |
| `TraceWindow.MakeRoomDrops` | internal/journal/trace_reader.go:268-271 | room is made from the front only, and no more than needed |
| `TraceWindow.AppendShows` | internal/journal/trace_reader.go:260-274 | an appended event is the last item, behind what is left of the others |
| `TraceWindow.FittingIsKept` | internal/journal/trace.go:79-96 | an event that fits is kept as it came and not marked as cut |
| `TraceWindow.RefitEndsExactly` | internal/journal/trace_reader.go:232-259 | attaching and merging end if and only if the room left on the page admits the event the fields settle at, and always with 96 bytes to spare |
| `TraceWindow.FeedEndsExactly` | internal/journal/trace_reader.go:226-276 | feeding an event does not return if and only if it is an attachment or a merge whose fields settle above the room left |
| `TraceWindow.FullPageHangs` | internal/journal/trace_reader.go:232-243 | on a page full to the byte a bare tool call takes an output if and only if halving leaves nothing of it |
| `TraceWindow.HangingFileHangs` | internal/journal/trace_reader.go:207-278 | a transcript of five items and one tool result whose reading does not return, for every limit of five or more |
| `TraceWindow.TrimmedKeeps` | internal/journal/trace_reader.go:290-297 | making room for an orphan drops from the front and keeps the invariant |
| `TraceWindow.PageBounds` | internal/journal/trace_reader.go:290-325 | a page with its orphan stays within the limit and the byte budget, and shows the latest items |
| `TraceWindow.Reader.FindTarget` | internal/journal/trace.go:221-236 | the backward loop finds the latest tool call that accepts the output |
| `TraceWindow.Reader.AttachOutput` | internal/journal/trace_reader.go:232-243 | the in-place update is the specified step |
| `TraceWindow.Reader.MergeText` | internal/journal/trace_reader.go:248-259 | likewise |
| `TraceWindow.Reader.DropOldest` | internal/journal/trace_reader.go:209-221 | likewise, with the orphan it may leave |
| `TraceWindow.Reader.AppendEvent` | internal/journal/trace_reader.go:260-274 | likewise, with its dropping loop |
| `TraceWindow.Reader.FeedEvent` | internal/journal/trace_reader.go:226-276 | the dispatch over output, placeholder, merge and append is the specified step |
| `TraceWindow.Reader.ToPage` | internal/journal/trace_reader.go:290-325 | the page and its cursor are the specified ones |
| `Gate.CooldownGrows` | internal/daemon/gate.go:291-304 | the cooldown never shrinks with more charges |
| `Gate.CooldownTable` | internal/daemon/gate.go:291-304 | 1, 2, 4, 8, 16 and 32 seconds for the fourth to the ninth |
| `Gate.TenTakeLonger` | internal/daemon/gate.go:291-325 | ten charges spaced by their cooldowns span more than the window |
| `Gate.CheckedKeeps` | internal/daemon/gate.go:344-351 | a check with its pruning keeps the spacing |
| `Gate.AttemptKeeps` | internal/daemon/gate.go:319-351 | a check and charge keep it, nine charges and a wait of 32 seconds at most |
| `Gate.RefundKeeps` | internal/daemon/gate.go:332-339 | so does a refund |
| `Gate.RunKeeps` | internal/daemon/gate.go:279-351 | so does every run under a clock that does not go back |
| `Gate.WaitsAreShort` | internal/daemon/gate.go:344-351 | after 32 seconds an attempt is let through |
| `Gate.ChargesExactly` | internal/daemon/gate.go:319-351 | an attempt leaves exactly one charge if it was let through, none if not |
| `Gate.ChargesAreRare` | internal/daemon/gate.go:279-351 | over any run, refunds included, any ten attempts let through whose charges stand span more than a minute |
| `Gate.GateLedger.Prune` | internal/daemon/gate.go:306-313 | the loop drops exactly the charges before the window |
| `Gate.GateLedger.Allow` | internal/daemon/gate.go:344-351 | the check is the specified one |
| `Gate.GateLedger.Note` | internal/daemon/gate.go:319-325 | the charge is the specified one |
| `Gate.GateLedger.TakeBack` | internal/daemon/gate.go:332-339 | the refund is the specified one |
| `Bandwidth.LevelBounds` | internal/daemon/media_bandwidth.go:37-50 | tokens stay between nothing and the burst |
| `Bandwidth.RefillIsNeutral` | internal/daemon/media_bandwidth.go:37-50 | refilling changes nothing about what a bucket is worth at any later time |
| `Bandwidth.LevelGrows` | internal/daemon/media_bandwidth.go:37-50 | time adds at most what flows in |
| `Bandwidth.WaitSuffices` | internal/daemon/media_bandwidth.go:52-67 | after the wait it named and a millisecond, a bucket can pay |
| `Bandwidth.TryKeeps` | internal/daemon/media_bandwidth.go:217-249 | an attempt takes the price from both buckets or from neither, and from no others |
| `Bandwidth.RefusedTakesNothing` | internal/daemon/media_bandwidth.go:217-249 | a refused or delayed attempt leaves every bucket worth the same at every later time |
| `Bandwidth.LaterIsPaid` | internal/daemon/media_bandwidth.go:151-249 | a delayed attempt made again after its wait is paid |
| `Bandwidth.RunKeeps` | internal/daemon/media_bandwidth.go:37-249 | every run keeps the buckets in order |
| `Bandwidth.GlobalBalance` | internal/daemon/media_bandwidth.go:217-249 | what was admitted and what is left is at most what was there and what flowed in |
| `Bandwidth.OwnBalance` | internal/daemon/media_bandwidth.go:133-249 | likewise for one owner, with one burst more per teardown |
| `Bandwidth.GlobalBound` | internal/daemon/media_bandwidth.go:217-249 | over any stretch of any run all owners together are admitted at most burst + rate * time |
| `Bandwidth.OwnBound` | internal/daemon/media_bandwidth.go:133-249 | and one owner at most burst + rate * time, with one burst more for each time its session was torn down |
| `Bandwidth.MediaBandwidth.BindOwner` | internal/daemon/media_bandwidth.go:133-143 | binding an owner twice changes nothing the second time |
| `Bandwidth.MediaBandwidth.DropOwner` | internal/daemon/media_bandwidth.go:145-149 | the quota of the owner goes |
| `Bandwidth.MediaBandwidth.TryAdmit` | internal/daemon/media_bandwidth.go:217-249 | the in-place attempt is the specified step and verdict |
| `Bandwidth.MediaBandwidth.Admit` | internal/daemon/media_bandwidth.go:151-176 | the waiting loop pays exactly once if it succeeds and never otherwise |
| `Update.InstallKeeps` | cmd/pairfob/update_remote.go:163-254 | every durable step of an install, failed or cut off, keeps the invariant |
| `Update.RollbackKeeps` | cmd/pairfob/update_journal.go:56-79 | so does every step of a rollback |
| `Update.BootStepKeeps` | cmd/pairfob/update_recovery.go:12-87 | so does every step of a boot |
| `Update.StepKeeps` | cmd/pairfob/update_recovery.go:12-87 | so do the completion and the rollback timer |
| `Update.RunKeeps` | cmd/pairfob/update_recovery.go:12-87 | from any crash and failed write the installed binary is the previous one or the candidate, rolled back means previous, and complete means candidate unless a rollback began over a completed journal |
| `Update.TimerIsSafeExactly` | cmd/pairfob/update_recovery.go:59-86 | the rollback timer keeps the journal true over every continuation of crashes, failed writes and boots if and only if the journal does not say complete when it fires |
| `Update.RollingBackIsTruthful` | cmd/pairfob/update_journal.go:56-79 | a rollback begun over a verifying or rolled-back journal keeps it true over every continuation |
| `Update.LateRollbackHappens` | cmd/pairfob/update_recovery.go:59-86 | a run of eleven events from the start of an update to a journal that says complete over the previous binary |
| `Update.LateOnlyAfterError` | cmd/pairfob/update_recovery.go:59-86 | it can come later than that only after completing the boot reported an error |
| `Update.RollbackRepeats` | cmd/pairfob/update_journal.go:56-79 | a boot that finds the journal verifying restores the previous binary, whether or not an earlier rollback had replaced it already |
| `Update.RollbackInterrupted` | cmd/pairfob/update_journal.go:56-79 | a rollback stopped at any write is still to be done, or done |
| `Update.RestartBoots` | cmd/pairfob/update_recovery.go:46-58 | a restart is verified if the candidate is running and failed if not |
| `Update.TwoBootsSettle` | cmd/pairfob/update_recovery.go:12-87 | two boots without write errors leave restarting and verifying, wherever the update was interrupted |
| `Update.CleanUpdateCompletes` | cmd/pairfob/update_remote.go:215-254 | if no write fails the candidate is installed, booted and complete |
| `Update.Updater.InstallAndActivate` | cmd/pairfob/update_remote.go:215-254 | the procedure is a run of the specified steps; if it activates, backup, journal and binary are in place |
| `Update.Updater.Activate` | cmd/pairfob/update_remote.go:240-254 | likewise for its last part, with the restore after a failed exec |
| `Update.Updater.RestoreBackup` | cmd/pairfob/update_journal.go:56-79 | likewise; it refuses a binary that is neither, changing nothing |
| `Update.Updater.BeginBoot` | cmd/pairfob/update_recovery.go:12-58 | likewise for a boot |
| `Update.NewerVersion` | cmd/pairfob/update_remote.go:129-151 | for any two strings, the loop compares at the first part that differs and is false unless both are release versions, on a part that is no number and on different numbers of parts |
| `Update.NewerIsStrict` | cmd/pairfob/update_remote.go:129-151 | newer is a strict order: irreflexive, asymmetric, transitive |
| `Credentials.StepKeeps` | cmd/pairfob/enroll.go:104-317 | every write, failed or not, every request, answered, lost, late or repeated, every kick and crash keeps the invariant of the four files, the server and the requests on their way |
| `Credentials.RunKeeps` | cmd/pairfob/enroll.go:104-317 | so does every run of starts, enrolments and rotations |
| `Credentials.TokenIsKnown` | cmd/pairfob/enroll.go:205-317 | over every run the server's token of the daemon in relay.json is the one there or the next one of the rotation journal, unless the daemon was kicked |
| `Credentials.ServeKeeps` | workers/pairfob-origin/src/room/core.ts:167-217 | a request served at any later time, or again, keeps that |
| `Credentials.BootEndsExactly` | cmd/pairfob/main.go:89-150 | a start without a failure comes up with the server's token in relay.json, wherever an enrolment or rotation was interrupted, if and only if the journals are not stuck and the server has not kicked the daemon |
| `Credentials.EnrollGoes` | cmd/pairfob/enroll.go:104-178 | a resumed enrolment ends with both files written if and only if the server does not know the daemon or has that token of it |
| `Credentials.RekeyGoes` | cmd/pairfob/enroll.go:275-317 | a resumed rotation ends if and only if the server has the previous or the next token |
| `Credentials.StaleIsForever` | cmd/pairfob/enroll.go:113-156 | with an enrolment journal of a token rotated since, no later start comes up, whatever is done |
| `Credentials.JammedIsForever` | cmd/pairfob/enroll.go:275-287 | a rotation journal that fits neither relay.json nor a pending enrolment is never cleared, and every start with no enrolment to resume fails |
| `Credentials.ForeignJournal` | cmd/pairfob/enroll.go:208-287 | a run to that: a rotation whose answer is lost, then a new enrolment |
| `Credentials.StaleJournal` | cmd/pairfob/enroll.go:174-192 | a run to the stale journal: an enrolment whose journal could not be cleared, then a rotation |
| `Credentials.CrossedJournal` | cmd/pairfob/enroll.go:165-246 | a second way to a journal that never fits: an enrolment stopped between its two files, then a rotation |
| `Credentials.Client.EnrollV2` | cmd/pairfob/enroll.go:104-178 | the procedure is a run of the specified steps; if it succeeds both files are written, the journal is gone and relay.json has the server's token |
| `Credentials.Client.RekeyV2` | cmd/pairfob/enroll.go:208-249 | likewise for a rotation |
| `Credentials.Client.FinishPendingRekey` | cmd/pairfob/enroll.go:275-317 | likewise for a rotation from its journal |
| `Pairing.BurnKeeps` | internal/daemon/pairing.go:485-509 | burning a slot keeps the invariant and wipes its key |
| `Pairing.RejectKeeps` | internal/daemon/pairing.go:444-467 | a failure keeps it and makes no device |
| `Pairing.HandleKeeps` | internal/daemon/pairing.go:518-680 | a message keeps it in every branch |
| `Pairing.DecideKeeps` | internal/daemon/pairing.go:682-696 | the verdict on a confirmation keeps it |
| `Pairing.IssueKeeps` | internal/daemon/pairing.go:697-744 | issuing credentials keeps it and makes no device |
| `Pairing.StepKeeps` | internal/daemon/pairing.go:280-744 | every step keeps it |
| `Pairing.RunKeeps` | internal/daemon/pairing.go:280-744 | so does every run of messages, decisions, expiries and new slots |
| `Pairing.RowsComeFromReadySlots` | internal/daemon/pairing.go:524-569 | a device row comes only from a valid acknowledgement on the current slot, proof verified, in its encrypted phase, and admitted, auto-admitted or persistent; it holds the slot's key and the slot is closed |
| `Pairing.OneRowPerSlot` | internal/daemon/pairing.go:546-558 | over any run no slot makes two rows |
| `Pairing.FailuresBurnExactly` | internal/daemon/pairing.go:444-467 | a failure closes the slot if and only if it is a one-use slot's third; a gate stays open and current |
| `Pairing.ClosedIsForever` | internal/daemon/pairing.go:485-509 | a closed slot never opens again |
| `Pairing.PairingCompletes` | internal/daemon/pairing.go:404-744 | attach, share, proof, admission, confirmation and acknowledgement make one row with the key issued, and wipe the slot |
| `PairingStore.PairingEngine.Wipe` | internal/daemon/pairing.go:500-502 | the loop zeroes the key in place |
| `PairingStore.PairingEngine.BurnSlot` | internal/daemon/pairing.go:485-509 | burning wipes the slot's key and leaves the bytes of every device's key as they were |
| `PairingStore.PairingEngine.IssueSlot` | internal/daemon/pairing.go:697-744 | issuing puts a fresh key into a live, confirmed slot and wipes it again with the slot if it cannot be sent; it is the specified step |
| `PairingStore.PairingEngine.AddDevice` | internal/daemon/pairing.go:546-547 | the device gets a copy of the key, shared with no slot |
| `PairingStore.PairingEngine.AcknowledgeSlot` | internal/daemon/pairing.go:546-558 | the acknowledgement is the specified step: the device keeps the key though the slot's is wiped right after |
| `Frames.Encode` | internal/envelope/envelope.go:53-68 | succeeds exactly on valid frames, the version filled in, with header and payload length |
| `Frames.Decode` | internal/envelope/envelope.go:70-91 | whatever it accepts is a valid frame |
| `Frames.DecodeEncode` | internal/envelope/envelope.go:53-91 | what is encoded decodes to the same frame |
| `Frames.EncodeDecode` | internal/envelope/envelope.go:53-91 | what decodes is exactly what its frame encodes to |
| `Frames.EncodableIsSplittable` | cmd/pairfob/p2p_frame.go:16-19 | every encodable frame can be split |
| `Frames.Split` | cmd/pairfob/p2p_frame.go:16-31 | the loop makes the chunks, and fails exactly on frames too short or too long |
| `Frames.PushKeeps` | cmd/pairfob/p2p_frame.go:38-65 | the buffer is shorter than its announced total, which is bounded; a frame that comes out has its announced length |
| `Frames.AssemblyConserves` | cmd/pairfob/p2p_frame.go:38-65 | over any accepted stream the frames that come out and the buffer are the payloads in order, nothing lost or added |
| `Frames.PushChunk` | cmd/pairfob/p2p_frame.go:16-65 | pushing the next chunk of a frame extends the buffer by it, or completes the frame |
| `Frames.FrameRoundTrip` | cmd/pairfob/p2p_frame.go:16-65 | the chunks of a frame yield that frame and an empty assembler |
| `Frames.StreamRoundTrip` | cmd/pairfob/p2p_frame.go:16-65 | so do the chunks of any sequence of frames |
| `Frames.FrameAssembler.PushChunk` | cmd/pairfob/p2p_frame.go:38-65 | the in-place push is the specified one; a refused chunk changes nothing |
| `Layout.SplitRectIs` | internal/runtime/layout.go:171-202 | a split makes two non-empty parts that share no cell and make up the whole; it fails exactly on a side of one cell or another direction |
| `Layout.CutIsProportional` | internal/runtime/layout.go:171-202 | the cut is within a cell of the ratio asked for |
| `Layout.SplitCovers` | internal/runtime/layout.go:152-169 | splitting a pane changes no cell's cover and no area |
| `Layout.SplitTiles` | internal/runtime/layout.go:152-169 | so it keeps the area tiled |
| `Layout.SplitKeeps` | internal/runtime/layout.go:152-169 | and keeps panes apart, contained, distinct, and the focus on one of them |
| `Layout.RemoveKeeps` | internal/runtime/layout.go:204-225 | so does a removal; a single survivor gets the whole area and the focus |
| `Layout.DefaultIs` | internal/runtime/layout.go:144-150 | the default layout tiles its area |
| `Layout.SplitsTile` | internal/runtime/layout.go:144-202 | any run of splits tiles the area exactly: every cell once, no other cell, areas adding up |
| `Layout.RunKeeps` | internal/runtime/layout.go:144-225 | any run of splits and removals keeps panes disjoint, contained and the focus on a pane that exists |
| `Layout.FlagsFollowExactly` | internal/runtime/layout.go:204-225 | the focused flags follow a removal if and only if not (the pane removed had the focus and left two or more) |
| `Layout.RunFlags` | internal/runtime/layout.go:144-225 | over any run without such a removal the flags agree with the focus |
| `Layout.FlagsCanBreak` | internal/runtime/layout.go:144-225 | the default layout, two splits and the removal of the first pane: the focus is on a pane that is not flagged |
| `Layout.SplitPane` | internal/runtime/layout.go:152-169 | the loop that changes the target's rectangle in place and appends is the specified split |
| `Layout.RemovePane` | internal/runtime/layout.go:204-225 | the filtering loop is the specified removal |
| `Terminal.StepKeeps` | internal/daemon/rpc_terminal.go:181-264 | every step of every handler keeps the invariant of the locks and counters |
| `Terminal.RunKeeps` | internal/daemon/rpc_terminal.go:181-401 | so does every interleaving |
| `Terminal.CommandsAreInSequence` | internal/daemon/rpc_terminal.go:214-264 | over every interleaving the successful commands of a slot are 1..n in order, n being one less than the next number expected, or equal to it if the slot was detached during its last command |
| `Terminal.OnlyNextOfAttachedRuns` | internal/daemon/rpc_terminal.go:225-243 | a command is let through only in an attached slot and only with the next number |
| `Terminal.CommandRuns` | internal/daemon/rpc_terminal.go:214-264 | a command with the next number in an attached idle slot runs and is counted |
| `Terminal.DetachedIsForever` | internal/daemon/rpc_terminal.go:338-352 | a detached slot is never attached again |
| `Terminal.NothingRunsAfterDetachment` | internal/daemon/rpc_terminal.go:338-401 | after detachment no further command succeeds |
| `Terminal.TerminalSession.RunCommand` | internal/daemon/rpc_terminal.go:214-264 | an uncontended command is a run of the specified steps: wrong terminal conflicts, an old number is a duplicate with the last accepted one, a later one is a gap, and neither changes anything; the next one runs, and counts unless it failed or the terminal was closed meanwhile |
| `Terminal.TerminalSession.Execute` | internal/daemon/rpc_terminal.go:243-263 | its last part: run, possibly a close from elsewhere, count and reply |
| `Terminal.FrameParts` | internal/daemon/rpc_terminal.go:292-336 | a frame goes out in pieces that join to it, full but for the last, and an empty one still goes out |

## Left out

- Cryptography, base64 and JSON: whether a proof, a seal or a payload is right is a parameter of the step that reads it; what a transcript line parses to is a parameter of the page reader.
- Sockets, WebRTC, child processes, HTTP and file systems: a send or a write succeeds or fails, as the step is told.
- Interleavings inside a handler: a handler is one step, with timers, callbacks and failed follow-up sends as steps of their own; only the terminal commands are taken apart at their lock operations.
- SessionEngine.Engine: the fields of session and key objects are kept in maps of the engine, keyed by the object's reference, so aliasing is captured but not field update through a pointer.
- SessionSteps.Hello1Keeps: the hello rate limit and the nonce replay list are one verdict of the step.
- SessionEngine.Engine.HandleHello1: likewise.
- SessionKeys.FinishExactly: the shared secret and other values between the handshake and the two keys are not modelled.
- SessionRuns.OfferKeeps: the busy flag of an offer under way, and the messages sent to a session that is being closed, are not modelled.
- SessionEngine.Engine.TransportOffer: likewise.
- Transport restarts of a direct link (`rpcTransportRestart`) and session RPC queues.
- HubSteps.RunKeeps: a bind is known by its daemon and route id instead of by a pointer, which is the same thing while route ids of live binds do not repeat; ping, pong and rejected frames change nothing and are not steps.
- RelayHub.RelayHub.HandleDaemonError: the broadcast of an error without a route to all clients changes no state and is not modelled.
- The relay's registry file and remembered kicks (`internal/mux/registry.go`).
- LedgerStore.OperationLedger.PersistedRows: the order rows are sorted in is not modelled, because reading them back does not depend on it.
- TraceClip.ClipEventToLimit: asks for an event whose clipping ends, because the source's loop does not return otherwise and a method here has to; `TraceClip.EndsExactly` says when that is.
- TraceWindow.Reader.AttachOutput: likewise, by `TraceWindow.RefitEndsExactly`.
- TraceWindow.Reader.MergeText: likewise.
- TraceWindow.Reader.FeedEvent: likewise, by `TraceWindow.FeedEndsExactly`.
- Reading a trace backwards in growing chunks (`readTracePage`) and the page cache: only the window over the lines read is modelled, and trace cursors are line starts, so events dropped from a line with several of them are not shown again.
- Pages.CursorRoundTrip: the base64 layer around a cursor is not modelled.
- Bandwidth.GlobalBound: tokens are real numbers, so rounding of floating point is not modelled.
- Bandwidth.OwnBound: likewise.
- Layout.CutIsProportional: ratios are real numbers where the source has float64, so a cut next to a whole number of cells may differ by one cell; that the two parts make up the whole does not depend on it.
- Update.RunKeeps: one update at a time, after its candidate was downloaded, checked and probed; a pending marker of another state directory is not modelled.
- Pairing.RunKeeps: the gate's own charges are in `Gate`; reopening the gate after its slot was used is a new slot.
- Terminal.TerminalSession.RunCommand: only a command that does not have to wait for the lock is a method; commands that wait are steps of the interleaving model.
- PairingStore.PairingEngine: only the operations that touch key bytes are methods; the handlers that set flags are steps on values.
- Credentials.RunKeeps: one origin throughout, one process at a time, and an enrolment request is one step at the server; grants, rate limits and the server's own undoing of a half-made enrolment are not modelled.
- Service management, quotas, QR codes, the web app and scripts.
