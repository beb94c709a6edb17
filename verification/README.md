# Verification of CallFXO

CallFXO connects WebRTC clients to FXO gateways over SIP. Several actors share its call state: WebSocket handlers,
SIP callbacks, timers, WebRTC callbacks and phones that retry. This project models that state in Dafny and proves what
every run keeps.

Where the program changes objects in place, so does the model: `Manager`, `CallSession` and `InboundInvite` are classes
over four maps, the store is a class over its tables, the API client, the nonce table, the box monitor, the web client's
call log and the phone's lists are classes too. Each of their methods is proved against a function on values, and the
main results are lemmas about runs of those functions. Where handlers interleave, the model is a machine of threads that
run one critical section at a time.

| files | what they model |
|---|---|
| `CallModel`, `CallManager` | the call manager, as functions on values and as classes on the heap, one handler at a time |
| `CallInvariants`, `CallPreservation`, `CallGuarantees`, `CallRinging` | what every run of whole handlers keeps |
| `CallFailures`, `CallOutcomes` | what each handler answers, exactly when, and what it leaves behind |
| `CallInterleaving`, `CallInterleavingSafety`, `CallLatch` | the same handlers cut at their locks, and what survives |
| `CallGaps`, `CallRegistration`, `CallOverlap`, `CallAnswers` | exactly what does not survive, runs that show it, and what callers can do about it |
| `CallGranularity`, `CallSerial` | a handler that runs alone through its critical sections does what it does in one step, and nothing else |
| `TokenRotation`, `TokenRotationSafety`, `TokenRequests`, `ApiClient` | refresh-token rotation between the phone and the server, and what becomes of each request |
| `Database`, `Store`, `StoreHistory` | users, roles, boxes, owned rows, permissions and registrations as functions of the history |
| `Registrar`, `Nonces` | REGISTER requests and the nonces behind them |
| `CallLogPages` | pages of the call log, in the store, the handler and the web client |
| `BoxStatus` | the poll of box states and the changes it sends |
| `IncomingList`, `Candidates` | the phone's list of ringing invites, and ICE candidates held back |
| `SdpAudio`, `CallerIdentity` | audio negotiation and caller identity |
| `Strings`, `Clock`, `Wrappers` | string operations, clocks and result types |

Integers are unbounded except where the program's width shows: durations in nanoseconds, page offsets and `Atoi` are
64-bit. Identifiers and tokens that the program draws at random are fresh numbers; a token's digest is injective.
Nonces are made from the clock, so they may repeat, and nothing is assumed of them. The clock is a parameter that never goes back. What the database, the network, the media stack and the SIP
peer answer is a parameter of each operation, so every result holds for all their answers.

Some properties one might expect are false of the code. The model keeps the code as it is and proves exactly when each
holds:

- An invite that was answered can still be stopped under interleaving, because `finishInbound` tests only `ended`
  (`CallGaps.AnsweredCanBeStoppedIff`), and it can be answered twice, because a claim does not shut out another
  (`CallAnswers.AnsweredAgainIff`). A session that was closed can still be registered, and then stays for ever
  (`CallRegistration.ClosedLeaksIff`); and one user can have two calls, because the guard and the registration are
  separate critical sections (`CallRegistration.OneCallPerUserIff`, `CallOverlap.OneCallWithoutOverlap`).
- One lost reply to a refresh breaks the phone's session for good (`TokenRotationSafety.LockStep`,
  `TokenRotationSafety.LossIsFinal`).
- A binding of more than 9223372036 seconds does not live as long as it asked for, because its duration wraps around
  (`StoreHistory.LivesItsLifetimeIff`), and a page number can be large enough to show rows again past the end
  (`CallLogPages.PastTheEndIff`).
- A client that applies box changes can stay wrong when a snapshot catches a state that neither tick around it saw
  (`BoxStatus.AgreesAfterIff`, `BoxStatus.EntryRightIff`).
- A candidate can be left in the queue when the flush runs between its check and its queueing
  (`Candidates.FlushIsCompleteIff`), a nonce that is issued again in the middle of a late check is lost
  (`Nonces.AcceptedIff`, `Nonces.GoodForItsLifetimeIff`), and an invite whose identifier has space around it cannot be removed by it
  (`IncomingList.RemoveTakesTrimmed`).

## Model

| member | source | states |
|---|---|---|
| `CallGuarantees.ExactlyOnceOutcome` | internal/call/manager.go:251-544 | in every run of whole handlers each invite rings once and then has at most one terminal event, Answered by a user it rang for or Stopped; it is in the table of ringing invites exactly while it has none; all its events carry the users it rang for; its dialog is closed once exactly if it was stopped, and it is refused only if it was stopped |
| `CallRinging.RingFixesUsers` | internal/call/manager.go:378-454 | over every run of whole handlers the addressees and the box of each invite are, for its whole life, those of the one handler that rang it |
| `CallRinging.UsersAreTheStoresAnswer` | internal/store/store.go:1185-1213 | so at any later time an invite is addressed to exactly the users whom the store, as it was then, listed for its box |
| `CallRinging.UsersFollowTheHistory` | internal/store/store.go:1185-1213 | in terms of all that was asked of the store before: to the admins and the users last allowed to receive, less those who last declined notice |
| `CallRinging.RejectEndsIffResponded` | internal/call/manager.go:358-376 | a reject by an addressee ends the invite if and only if the SIP response went out; otherwise the invite stays pending and, whatever handlers run afterwards, its timer never fires again |
| `CallRinging.DisarmedForEver` | internal/call/manager.go:800-813 | a timer that was stopped stays stopped over every run |
| `CallGuarantees.PendingListExact` | internal/call/manager.go:251-269 | the pending list of a user is exactly the invites addressed to that user that have no terminal event yet, after every run |
| `CallGuarantees.OneCallPerUser` | internal/call/manager.go:477-501 | after every run of whole handlers the user index and the live sessions with a user are inverse to each other, and every SIP index entry leads to a live session |
| `CallGuarantees.CloseTouchesNoOtherCall` | internal/call/manager.go:468-501 | closing one call removes all its own entries from the three indexes and leaves every other call's entries and fields as they were |
| `CallGuarantees.CloseOnce` | internal/call/manager.go:683-716 | for any number and order of closers only the first has an effect: at most one BYE, one OnHangup, one closing of remoteReady, and the log row ended once with its status and reason |
| `CallGuarantees.HistoryIsFinal` | internal/call/manager.go:509-544 | whatever runs later, events already sent stay a prefix of the events, and a closed session never changes again |
| `CallGuarantees.LedgerConservation` | internal/call/manager.go:546-716 | after every run the rows of the call log that are not ended are exactly those of live sessions, plus those whose ending update failed; no row is ended twice; open sockets and peer connections are exactly those of live sessions |
| `CallFailures.FailedStartCall` | internal/call/manager.go:159-229 | every error exit of StartCall either changes nothing or ends the row it created once as failed, and leaves indexes, sockets, peer connections and all earlier sessions as before |
| `CallFailures.FailedAccept` | internal/call/manager.go:271-356 | every error exit of AcceptIncoming either changes nothing or ends the invite and, once and as failed, the row it created, and releases whatever it opened |
| `CallFailures.FailedSetUp` | internal/call/manager.go:546-660 | every error exit of the media set-up ends its row once and releases what it opened: the socket alone when the peer connection fails, both afterwards |
| `CallOutcomes.StartCallOutcome` | internal/call/manager.go:159-229 | a dial succeeds if and only if the number is not blank, the user has no call, the box exists and is registered, the media side is ready, the public address is set, the INVITE is answered and the answer can be used; and each error has its one cause |
| `CallOutcomes.CallStarted` | internal/call/manager.go:182-228 | a dial that succeeds adds one live session with that user, that box and a client dialog, open media and its log row, under the user and under a non-empty Call-ID, and changes nothing else |
| `CallOutcomes.CallNotStarted` | internal/call/manager.go:159-229 | a dial that fails leaves a failed row that says why, and a closed session; a BYE goes out only if the answer could not be used, and before the set-up nothing changes |
| `CallOutcomes.AcceptOutcome` | internal/call/manager.go:271-356 | an accept succeeds if and only if the invite is pending and addressed to the user, who has no call, the media side is ready, the public address is set and the answer goes out; and each error has its one cause |
| `CallOutcomes.CallAccepted` | internal/call/manager.go:310-355 | an accept that succeeds adds one live session with that user, the invite's box and a server dialog, under the user and the invite's Call-ID; the invite is connected and gone from the table, and its last event is Answered by that user |
| `CallOutcomes.CallNotAccepted` | internal/call/manager.go:302-340 | an accept that fails after its checks ends the invite and tells everybody why, refuses the caller unless the answer itself had failed, and leaves a failed row that says why |
| `CallOutcomes.RejectOutcome` | internal/call/manager.go:358-376 | a reject succeeds if and only if the invite is pending and addressed to the user and the refusal goes out; it stops the invite with the reason given or declined, and if the refusal fails only the timer is off |
| `CallOutcomes.TimerOutcome` | internal/call/manager.go:440-443 | an armed timer stops its invite for timeout whether or not the refusal can be sent, and any other does nothing |
| `CallOutcomes.CancelOutcome` | internal/call/manager.go:455-465 | a caller who gives up stops a pending invite without a refusal, and no other |
| `CallOutcomes.ArrivalOutcome` | internal/call/manager.go:378-454 | an INVITE rings if and only if its audio can be used, there are users to ring and they have devices; it is then pending, armed and announced to exactly those users |
| `CallOutcomes.ByeOutcome` | internal/call/manager.go:468-475 | a BYE under a known Call-ID ends that one call, without a BYE back, and takes it from all indexes; another does nothing |
| `CallGuarantees.BoxInUseIff` | internal/call/manager.go:237-249 | after every run a box is in use if and only if some session that is not closed is on it |
| `CallPreservation.StepKeeps` | internal/call/manager.go:159-544 | every handler keeps the invariant of the manager, over tables, call log, media and event history |
| `CallPreservation.RunKeeps` | internal/call/manager.go:159-544 | so does every run of handlers |
| `CallManager.Manager.StartCall` | internal/call/manager.go:159-229 | the method on the heap leaves the tables, the log and the session exactly as the value-level handler that the guarantees are about, on every path, and returns the same outcome |
| `CallManager.Manager.Dial` | internal/call/manager.go:188-228 | the same for the part after the media side exists |
| `CallManager.Manager.DialAnswered` | internal/call/manager.go:208-228 | an answer with usable SDP registers the session under its Call-ID, and one without closes it with a BYE |
| `CallManager.Manager.AcceptIncoming` | internal/call/manager.go:271-356 | the same for accepting an invite |
| `CallManager.Manager.Answer` | internal/call/manager.go:302-308 | the same for the part after the claim |
| `CallManager.Manager.Connect` | internal/call/manager.go:310-355 | the same for the part after the media side exists |
| `CallManager.Manager.RejectIncoming` | internal/call/manager.go:358-376 | the same for rejecting an invite |
| `CallManager.Manager.OnIncomingInvite` | internal/call/manager.go:378-466 | the same for an arriving INVITE |
| `CallManager.Manager.TimerFires` | internal/call/manager.go:440-443 | the same for the 35 s timer, which acts only while it is armed |
| `CallManager.Manager.DialogDone` | internal/call/manager.go:455-465 | the same for the end of the dialog: an invite that has an outcome is left alone |
| `CallManager.Manager.OnRemoteBye` | internal/call/manager.go:468-475 | the same for a remote BYE |
| `CallManager.Manager.RegisterCall` | internal/call/manager.go:477-487 | the three tables get the session's entries, the SIP entry only for a non-empty Call-ID and the user entry only for a positive user |
| `CallManager.Manager.UnregisterCall` | internal/call/manager.go:489-501 | the three tables lose them |
| `CallManager.Manager.OtherSIPEntries` | internal/call/manager.go:495-499 | the loop over the SIP index keeps exactly the entries of other sessions, in any order of the map |
| `CallManager.Manager.FinishInbound` | internal/call/manager.go:518-544 | an invite that is not ended is ended, taken from the table, announced and its dialog closed, each once; one that is ended is left alone |
| `CallManager.Manager.CreateWebRTCSide` | internal/call/manager.go:546-660 | a session with open media comes back exactly when every step succeeds; every failing step ends the row with its reason and leaves nothing open |
| `CallManager.Manager.Close` | internal/call/manager.go:683-716 | only the first close of a session does anything |
| `CallManager.CallSession.ShutDown` | internal/call/manager.go:683-716 | what the first close does to the session: remoteReady is closed if it was not, a BYE goes out if asked for and a dialog exists |
| `CallManager.CallSession.MarkRemoteReady` | internal/call/manager.go:767-771 | remoteReady is closed once although set-up and close both signal it |
| `CallManager.InboundInvite.RejectWithResponse` | internal/call/manager.go:800-813 | the refusal leaves an invite with an outcome alone, stops the timer even if the response fails, and reports that failure |
| `CallManager.InboundInvite.Claim` | internal/call/manager.go:285-300 | the claim records who answers and stops the timer, and changes nothing else |
| `CallManager.Manager.RejectWithResponse` | internal/call/manager.go:800-813 | the same on the manager's tables |
| `CallManager.Manager.RemoveInbound` | internal/call/manager.go:503-507 | exactly that invite leaves the table |
| `CallManager.Manager.CreateCallLog` | internal/store/store.go:798-809 | a new row gets the next identifier, or 0 stands for a failed insert |
| `CallManager.Manager.EndCallLog` | internal/store/store.go:811-820 | exactly the row of that identifier is ended, and none for identifier 0 |
| `CallManager.Manager.IsBoxInUse` | internal/call/manager.go:237-249 | the loop answers whether some live session is on the box |
| `CallManager.Manager.ListPendingIncoming` | internal/call/manager.go:251-269 | the loop collects exactly the un-ended invites addressed to the user, in any order of the map |
| `CallInterleavingSafety.IndexCoherence` | internal/call/manager.go:477-501 | in every interleaving of handlers at their locks, each entry of the SIP and user indexes leads to a session that is registered under its own identifier and under that user, even when sessions that were never registered are closed or a Call-ID is overwritten |
| `CallInterleavingSafety.StoppedAtMostOnce` | internal/call/manager.go:518-544 | in every interleaving each invite has at most one Stopped event and at most one closing of its dialog by finishInbound, and none unless it is ended |
| `CallInterleavingSafety.EndReportedAtMostOnce` | internal/call/manager.go:683-716 | in every interleaving of any number of closers the end of a session is reported once at most and at most one BYE is sent for it, and neither before it is closing |
| `CallInterleavingSafety.RowsEndedAtMostOnce` | internal/call/manager.go:546-716 | in every interleaving no two sessions share a row of the call log, each row is ended once at most, by the closer of its session or by the set-up that came to no session, and the row of a session is not ended before the session is closing |
| `CallInterleavingSafety.ActKeeps` | internal/call/manager.go:159-544 | every critical section keeps the invariant, which gives each row in hand, each pending registration, close, insertion and ending to one thread only |
| `CallLatch.InviteLatch` | internal/call/manager.go:285-300 | from any reachable state on, in every interleaving, ended and connected never revert, no refusal is sent and no accept passes its claim check once either is set, and an invite that has left the table never returns |
| `CallLatch.OnlyAddresseesAnswer` | internal/call/manager.go:271-300 | in every interleaving an invite is claimed only by users it is addressed to, and nobody else's accept gets past its checks |
| `CallGranularity.HandlerRunsAlone` | internal/call/manager.go:159-544 | whatever a handler does in one step, with whatever answers from database, media and peer, a thread does that runs alone through its critical sections: same tables, same events in the same order, same BYEs, same ends of calls and of log rows |
| `CallGranularity.WholeHandlersAreInterleavings` | internal/call/manager.go:159-544 | so every run of whole handlers is one of the interleavings |
| `CallSerial.ThreadIsAHandler` | internal/call/manager.go:159-544 | conversely, whatever a thread does that starts and runs alone to its end, some handler does in one step, with some answers from database, media and peer: the critical sections allow no more than the handler |
| `CallSerial.SerialRunsAreWholeHandlers` | internal/call/manager.go:159-544 | so whatever threads reach that run one after the other, some run of whole handlers reaches |
| `CallGaps.AnsweredCanBeStoppedIff` | internal/call/manager.go:518-531 | an invite that was answered and has left the table is stopped as well in some continuation if and only if some thread had passed its own checks on the invite before |
| `CallGaps.LeakedForEver` | internal/call/manager.go:683-716 | a session that is registered after it was closed stays in the index in every continuation |
| `CallAnswers.AnsweredAgainIff` | internal/call/manager.go:285-355 | an invite that is connected is announced as answered again in some continuation if and only if some thread had claimed it before and has not announced its own answer, since a claim does not shut out another |
| `CallAnswers.AnsweredTwice` | internal/call/manager.go:285-355 | a run from empty tables in which two users who accept at once are both told that they have the call |
| `CallRegistration.RegisteredLaterIff` | internal/call/manager.go:477-487 | a session that is not registered is registered in some continuation of an interleaving if and only if some thread is still setting it up |
| `CallRegistration.ClosedLeaksIff` | internal/call/manager.go:477-487 | a session that was closed before it was registered stays in the index for ever, in some continuation, if and only if some thread is still setting it up |
| `CallGaps.ClosedBeforeRegistered` | internal/call/manager.go:218-223 | a run from empty tables reaches such a session, and its user is busy |
| `CallRegistration.ExecOneEachIff` | internal/call/manager.go:477-501 | a critical section keeps the user index inverse to the registered sessions if and only if it does not register or unregister a session whose user's entry names another one |
| `CallRegistration.OneCallPerUserIff` | internal/call/manager.go:164-223 | in every interleaving from empty tables the user index is inverse to the registered sessions throughout if and only if no step of the run does that |
| `CallOverlap.OneCallWithoutOverlap` | internal/call/manager.go:164-223 | so a user has one call, and the user index is inverse to the registered sessions, throughout every interleaving in which no two calls of one user are set up at the same time, from the guard to the registration or to the end of the close |
| `CallOverlap.NoOrphans` | internal/call/manager.go:159-356 | in every interleaving a session that is neither registered nor closing has a thread that is to register or to close it |
| `CallGaps.TwoCallsOfOneUser` | internal/call/manager.go:164-223 | a run reaches two registered calls of one user, and one in which closing one call takes the user's entry from the other |
| `CallGaps.AnsweredThenStopped` | internal/call/manager.go:340-354 | a run in which an answered invite is stopped afterwards while its call is live |
| `TokenRotationSafety.LockStep` | android/app/src/main/java/li/power/app/callfxo/android/data/ApiClient.kt:283-348 | in every interleaving of any number of requests, with lost, late and cancelled messages: while no rotation is on its way, the server stores the digest of the client's refresh token if and only if no rotation was ever lost |
| `TokenRotationSafety.ReliableLockStep` | android/app/src/main/java/li/power/app/callfxo/android/data/ApiClient.kt:283-348 | with reliable replies the client stays logged in and in lock-step over every run, and no request is refused a refresh or finds itself logged out |
| `TokenRotationSafety.RefusedIff` | internal/web/server.go:461-476 | the server refuses a refresh if and only if its row is dead, a rotation was lost or its lookup fails, never because of a rotation the client knows of |
| `TokenRotationSafety.OneRefreshAtATime` | android/app/src/main/java/li/power/app/callfxo/android/data/ApiClient.kt:326-332 | one request at most holds the refresh mutex, and a rotation is on its way only to that one |
| `TokenRotationSafety.OncePerAccessToken` | android/app/src/main/java/li/power/app/callfxo/android/data/ApiClient.kt:326-332 | at most one refresh succeeds per access token, and the saved sessions form a chain |
| `TokenRotationSafety.RotationsConserved` | internal/store/store.go:958-985 | every rotation of the server was saved by the client, is on its way or is the one that was lost |
| `TokenRotationSafety.RetriedWithNewerToken` | android/app/src/main/java/li/power/app/callfxo/android/data/ApiClient.kt:297-316 | a request is repeated with a newer access token than it was first sent with, and refreshes at most three times |
| `TokenRequests.AnsweredWhenAlone` | android/app/src/main/java/li/power/app/callfxo/android/data/ApiClient.kt:283-348 | a request that runs alone from a reachable world in lock-step is answered when everything arrives: with one rotation if its access token had expired, after which client and server are in lock-step again, and with no change at all otherwise |
| `TokenRequests.WaitingAlone` | android/app/src/main/java/li/power/app/callfxo/android/data/ApiClient.kt:296-332 | one that waits for the mutex refreshes once if the session still has its token and not at all if another request has replaced it, and is answered if the token it is repeated with has not expired |
| `TokenRequests.EveryEndHasItsCause` | android/app/src/main/java/li/power/app/callfxo/android/data/ApiClient.kt:283-332 | in every run whatever a request ends with has its one cause: answered when it is delivered with a token that has not expired, unauthorized still when its repetition is delivered with one that has, and likewise for each failure |
| `TokenRotationSafety.LossIsFinal` | android/app/src/main/java/li/power/app/callfxo/android/data/ApiClient.kt:334-348 | after a lost rotation no refresh succeeds and none is issued, in any continuation |
| `TokenRotationSafety.LostReplyLogsOut` | android/app/src/main/java/li/power/app/callfxo/android/data/ApiClient.kt:196-200 | if the reply to a rotation is lost and the request tries again, the client is logged out although its row is alive |
| `TokenRotation.ActKeeps` | android/app/src/main/java/li/power/app/callfxo/android/data/ApiClient.kt:283-348 | every step of a request, every cancellation and every late message keeps the invariant of the protocol |
| `ApiClient.Client.Refresh` | android/app/src/main/java/li/power/app/callfxo/android/data/ApiClient.kt:184-217 | one refresh changes both sides as specified: only a 401 logs out, only a delivered rotation is saved |
| `ApiClient.Client.RefreshWithRetry` | android/app/src/main/java/li/power/app/callfxo/android/data/ApiClient.kt:334-356 | the loop ends as the recursive specification of its attempts, between one and five of them, with one pause before each repetition |
| `ApiClient.Client.RefreshIfNeeded` | android/app/src/main/java/li/power/app/callfxo/android/data/ApiClient.kt:326-332 | a session whose access token was replaced meanwhile is kept without a request; otherwise three attempts at most are made |
| `ApiClient.AuthServer.Refresh` | internal/web/server.go:434-482 | the handler rotates the row exactly when its checks pass and nothing fails |
| `ApiClient.AuthServer.IssueDeviceSession` | internal/web/server.go:1234-1269 | the row gets the digest of a fresh refresh token that is returned |
| `ApiClient.RetriesSucceedIff` | android/app/src/main/java/li/power/app/callfxo/android/data/ApiClient.kt:334-348 | from lock-step, the attempts succeed if and only if the first one that is not harmless is answered with new tokens, and then leave lock-step after exactly one rotation |
| `ApiClient.LockedAfterIff` | android/app/src/main/java/li/power/app/callfxo/android/data/ApiClient.kt:334-348 | afterwards both sides are in lock-step exactly when the server rotated no more than the client saved; the client is logged out exactly after a 401 |
| `ApiClient.LoopIsStepwise` | android/app/src/main/java/li/power/app/callfxo/android/data/ApiClient.kt:326-348 | the steps of the machine can act out every run of the loop: both end with the same session, row and result |
| `StoreHistory.PermissionHistory` | internal/store/store.go:1110-1139 | after any history each field of a permission row is the value last written to that field, defaults false, false and true, and there is a row exactly if something was written; neither setter disturbs the other's field |
| `StoreHistory.RolesFollow` | internal/store/store.go:362-432 | after any history a user exists if and only if it was made and not deleted since, and is an admin if and only if that is the role it was last given, by its creation or by appointment; likewise for boxes |
| `StoreHistory.QueriesAgree` | internal/store/store.go:1171-1231 | the dial query, the receive query, the users to ring and the list of boxes agree with that one history of roles and permission writes |
| `StoreHistory.UnknownGrantsNothing` | internal/store/store.go:215-225 | a deleted or unknown user or box has no row and grants nothing, since identifiers are not used twice |
| `StoreHistory.NothingDangles` | internal/store/store.go:152-225 | after any history no contact, device, call, permission or registration names a user or box that is gone, and a user who goes takes every call along |
| `StoreHistory.OwnedFollows` | internal/store/store.go:798-985 | after any history the owner of a contact is the user it was made for, the owner of a device the last existing user who registered its token, the parties of a call those it was logged for, unless they were deleted since |
| `StoreHistory.DropUserKeepsOthers` | internal/store/store.go:376-403 | deleting a user takes exactly that user's contacts, devices and calls |
| `StoreHistory.LookupFindsLastBinding` | internal/store/store.go:741-796 | with a clock that never goes back a lookup finds exactly the last binding not released since, while its expiry in whole seconds is ahead, wherever cleanups ran |
| `StoreHistory.CleanupUnobservable` | internal/store/store.go:789-796 | taking a cleanup out of any history changes no lookup |
| `StoreHistory.CleanupRemovesTheExpired` | internal/store/store.go:789-796 | right after a cleanup the table holds exactly the bindings whose expiry is ahead, as they were |
| `StoreHistory.LivesItsLifetimeIff` | internal/sipx/service.go:295-304 | a binding expires its lifetime after the second it was made in if and only if the lifetime is at most 9223372036 seconds |
| `StoreHistory.ActiveForItsLifetime` | internal/sipx/service.go:274-311 | a box that registers and is left alone is found for exactly as many whole seconds as it asked for (section 10.3 of RFC 3261) |
| `StoreHistory.TooLongIsLost` | internal/sipx/service.go:303-303 | a binding of 9223372037 seconds is stored and found by no later lookup |
| `Registrar.TooLongIsAcceptedAndLost` | internal/sipx/service.go:274-311 | a box that asks for that many seconds in its Expires header is bound so, although the answer is success |
| `Store.Store.SetUserFXOPermission` | internal/store/store.go:1110-1124 | the upsert sets dial and receive of one row, keeps or defaults its preference, and touches no other row |
| `Store.Store.SetUserNotifyPreference` | internal/store/store.go:1126-1139 | the upsert sets the preference of one row and keeps or defaults the rest |
| `Store.Store.ListUsersForIncomingFXO` | internal/store/store.go:1185-1213 | exactly the admins and the users who may receive, less those who do not want notice, each once and ascending |
| `Store.Store.ListFXOBoxesWithStatusForUser` | internal/store/store.go:619-693 | exactly the boxes the user may dial, or all, each once and ascending, with the flags and the online state a lookup agrees with |
| `Store.Store.ListFXOBoxesWithStatus` | internal/store/store.go:695-739 | every box once, ascending, online exactly if a lookup finds a registration |
| `Store.Store.UserCanDialFXO` | internal/store/store.go:1171-1176 | an admin, or a row that allows it |
| `Store.Store.GetActiveRegistration` | internal/store/store.go:769-787 | the row if its expiry is ahead |
| `Store.Store.UpsertRegistration` | internal/store/store.go:741-759 | exactly the box's row is replaced, and only for an existing box |
| `Store.Store.CleanupExpiredRegistrations` | internal/store/store.go:789-796 | exactly the rows that are over go |
| `Store.Store.DeleteUser` | internal/store/store.go:376-405 | the user goes with all permission, contact, device and call rows of that user and nothing else |
| `Store.Store.DeleteFXOBox` | internal/store/store.go:564-574 | the box goes with its registration, its permission rows and its calls and nothing else |
| `Store.Store.CreateContact` | internal/store/store.go:877-894 | a contact is made for an existing user only |
| `Store.Store.UpsertUserDevice` | internal/store/store.go:958-985 | a device belongs to one existing user, and its token takes it to another |
| `Store.Store.CreateCallLog` | internal/store/store.go:798-809 | a call is logged for an existing box, whatever its user |
| `Store.Store.CreateUser` | internal/store/store.go:362-374 | a new user gets an identifier never used before, and no rows |
| `Store.Store.SetUserRole` | internal/store/store.go:421-432 | exactly the role of an existing user changes |
| `Store.Store.CreateFXOBox` | internal/store/store.go:530-545 | a new box gets an identifier never used before, and no rows |
| `Store.Store.UserCanReceiveFXO` | internal/store/store.go:1178-1183 | an admin, or a row that allows it |
| `Store.Store.DeleteRegistration` | internal/store/store.go:761-767 | exactly the box's registration goes |
| `Registrar.Service.OnRegister` | internal/sipx/service.go:230-313 | each answer comes if and only if its cause is there; registrations change only for a request with a live nonce, a known box and the right digest, if the database takes it; a late nonce is dropped and only a challenge stores one |
| `Registrar.BoundForAnHour` | internal/sipx/service.go:516-530 | a box that asks for no lifetime must name a contact and is then found for exactly 3600 whole seconds |
| `Registrar.BoundAsTheContactSays` | internal/sipx/service.go:516-522 | a contact parameter that prints n counts, whatever the header says: the box is found for exactly n whole seconds, and released if n is not positive |
| `Registrar.BoundAsTheHeaderSays` | internal/sipx/service.go:516-530 | a header that prints n counts when the contact has no lifetime that is a number |
| `Registrar.BoundAsRequested` | internal/sipx/service.go:290-304 | what a lookup finds names the request's own contact, source, transport, Call-ID and user agent |
| `Registrar.BindsOneBox` | internal/sipx/service.go:274-311 | no other box's binding is touched, nor anything else in the store |
| `Nonces.AcceptedIff` | internal/sipx/service.go:397-440 | in every interleaving of issues, checks and sweeps a nonce is accepted if and only if it is not empty, its latest issue is no longer than the lifetime ago, and no late check has dropped it since |
| `Nonces.GoodForItsLifetimeIff` | internal/sipx/service.go:397-420 | a nonce that is issued is accepted until its lifetime is over, whatever happens then, if and only if no check is in flight that has read the expiry of an earlier issue of it |
| `Nonces.UndisturbedAcceptedIff` | internal/sipx/service.go:397-420 | a nonce that is never issued while it is checked is accepted exactly until its latest issue is over |
| `Nonces.IssuedOnceAcceptedIff` | internal/sipx/service.go:397-420 | so is a nonce that is issued only once, which the way nonces are made does not ensure |
| `Nonces.TokensEqualIff` | internal/sipx/service.go:560-566 | two nonces are equal if and only if all their bytes are, and they are whenever the clock showed the same low fifteen bits at each byte, however far apart they were made |
| `Nonces.ByteOfTheClock` | internal/sipx/service.go:560-566 | byte i of a nonce is the eight bits of the clock from bit i modulo eight on |
| `Nonces.HexReads` | internal/sipx/service.go:560-566 | every byte of a nonce is printed as two hexadecimal digits, the higher one first, in order |
| `Nonces.NewToken` | internal/sipx/service.go:560-566 | the loop makes each byte of a nonce from the clock and prints the bytes in hexadecimal |
| `Nonces.IssuedInBetweenIsLost` | internal/sipx/service.go:403-420 | a run in which a nonce is issued again between the halves of a late check and is dropped while it is good |
| `Nonces.SweepLeavesTheLive` | internal/sipx/service.go:422-440 | right after a sweep the table holds exactly the nonces whose latest issue was not over when the sweeper read the clock, before it took the lock, and that no late check has dropped since |
| `Nonces.NonceTable.ValidateNonce` | internal/sipx/service.go:403-420 | a check that nothing interrupts: the answer, and the lazy deletion of a late nonce only |
| `Nonces.NonceTable.Read` | internal/sipx/service.go:404-412 | the half under the read lock: the expiry of a nonce that is in the table |
| `Nonces.NonceTable.Decide` | internal/sipx/service.go:413-419 | the half after it, whatever the table has become: the answer goes by the expiry that was read, and a late nonce is dropped even if it was issued again |
| `Nonces.NonceTable.CleanupNonces` | internal/sipx/service.go:428-435 | the loop removes exactly the late entries, in any order of the map |
| `Nonces.NonceTable.StoreNonce` | internal/sipx/service.go:397-401 | the nonce gets a full lifetime from now, also when it was issued before |
| `Registrar.Service.ReplyAuthChallenge` | internal/sipx/service.go:386-395 | a challenge carries a nonce that is live from then on |
| `CallLogPages.PagesPartitionTheLog` | internal/store/store.go:822-875 | pages 1 to the reported number put together are the user's log, every page but the last full and none empty |
| `CallLogPages.UserLogDescends` | internal/store/store.go:839-847 | the log has exactly the user's rows by descending identifier |
| `CallLogPages.PastTheEndIff` | internal/store/store.go:832-832 | a page past the last shows rows if and only if its number lies in one of the ranges whose 64-bit offset wraps around to before the end; each range is given by its first and last page |
| `CallLogPages.EmptyBeforeTheFirstWrap` | internal/store/store.go:832-832 | below the first of these ranges, page 2^63 / page_size rounded up plus 1, no page past the end shows anything |
| `CallLogPages.WrappedPage` | internal/store/store.go:832-832 | for pages of four, page 2^62 + 1 is the first page again |
| `CallLogPages.ListCallLogsByUser` | internal/store/store.go:822-875 | the rows of the clamped page and the user's total |
| `CallLogPages.SelectPage` | internal/store/store.go:839-871 | the walk over the table yields the slice of the user's log that LIMIT and OFFSET name |
| `CallLogPages.CountCalls` | internal/store/store.go:834-837 | the number of the user's rows |
| `CallLogPages.HandleListCalls` | internal/web/server.go:719-761 | malformed parameters are refused, and the items, page, size, total and number of pages agree with the store's clamping |
| `CallLogPages.ParamMeans` | internal/web/server.go:725-742 | a parameter of spaces is absent, one that prints a number counts if that is positive, and no other is taken |
| `CallLogPages.CallLogView.Refresh` | web/app.js:547-559 | the client's recursion ends for any totals the server reports, after no more requests than the page asked for, on a page within the last reported number that is empty only if the log is |
| `BoxStatus.BoxMonitor.Tick` | internal/web/server.go:318-365 | for any order of the maps a tick names every new, gone or changed box once, with its current state, and no other; the first tick sends nothing |
| `BoxStatus.BoxMonitor.CollectChanged` | internal/web/server.go:346-355 | the first loop names exactly the listed boxes that are new or changed, each once |
| `BoxStatus.BoxMonitor.CollectGone` | internal/web/server.go:356-364 | the second loop adds exactly the boxes that are gone, each once |
| `BoxStatus.AgreesAfterIff` | internal/web/server.go:345-365 | a client that applies a tick agrees with the server if and only if it agreed before on the boxes the tick does not name |
| `BoxStatus.AgreesOverRuns` | internal/web/server.go:318-377 | over every run of ticks and snapshots in which no box changes and changes back between two ticks, the client agrees after the last tick |
| `BoxStatus.EntryRightIff` | internal/web/server.go:318-377 | over every run of ticks a client's entry for a box is right afterwards if and only if it was right before or some tick found the box different; no client of the repository applies the messages, they fetch the list again |
| `BoxStatus.Flicker` | internal/web/server.go:215-232 | so a state that only a snapshot saw stays with such a client through every later tick that leaves the box alone |
| `IncomingList.RunFollows` | android/app/src/main/java/li/power/app/callfxo/android/call/CallController.kt:639-672 | after any run of pushes, socket messages, snapshots and removals the list has non-blank distinct identifiers, latest first, and holds exactly what the history says about each invite, with the time it was first announced since it was last absent |
| `IncomingList.PipelineMeans` | android/app/src/main/java/li/power/app/callfxo/android/call/CallController.kt:651-655 | a replacement gives a good list with the first item of every non-blank identifier, and items of one time stay in their order |
| `IncomingList.KeptInOrder` | android/app/src/main/java/li/power/app/callfxo/android/call/CallController.kt:651-655 | before the sort what is kept is in the order of the items: each adds itself at the end unless it is blank or its identifier is there already |
| `IncomingList.ReannounceKeepsPositions` | android/app/src/main/java/li/power/app/callfxo/android/call/CallController.kt:639-648 | announcing a known invite again keeps its receive time, its position and every other entry |
| `IncomingList.AnnounceNew` | android/app/src/main/java/li/power/app/callfxo/android/call/CallController.kt:639-648 | a new invite goes before all that are no later and moves no other; it is the head if none is later |
| `IncomingList.RemoveTakesTrimmed` | android/app/src/main/java/li/power/app/callfxo/android/call/CallController.kt:661-672 | a removal takes exactly the invite of the trimmed identifier; an invite is removed by its own identifier if and only if that has no space around it |
| `IncomingList.SpacedInviteStays` | android/app/src/main/java/li/power/app/callfxo/android/call/CallController.kt:600-613 | an invite announced by the socket with a space in front of its identifier is still listed after it is stopped |
| `IncomingList.IncomingCalls.UpsertIncoming` | android/app/src/main/java/li/power/app/callfxo/android/call/CallController.kt:639-649 | the list is updated so, and the current invite is its head |
| `IncomingList.IncomingCalls.ReplaceIncoming` | android/app/src/main/java/li/power/app/callfxo/android/call/CallController.kt:651-659 | the list is replaced so, and the current invite is its head |
| `IncomingList.IncomingCalls.RemoveIncoming` | android/app/src/main/java/li/power/app/callfxo/android/call/CallController.kt:661-672 | the list loses so, and the current invite is its head |
| `IncomingList.IncomingCalls.FindIncoming` | android/app/src/main/java/li/power/app/callfxo/android/call/CallController.kt:693-700 | the current invite, or the one of the trimmed identifier exactly if it is listed |
| `IncomingList.IncomingCalls.HandlePush` | android/app/src/main/java/li/power/app/callfxo/android/call/CallController.kt:284-320 | a push announces or removes by its trimmed identifier, and does nothing without one |
| `IncomingList.IncomingCalls.Clear` | android/app/src/main/java/li/power/app/callfxo/android/call/CallController.kt:159-160 | the list and the current invite are emptied together |
| `Candidates.CandidatesConserved` | android/app/src/main/java/li/power/app/callfxo/android/call/CallController.kt:532-560 | in every interleaving each candidate that arrived is handed over once or waits once, none before there is a remote description, and early and late ones each keep their order |
| `Candidates.FlushIsCompleteIff` | android/app/src/main/java/li/power/app/callfxo/android/call/CallController.kt:1148-1160 | after the flush every candidate has been handed over if and only if none was between its check and its queueing when the flush took the queue |
| `Candidates.LeftBehindForEver` | android/app/src/main/java/li/power/app/callfxo/android/call/CallController.kt:1148-1160 | the one left behind is never fetched |
| `Candidates.OneLeftBehind` | android/app/src/main/java/li/power/app/callfxo/android/call/CallController.kt:551-556 | a run that leaves one behind |
| `Candidates.AtomicFlushIsComplete` | web/app.js:1148-1169 | with messages handled at once nothing is left after the flush, and both groups were handed over in the order of arrival |
| `Candidates.PeerCandidates.FlushPendingRemoteCandidates` | android/app/src/main/java/li/power/app/callfxo/android/call/CallController.kt:1148-1160 | the loop hands over the whole queue in order and leaves it empty |
| `Candidates.PeerCandidates.OnCandidate` | android/app/src/main/java/li/power/app/callfxo/android/call/CallController.kt:532-560 | a candidate is queued before there is a remote description and handed over afterwards |
| `Candidates.PeerCandidates.ApplyAnswer` | android/app/src/main/java/li/power/app/callfxo/android/call/CallController.kt:504-513 | applying the answer hands over everything that waited, in order |
| `Candidates.PeerCandidates.ClosePeer` | android/app/src/main/java/li/power/app/callfxo/android/call/CallController.kt:992-1006 | nothing waits for a closed peer |
| `Candidates.NormalizedOnce` | web/app.js:424-435 | normalising on arrival and again on the flush equals normalising once; a candidate gets a media id, its line index as printed, if and only if it had none and that index is a non-negative number, null counting as zero; nothing else changes |
| `SdpAudio.FindPCMUPayload` | internal/call/manager.go:871-908 | the search finds format 0, or the type of the first rtpmap that names PCMU for an offered type, or nothing when there is none |
| `SdpAudio.CollectFormats` | internal/call/manager.go:875-886 | the first loop collects exactly the offered types from 0 to 255, unless 0 is among them |
| `SdpAudio.FoundIff` | internal/call/manager.go:871-908 | a type is found if and only if 0 is offered or an rtpmap names PCMU for an offered type, and it fits a byte without loss |
| `SdpAudio.PrintedFormats` | internal/call/manager.go:875-886 | payload types as they are printed are offered up to 255, and no others are |
| `SdpAudio.PrintedRtpmap` | internal/call/manager.go:887-905 | an rtpmap as it is printed names PCMU for its own type and no other, in any case of letters, and one for another encoding for none |
| `SdpAudio.SanitizedIs` | internal/call/manager.go:910-919 | a suffix after a slash is cut off an address, and an address without one stays |
| `SdpAudio.AudioTarget` | internal/call/manager.go:826-851 | the first audio section with a host and a port decides the outcome, the address and the payload type |
| `SdpAudio.ParseSIPAudioTarget` | internal/call/manager.go:820-852 | the same for a description as text, which may be malformed |
| `SdpAudio.HostIsOwnIff` | internal/call/manager.go:826-840 | the host used for an audio section is its own if and only if it has a connection line, none before it has, or the last of those names the session's host |
| `SdpAudio.LastConnectionIs` | internal/call/manager.go:826-836 | the host carried over is that of the last audio section before with a connection line of its own |
| `SdpAudio.FirstAudioDecides` | internal/call/manager.go:820-852 | when no audio section before it has a port or a connection line, an audio section with a port decides: its own address or the session's, its port and its PCMU type, or the error that its codec or its address calls for |
| `SdpAudio.NoAudioToSendTo` | internal/call/manager.go:826-851 | without an audio section that has a port there is nothing to send to, whatever else is described |
| `SdpAudio.OfferReads` | internal/call/manager.go:815-818 | reading the printed offer gives one audio section with its port, its formats and its five attributes, under the session's address |
| `SdpAudio.OfferRoundTrip` | internal/call/manager.go:815-852 | what the gateway prints for a literal address and a port other than zero is parsed back to that address, that port and payload type 0 |
| `CallerIdentity.RoundTrip` | internal/sipx/service.go:607-631 | a printed clean display name and number without @ and > parse back to both, whatever the host (section 9.1 of RFC 3325) |
| `CallerIdentity.DisplayReturnsIff` | internal/sipx/service.go:612-615 | the display name comes back if and only if it has no opening bracket and no quote at either end |
| `CallerIdentity.NumberReturns` | internal/sipx/service.go:616-627 | the number comes back trimmed, whatever the host |
| `CallerIdentity.BareUri` | internal/sipx/service.go:607-631 | a URI without brackets yields its number and no display name |
| `CallerIdentity.PartyNumber` | internal/sipx/service.go:607-631 | a header that is no SIP URI but has a party parameter yields what stands before the first semicolon |
| `CallerIdentity.ExtractCallerID` | internal/sipx/service.go:591-605 | the first identity header that yields anything decides, else From, else nothing |

## Left out

- Media: sockets, peer connections, tracks, RTP forwarding, DTMF and TURN credentials appear only as opened, closed or failed; the libraries behind them are not modelled.
- SIP: transactions and dialogs are reduced to the outcome of a response and to an open or closed dialog; matching an INVITE to a registration by source address is not modelled.
- Call metadata: numbers, box names, device tokens, times and caller identifiers of sessions and invites are not carried; no table depends on them. `NotifyIncomingEvent` is the event trace, and a missing notifier is not modelled.
- CallManager.Manager.EndCallLog: an update of the call log that fails leaves its row open; such rows are collected in `lost`, and the ledger is stated with them.
- Call log rows that disappear when their user or box is deleted are not part of the ledger; the cascades themselves are modelled in `Database`.
- Login, logout, `CallController.refreshSessionIfNeeded` and the refreshes of `MainViewModel`: they do not compare the access token under the mutex, so lock-step is claimed for `authedRequest` only.
- Digests, HMAC and password hashes: the outcome of comparing them is a parameter.
- Nonces.NonceTable.ValidateNonce: the method runs both halves of a check at once; that the program gives up its lock in between is in the contracts of `Read` and `Decide` and in the histories of `Nonces.AcceptedIff`, not in this contract.
- SdpAudio.ParseSIPAudioTarget: the text is read by a reader of the model's own, written after section 5 of RFC 8866, because the parser the program calls is a library.
- The phone's session is stored in five preferences that the model reads and writes at once, and its list of invites is updated by one caller at a time.
- `parseWebRTCAudioPCMUPayload`, which runs the same payload search over every audio section.
- A database that fails is modelled for the refresh handler, the call manager and the registrar, not for the lists.
- Strings are ASCII: other Unicode spaces and letters that fold to ASCII are not modelled.
- The SDP reader takes lines as section 5 of RFC 8866 describes them and does not enforce their order; numbers in JavaScript are any real number, with parsing and printing as parameters.
- The web client's `boxes_snapshot` and `box_status` handlers fetch the list again; `BoxStatus` is about a client that applies the messages themselves.
- What contacts hold, settings, push delivery, user interface, audio routing, ringtones, configuration and deployment.
