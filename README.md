# RTT ranging-request scheduler

A Dafny model of the ranging-request scheduler of the Wi-Fi RTT service
(`RttServiceImpl`), as its unit test `RttServiceImplTest.java` pins it down,
with proofs of the properties that test asserts.

Apps call `startRanging` with a list of peers. A peer is named by MAC address
or by a Wi-Fi Aware peer handle. A request is admitted if:

- the caller holds the location permission;
- RTT is available;
- the caller is in the foreground, or some uid the request is billed to has
  not been dispatched for within `BACKGROUND_PROCESS_EXEC_GAP_MS`.

Admitted requests wait in a FIFO queue, and at most one executes on the HAL at
a time. Dispatching a request does the following:

- gives it a fresh command id;
- translates its peer handles to MACs through the Wi-Fi Aware service;
- calls the HAL's `rangeRequest`.

The HAL may reject the call synchronously; the request then fails with
`STATUS_CODE_FAIL` and the next one goes. When it accepts, the ranging timeout
is armed and every billed uid is stamped with the dispatch time. Results for
the executing command are handled as follows:

- they are correlated to the requested peers, and peers with no result get a
  `STATUS_FAIL` entry with zero fields;
- handles are translated back;
- the permission is checked again before delivery.

Results for any other command are dropped. Each of these ends the executing
request and lets the queue advance:

- the timeout (failure plus a HAL cancel);
- `cancelRanging` with a covering work source (silent);
- the death of the requester (silent, and only that requester's requests);
- disabling Wi-Fi or entering doze (every pending request fails with
  `STATUS_CODE_FAIL_RTT_NOT_AVAILABLE`).

Enabling again resumes nothing.

The project has two levels:

- `scheduler.dfy` (module `Scheduler`) is the scheduler as a state machine.
  Its `State` holds the queue, the executing request, the counters, the
  throttle ledger and the availability flag. It also holds everything the
  collaborators observe: the callbacks made, the HAL calls, death-link
  registrations, and the alarm calls and state broadcasts in one ordered log
  (the test verifies the alarm manager and the context in a single order). Each event is one function
  from state to state.
- `rtt_service.dfy` (module `RttService`) is the service as a class
  `RttServiceImpl` whose fields hold that state and whose methods update it in
  place. Each method is proved to leave exactly the state the scheduler's
  function for that event computes. Each method also keeps the invariant
  `Valid()`.

The other files:

- `peer_translation.dfy` holds the pure per-peer functions: handle-to-MAC
  translation and the correlation and backfill of results.
- `throttle.dfy` holds the per-uid ledger of background dispatch times.
- `scheduler_invariant.dfy` proves that every event keeps the invariant `Inv`:
  - one executing request at most, with the timer armed exactly then;
  - dispatch in submission order;
  - each request is pending, notified exactly once, or silently removed;
  - death links equal the pending requests plus those unlinked.
- `scheduler_properties.dfy` states the behaviour the test checks, one
  scenario family at a time, over any run of events.

The implementation class itself is not part of this model. Only its unit
test is, so "the source" below is what that test asserts.

## Model

All source paths are `tests/wifitests/src/com/android/server/wifi/rtt/RttServiceImplTest.java`.

| member | source | states |
|---|---|---|
| PeerTranslation.HandlesOf | tests/wifitests/src/com/android/server/wifi/rtt/RttServiceImplTest.java:981-988 | the handle list sent to the Aware service holds exactly the handles of the request's Aware peers |
| PeerTranslation.Translate | tests/wifitests/src/com/android/server/wifi/rtt/RttServiceImplTest.java:253-296 | the HAL peer list has at most one entry per requested peer, and each entry is the HAL form of a requested peer that resolved (unresolved handles are dropped) |
| PeerTranslation.Macs | tests/wifitests/src/com/android/server/wifi/rtt/RttServiceImplTest.java:417-426 | the MAC list passed to rangeCancel has one MAC per HAL peer and names every peer that was sent |
| PeerTranslation.RequestMacAddresses | tests/wifitests/src/com/android/server/wifi/rtt/RttServiceImplTest.java:968-996 | the answer maps exactly the requested handles the Aware service knows, each to its known MAC; unknown handles are skipped |
| PeerTranslation.TranslateRoundTrip | tests/wifitests/src/com/android/server/wifi/rtt/RttServiceImplTest.java:253-296 | translating the HAL peer list back gives, in order, exactly the requested peers that could be resolved |
| PeerTranslation.TranslateResolved | tests/wifitests/src/com/android/server/wifi/rtt/RttServiceImplTest.java:274-281 | when every handle resolves, the HAL request has one entry per requested peer, the i-th being the i-th peer with its MAC |
| PeerTranslation.CancelListFollowsRequest | tests/wifitests/src/com/android/server/wifi/rtt/RttServiceImplTest.java:414-426 | when every handle resolves, the MAC list of a HAL cancel has one MAC per requested peer, in request order, a handle peer contributing its resolved MAC |
| PeerTranslation.CancelListFollowsResolvable | tests/wifitests/src/com/android/server/wifi/rtt/RttServiceImplTest.java:417-426 | in general, the MAC list of a HAL cancel has one MAC per resolvable peer, in request order, a handle peer contributing the MAC it resolved to |
| PeerTranslation.TranslatedHandlesCarryTheirMac | tests/wifitests/src/com/android/server/wifi/rtt/RttServiceImplTest.java:278-281 | an Aware peer in the HAL request carries the MAC the Aware service gave for its handle |
| PeerTranslation.ResolvedPeerSent | tests/wifitests/src/com/android/server/wifi/rtt/RttServiceImplTest.java:270-281 | every requested peer that resolves is in the HAL request |
| PeerTranslation.TranslateDependsOnRequestedHandles | tests/wifitests/src/com/android/server/wifi/rtt/RttServiceImplTest.java:981-988 | the HAL request depends only on the MACs of the handles the request names |
| PeerTranslation.Lookup | tests/wifitests/src/com/android/server/wifi/rtt/RttServiceImplTest.java:606-629 | the report used for a MAC is the first raw result at that MAC; there is none only when no raw result names the MAC |
| PeerTranslation.Correlate | tests/wifitests/src/com/android/server/wifi/rtt/RttServiceImplTest.java:606-629 | the caller gets one result per requested peer, in request order, each naming that peer |
| PeerTranslation.MissingPeerBackfilled | tests/wifitests/src/com/android/server/wifi/rtt/RttServiceImplTest.java:610-629 | a peer the HAL reported nothing for gets STATUS_FAIL with every measurement field zero |
| PeerTranslation.ReportedPeerCarried | tests/wifitests/src/com/android/server/wifi/rtt/RttServiceImplTest.java:233-238 | a peer the HAL reported on gets that report, under the peer's own identity |
| PeerTranslation.HandleResultTranslatedBack | tests/wifitests/src/com/android/server/wifi/rtt/RttServiceImplTest.java:283-292 | a result the HAL reports at a handle's resolved MAC reaches the caller under the handle |
| PeerTranslation.HandleResultUnderHandle | tests/wifitests/src/com/android/server/wifi/rtt/RttServiceImplTest.java:283-292 | with duplicate MACs allowed: a resolved handle peer with some HAL report at its MAC is delivered under its handle, carrying one of those reports |
| PeerTranslation.LookupIgnoresRawOrder | tests/wifitests/src/com/android/server/wifi/rtt/RttServiceImplTest.java:624-629 | finding a peer's report does not depend on the order of the HAL's results |
| PeerTranslation.CorrelateIgnoresRawOrder | tests/wifitests/src/com/android/server/wifi/rtt/RttServiceImplTest.java:624-629 | reordering the HAL's results leaves the delivered list unchanged |
| Throttle.Stamp | tests/wifitests/src/com/android/server/wifi/rtt/RttServiceImplTest.java:809-845 | dispatch stamps every uid of the work source with the dispatch time and leaves other uids' times alone |
| Throttle.MayExecute | tests/wifitests/src/com/android/server/wifi/rtt/RttServiceImplTest.java:712-718 | a background request billed to a uid that has never been dispatched for may execute; against an empty ledger, every non-empty work source may execute |
| Throttle.StampedUidsThrottled | tests/wifitests/src/com/android/server/wifi/rtt/RttServiceImplTest.java:726-731 | within the gap after a dispatch, a background request billed only to uids stamped by it is refused |
| Throttle.StampedUidsReleased | tests/wifitests/src/com/android/server/wifi/rtt/RttServiceImplTest.java:733-739 | more than the gap after a dispatch, a uid it stamped may execute again |
| Throttle.StampKeepsLatest | tests/wifitests/src/com/android/server/wifi/rtt/RttServiceImplTest.java:822-845 | a later stamp never moves a uid's time back |
| Throttle.BackgroundTimeline | tests/wifitests/src/com/android/server/wifi/rtt/RttServiceImplTest.java:712-775 | at t1, t1+gap/2, t1+1.1*gap and five time units later, a background uid is admitted, refused, admitted, and refused after a foreground dispatch |
| Throttle.WorkSourceTimeline | tests/wifitests/src/com/android/server/wifi/rtt/RttServiceImplTest.java:809-845 | {10} is admitted at t1 and {10,20} at t1+gap/2; {10} is refused at t1+1.1*gap because the second dispatch stamped uid 10 again |
| Scheduler.AttributionOf | tests/wifitests/src/com/android/server/wifi/rtt/RttServiceImplTest.java:452-476 | a request is billed to its work source, or to the caller alone when none is given |
| Scheduler.Dispatch | tests/wifitests/src/com/android/server/wifi/rtt/RttServiceImplTest.java:313-346 | it only extends the callbacks, adding nothing but STATUS_CODE_FAIL for rejections; it does nothing while a request executes; it never leaves the HAL idle with requests waiting; a new executing request gets a fresh command id |
| Scheduler.StartRanging | tests/wifitests/src/com/android/server/wifi/rtt/RttServiceImplTest.java:223-226 | every call uses up one request id, leaves availability alone and only extends the callbacks; a death recipient is linked for the new request exactly when it is admitted (permitted, RTT available, and foreground or passing the throttle) |
| Scheduler.OnRangingResults | tests/wifitests/src/com/android/server/wifi/rtt/RttServiceImplTest.java:233-242 | results for a command other than the executing one change nothing; for the executing one, its caller's next callback is the correlated results (or STATUS_CODE_FAIL without permission) and its death link is released |
| Scheduler.OnTimeout | tests/wifitests/src/com/android/server/wifi/rtt/RttServiceImplTest.java:659-668 | with nothing executing, the timeout changes nothing; otherwise the executing request's caller next gets STATUS_CODE_FAIL and its death link is released |
| Scheduler.SilentPurge | tests/wifitests/src/com/android/server/wifi/rtt/RttServiceImplTest.java:395-560 | afterwards no pending request is one the purge covers, nothing new becomes pending, the covered queued requests are silently removed, and the only new callbacks are STATUS_CODE_FAIL for HAL rejections of the next requests |
| Scheduler.CancelRanging | tests/wifitests/src/com/android/server/wifi/rtt/RttServiceImplTest.java:486-564 | afterwards no pending request has a work source within the cancelled one, and nothing new becomes pending |
| Scheduler.OnRequesterDeath | tests/wifitests/src/com/android/server/wifi/rtt/RttServiceImplTest.java:384-476 | afterwards no pending request was made by the dead requester, and nothing new becomes pending |
| Scheduler.Disable | tests/wifitests/src/com/android/server/wifi/rtt/RttServiceImplTest.java:880-904 | RTT is unavailable, nothing is pending, one callback is added per request that was pending, and the first new observable effect is the broadcast of unavailability |
| Scheduler.Enable | tests/wifitests/src/com/android/server/wifi/rtt/RttServiceImplTest.java:913-926 | RTT is available, the broadcast of availability is the only new effect, and no request, callback or HAL call is added |
| Scheduler.Step | tests/wifitests/src/com/android/server/wifi/rtt/RttServiceImplTest.java:211-247 | no event changes the gap, lowers the request id counter, or withdraws a callback already made |
| Scheduler.Run | tests/wifitests/src/com/android/server/wifi/rtt/RttServiceImplTest.java:202-206 | over any sequence of events the gap is fixed, request ids are never reused, and callbacks already made are never withdrawn |
| Scheduler.Kept | tests/wifitests/src/com/android/server/wifi/rtt/RttServiceImplTest.java:487-560 | a queued request survives a purge exactly when the purge does not cover it |
| Scheduler.PurgedIds | tests/wifitests/src/com/android/server/wifi/rtt/RttServiceImplTest.java:395-441 | the ids a purge removes from the queue are exactly those of the queued requests it covers |
| Scheduler.Failures | tests/wifitests/src/com/android/server/wifi/rtt/RttServiceImplTest.java:899-904 | one failure callback with the given code per pending request, in order |
| Scheduler.IdsOf | tests/wifitests/src/com/android/server/wifi/rtt/RttServiceImplTest.java:204-205 | the ids of a list of requests, whose death links are released together |
| SchedulerInvariant.InitialInv | tests/wifitests/src/com/android/server/wifi/rtt/RttServiceImplTest.java:157-200 | a freshly started service satisfies the invariant |
| SchedulerInvariant.DispatchKeepsInvariant | tests/wifitests/src/com/android/server/wifi/rtt/RttServiceImplTest.java:313-346 | dispatching through any run of HAL rejections ends in a state satisfying the invariant |
| SchedulerInvariant.StartRangingKeepsInv | tests/wifitests/src/com/android/server/wifi/rtt/RttServiceImplTest.java:223-226 | startRanging keeps the invariant |
| SchedulerInvariant.OnRangingResultsKeepsInv | tests/wifitests/src/com/android/server/wifi/rtt/RttServiceImplTest.java:233-244 | results from the HAL keep the invariant |
| SchedulerInvariant.OnTimeoutKeepsInv | tests/wifitests/src/com/android/server/wifi/rtt/RttServiceImplTest.java:659-679 | the timeout keeps the invariant |
| SchedulerInvariant.SilentPurgeKeepsInv | tests/wifitests/src/com/android/server/wifi/rtt/RttServiceImplTest.java:395-441 | cancellation and requester death keep the invariant |
| SchedulerInvariant.DisableKeepsInv | tests/wifitests/src/com/android/server/wifi/rtt/RttServiceImplTest.java:884-904 | disable and doze entry keep the invariant |
| SchedulerInvariant.EnableKeepsInv | tests/wifitests/src/com/android/server/wifi/rtt/RttServiceImplTest.java:913-926 | enable and doze exit keep the invariant |
| SchedulerInvariant.StepKeepsInv | tests/wifitests/src/com/android/server/wifi/rtt/RttServiceImplTest.java:202-206 | every event keeps the invariant |
| SchedulerProperties.ReachableInv | tests/wifitests/src/com/android/server/wifi/rtt/RttServiceImplTest.java:202-206 | the invariant holds after any sequence of events from a fresh service |
| SchedulerProperties.SingleInFlightInOrder | tests/wifitests/src/com/android/server/wifi/rtt/RttServiceImplTest.java:223-244 | after any run, the timeout is armed exactly while a request executes, and requests reach the HAL in submission order, each at most once |
| SchedulerProperties.ExactlyOneOutcome | tests/wifitests/src/com/android/server/wifi/rtt/RttServiceImplTest.java:240-247 | after any run, every request made is exactly one of pending, notified or silently removed, and its callback is invoked at most once |
| SchedulerProperties.SettledWhenIdle | tests/wifitests/src/com/android/server/wifi/rtt/RttServiceImplTest.java:202-206 | once nothing executes, death links equal unlinks, and every request made has been notified or silently removed |
| SchedulerProperties.DispatchExtends | tests/wifitests/src/com/android/server/wifi/rtt/RttServiceImplTest.java:228-231 | dispatch only appends HAL and alarm calls; when idle with requests waiting, the next HAL call is rangeRequest for the head with a fresh command id and its translated peers |
| SchedulerProperties.DispatchArmsTimerOnAccept | tests/wifitests/src/com/android/server/wifi/rtt/RttServiceImplTest.java:228-231 | an accepted head executes with its translated peers; the HAL log gains exactly its rangeRequest with the next command id, the alarm log exactly one setExact, the callbacks nothing, and its uids are stamped |
| SchedulerProperties.RetiredResultsIgnored | tests/wifitests/src/com/android/server/wifi/rtt/RttServiceImplTest.java:240-242 | results for a command id that no longer executes change nothing |
| SchedulerProperties.DispatchKeepsRetired | tests/wifitests/src/com/android/server/wifi/rtt/RttServiceImplTest.java:240-242 | dispatch never brings a retired command id back |
| SchedulerProperties.StepKeepsRetired | tests/wifitests/src/com/android/server/wifi/rtt/RttServiceImplTest.java:240-242 | no event brings a retired command id back |
| SchedulerProperties.RunKeepsRetired | tests/wifitests/src/com/android/server/wifi/rtt/RttServiceImplTest.java:669-675 | a retired command id stays retired through any later events |
| SchedulerProperties.ResultsDeliveredOnce | tests/wifitests/src/com/android/server/wifi/rtt/RttServiceImplTest.java:233-242 | results for the executing command deliver the correlated results, or STATUS_CODE_FAIL without permission, and cancel the timeout; the same id's results after any later events change nothing |
| SchedulerProperties.UnexpectedResultIgnored | tests/wifitests/src/com/android/server/wifi/rtt/RttServiceImplTest.java:584-595 | results carrying any other command id change nothing |
| SchedulerProperties.StartRangingRefused | tests/wifitests/src/com/android/server/wifi/rtt/RttServiceImplTest.java:906-911 | a refused request gets one failure callback, NOT_AVAILABLE when RTT is disabled and FAIL otherwise, and touches neither queue, HAL, alarms, death links nor ledger |
| SchedulerProperties.StartRangingWhenIdle | tests/wifitests/src/com/android/server/wifi/rtt/RttServiceImplTest.java:253-270 | an admitted request on an idle service is linked, sent to the HAL with its peers translated, and arms the timeout |
| SchedulerProperties.StartRangingWhenBusy | tests/wifitests/src/com/android/server/wifi/rtt/RttServiceImplTest.java:223-226 | an admitted request while another executes is linked and queued at the end, with no HAL or alarm call |
| SchedulerProperties.ThrottleDecidesAdmission | tests/wifitests/src/com/android/server/wifi/rtt/RttServiceImplTest.java:712-775 | on an idle service, a permitted request executes if and only if it is foreground or its uids pass the throttle |
| SchedulerProperties.BackgroundNewUidAdmitted | tests/wifitests/src/com/android/server/wifi/rtt/RttServiceImplTest.java:712-718 | a permitted background request billed to a uid never dispatched for is admitted, and on an idle service whose HAL accepts it executes at once |
| SchedulerProperties.NativeRejection | tests/wifitests/src/com/android/server/wifi/rtt/RttServiceImplTest.java:313-346 | a request the HAL rejects gets exactly one STATUS_CODE_FAIL, arms no timeout, and its results after any later events are ignored |
| SchedulerProperties.RejectedHeadSkipped | tests/wifitests/src/com/android/server/wifi/rtt/RttServiceImplTest.java:313-330 | after a rejection the next queued request is sent immediately, with the next command id |
| SchedulerProperties.ResultsAdvanceQueue | tests/wifitests/src/com/android/server/wifi/rtt/RttServiceImplTest.java:228-247 | results for the executing command send the next queued request to the HAL; when it is accepted, the logs gain exactly the caller's outcome, the alarm cancel then setExact, and that one rangeRequest; with nothing queued, exactly the outcome and the alarm cancel, and the service is idle |
| SchedulerProperties.TimeoutExactLogs | tests/wifitests/src/com/android/server/wifi/rtt/RttServiceImplTest.java:659-679 | when the next request is accepted, the timeout adds exactly rangeCancel with the MACs then the next rangeRequest, one STATUS_CODE_FAIL callback and one setExact; with nothing queued, exactly the rangeCancel and the failure |
| SchedulerProperties.TimeoutFailsAndAdvances | tests/wifitests/src/com/android/server/wifi/rtt/RttServiceImplTest.java:659-679 | the timeout cancels the command on the HAL with its MACs, fails it with STATUS_CODE_FAIL, sends the next request, makes no other HAL call or callback when that request is accepted or none waits, and later results for it are ignored |
| SchedulerProperties.PurgeCoverage | tests/wifitests/src/com/android/server/wifi/rtt/RttServiceImplTest.java:487-560 | a pending request is silently removed if and only if the cancelled work source covers its own, or its requester died |
| SchedulerProperties.PurgeExactLogs | tests/wifitests/src/com/android/server/wifi/rtt/RttServiceImplTest.java:510-522 | purging the executing request adds exactly rangeCancel with its MACs and an alarm cancel, then, when a surviving request is accepted, its rangeRequest and setExact; in both cases (accepted, or none survives) no callback is made |
| SchedulerProperties.PurgeOfExecuting | tests/wifitests/src/com/android/server/wifi/rtt/RttServiceImplTest.java:395-522 | a purged executing request is cancelled on the HAL with its MACs and its timeout, is never notified, its results are ignored, and nothing else reaches the HAL, the alarm manager or a callback when the next survivor is accepted or none survives; an uncovered one is left alone |
| SchedulerProperties.DisableFailsAllPending | tests/wifitests/src/com/android/server/wifi/rtt/RttServiceImplTest.java:880-904 | disable fails every pending request with NOT_AVAILABLE in order, broadcasts unavailability and then cancels the executing one's timeout, cancels it on the HAL, empties the queue and releases every death link |
| SchedulerProperties.EnableResumesNothing | tests/wifitests/src/com/android/server/wifi/rtt/RttServiceImplTest.java:913-926 | enable makes RTT available and broadcasts it, with nothing pending and no HAL call or callback |
| RttService.ResolvePeers | tests/wifitests/src/com/android/server/wifi/rtt/RttServiceImplTest.java:968-996 | the peer list built from the Aware service's answer is the translation of the request's peers |
| RttService.SplitQueue | tests/wifitests/src/com/android/server/wifi/rtt/RttServiceImplTest.java:395-441 | the loop computes the queue a purge keeps and the ids it removes |
| RttService.FailAll | tests/wifitests/src/com/android/server/wifi/rtt/RttServiceImplTest.java:899-904 | the loop computes the NOT_AVAILABLE callbacks for the pending requests and the ids whose links it releases |
| RttService.RttServiceImpl.constructor | tests/wifitests/src/com/android/server/wifi/rtt/RttServiceImplTest.java:157-200 | a new service is available, idle and empty, and satisfies the invariant |
| RttService.RttServiceImpl.IsAvailable | tests/wifitests/src/com/android/server/wifi/rtt/RttServiceImplTest.java:897 | reports availability; nothing is pending while RTT is unavailable |
| RttService.RttServiceImpl.SendHead | tests/wifitests/src/com/android/server/wifi/rtt/RttServiceImplTest.java:313-346 | sends the head with a fresh command id; it then executes if the HAL accepts, and fails otherwise |
| RttService.RttServiceImpl.ExecuteNextRangingRequestIfPossible | tests/wifitests/src/com/android/server/wifi/rtt/RttServiceImplTest.java:313-346 | the loop leaves the state scheduler dispatch computes |
| RttService.RttServiceImpl.StartRanging | tests/wifitests/src/com/android/server/wifi/rtt/RttServiceImplTest.java:223-226 | returns the new request id, leaves the scheduler's startRanging state, keeps the invariant |
| RttService.RttServiceImpl.OnRangingResults | tests/wifitests/src/com/android/server/wifi/rtt/RttServiceImplTest.java:233-242 | leaves the scheduler's result-handling state, keeps the invariant |
| RttService.RttServiceImpl.OnTimeout | tests/wifitests/src/com/android/server/wifi/rtt/RttServiceImplTest.java:659-668 | leaves the scheduler's timeout state, keeps the invariant |
| RttService.RttServiceImpl.Purge | tests/wifitests/src/com/android/server/wifi/rtt/RttServiceImplTest.java:395-441 | leaves the scheduler's silent-purge state, keeps the invariant |
| RttService.RttServiceImpl.CancelRanging | tests/wifitests/src/com/android/server/wifi/rtt/RttServiceImplTest.java:510-522 | leaves the scheduler's cancelRanging state, keeps the invariant |
| RttService.RttServiceImpl.OnRequesterDeath | tests/wifitests/src/com/android/server/wifi/rtt/RttServiceImplTest.java:468-476 | leaves the scheduler's requester-death state, keeps the invariant |
| RttService.RttServiceImpl.Disable | tests/wifitests/src/com/android/server/wifi/rtt/RttServiceImplTest.java:884-904 | leaves the scheduler's disable state, keeps the invariant |
| RttService.RttServiceImpl.Enable | tests/wifitests/src/com/android/server/wifi/rtt/RttServiceImplTest.java:913-926 | leaves the scheduler's enable state, keeps the invariant |

## Left out

- Binder IPC is left out: death recipients become request ids in the `linked`/`unlinked` sets, and callbacks become a log of outcomes per request.
- AlarmManager is reduced to the `timerArmed` flag and the setExact and cancel entries of the ordered `effects` log; the alarm's time and tag are not modelled.
- PowerManager doze broadcasts and the Wi-Fi state are left out: both become the Disable and Enable events, and their interplay is not modelled.
- The contents of the ACTION_WIFI_RTT_STATE_CHANGED intent are left out; a broadcast is modelled as the new availability only.
- HAL wire types and the RttResult to RangingResult conversion are left out; a result is an abstract per-peer record.
- The real values of `BACKGROUND_PROCESS_EXEC_GAP_MS` and the ranging timeout are left out; the gap is a parameter, and the timeout is an event.
- Throttle.BackgroundTimeline: requires a gap of at least 10 ms, since with integer division a smaller gap makes t1 + gap*11/10 fall within the gap.
- Throttle.WorkSourceTimeline: requires a gap of at least 10 ms, for the same reason.
- ActivityManager importance and WifiPermissionsUtil are reduced to boolean inputs for foreground and permission.
- The clock is an input of each event.
- The Aware service's resolution runs synchronously, inside dispatch. In the service it is an asynchronous callback, so interleaving with other events while a resolution is outstanding is not modelled.
- The Aware resolver's check of the caller's uid is left out.
- The 32-bit command id counter is unbounded here, so its wrap-around is not modelled.
- A permission failure at admission is a single STATUS_CODE_FAIL callback with no queueing, as the service's documented behaviour describes; the test does not exercise it.
- The throttle is checked at admission and the ledger is stamped when the HAL accepts; the test cannot tell this from checking at dispatch time.
- PeerTranslation.ReportedPeerCarried: requires DistinctAddresses (the HAL reports each MAC at most once); with duplicates, Lookup takes the first result at a MAC, which need not be the given report.
- PeerTranslation.HandleResultTranslatedBack: requires DistinctAddresses (the HAL reports each MAC at most once) to name the report delivered; HandleResultUnderHandle states the general case, where the delivered report is one of those at the handle's MAC.
- PeerTranslation.LookupIgnoresRawOrder: requires DistinctAddresses of the reordered listing; with duplicate MACs the first match can depend on the HAL's order.
- PeerTranslation.CorrelateIgnoresRawOrder: requires DistinctAddresses of both listings; with duplicate MACs the delivered list can depend on the HAL's order.
