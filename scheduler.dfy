/**
 * The ranging-request scheduler of the RTT service as a state machine.
 *
 * Every external event (startRanging, a HAL result, the timeout alarm,
 * cancelRanging, a requester's death, disable, enable) runs to completion and
 * is one function from the state before to the state after. The state holds
 * the FIFO queue of waiting requests, the one request executing on the HAL,
 * the command id counter, the throttle ledger and the availability flag, and
 * also what the collaborators observe: the callbacks made, the HAL and alarm
 * calls, death-link registrations and state-change broadcasts.
 */
module Scheduler {
  import opened RttTypes
  import opened PeerTranslation
  import opened Throttle

  /**
   * What the collaborators answer while one event runs: the clock, whether
   * the HAL accepts rangeRequest for a command id, and the MACs the Wi-Fi
   * Aware service knows for peer handles.
   */
  datatype Env = Env(now: int, halAccepts: CommandId -> bool, awareMacs: map<PeerHandle, MacAddress>)

  datatype State = State(
    gap: nat,                          // BACKGROUND_PROCESS_EXEC_GAP_MS
    available: bool,
    queue: seq<Request>,               // admitted, not yet sent to the HAL, in arrival order
    active: Option<Active>,            // the one request executing on the HAL
    timerArmed: bool,                  // the ranging timeout alarm
    nextCmdId: CommandId,
    nextRequestId: RequestId,
    ledger: Ledger,
    linked: set<RequestId>,            // death recipients ever linked
    unlinked: set<RequestId>,          // death recipients ever unlinked
    silentlyRemoved: set<RequestId>,   // requests ended by cancellation or requester death
    callbacks: seq<Callback>,
    halCalls: seq<HalCall>,
    effects: seq<Effect>)              // alarm calls and state-change broadcasts, in one order

  function Initial(gap: nat): State
  {
    State(gap, true, [], None, false, 0, 0, map[], {}, {}, {}, [], [], [])
  }

  /** The uids a request is billed to: the work source, or the caller alone when none is given. */
  function AttributionOf(uid: Uid, workSource: set<Uid>): (billed: set<Uid>)
    ensures billed != {}
    ensures workSource != {} ==> billed == workSource
    ensures workSource == {} ==> billed == {uid}
  {
    if workSource == {} then {uid} else workSource
  }

  /**
   * Execute the next queued request if the HAL is idle: give it a fresh
   * command id and send it with its peer handles translated. If the HAL
   * accepts, stamp the ledger and arm the timeout; if it rejects, fail the
   * request with STATUS_CODE_FAIL and go on with the next one.
   */
  function Dispatch(s: State, env: Env): (t: State)
    ensures t.gap == s.gap && t.available == s.available && t.nextRequestId == s.nextRequestId
    ensures t.linked == s.linked && t.silentlyRemoved == s.silentlyRemoved
    ensures s.active.Some? ==> t == s
    ensures t.active.None? ==> t.queue == []
    ensures t.nextCmdId >= s.nextCmdId
    ensures s.active.None? && t.active.Some? ==> s.nextCmdId <= t.active.value.cmdId < t.nextCmdId
    ensures |t.callbacks| >= |s.callbacks| && t.callbacks[..|s.callbacks|] == s.callbacks
    ensures forall i :: |s.callbacks| <= i < |t.callbacks| ==> t.callbacks[i].outcome == OnFailure(CodeFail)
    ensures forall r :: r in Pending(t) ==> r in Pending(s)
    ensures s.unlinked <= t.unlinked
    decreases |s.queue|
  {
    if s.active.Some? || s.queue == [] then s
    else
      var r := s.queue[0];
      var cmd := s.nextCmdId;
      var hal := Translate(r.peers, env.awareMacs);
      var sent := s.(queue := s.queue[1..], nextCmdId := cmd + 1,
                     halCalls := s.halCalls + [RangeRequest(cmd, r.id, hal)]);
      if env.halAccepts(cmd) then
        sent.(active := Some(Active(r, cmd, hal)), timerArmed := true,
              ledger := Stamp(s.ledger, r.workSource, env.now),
              effects := s.effects + [Alarm(SetExact)])
      else
        var failed := s.callbacks + [Callback(r.id, OnFailure(CodeFail))];
        var t := Dispatch(sent.(callbacks := failed, unlinked := s.unlinked + {r.id}), env);
        assert failed[..|s.callbacks|] == s.callbacks;
        assert t.callbacks[..|s.callbacks|] == t.callbacks[..|failed|][..|s.callbacks|];
        t
  }

  /** startRanging: permission check, availability, background throttling, then queue and dispatch. */
  function StartRanging(s: State, uid: Uid, workSource: set<Uid>, peers: seq<Peer>,
                        permitted: bool, foreground: bool, env: Env): (t: State)
    ensures t.nextRequestId == s.nextRequestId + 1 && t.gap == s.gap && t.available == s.available
    ensures |s.callbacks| <= |t.callbacks| && t.callbacks[..|s.callbacks|] == s.callbacks
    ensures var admitted := permitted && s.available
                            && (foreground || MayExecute(s.ledger, AttributionOf(uid, workSource), env.now, s.gap));
      t.linked == s.linked + (if admitted then {s.nextRequestId} else {})
  {
    var id := s.nextRequestId;
    var billed := AttributionOf(uid, workSource);
    var s1 := s.(nextRequestId := id + 1);
    if !permitted then
      s1.(callbacks := s.callbacks + [Callback(id, OnFailure(CodeFail))])
    else if !s.available then
      s1.(callbacks := s.callbacks + [Callback(id, OnFailure(CodeFailRttNotAvailable))])
    else if !foreground && !MayExecute(s.ledger, billed, env.now, s.gap) then
      s1.(callbacks := s.callbacks + [Callback(id, OnFailure(CodeFail))])
    else
      Dispatch(s1.(queue := s.queue + [Request(id, uid, billed, peers)], linked := s.linked + {id}), env)
  }

  /** The executing request leaves the HAL: no active request, no timer, its death recipient unlinked. */
  function Retire(s: State): State
    requires s.active.Some?
  {
    s.(active := None, timerArmed := false, unlinked := s.unlinked + {s.active.value.request.id})
  }

  /**
   * onRangingResults: results for any command other than the executing one
   * are dropped. Otherwise the timeout is cancelled, permission is checked
   * again, and the caller gets the correlated results or STATUS_CODE_FAIL.
   */
  function OnRangingResults(s: State, cmdId: CommandId, raw: seq<RttResult>, permitted: bool, env: Env): (t: State)
    ensures s.active.None? || s.active.value.cmdId != cmdId ==> t == s
    ensures s.active.Some? && s.active.value.cmdId == cmdId ==>
      var a := s.active.value;
      && |t.callbacks| > |s.callbacks| && t.callbacks[..|s.callbacks|] == s.callbacks
      && t.callbacks[|s.callbacks|] ==
           Callback(a.request.id, if permitted then OnResults(Correlate(a.request.peers, a.halPeers, raw))
                                  else OnFailure(CodeFail))
      && a.request.id in t.unlinked && t.nextRequestId == s.nextRequestId
  {
    match s.active
    case None => s
    case Some(a) =>
      if a.cmdId != cmdId then s
      else
        var outcome := if permitted then OnResults(Correlate(a.request.peers, a.halPeers, raw))
                       else OnFailure(CodeFail);
        var w := Retire(s).(callbacks := s.callbacks + [Callback(a.request.id, outcome)],
                            effects := s.effects + [Alarm(CancelAlarm)]);
        var t := Dispatch(w, env);
        assert t.callbacks[..|s.callbacks|] == t.callbacks[..|w.callbacks|][..|s.callbacks|];
        assert t.callbacks[|s.callbacks|] == t.callbacks[..|w.callbacks|][|s.callbacks|];
        t
  }

  /** The timeout alarm fires: cancel the executing request on the HAL, fail it, go on with the next. */
  function OnTimeout(s: State, env: Env): (t: State)
    ensures s.active.None? ==> t == s
    ensures s.active.Some? ==>
      && |t.callbacks| > |s.callbacks| && t.callbacks[..|s.callbacks|] == s.callbacks
      && t.callbacks[|s.callbacks|] == Callback(s.active.value.request.id, OnFailure(CodeFail))
      && s.active.value.request.id in t.unlinked && t.nextRequestId == s.nextRequestId
  {
    match s.active
    case None => s
    case Some(a) =>
      var w := Retire(s).(halCalls := s.halCalls + [RangeCancel(a.cmdId, Macs(a.halPeers))],
                          callbacks := s.callbacks + [Callback(a.request.id, OnFailure(CodeFail))]);
      var t := Dispatch(w, env);
      assert t.callbacks[..|s.callbacks|] == t.callbacks[..|w.callbacks|][..|s.callbacks|];
      assert t.callbacks[|s.callbacks|] == t.callbacks[..|w.callbacks|][|s.callbacks|];
      t
  }

  /** Which requests a silent removal ends. */
  datatype Purge = Covered(cancelled: set<Uid>) | RequesterDied(uid: Uid)

  /** cancelRanging(C) ends a request billed to R exactly when R is a subset of C; a death ends the uid's requests. */
  predicate Purges(p: Purge, r: Request)
  {
    match p
    case Covered(c) => r.workSource <= c
    case RequesterDied(u) => r.uid == u
  }

  /** The requests of `q` that a purge keeps, in order. */
  function Kept(q: seq<Request>, p: Purge): (kept: seq<Request>)
    ensures forall r :: r in kept <==> r in q && !Purges(p, r)
  {
    if q == [] then []
    else
      var last := q[|q| - 1];
      assert q == q[..|q| - 1] + [last];
      Kept(q[..|q| - 1], p) + (if Purges(p, last) then [] else [last])
  }

  /** The ids of the requests of `q` that a purge ends. */
  function PurgedIds(q: seq<Request>, p: Purge): (ids: set<RequestId>)
    ensures forall id :: id in ids <==> exists r :: r in q && Purges(p, r) && r.id == id
  {
    if q == [] then {}
    else
      var last := q[|q| - 1];
      assert q == q[..|q| - 1] + [last];
      PurgedIds(q[..|q| - 1], p) + (if Purges(p, last) then {last.id} else {})
  }

  /**
   * Silent removal (cancelRanging or requester death): the covered requests
   * leave the queue with no callback. If the executing request is covered,
   * the timeout is cancelled, the HAL is told to cancel its MAC list, and the
   * next request is dispatched.
   */
  function SilentPurge(s: State, p: Purge, env: Env): (t: State)
    ensures forall r :: r in Pending(t) ==> r in Pending(s) && !Purges(p, r)
    ensures s.silentlyRemoved + PurgedIds(s.queue, p) <= t.silentlyRemoved
    ensures |s.callbacks| <= |t.callbacks| && t.callbacks[..|s.callbacks|] == s.callbacks
    ensures forall i :: |s.callbacks| <= i < |t.callbacks| ==> t.callbacks[i].outcome == OnFailure(CodeFail)
  {
    var kept := Kept(s.queue, p);
    var gone := PurgedIds(s.queue, p);
    match s.active
    case Some(a) =>
      if Purges(p, a.request) then
        Dispatch(Retire(s).(queue := kept,
                            silentlyRemoved := s.silentlyRemoved + gone + {a.request.id},
                            unlinked := s.unlinked + gone + {a.request.id},
                            halCalls := s.halCalls + [RangeCancel(a.cmdId, Macs(a.halPeers))],
                            effects := s.effects + [Alarm(CancelAlarm)]), env)
      else
        s.(queue := kept, silentlyRemoved := s.silentlyRemoved + gone, unlinked := s.unlinked + gone)
    case None =>
      s.(queue := kept, silentlyRemoved := s.silentlyRemoved + gone, unlinked := s.unlinked + gone)
  }

  function CancelRanging(s: State, cancelled: set<Uid>, env: Env): (t: State)
    ensures forall r :: r in Pending(t) ==> r in Pending(s) && !(r.workSource <= cancelled)
  {
    SilentPurge(s, Covered(cancelled), env)
  }

  function OnRequesterDeath(s: State, uid: Uid, env: Env): (t: State)
    ensures forall r :: r in Pending(t) ==> r in Pending(s) && r.uid != uid
  {
    SilentPurge(s, RequesterDied(uid), env)
  }

  /** The requests not yet terminated: the executing one first, then the queue. */
  function Pending(s: State): seq<Request>
  {
    match s.active
    case Some(a) => [a.request] + s.queue
    case None => s.queue
  }

  /** One failure callback per request, in order. */
  function Failures(reqs: seq<Request>, code: StatusCode): (cbs: seq<Callback>)
    ensures |cbs| == |reqs|
    ensures forall i :: 0 <= i < |reqs| ==> cbs[i] == Callback(reqs[i].id, OnFailure(code))
  {
    if reqs == [] then []
    else Failures(reqs[..|reqs| - 1], code) + [Callback(reqs[|reqs| - 1].id, OnFailure(code))]
  }

  /** The ids of a sequence of requests. */
  function IdsOf(q: seq<Request>): (ids: set<RequestId>)
    ensures forall r :: r in q ==> r.id in ids
    ensures forall id :: id in ids ==> exists r :: r in q && r.id == id
  {
    if q == [] then {}
    else
      var last := q[|q| - 1];
      assert q == q[..|q| - 1] + [last];
      IdsOf(q[..|q| - 1]) + {last.id}
  }

  /**
   * RTT becomes unavailable (Wi-Fi disabled or the device enters doze): every
   * pending request fails with STATUS_CODE_FAIL_RTT_NOT_AVAILABLE, the
   * executing one is cancelled on the HAL, the queue is emptied, the state
   * change is broadcast.
   */
  function Disable(s: State): (t: State)
    ensures !t.available && Pending(t) == [] && t.nextRequestId == s.nextRequestId
    ensures |t.callbacks| == |s.callbacks| + |Pending(s)| && t.callbacks[..|s.callbacks|] == s.callbacks
    ensures |t.effects| > |s.effects| && t.effects[|s.effects|] == StateChanged(false)
  {
    var pending := Pending(s);
    s.(available := false, queue := [], active := None, timerArmed := false,
       halCalls := s.halCalls + (match s.active case Some(a) => [RangeCancel(a.cmdId, Macs(a.halPeers))] case None => []),
       effects := s.effects + [StateChanged(false)] + (if s.active.Some? then [Alarm(CancelAlarm)] else []),
       callbacks := s.callbacks + Failures(pending, CodeFailRttNotAvailable),
       unlinked := s.unlinked + IdsOf(pending))
  }

  /** RTT becomes available again (Wi-Fi enabled or doze ends): broadcast; nothing is resumed. */
  function Enable(s: State): (t: State)
    ensures t.available && t.effects == s.effects + [StateChanged(true)]
    ensures Pending(t) == Pending(s) && t.callbacks == s.callbacks && t.halCalls == s.halCalls
  {
    s.(available := true, effects := s.effects + [StateChanged(true)])
  }

  /** Every external event the service handles. */
  datatype Event =
    | StartRangingCall(uid: Uid, workSource: set<Uid>, peers: seq<Peer>, permitted: bool, foreground: bool)
    | RangingResultsCall(cmdId: CommandId, raw: seq<RttResult>, permitted: bool)
    | TimeoutAlarm
    | CancelRangingCall(cancelled: set<Uid>)
    | RequesterDeath(uid: Uid)
    | DisableRtt
    | EnableRtt

  datatype Input = Input(event: Event, env: Env)

  function Step(s: State, input: Input): (t: State)
    ensures t.gap == s.gap && s.nextRequestId <= t.nextRequestId
    ensures |s.callbacks| <= |t.callbacks| && t.callbacks[..|s.callbacks|] == s.callbacks
  {
    var env := input.env;
    match input.event
    case StartRangingCall(uid, ws, peers, permitted, foreground) => StartRanging(s, uid, ws, peers, permitted, foreground, env)
    case RangingResultsCall(cmdId, raw, permitted) => OnRangingResults(s, cmdId, raw, permitted, env)
    case TimeoutAlarm => OnTimeout(s, env)
    case CancelRangingCall(cancelled) => CancelRanging(s, cancelled, env)
    case RequesterDeath(uid) => OnRequesterDeath(s, uid, env)
    case DisableRtt => Disable(s)
    case EnableRtt => Enable(s)
  }

  /** The state after a sequence of events, each run to completion in order. */
  function Run(s: State, inputs: seq<Input>): (t: State)
    ensures t.gap == s.gap && s.nextRequestId <= t.nextRequestId
    ensures |s.callbacks| <= |t.callbacks| && t.callbacks[..|s.callbacks|] == s.callbacks
    decreases |inputs|
  {
    if inputs == [] then s
    else
      var m := Step(s, inputs[0]);
      var t := Run(m, inputs[1..]);
      assert t.callbacks[..|s.callbacks|] == t.callbacks[..|m.callbacks|][..|s.callbacks|];
      t
  }

  // ---------------------------------------------------------------------------
  // The invariant

  /** The request ids of the rangeRequest calls, in call order. */
  function DispatchedIds(calls: seq<HalCall>): seq<RequestId>
  {
    if calls == [] then []
    else
      DispatchedIds(calls[..|calls| - 1]) +
      (match calls[|calls| - 1] case RangeRequest(_, id, _) => [id] case RangeCancel(_, _) => [])
  }

  /** The request ids the callback has been invoked for. */
  function NotifiedIds(cbs: seq<Callback>): (ids: set<RequestId>)
    ensures forall i :: 0 <= i < |cbs| ==> cbs[i].request in ids
    ensures forall id :: id in ids ==> exists i :: 0 <= i < |cbs| && cbs[i].request == id
  {
    if cbs == [] then {}
    else NotifiedIds(cbs[..|cbs| - 1]) + {cbs[|cbs| - 1].request}
  }

  function OutstandingIds(s: State): set<RequestId>
  {
    IdsOf(Pending(s))
  }

  /** The request ids handed out before `n`. */
  function Below(n: nat): (ids: set<nat>)
    ensures forall i: nat :: i in ids <==> i < n
  {
    if n == 0 then {} else Below(n - 1) + {n - 1}
  }

  ghost predicate Increasing(q: seq<Request>)
  {
    forall i, j :: 0 <= i < j < |q| ==> q[i].id < q[j].id
  }

  ghost predicate StrictlyIncreasing(xs: seq<nat>)
  {
    forall i, j :: 0 <= i < j < |xs| ==> xs[i] < xs[j]
  }

  ghost predicate DistinctCallbacks(cbs: seq<Callback>)
  {
    forall i, j :: 0 <= i < j < |cbs| ==> cbs[i].request != cbs[j].request
  }

  /** At most one request executes, the timer is armed exactly while one does, nothing waits while disabled. */
  ghost predicate SlotInvariant(s: State)
  {
    && s.timerArmed == s.active.Some?
    && (!s.available ==> s.queue == [] && s.active.None?)
    && (s.active.Some? ==> s.active.value.cmdId < s.nextCmdId)
  }

  /** Requests wait and reach the HAL in submission order, each at most once. */
  ghost predicate OrderInvariant(s: State)
  {
    && Increasing(Pending(s))
    && StrictlyIncreasing(DispatchedIds(s.halCalls))
    && (forall d, r :: d in DispatchedIds(s.halCalls) && r in s.queue ==> d < r.id)
    && (forall d :: d in DispatchedIds(s.halCalls) ==> d < s.nextRequestId)
  }

  /**
   * Every request ever made is exactly one of: pending, notified through its
   * callback exactly once, or silently removed.
   */
  ghost predicate OutcomeInvariant(s: State)
  {
    && DistinctCallbacks(s.callbacks)
    && OutstandingIds(s) !! NotifiedIds(s.callbacks)
    && OutstandingIds(s) !! s.silentlyRemoved
    && NotifiedIds(s.callbacks) !! s.silentlyRemoved
    && OutstandingIds(s) + NotifiedIds(s.callbacks) + s.silentlyRemoved == Below(s.nextRequestId)
  }

  /** The death recipients still linked are exactly those of the pending requests. */
  ghost predicate LinkInvariant(s: State)
  {
    && s.linked <= Below(s.nextRequestId)
    && s.unlinked !! OutstandingIds(s)
    && s.linked == s.unlinked + OutstandingIds(s)
  }

  /** What holds between the steps of an event (while the next request is being dispatched). */
  ghost predicate Core(s: State)
  {
    SlotInvariant(s) && OrderInvariant(s) && OutcomeInvariant(s) && LinkInvariant(s)
  }

  /** What holds after every event: also, the HAL is never idle while requests wait. */
  ghost predicate Inv(s: State)
  {
    Core(s) && (s.active.None? ==> s.queue == [])
  }

  /** Results for this command id would be dropped now and, by the lemma RunKeepsRetired, forever after. */
  ghost predicate Retired(s: State, cmdId: CommandId)
  {
    cmdId < s.nextCmdId && (s.active.Some? ==> s.active.value.cmdId != cmdId)
  }
}
