/**
 * What the unit test of the RTT service asserts about the scheduler, stated
 * as lemmas over Scheduler's state machine: one request on the hardware at a
 * time and in submission order, one terminal outcome per request, stale and
 * duplicate results dropped, hardware rejection, timeout, cancellation,
 * requester death, disable/enable and background throttling.
 */
module SchedulerProperties {
  import opened RttTypes
  import opened PeerTranslation
  import opened Throttle
  import opened Scheduler
  import opened SchedulerInvariant

  // ---------------------------------------------------------------------------
  // Whole runs

  /** The invariant holds after any sequence of events from the initial state. */
  lemma ReachableInv(gap: nat, inputs: seq<Input>)
    ensures Inv(Run(Initial(gap), inputs))
  {
    InitialInv(gap);
    RunKeepsInv(Initial(gap), inputs);
  }

  /**
   * After any run: at most one request is on the hardware, and the timeout
   * is armed exactly while one is; requests reach the hardware in
   * submission order, each at most once.
   */
  lemma SingleInFlightInOrder(gap: nat, inputs: seq<Input>)
    ensures var s := Run(Initial(gap), inputs);
      && s.timerArmed == s.active.Some?
      && (forall i, j :: 0 <= i < j < |DispatchedIds(s.halCalls)| ==>
            DispatchedIds(s.halCalls)[i] < DispatchedIds(s.halCalls)[j])
  {
    ReachableInv(gap, inputs);
  }

  /**
   * After any run, every request ever made is in exactly one of three
   * states: still pending, notified exactly once through its callback, or
   * silently removed.
   */
  lemma ExactlyOneOutcome(gap: nat, inputs: seq<Input>, id: RequestId)
    requires id < Run(Initial(gap), inputs).nextRequestId
    ensures var s := Run(Initial(gap), inputs);
      && (id in OutstandingIds(s) || id in NotifiedIds(s.callbacks) || id in s.silentlyRemoved)
      && !(id in OutstandingIds(s) && id in NotifiedIds(s.callbacks))
      && !(id in OutstandingIds(s) && id in s.silentlyRemoved)
      && !(id in NotifiedIds(s.callbacks) && id in s.silentlyRemoved)
      && (forall i, j :: 0 <= i < j < |s.callbacks| && s.callbacks[i].request == id ==> s.callbacks[j].request != id)
  {
    ReachableInv(gap, inputs);
    var s := Run(Initial(gap), inputs);
    assert id in Below(s.nextRequestId);
  }

  /**
   * Once nothing is pending (the state at the end of every test), every
   * death recipient that was linked has been unlinked, and every request has
   * been notified or silently removed.
   */
  lemma SettledWhenIdle(gap: nat, inputs: seq<Input>)
    requires Run(Initial(gap), inputs).active.None?
    ensures var s := Run(Initial(gap), inputs);
      && s.linked == s.unlinked
      && (forall id: RequestId :: id < s.nextRequestId <==> id in NotifiedIds(s.callbacks) + s.silentlyRemoved)
  {
    ReachableInv(gap, inputs);
    var s := Run(Initial(gap), inputs);
    assert Pending(s) == [];
    assert OutstandingIds(s) == {};
    forall id: RequestId ensures id < s.nextRequestId <==> id in NotifiedIds(s.callbacks) + s.silentlyRemoved {
      assert id < s.nextRequestId <==> id in Below(s.nextRequestId);
    }
  }

  // ---------------------------------------------------------------------------
  // What Dispatch adds to the logs

  /**
   * Dispatch only appends to the hardware and alarm logs; when the HAL was
   * idle with requests waiting, the first thing sent is the head of the
   * queue with the next command id and its peers translated.
   */
  lemma {:induction false} DispatchExtends(s: State, env: Env)
    ensures var t := Dispatch(s, env);
      && |s.halCalls| <= |t.halCalls| && t.halCalls[..|s.halCalls|] == s.halCalls
      && |s.effects| <= |t.effects| && t.effects[..|s.effects|] == s.effects
      && (s.active.None? && s.queue != [] ==>
            |t.halCalls| > |s.halCalls| &&
            t.halCalls[|s.halCalls|] ==
              RangeRequest(s.nextCmdId, s.queue[0].id, Translate(s.queue[0].peers, env.awareMacs)))
    decreases |s.queue|
  {
    if s.active.None? && s.queue != [] && !env.halAccepts(s.nextCmdId) {
      var u := Rejected(s, env);
      DispatchRejected(s, env);
      DispatchExtends(u, env);
      var t := Dispatch(u, env);
      assert t.halCalls[..|s.halCalls|] == t.halCalls[..|u.halCalls|][..|s.halCalls|];
      assert t.halCalls[|s.halCalls|] == t.halCalls[..|u.halCalls|][|s.halCalls|];
    }
  }

  /** An idle HAL that accepts the head of the queue starts executing it, arms the timeout and stamps its uids. */
  lemma DispatchArmsTimerOnAccept(s: State, env: Env)
    requires s.active.None? && s.queue != [] && env.halAccepts(s.nextCmdId)
    ensures var t := Dispatch(s, env);
      && t.active == Some(Active(s.queue[0], s.nextCmdId, Translate(s.queue[0].peers, env.awareMacs)))
      && t.timerArmed && t.effects == s.effects + [Alarm(SetExact)]
      && t.halCalls == s.halCalls + [RangeRequest(s.nextCmdId, s.queue[0].id, Translate(s.queue[0].peers, env.awareMacs))]
      && t.queue == s.queue[1..] && t.callbacks == s.callbacks
      && t.ledger == Stamp(s.ledger, s.queue[0].workSource, env.now)
  {
  }

  // ---------------------------------------------------------------------------
  // Stale and duplicate results

  /** Results for a retired command id change nothing at all. */
  lemma RetiredResultsIgnored(s: State, cmdId: CommandId, raw: seq<RttResult>, permitted: bool, env: Env)
    requires Retired(s, cmdId)
    ensures OnRangingResults(s, cmdId, raw, permitted, env) == s
  {
  }

  lemma DispatchKeepsRetired(s: State, env: Env, cmdId: CommandId)
    requires Retired(s, cmdId)
    ensures Retired(Dispatch(s, env), cmdId)
  {
  }

  /** A command id that has retired stays retired, whatever happens next. */
  lemma StepKeepsRetired(s: State, input: Input, cmdId: CommandId)
    requires Retired(s, cmdId)
    ensures Retired(Step(s, input), cmdId)
  {
    StepCases(s, input);
    var env := input.env;
    match input.event
    case StartRangingCall(uid, ws, peers, permitted, foreground) =>
      StartRangingCases(s, uid, ws, peers, permitted, foreground, env);
      var r := Request(s.nextRequestId, uid, AttributionOf(uid, ws), peers);
      DispatchKeepsRetired(Enqueued(s, r), env, cmdId);
    case RangingResultsCall(c, raw, permitted) =>
      if s.active.Some? && s.active.value.cmdId == c {
        var a := s.active.value;
        var outcome := if permitted then OnResults(Correlate(a.request.peers, a.halPeers, raw)) else OnFailure(CodeFail);
        DispatchKeepsRetired(Retire(s).(callbacks := s.callbacks + [Callback(a.request.id, outcome)],
                                        effects := s.effects + [Alarm(CancelAlarm)]), env, cmdId);
      }
    case TimeoutAlarm =>
      if s.active.Some? {
        var a := s.active.value;
        DispatchKeepsRetired(Retire(s).(halCalls := s.halCalls + [RangeCancel(a.cmdId, Macs(a.halPeers))],
                                        callbacks := s.callbacks + [Callback(a.request.id, OnFailure(CodeFail))]), env, cmdId);
      }
    case CancelRangingCall(cancelled) =>
      SilentPurgeCases(s, Covered(cancelled), env);
      if s.active.Some? {
        DispatchKeepsRetired(PurgedActive(s, Covered(cancelled)), env, cmdId);
      }
    case RequesterDeath(uid) =>
      SilentPurgeCases(s, RequesterDied(uid), env);
      if s.active.Some? {
        DispatchKeepsRetired(PurgedActive(s, RequesterDied(uid)), env, cmdId);
      }
    case DisableRtt =>
    case EnableRtt =>
  }

  lemma {:induction false} RunKeepsRetired(s: State, inputs: seq<Input>, cmdId: CommandId)
    requires Retired(s, cmdId)
    ensures Retired(Run(s, inputs), cmdId)
    decreases |inputs|
  {
    if inputs != [] {
      StepKeepsRetired(s, inputs[0], cmdId);
      RunKeepsRetired(Step(s, inputs[0]), inputs[1..], cmdId);
    }
  }

  /**
   * Results for the executing command are delivered once: the caller gets
   * the correlated results (or STATUS_CODE_FAIL if permission was revoked in
   * the meantime), the timeout is cancelled, and that command id retires, so
   * results for it delivered again at any later point change nothing.
   */
  lemma ResultsDeliveredOnce(s: State, cmdId: CommandId, raw: seq<RttResult>, permitted: bool, env: Env,
                             later: seq<Input>, raw2: seq<RttResult>, permitted2: bool, env2: Env)
    requires s.active.Some? && s.active.value.cmdId == cmdId && s.active.value.cmdId < s.nextCmdId
    ensures var a := s.active.value;
      var t := OnRangingResults(s, cmdId, raw, permitted, env);
      && |t.callbacks| > |s.callbacks|
      && t.callbacks[|s.callbacks|] == Callback(a.request.id,
           if permitted then OnResults(Correlate(a.request.peers, a.halPeers, raw)) else OnFailure(CodeFail))
      && |t.effects| > |s.effects| && t.effects[|s.effects|] == Alarm(CancelAlarm)
      && OnRangingResults(Run(t, later), cmdId, raw2, permitted2, env2) == Run(t, later)
  {
    var a := s.active.value;
    var outcome := if permitted then OnResults(Correlate(a.request.peers, a.halPeers, raw)) else OnFailure(CodeFail);
    var w := Retire(s).(callbacks := s.callbacks + [Callback(a.request.id, outcome)],
                        effects := s.effects + [Alarm(CancelAlarm)]);
    var t := Dispatch(w, env);
    DispatchExtends(w, env);
    assert t.effects[|s.effects|] == t.effects[..|w.effects|][|s.effects|];
    assert t.callbacks[|s.callbacks|] == t.callbacks[..|w.callbacks|][|s.callbacks|];
    DispatchKeepsRetired(w, env, cmdId);
    RunKeepsRetired(t, later, cmdId);
  }

  /** Results carrying any other command id than the executing one change nothing. */
  lemma UnexpectedResultIgnored(s: State, cmdId: CommandId, raw: seq<RttResult>, permitted: bool, env: Env)
    requires s.active.None? || s.active.value.cmdId != cmdId
    ensures OnRangingResults(s, cmdId, raw, permitted, env) == s
  {
  }

  // ---------------------------------------------------------------------------
  // startRanging

  /**
   * A request without the location permission, made while RTT is
   * unavailable, or from the background while all its uids are throttled
   * gets one failure callback (STATUS_CODE_FAIL_RTT_NOT_AVAILABLE when
   * unavailable, STATUS_CODE_FAIL otherwise) and nothing else happens: no
   * HAL call, no alarm, no death link, no change to the ledger.
   */
  lemma StartRangingRefused(s: State, uid: Uid, workSource: set<Uid>, peers: seq<Peer>,
                            permitted: bool, foreground: bool, env: Env)
    requires || !permitted || !s.available
             || (!foreground && !MayExecute(s.ledger, AttributionOf(uid, workSource), env.now, s.gap))
    ensures var t := StartRanging(s, uid, workSource, peers, permitted, foreground, env);
      && t.callbacks == s.callbacks + [Callback(s.nextRequestId,
           OnFailure(if permitted && !s.available then CodeFailRttNotAvailable else CodeFail))]
      && t.nextRequestId == s.nextRequestId + 1
      && Pending(t) == Pending(s) && t.halCalls == s.halCalls && t.effects == s.effects
      && t.linked == s.linked && t.ledger == s.ledger
  {
    StartRangingCases(s, uid, workSource, peers, permitted, foreground, env);
  }

  /**
   * An admitted request to an idle service goes to the HAL at once, with the
   * next command id and its peer handles translated to MACs; when the HAL
   * accepts, the timeout is armed and every uid the request is billed to is
   * stamped with the current time.
   */
  lemma StartRangingWhenIdle(s: State, uid: Uid, workSource: set<Uid>, peers: seq<Peer>,
                             foreground: bool, env: Env)
    requires Inv(s) && s.active.None? && s.available
    requires foreground || MayExecute(s.ledger, AttributionOf(uid, workSource), env.now, s.gap)
    requires env.halAccepts(s.nextCmdId)
    ensures var t := StartRanging(s, uid, workSource, peers, true, foreground, env);
      var r := Request(s.nextRequestId, uid, AttributionOf(uid, workSource), peers);
      && t.active == Some(Active(r, s.nextCmdId, Translate(peers, env.awareMacs)))
      && t.queue == [] && t.linked == s.linked + {r.id}
      && t.halCalls == s.halCalls + [RangeRequest(s.nextCmdId, r.id, Translate(peers, env.awareMacs))]
      && t.effects == s.effects + [Alarm(SetExact)] && t.callbacks == s.callbacks
      && t.ledger == Stamp(s.ledger, r.workSource, env.now)
  {
    StartRangingCases(s, uid, workSource, peers, true, foreground, env);
  }

  /** An admitted request while another executes waits at the tail of the queue; nothing is sent. */
  lemma StartRangingWhenBusy(s: State, uid: Uid, workSource: set<Uid>, peers: seq<Peer>,
                             foreground: bool, env: Env)
    requires s.active.Some? && s.available
    requires foreground || MayExecute(s.ledger, AttributionOf(uid, workSource), env.now, s.gap)
    ensures var t := StartRanging(s, uid, workSource, peers, true, foreground, env);
      && Pending(t) == Pending(s) + [Request(s.nextRequestId, uid, AttributionOf(uid, workSource), peers)]
      && t.halCalls == s.halCalls && t.effects == s.effects && t.callbacks == s.callbacks
      && t.linked == s.linked + {s.nextRequestId}
  {
    StartRangingCases(s, uid, workSource, peers, true, foreground, env);
  }

  /**
   * Background throttling decides admission to an idle service: a permitted
   * background request executes exactly when some uid it is billed to has
   * not executed within the last gap; a foreground request always executes.
   */
  lemma ThrottleDecidesAdmission(s: State, uid: Uid, workSource: set<Uid>, peers: seq<Peer>,
                                 foreground: bool, env: Env)
    requires Inv(s) && s.active.None? && s.available && env.halAccepts(s.nextCmdId)
    ensures var t := StartRanging(s, uid, workSource, peers, true, foreground, env);
      t.active.Some? <==> foreground || MayExecute(s.ledger, AttributionOf(uid, workSource), env.now, s.gap)
  {
    if foreground || MayExecute(s.ledger, AttributionOf(uid, workSource), env.now, s.gap) {
      StartRangingWhenIdle(s, uid, workSource, peers, foreground, env);
    } else {
      StartRangingRefused(s, uid, workSource, peers, true, foreground, env);
    }
  }

  /**
   * A permitted background request billed to a uid that has never executed
   * is admitted (its death recipient is linked) and, on an idle service whose
   * HAL accepts, starts executing at once.
   */
  lemma BackgroundNewUidAdmitted(s: State, uid: Uid, workSource: set<Uid>, peers: seq<Peer>, u: Uid, env: Env)
    requires Inv(s) && s.available
    requires u in AttributionOf(uid, workSource) && u !in s.ledger
    ensures var t := StartRanging(s, uid, workSource, peers, true, false, env);
      && t.linked == s.linked + {s.nextRequestId}
      && (s.active.None? && env.halAccepts(s.nextCmdId) ==>
            t.active.Some? && t.active.value.request.id == s.nextRequestId)
  {
    assert MayExecute(s.ledger, AttributionOf(uid, workSource), env.now, s.gap);
    if s.active.None? && env.halAccepts(s.nextCmdId) {
      StartRangingWhenIdle(s, uid, workSource, peers, false, env);
    }
  }

  /**
   * The HAL rejects an admitted request (rangeRequest returns false): the
   * caller gets STATUS_CODE_FAIL, no timeout is armed, and results that the
   * HAL later reports under the rejected command id are dropped.
   */
  lemma NativeRejection(s: State, uid: Uid, workSource: set<Uid>, peers: seq<Peer>, foreground: bool, env: Env,
                        later: seq<Input>, raw: seq<RttResult>, permitted: bool, env2: Env)
    requires Inv(s) && s.active.None? && s.available
    requires foreground || MayExecute(s.ledger, AttributionOf(uid, workSource), env.now, s.gap)
    requires !env.halAccepts(s.nextCmdId)
    ensures var t := StartRanging(s, uid, workSource, peers, true, foreground, env);
      && t.halCalls == s.halCalls + [RangeRequest(s.nextCmdId, s.nextRequestId, Translate(peers, env.awareMacs))]
      && t.callbacks == s.callbacks + [Callback(s.nextRequestId, OnFailure(CodeFail))]
      && t.effects == s.effects && t.active.None? && !t.timerArmed
      && OnRangingResults(Run(t, later), s.nextCmdId, raw, permitted, env2) == Run(t, later)
  {
    StartRangingCases(s, uid, workSource, peers, true, foreground, env);
    var t := StartRanging(s, uid, workSource, peers, true, foreground, env);
    assert Retired(t, s.nextCmdId);
    RunKeepsRetired(t, later, s.nextCmdId);
  }

  /** A rejected head of the queue fails with STATUS_CODE_FAIL and the next request is sent right after it. */
  lemma RejectedHeadSkipped(s: State, env: Env)
    requires s.active.None? && |s.queue| >= 2 && !env.halAccepts(s.nextCmdId)
    ensures var t := Dispatch(s, env);
      && |t.callbacks| > |s.callbacks| && t.callbacks[|s.callbacks|] == Callback(s.queue[0].id, OnFailure(CodeFail))
      && |t.halCalls| > |s.halCalls| + 1
      && t.halCalls[|s.halCalls|] == RangeRequest(s.nextCmdId, s.queue[0].id, Translate(s.queue[0].peers, env.awareMacs))
      && t.halCalls[|s.halCalls| + 1] ==
           RangeRequest(s.nextCmdId + 1, s.queue[1].id, Translate(s.queue[1].peers, env.awareMacs))
  {
    var u := Rejected(s, env);
    DispatchRejected(s, env);
    DispatchExtends(u, env);
    var t := Dispatch(u, env);
    assert t.halCalls[|s.halCalls|] == t.halCalls[..|u.halCalls|][|s.halCalls|];
    assert t.callbacks[|s.callbacks|] == t.callbacks[..|u.callbacks|][|s.callbacks|];
  }

  // ---------------------------------------------------------------------------
  // Results and timeout

  /**
   * After the results, the next queued request (if any) is sent to the HAL
   * straight away. When the HAL accepts it, or nothing waits, the logs grow
   * by exactly the calls below and nothing else.
   */
  lemma ResultsAdvanceQueue(s: State, cmdId: CommandId, raw: seq<RttResult>, permitted: bool, env: Env)
    requires s.active.Some? && s.active.value.cmdId == cmdId
    ensures var a := s.active.value;
      var t := OnRangingResults(s, cmdId, raw, permitted, env);
      var outcome := if permitted then OnResults(Correlate(a.request.peers, a.halPeers, raw)) else OnFailure(CodeFail);
      && (s.queue != [] ==>
            |t.halCalls| > |s.halCalls| &&
            t.halCalls[|s.halCalls|] == RangeRequest(s.nextCmdId, s.queue[0].id, Translate(s.queue[0].peers, env.awareMacs)))
      && (s.queue != [] && env.halAccepts(s.nextCmdId) ==>
            && t.halCalls == s.halCalls + [RangeRequest(s.nextCmdId, s.queue[0].id, Translate(s.queue[0].peers, env.awareMacs))]
            && t.callbacks == s.callbacks + [Callback(a.request.id, outcome)]
            && t.effects == s.effects + [Alarm(CancelAlarm), Alarm(SetExact)])
      && (s.queue == [] ==>
            && t.active.None? && t.halCalls == s.halCalls && t.ledger == s.ledger
            && t.callbacks == s.callbacks + [Callback(a.request.id, outcome)]
            && t.effects == s.effects + [Alarm(CancelAlarm)])
  {
    var a := s.active.value;
    var outcome := if permitted then OnResults(Correlate(a.request.peers, a.halPeers, raw)) else OnFailure(CodeFail);
    var w := Retire(s).(callbacks := s.callbacks + [Callback(a.request.id, outcome)],
                        effects := s.effects + [Alarm(CancelAlarm)]);
    DispatchExtends(w, env);
    if s.queue != [] && env.halAccepts(s.nextCmdId) {
      DispatchArmsTimerOnAccept(w, env);
    }
  }

  /** The whole of what the timeout adds to the HAL, alarm and callback logs, when the next request is accepted or none waits. */
  lemma TimeoutExactLogs(s: State, env: Env)
    requires s.active.Some?
    ensures var a := s.active.value;
      var t := OnTimeout(s, env);
      && (s.queue != [] && env.halAccepts(s.nextCmdId) ==>
            && t.effects == s.effects + [Alarm(SetExact)]
            && t.halCalls == s.halCalls + [RangeCancel(a.cmdId, Macs(a.halPeers)),
                                           RangeRequest(s.nextCmdId, s.queue[0].id, Translate(s.queue[0].peers, env.awareMacs))]
            && t.callbacks == s.callbacks + [Callback(a.request.id, OnFailure(CodeFail))])
      && (s.queue == [] ==>
            && t.active.None? && t.effects == s.effects
            && t.halCalls == s.halCalls + [RangeCancel(a.cmdId, Macs(a.halPeers))]
            && t.callbacks == s.callbacks + [Callback(a.request.id, OnFailure(CodeFail))])
  {
    var a := s.active.value;
    var w := Retire(s).(halCalls := s.halCalls + [RangeCancel(a.cmdId, Macs(a.halPeers))],
                        callbacks := s.callbacks + [Callback(a.request.id, OnFailure(CodeFail))]);
    if s.queue != [] && env.halAccepts(s.nextCmdId) {
      DispatchArmsTimerOnAccept(w, env);
    }
  }

  /**
   * The timeout fires: the HAL is told to cancel the executing command with
   * its MAC list, the caller gets STATUS_CODE_FAIL, the next queued request
   * is sent (and re-arms the timeout when accepted), and results that arrive
   * later for the timed-out command are dropped. When the HAL accepts the
   * next request, or nothing waits, no other HAL call or callback is made.
   */
  lemma TimeoutFailsAndAdvances(s: State, env: Env, later: seq<Input>, raw: seq<RttResult>, permitted: bool, env2: Env)
    requires Inv(s) && s.active.Some?
    ensures var a := s.active.value;
      var t := OnTimeout(s, env);
      && |t.halCalls| > |s.halCalls| && t.halCalls[|s.halCalls|] == RangeCancel(a.cmdId, Macs(a.halPeers))
      && |t.callbacks| > |s.callbacks| && t.callbacks[|s.callbacks|] == Callback(a.request.id, OnFailure(CodeFail))
      && (s.queue != [] ==>
            |t.halCalls| > |s.halCalls| + 1 &&
            t.halCalls[|s.halCalls| + 1] == RangeRequest(s.nextCmdId, s.queue[0].id, Translate(s.queue[0].peers, env.awareMacs)))
      && (s.queue != [] && env.halAccepts(s.nextCmdId) ==>
            && t.active.Some? && t.active.value.request == s.queue[0] && t.effects == s.effects + [Alarm(SetExact)]
            && t.halCalls == s.halCalls + [RangeCancel(a.cmdId, Macs(a.halPeers)),
                                           RangeRequest(s.nextCmdId, s.queue[0].id, Translate(s.queue[0].peers, env.awareMacs))]
            && t.callbacks == s.callbacks + [Callback(a.request.id, OnFailure(CodeFail))])
      && (s.queue == [] ==>
            && t.active.None? && t.effects == s.effects
            && t.halCalls == s.halCalls + [RangeCancel(a.cmdId, Macs(a.halPeers))]
            && t.callbacks == s.callbacks + [Callback(a.request.id, OnFailure(CodeFail))])
      && OnRangingResults(Run(t, later), a.cmdId, raw, permitted, env2) == Run(t, later)
  {
    var a := s.active.value;
    var w := Retire(s).(halCalls := s.halCalls + [RangeCancel(a.cmdId, Macs(a.halPeers))],
                        callbacks := s.callbacks + [Callback(a.request.id, OnFailure(CodeFail))]);
    var t := Dispatch(w, env);
    DispatchExtends(w, env);
    assert t.halCalls[|s.halCalls|] == t.halCalls[..|w.halCalls|][|s.halCalls|];
    assert t.callbacks[|s.callbacks|] == t.callbacks[..|w.callbacks|][|s.callbacks|];
    TimeoutExactLogs(s, env);
    DispatchKeepsRetired(w, env, a.cmdId);
    RunKeepsRetired(t, later, a.cmdId);
  }

  // ---------------------------------------------------------------------------
  // Cancellation and requester death

  /**
   * A silent removal ends a pending request exactly when it covers it: for
   * cancelRanging, when every uid the request is billed to is cancelled (a
   * strict subset of them is not enough); for a death, when the request came
   * from the dead uid.
   */
  lemma PurgeCoverage(s: State, p: Purge, env: Env, r: Request)
    requires Inv(s) && r in Pending(s)
    ensures r.id in SilentPurge(s, p, env).silentlyRemoved <==> Purges(p, r)
  {
    var t := SilentPurge(s, p, env);
    SilentPurgeCases(s, p, env);
    assert r.id in OutstandingIds(s);
    if Purges(p, r) {
      if r !in s.queue {
        assert r == s.active.value.request;
      }
    } else if r.id in t.silentlyRemoved {
      if r.id in PurgedIds(s.queue, p) {
        var r' :| r' in s.queue && Purges(p, r') && r'.id == r.id;
        assert r' in Pending(s);
        UniqueIds(Pending(s), r, r');
      } else {
        assert s.active.Some? && Purges(p, s.active.value.request) && r.id == s.active.value.request.id;
        assert s.active.value.request in Pending(s);
        UniqueIds(Pending(s), r, s.active.value.request);
      }
    }
  }

  /** The whole of what purging the executing request adds to the logs, when the next survivor is accepted or none survives. */
  lemma PurgeExactLogs(s: State, p: Purge, env: Env)
    requires s.active.Some? && Purges(p, s.active.value.request)
    ensures var a := s.active.value;
      var t := SilentPurge(s, p, env);
      var k := Kept(s.queue, p);
      && (k != [] && env.halAccepts(s.nextCmdId) ==>
            && t.halCalls == s.halCalls + [RangeCancel(a.cmdId, Macs(a.halPeers)),
                                           RangeRequest(s.nextCmdId, k[0].id, Translate(k[0].peers, env.awareMacs))]
            && t.effects == s.effects + [Alarm(CancelAlarm), Alarm(SetExact)]
            && t.callbacks == s.callbacks)
      && (k == [] ==>
            && t.halCalls == s.halCalls + [RangeCancel(a.cmdId, Macs(a.halPeers))]
            && t.effects == s.effects + [Alarm(CancelAlarm)]
            && t.callbacks == s.callbacks)
  {
    SilentPurgeCases(s, p, env);
    var w := PurgedActive(s, p);
    if w.queue != [] && env.halAccepts(s.nextCmdId) {
      DispatchArmsTimerOnAccept(w, env);
    }
  }

  /**
   * When the silent removal covers the executing request, the HAL is told
   * to cancel its command with its MAC list, the timeout is cancelled, the
   * caller is never called back for it, and later results for it are
   * dropped; when it does not, the executing request carries on untouched.
   * When the next surviving request is accepted by the HAL, or none
   * survives, nothing else reaches the HAL, the alarm manager or a callback.
   */
  lemma PurgeOfExecuting(s: State, p: Purge, env: Env, later: seq<Input>, raw: seq<RttResult>, permitted: bool, env2: Env)
    requires Inv(s) && s.active.Some?
    ensures var a := s.active.value;
      var t := SilentPurge(s, p, env);
      && (Purges(p, a.request) ==>
            && |t.halCalls| > |s.halCalls| && t.halCalls[|s.halCalls|] == RangeCancel(a.cmdId, Macs(a.halPeers))
            && |t.effects| > |s.effects| && t.effects[|s.effects|] == Alarm(CancelAlarm)
            && a.request.id !in NotifiedIds(t.callbacks)
            && OnRangingResults(Run(t, later), a.cmdId, raw, permitted, env2) == Run(t, later)
            && (var k := Kept(s.queue, p);
                && (k != [] && env.halAccepts(s.nextCmdId) ==>
                      && t.halCalls == s.halCalls + [RangeCancel(a.cmdId, Macs(a.halPeers)),
                                                     RangeRequest(s.nextCmdId, k[0].id, Translate(k[0].peers, env.awareMacs))]
                      && t.effects == s.effects + [Alarm(CancelAlarm), Alarm(SetExact)]
                      && t.callbacks == s.callbacks)
                && (k == [] ==>
                      && t.halCalls == s.halCalls + [RangeCancel(a.cmdId, Macs(a.halPeers))]
                      && t.effects == s.effects + [Alarm(CancelAlarm)]
                      && t.callbacks == s.callbacks)))
      && (!Purges(p, a.request) ==>
            t.active == s.active && t.halCalls == s.halCalls && t.effects == s.effects && t.callbacks == s.callbacks)
  {
    var a := s.active.value;
    SilentPurgeCases(s, p, env);
    if Purges(p, a.request) {
      var w := PurgedActive(s, p);
      var t := Dispatch(w, env);
      DispatchExtends(w, env);
      assert t.halCalls[|s.halCalls|] == t.halCalls[..|w.halCalls|][|s.halCalls|];
      assert t.effects[|s.effects|] == t.effects[..|w.effects|][|s.effects|];
      PurgeExactLogs(s, p, env);
      SilentPurgeKeepsInv(s, p, env);
      assert a.request.id in t.silentlyRemoved;
      DispatchKeepsRetired(w, env, a.cmdId);
      RunKeepsRetired(t, later, a.cmdId);
    }
  }

  // ---------------------------------------------------------------------------
  // Disable and enable

  /**
   * Disabling RTT (Wi-Fi off or doze) fails every pending request, in order,
   * with STATUS_CODE_FAIL_RTT_NOT_AVAILABLE, cancels the executing one on
   * the HAL together with its timeout, broadcasts the change (before the
   * timeout is cancelled), and releases every death link.
   */
  lemma DisableFailsAllPending(s: State)
    requires Inv(s)
    ensures var t := Disable(s);
      && !t.available && Pending(t) == []
      && |t.callbacks| == |s.callbacks| + |Pending(s)|
      && (forall i :: 0 <= i < |Pending(s)| ==>
            t.callbacks[|s.callbacks| + i] == Callback(Pending(s)[i].id, OnFailure(CodeFailRttNotAvailable)))
      && (s.active.Some? ==>
            && t.halCalls == s.halCalls + [RangeCancel(s.active.value.cmdId, Macs(s.active.value.halPeers))]
            && t.effects == s.effects + [StateChanged(false), Alarm(CancelAlarm)])
      && (s.active.None? ==> t.halCalls == s.halCalls && t.effects == s.effects + [StateChanged(false)])
      && t.linked == t.unlinked
      && Inv(t)
  {
    DisableFacts(s);
    DisableKeepsInv(s);
    var t := Disable(s);
    forall i | 0 <= i < |Pending(s)|
      ensures t.callbacks[|s.callbacks| + i] == Callback(Pending(s)[i].id, OnFailure(CodeFailRttNotAvailable))
    {
      assert t.callbacks[|s.callbacks| + i] == Failures(Pending(s), CodeFailRttNotAvailable)[i];
    }
  }

  /**
   * Enabling RTT again broadcasts the change and resumes nothing: after a
   * disable nothing is pending, so no HAL call, callback or alarm call follows.
   */
  lemma EnableResumesNothing(s: State)
    requires Inv(s) && !s.available
    ensures var t := Enable(s);
      && t.available && t.effects == s.effects + [StateChanged(true)]
      && Pending(t) == [] && t.halCalls == s.halCalls && t.callbacks == s.callbacks
      && Inv(t)
  {
    EnableKeepsInv(s);
  }
}
