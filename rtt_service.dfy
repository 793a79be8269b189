/**
 * The RTT service as an object: the scheduler's state lives in fields that
 * every event updates in place. Each method is proved to leave the object in
 * the state that Scheduler's function for the same event computes from the
 * state before, and to keep the scheduler's invariant; the properties proved
 * of those functions therefore hold of the object.
 */
module RttService {
  import opened RttTypes
  import opened PeerTranslation
  import opened Throttle
  import opened Scheduler
  import opened SchedulerInvariant

  /**
   * Ask the Wi-Fi Aware service for the MACs of the peer handles a request
   * names, and build the peer list for the HAL from its answer.
   */
  method ResolvePeers(peers: seq<Peer>, awareMacs: map<PeerHandle, MacAddress>) returns (hal: seq<HalPeer>)
    ensures hal == Translate(peers, awareMacs)
  {
    var macOf := RequestMacAddresses(awareMacs, HandlesOf(peers));
    TranslateDependsOnRequestedHandles(peers, macOf, awareMacs);
    hal := Translate(peers, macOf);
  }

  /**
   * Split a queue under a purge: the requests it keeps, in order, and the
   * ids of those it ends.
   */
  method SplitQueue(q: seq<Request>, p: Purge) returns (kept: seq<Request>, gone: set<RequestId>)
    ensures kept == Kept(q, p) && gone == PurgedIds(q, p)
  {
    kept, gone := [], {};
    var i := 0;
    while i < |q|
      invariant 0 <= i <= |q|
      invariant kept == Kept(q[..i], p) && gone == PurgedIds(q[..i], p)
    {
      assert q[..i + 1][..i] == q[..i];
      if Purges(p, q[i]) {
        gone := gone + {q[i].id};
      } else {
        kept := kept + [q[i]];
      }
      i := i + 1;
    }
    assert q[..i] == q;
  }

  /** The failure callbacks for a list of requests, in order, and the ids whose death links they release. */
  method FailAll(pending: seq<Request>, code: StatusCode) returns (cbs: seq<Callback>, ids: set<RequestId>)
    ensures cbs == Failures(pending, code) && ids == IdsOf(pending)
  {
    cbs, ids := [], {};
    var i := 0;
    while i < |pending|
      invariant 0 <= i <= |pending|
      invariant cbs == Failures(pending[..i], code) && ids == IdsOf(pending[..i])
    {
      assert pending[..i + 1][..i] == pending[..i];
      cbs := cbs + [Callback(pending[i].id, OnFailure(code))];
      ids := ids + {pending[i].id};
      i := i + 1;
    }
    assert pending[..i] == pending;
  }

  /**
   * The service. Every event method keeps the scheduler's invariant Valid()
   * (it holds after the constructor, and after each event if it held before)
   * and leaves the fields as the scheduler's function for that event says.
   */
  class RttServiceImpl {
    const gap: nat                        // BACKGROUND_PROCESS_EXEC_GAP_MS
    var available: bool
    var queue: seq<Request>
    var active: Option<Active>
    var timerArmed: bool
    var nextCmdId: CommandId
    var nextRequestId: RequestId
    var ledger: Ledger
    var linked: set<RequestId>
    var unlinked: set<RequestId>
    ghost var silentlyRemoved: set<RequestId>
    var callbacks: seq<Callback>
    var halCalls: seq<HalCall>
    var effects: seq<Effect>

    /** The scheduler state the fields hold. */
    ghost function Abs(): State
      reads this
    {
      State(gap, available, queue, active, timerArmed, nextCmdId, nextRequestId, ledger,
            linked, unlinked, silentlyRemoved, callbacks, halCalls, effects)
    }

    ghost predicate Valid()
      reads this
    {
      Inv(Abs())
    }

    constructor (gap: nat)
      ensures Abs() == Initial(gap) && Valid()
    {
      this.gap := gap;
      available := true;
      queue, active, timerArmed := [], None, false;
      nextCmdId, nextRequestId := 0, 0;
      ledger := map[];
      linked, unlinked, silentlyRemoved := {}, {}, {};
      callbacks, halCalls, effects := [], [], [];
      new;
      InitialInv(gap);
    }

    method IsAvailable() returns (b: bool)
      requires Valid()
      ensures b <==> Abs().available
      ensures !b ==> Pending(Abs()) == []
    {
      b := available;
    }

    /**
     * Send the head of the queue to the HAL with a fresh command id and its
     * peer handles resolved through the Wi-Fi Aware service. If the HAL
     * accepts, the request executes: the timeout is armed and its uids are
     * stamped. If it rejects, the request fails with STATUS_CODE_FAIL.
     */
    method SendHead(env: Env)
      requires active.None? && queue != []
      modifies this
      ensures env.halAccepts(old(nextCmdId)) ==> Abs() == Accepted(old(Abs()), env)
      ensures !env.halAccepts(old(nextCmdId)) ==> Abs() == Rejected(old(Abs()), env)
    {
      var r := queue[0];
      var cmd := nextCmdId;
      var hal := ResolvePeers(r.peers, env.awareMacs);
      queue, nextCmdId, halCalls := queue[1..], cmd + 1, halCalls + [RangeRequest(cmd, r.id, hal)];
      if env.halAccepts(cmd) {
        Execute(r, cmd, hal, env.now);
      } else {
        Fail(r.id, CodeFail);
      }
    }

    /** The HAL accepted command cmd for r: r executes, the timeout is armed and r's uids are stamped at now. */
    method Execute(r: Request, cmd: CommandId, hal: seq<HalPeer>, now: int)
      modifies this
      ensures Abs() == old(Abs()).(active := Some(Active(r, cmd, hal)), timerArmed := true,
                                   ledger := Stamp(old(ledger), r.workSource, now),
                                   effects := old(effects) + [Alarm(SetExact)])
    {
      active, timerArmed, ledger, effects :=
        Some(Active(r, cmd, hal)), true, Stamp(ledger, r.workSource, now), effects + [Alarm(SetExact)];
    }

    /** Report a failure for request id and unlink its death recipient. */
    method Fail(id: RequestId, code: StatusCode)
      modifies this
      ensures Abs() == old(Abs()).(callbacks := old(callbacks) + [Callback(id, OnFailure(code))],
                                   unlinked := old(unlinked) + {id})
    {
      callbacks, unlinked := callbacks + [Callback(id, OnFailure(code))], unlinked + {id};
    }

    /** While the HAL is idle and requests wait, send the next one. */
    method ExecuteNextRangingRequestIfPossible(env: Env)
      modifies this
      ensures Abs() == Dispatch(old(Abs()), env)
    {
      while active.None? && queue != []
        invariant Dispatch(Abs(), env) == Dispatch(old(Abs()), env)
        decreases |queue|
      {
        ghost var s := Abs();
        SendHead(env);
        if env.halAccepts(s.nextCmdId) {
          DispatchAccepted(s, env);
        } else {
          DispatchRejected(s, env);
        }
      }
    }

    /**
     * startRanging: check the caller's permission, availability and, for a
     * background caller, the throttle; then link the caller's death
     * recipient, queue the request and execute it if the HAL is idle.
     */
    method StartRanging(uid: Uid, workSource: set<Uid>, peers: seq<Peer>,
                        permitted: bool, foreground: bool, env: Env) returns (id: RequestId)
      modifies this
      ensures old(Valid()) ==> Valid()
      ensures id == old(nextRequestId)
      ensures Abs() == Scheduler.StartRanging(old(Abs()), uid, workSource, peers, permitted, foreground, env)
    {
      ghost var s := Abs();
      id := nextRequestId;
      var billed := AttributionOf(uid, workSource);
      StartRangingCases(s, uid, workSource, peers, permitted, foreground, env);
      if !permitted {
        nextRequestId, callbacks := id + 1, callbacks + [Callback(id, OnFailure(CodeFail))];
        assert Abs() == Refused(s, CodeFail);
      } else if !available {
        nextRequestId, callbacks := id + 1, callbacks + [Callback(id, OnFailure(CodeFailRttNotAvailable))];
        assert Abs() == Refused(s, CodeFailRttNotAvailable);
      } else if !foreground && !MayExecute(ledger, billed, env.now, gap) {
        nextRequestId, callbacks := id + 1, callbacks + [Callback(id, OnFailure(CodeFail))];
        assert Abs() == Refused(s, CodeFail);
      } else {
        var r := Request(id, uid, billed, peers);
        nextRequestId, queue, linked := id + 1, queue + [r], linked + {id};
        assert Abs() == Enqueued(s, r);
        ExecuteNextRangingRequestIfPossible(env);
      }
      if Inv(s) {
        StartRangingKeepsInv(s, uid, workSource, peers, permitted, foreground, env);
      }
    }

    /** The executing request leaves the HAL: the timeout is disarmed and its death recipient unlinked. */
    method RetireActive()
      requires active.Some?
      modifies this
      ensures Abs() == Retire(old(Abs()))
    {
      active, timerArmed, unlinked := None, false, unlinked + {active.value.request.id};
    }

    /**
     * The HAL reports results: drop them unless they are for the executing
     * command; otherwise cancel the timeout, deliver the correlated results
     * (or STATUS_CODE_FAIL when the permission is gone), unlink the death
     * recipient and go on with the queue.
     */
    method OnRangingResults(cmdId: CommandId, raw: seq<RttResult>, permitted: bool, env: Env)
      modifies this
      ensures old(Valid()) ==> Valid()
      ensures Abs() == Scheduler.OnRangingResults(old(Abs()), cmdId, raw, permitted, env)
    {
      ghost var s := Abs();
      if active.None? || active.value.cmdId != cmdId {
        return;
      }
      var a := active.value;
      var outcome := if permitted then OnResults(Correlate(a.request.peers, a.halPeers, raw))
                     else OnFailure(CodeFail);
      RetireActive();
      effects, callbacks := effects + [Alarm(CancelAlarm)], callbacks + [Callback(a.request.id, outcome)];
      assert Abs() == Retire(s).(callbacks := s.callbacks + [Callback(a.request.id, outcome)],
                                 effects := s.effects + [Alarm(CancelAlarm)]);
      ExecuteNextRangingRequestIfPossible(env);
      if Inv(s) {
        OnRangingResultsKeepsInv(s, cmdId, raw, permitted, env);
      }
    }

    /** The timeout alarm fires: cancel the executing command on the HAL, fail it, go on with the queue. */
    method OnTimeout(env: Env)
      modifies this
      ensures old(Valid()) ==> Valid()
      ensures Abs() == Scheduler.OnTimeout(old(Abs()), env)
    {
      ghost var s := Abs();
      if active.None? {
        return;
      }
      var a := active.value;
      RetireActive();
      halCalls, callbacks := halCalls + [RangeCancel(a.cmdId, Macs(a.halPeers))], callbacks + [Callback(a.request.id, OnFailure(CodeFail))];
      assert Abs() == Retire(s).(halCalls := s.halCalls + [RangeCancel(a.cmdId, Macs(a.halPeers))],
                                 callbacks := s.callbacks + [Callback(a.request.id, OnFailure(CodeFail))]);
      ExecuteNextRangingRequestIfPossible(env);
      if Inv(s) {
        OnTimeoutKeepsInv(s, env);
      }
    }

    /** Remove, with no callback, the queued requests a purge covers; their death recipients are unlinked. */
    method RemoveQueued(p: Purge)
      modifies this
      ensures Abs() == PurgedQueued(old(Abs()), p)
    {
      var kept, gone := SplitQueue(queue, p);
      queue, silentlyRemoved, unlinked := kept, silentlyRemoved + gone, unlinked + gone;
    }

    /**
     * Remove the executing request with no callback: cancel it on the HAL
     * with its MAC list and cancel the timeout.
     */
    method Abandon()
      requires active.Some?
      modifies this
      ensures Abs() == Abandoned(old(Abs()))
    {
      var a := active.value;
      halCalls, effects, active, timerArmed, silentlyRemoved, unlinked :=
        halCalls + [RangeCancel(a.cmdId, Macs(a.halPeers))], effects + [Alarm(CancelAlarm)], None, false,
        silentlyRemoved + {a.request.id}, unlinked + {a.request.id};
    }

    /**
     * Remove the requests a purge covers, with no callback and their death
     * recipients unlinked; if that includes the executing one, abandon it and
     * go on with the queue.
     */
    method Purge(p: Purge, env: Env)
      modifies this
      ensures old(Valid()) ==> Valid()
      ensures Abs() == SilentPurge(old(Abs()), p, env)
    {
      ghost var s := Abs();
      SilentPurgeCases(s, p, env);
      RemoveQueued(p);
      if active.Some? && Purges(p, active.value.request) {
        PurgedActiveSteps(s, p);
        Abandon();
        ExecuteNextRangingRequestIfPossible(env);
      }
      if Inv(s) {
        SilentPurgeKeepsInv(s, p, env);
      }
    }

    /** cancelRanging: end, silently, every request billed only to cancelled uids. */
    method CancelRanging(cancelled: set<Uid>, env: Env)
      modifies this
      ensures old(Valid()) ==> Valid()
      ensures Abs() == Scheduler.CancelRanging(old(Abs()), cancelled, env)
    {
      Purge(Covered(cancelled), env);
    }

    /** The death recipient of a requester fires: end, silently, every request it made. */
    method OnRequesterDeath(uid: Uid, env: Env)
      modifies this
      ensures old(Valid()) ==> Valid()
      ensures Abs() == Scheduler.OnRequesterDeath(old(Abs()), uid, env)
    {
      Purge(RequesterDied(uid), env);
    }

    /** Record the cancellations, notices, failures and released links Disable computed. */
    method Record(cancels: seq<HalCall>, notices: seq<Effect>, failed: seq<Callback>, released: set<RequestId>)
      modifies this
      ensures Abs() == old(Abs()).(halCalls := old(halCalls) + cancels, effects := old(effects) + notices,
                                   callbacks := old(callbacks) + failed, unlinked := old(unlinked) + released)
    {
      halCalls, effects, callbacks, unlinked :=
        halCalls + cancels, effects + notices, callbacks + failed, unlinked + released;
    }

    /** Empty the scheduler and mark RTT unavailable. */
    method Clear()
      modifies this
      ensures Abs() == old(Abs()).(available := false, queue := [], active := None, timerArmed := false)
    {
      available, queue, active, timerArmed := false, [], None, false;
    }

    /**
     * Wi-Fi is disabled or the device enters doze: cancel the executing
     * command on the HAL, fail every pending request with
     * STATUS_CODE_FAIL_RTT_NOT_AVAILABLE, empty the queue, broadcast.
     */
    method Disable()
      modifies this
      ensures old(Valid()) ==> Valid()
      ensures Abs() == Scheduler.Disable(old(Abs()))
    {
      ghost var s := Abs();
      var pending := if active.Some? then [active.value.request] + queue else queue;
      // the state change is broadcast before the timeout is cancelled
      var cancels: seq<HalCall>, notices: seq<Effect> := [], [StateChanged(false)];
      if active.Some? {
        var a := active.value;
        cancels, notices := [RangeCancel(a.cmdId, Macs(a.halPeers))], notices + [Alarm(CancelAlarm)];
      }
      var failed, released := FailAll(pending, CodeFailRttNotAvailable);
      DisableSteps(s, pending, cancels, notices, failed, released);
      Record(cancels, notices, failed, released);
      Clear();
      assert Abs() == Scheduler.Disable(s);
      if Inv(s) {
        DisableKeepsInv(s);
      }
    }

    /** Wi-Fi is enabled or doze ends: broadcast; nothing is resumed. */
    method Enable()
      modifies this
      ensures old(Valid()) ==> Valid()
      ensures Abs() == Scheduler.Enable(old(Abs()))
    {
      ghost var s := Abs();
      available, effects := true, effects + [StateChanged(true)];
      if Inv(s) {
        EnableKeepsInv(s);
      }
    }
  }
}
