/**
 * Every event keeps the scheduler invariant (Scheduler.Inv): one executing
 * request with the timer armed exactly while it runs, FIFO dispatch in
 * submission order, exactly one terminal outcome per request, and death
 * recipients linked exactly for the pending requests.
 */
module SchedulerInvariant {
  import opened RttTypes
  import opened PeerTranslation
  import opened Throttle
  import opened Scheduler

  // ---------------------------------------------------------------------------
  // Facts about the bookkeeping functions

  lemma {:induction false} IdsOfConcat(a: seq<Request>, b: seq<Request>)
    ensures IdsOf(a + b) == IdsOf(a) + IdsOf(b)
    decreases |b|
  {
    if b == [] {
      assert a + b == a;
    } else {
      var b' := b[..|b| - 1];
      assert (a + b)[..|a + b| - 1] == a + b';
      IdsOfConcat(a, b');
    }
  }

  lemma {:induction false} NotifiedConcat(a: seq<Callback>, b: seq<Callback>)
    ensures NotifiedIds(a + b) == NotifiedIds(a) + NotifiedIds(b)
    decreases |b|
  {
    if b == [] {
      assert a + b == a;
    } else {
      var b' := b[..|b| - 1];
      assert (a + b)[..|a + b| - 1] == a + b';
      NotifiedConcat(a, b');
    }
  }

  lemma DistinctConcat(a: seq<Callback>, b: seq<Callback>)
    requires DistinctCallbacks(a) && DistinctCallbacks(b)
    requires NotifiedIds(a) !! NotifiedIds(b)
    ensures DistinctCallbacks(a + b)
  {
    forall i, j | 0 <= i < j < |a + b|
      ensures (a + b)[i].request != (a + b)[j].request
    {
      if i < |a| <= j {
        assert a[i].request in NotifiedIds(a);
        assert b[j - |a|].request in NotifiedIds(b);
      }
    }
  }

  /** One more callback for a request not yet notified keeps every request notified at most once. */
  lemma NotifyOne(cbs: seq<Callback>, c: Callback)
    requires DistinctCallbacks(cbs) && c.request !in NotifiedIds(cbs)
    ensures DistinctCallbacks(cbs + [c])
    ensures NotifiedIds(cbs + [c]) == NotifiedIds(cbs) + {c.request}
  {
    assert (cbs + [c])[..|cbs|] == cbs;
    DistinctConcat(cbs, [c]);
  }

  lemma FailuresNotify(reqs: seq<Request>, code: StatusCode)
    requires Increasing(reqs)
    ensures DistinctCallbacks(Failures(reqs, code))
    ensures NotifiedIds(Failures(reqs, code)) == IdsOf(reqs)
  {
    var f := Failures(reqs, code);
    forall x | x in NotifiedIds(f) ensures x in IdsOf(reqs) {
      var i :| 0 <= i < |f| && f[i].request == x;
      assert reqs[i] in reqs;
    }
    forall x | x in IdsOf(reqs) ensures x in NotifiedIds(f) {
      var r :| r in reqs && r.id == x;
      var i :| 0 <= i < |reqs| && reqs[i] == r;
      assert f[i].request == x;
    }
  }

  lemma DispatchedAppend(calls: seq<HalCall>, c: HalCall)
    ensures DispatchedIds(calls + [c]) ==
      DispatchedIds(calls) + (match c case RangeRequest(_, id, _) => [id] case RangeCancel(_, _) => [])
  {
    assert (calls + [c])[..|calls|] == calls;
  }

  lemma IdsOfSingle(r: Request)
    ensures IdsOf([r]) == {r.id}
  {
    assert [r][..0] == [];
  }

  /** The head of an increasing queue precedes all the rest. */
  lemma IncreasingTail(q: seq<Request>)
    requires Increasing(q) && q != []
    ensures Increasing(q[1..])
    ensures forall r :: r in q[1..] ==> q[0].id < r.id
  {
    forall r | r in q[1..] ensures q[0].id < r.id {
      var k :| 0 <= k < |q[1..]| && q[1..][k] == r;
      assert q[k + 1] == r;
    }
  }

  lemma IdsOfTail(q: seq<Request>)
    requires Increasing(q) && q != []
    ensures q[0].id in IdsOf(q)
    ensures IdsOf(q[1..]) == IdsOf(q) - {q[0].id}
  {
    IncreasingTail(q);
    assert q == [q[0]] + q[1..];
    IdsOfConcat([q[0]], q[1..]);
    IdsOfSingle(q[0]);
  }

  /** Within an increasing queue a request is determined by its id. */
  lemma UniqueIds(q: seq<Request>, r1: Request, r2: Request)
    requires Increasing(q) && r1 in q && r2 in q && r1.id == r2.id
    ensures r1 == r2
  {
    var i :| 0 <= i < |q| && q[i] == r1;
    var j :| 0 <= j < |q| && q[j] == r2;
    assert q[i].id == q[j].id;
    assert i == j;
  }

  lemma AppendIncreasing(q: seq<Request>, x: Request)
    requires Increasing(q)
    requires forall r :: r in q ==> r.id < x.id
    ensures Increasing(q + [x])
  {
    forall i | 0 <= i < |q| ensures q[i].id < x.id {
      assert q[i] in q;
    }
  }

  lemma PrependIncreasing(x: Request, q: seq<Request>)
    requires Increasing(q)
    requires forall r :: r in q ==> x.id < r.id
    ensures Increasing([x] + q)
  {
    forall j | 0 <= j < |q| ensures x.id < q[j].id {
      assert q[j] in q;
    }
  }

  lemma AppendStrictlyIncreasing(d: seq<nat>, x: nat)
    requires StrictlyIncreasing(d)
    requires forall e :: e in d ==> e < x
    ensures StrictlyIncreasing(d + [x])
  {
    forall i | 0 <= i < |d| ensures d[i] < x {
      assert d[i] in d;
    }
  }

  /** A purge keeps the surviving requests in order. */
  lemma {:induction false} KeptIncreasing(q: seq<Request>, p: Purge)
    requires Increasing(q)
    ensures Increasing(Kept(q, p))
    decreases |q|
  {
    if q != [] {
      var init := q[..|q| - 1];
      var last := q[|q| - 1];
      assert Increasing(init);
      KeptIncreasing(init, p);
      if !Purges(p, last) {
        forall r | r in Kept(init, p) ensures r.id < last.id {
          var k :| 0 <= k < |init| && init[k] == r;
          assert q[k] == r;
        }
        AppendIncreasing(Kept(init, p), last);
      }
    }
  }

  lemma PurgedIdsOutstanding(q: seq<Request>, p: Purge)
    ensures PurgedIds(q, p) <= IdsOf(q)
  {
    forall x | x in PurgedIds(q, p) ensures x in IdsOf(q) {
      var r :| r in q && Purges(p, r) && r.id == x;
    }
  }

  lemma KeptIdsNotPurged(q: seq<Request>, p: Purge, x: RequestId)
    requires Increasing(q) && x in IdsOf(Kept(q, p))
    ensures x in IdsOf(q) && x !in PurgedIds(q, p)
  {
    var r :| r in Kept(q, p) && r.id == x;
    if x in PurgedIds(q, p) {
      var r' :| r' in q && Purges(p, r') && r'.id == x;
      UniqueIds(q, r, r');
    }
  }

  lemma UnpurgedIdsKept(q: seq<Request>, p: Purge, x: RequestId)
    requires x in IdsOf(q) && x !in PurgedIds(q, p)
    ensures x in IdsOf(Kept(q, p))
  {
    var r :| r in q && r.id == x;
    assert r in Kept(q, p);
  }

  /** A purge ends exactly the ids it names and keeps the others outstanding. */
  lemma KeptIds(q: seq<Request>, p: Purge)
    requires Increasing(q)
    ensures PurgedIds(q, p) <= IdsOf(q)
    ensures IdsOf(Kept(q, p)) == IdsOf(q) - PurgedIds(q, p)
  {
    PurgedIdsOutstanding(q, p);
    forall x | x in IdsOf(Kept(q, p)) ensures x in IdsOf(q) - PurgedIds(q, p) {
      KeptIdsNotPurged(q, p, x);
    }
    forall x | x in IdsOf(q) - PurgedIds(q, p) ensures x in IdsOf(Kept(q, p)) {
      UnpurgedIdsKept(q, p, x);
    }
  }

  // ---------------------------------------------------------------------------
  // The ways an event moves request ids between outstanding, notified and
  // silently removed

  /** Outstanding, notified and silently removed ids split the ids handed out. */
  ghost predicate Partitioned(o: set<RequestId>, n: set<RequestId>, g: set<RequestId>, all: set<RequestId>)
  {
    o !! n && o !! g && n !! g && o + n + g == all
  }

  lemma PartitionNotify(o: set<RequestId>, n: set<RequestId>, g: set<RequestId>, all: set<RequestId>, x: RequestId)
    requires Partitioned(o, n, g, all) && x in o
    ensures Partitioned(o - {x}, n + {x}, g, all)
  {
  }

  lemma PartitionPurge(o: set<RequestId>, n: set<RequestId>, g: set<RequestId>, all: set<RequestId>, m: set<RequestId>)
    requires Partitioned(o, n, g, all) && m <= o
    ensures Partitioned(o - m, n, g + m, all)
  {
  }

  lemma PartitionNotifyAll(o: set<RequestId>, n: set<RequestId>, g: set<RequestId>, all: set<RequestId>)
    requires Partitioned(o, n, g, all)
    ensures Partitioned({}, n + o, g, all)
  {
  }

  lemma PartitionAdmit(o: set<RequestId>, n: set<RequestId>, g: set<RequestId>, all: set<RequestId>, x: RequestId)
    requires Partitioned(o, n, g, all) && x !in all
    ensures Partitioned(o + {x}, n, g, all + {x})
  {
  }

  lemma PartitionRefuse(o: set<RequestId>, n: set<RequestId>, g: set<RequestId>, all: set<RequestId>, x: RequestId)
    requires Partitioned(o, n, g, all) && x !in all
    ensures Partitioned(o, n + {x}, g, all + {x})
  {
  }

  lemma BelowSucc(n: nat)
    ensures n !in Below(n)
    ensures Below(n + 1) == Below(n) + {n}
  {
  }

  /** One outstanding request is notified and its recipient unlinked. */
  lemma NotifyKeepsAccounts(s: State, u: State, c: Callback)
    requires OutcomeInvariant(s) && LinkInvariant(s)
    requires c.request in OutstandingIds(s)
    requires OutstandingIds(u) == OutstandingIds(s) - {c.request}
    requires u.callbacks == s.callbacks + [c] && u.silentlyRemoved == s.silentlyRemoved
    requires u.nextRequestId == s.nextRequestId && u.linked == s.linked
    requires u.unlinked == s.unlinked + {c.request}
    ensures OutcomeInvariant(u) && LinkInvariant(u)
  {
    NotifyOne(s.callbacks, c);
    PartitionNotify(OutstandingIds(s), NotifiedIds(s.callbacks), s.silentlyRemoved, Below(s.nextRequestId), c.request);
  }

  /** Some outstanding requests end silently and their recipients are unlinked. */
  lemma PurgeKeepsAccounts(s: State, u: State, g: set<RequestId>)
    requires OutcomeInvariant(s) && LinkInvariant(s)
    requires g <= OutstandingIds(s)
    requires OutstandingIds(u) == OutstandingIds(s) - g
    requires u.callbacks == s.callbacks && u.silentlyRemoved == s.silentlyRemoved + g
    requires u.nextRequestId == s.nextRequestId && u.linked == s.linked
    requires u.unlinked == s.unlinked + g
    ensures OutcomeInvariant(u) && LinkInvariant(u)
  {
    PartitionPurge(OutstandingIds(s), NotifiedIds(s.callbacks), s.silentlyRemoved, Below(s.nextRequestId), g);
  }

  /** Every pending request is failed, in order, and every recipient unlinked. */
  lemma FailAllKeepsAccounts(s: State, u: State, code: StatusCode)
    requires OutcomeInvariant(s) && LinkInvariant(s) && Increasing(Pending(s))
    requires OutstandingIds(u) == {}
    requires u.callbacks == s.callbacks + Failures(Pending(s), code)
    requires u.silentlyRemoved == s.silentlyRemoved
    requires u.nextRequestId == s.nextRequestId && u.linked == s.linked
    requires u.unlinked == s.unlinked + OutstandingIds(s)
    ensures OutcomeInvariant(u) && LinkInvariant(u)
  {
    var f := Failures(Pending(s), code);
    FailuresNotify(Pending(s), code);
    NotifiedConcat(s.callbacks, f);
    DistinctConcat(s.callbacks, f);
    PartitionNotifyAll(OutstandingIds(s), NotifiedIds(s.callbacks), s.silentlyRemoved, Below(s.nextRequestId));
  }

  /** A new request is admitted: its id becomes outstanding and its recipient linked. */
  lemma AdmitKeepsAccounts(s: State, u: State)
    requires OutcomeInvariant(s) && LinkInvariant(s)
    requires OutstandingIds(u) == OutstandingIds(s) + {s.nextRequestId}
    requires u.callbacks == s.callbacks && u.silentlyRemoved == s.silentlyRemoved
    requires u.nextRequestId == s.nextRequestId + 1 && u.linked == s.linked + {s.nextRequestId}
    requires u.unlinked == s.unlinked
    ensures OutcomeInvariant(u) && LinkInvariant(u)
  {
    BelowSucc(s.nextRequestId);
    PartitionAdmit(OutstandingIds(s), NotifiedIds(s.callbacks), s.silentlyRemoved, Below(s.nextRequestId), s.nextRequestId);
  }

  /** A new request is refused at once: its id is notified and never linked. */
  lemma RefuseKeepsAccounts(s: State, u: State, c: Callback)
    requires OutcomeInvariant(s) && LinkInvariant(s)
    requires c.request == s.nextRequestId
    requires OutstandingIds(u) == OutstandingIds(s)
    requires u.callbacks == s.callbacks + [c] && u.silentlyRemoved == s.silentlyRemoved
    requires u.nextRequestId == s.nextRequestId + 1 && u.linked == s.linked
    requires u.unlinked == s.unlinked
    ensures OutcomeInvariant(u) && LinkInvariant(u)
  {
    BelowSucc(s.nextRequestId);
    NotifyOne(s.callbacks, c);
    PartitionRefuse(OutstandingIds(s), NotifiedIds(s.callbacks), s.silentlyRemoved, Below(s.nextRequestId), c.request);
  }

  lemma HeadBelow(s: State)
    requires OutcomeInvariant(s)
    requires s.active.None? && s.queue != []
    ensures s.queue[0].id < s.nextRequestId
  {
    assert Pending(s) == s.queue;
    assert s.queue[0] in Pending(s);
    assert s.queue[0].id in OutstandingIds(s);
  }

  // ---------------------------------------------------------------------------
  // Dispatch

  /** Sending the head of the queue to the HAL keeps the HAL's requests in submission order. */
  lemma SendKeepsOrder(s: State, cmd: CommandId, hal: seq<HalPeer>)
    requires OrderInvariant(s) && OutcomeInvariant(s)
    requires s.active.None? && s.queue != []
    ensures var calls := s.halCalls + [RangeRequest(cmd, s.queue[0].id, hal)];
      && StrictlyIncreasing(DispatchedIds(calls))
      && (forall d, r :: d in DispatchedIds(calls) && r in s.queue[1..] ==> d < r.id)
      && (forall d :: d in DispatchedIds(calls) ==> d < s.nextRequestId)
  {
    var q := s.queue;
    var h := q[0];
    var calls := s.halCalls + [RangeRequest(cmd, h.id, hal)];
    assert Pending(s) == q;
    IncreasingTail(q);
    HeadBelow(s);
    DispatchedAppend(s.halCalls, RangeRequest(cmd, h.id, hal));
    AppendStrictlyIncreasing(DispatchedIds(s.halCalls), h.id);
    forall d, r | d in DispatchedIds(calls) && r in q[1..] ensures d < r.id {
      assert r in q;
      if d != h.id {
        assert d in DispatchedIds(s.halCalls);
      }
    }
  }

  /** Taking the head off the queue while nothing executes makes exactly its id no longer outstanding. */
  lemma PopIds(s: State, u: State)
    requires s.active.None? && u.active.None? && s.queue != [] && u.queue == s.queue[1..]
    requires Increasing(Pending(s))
    ensures Increasing(Pending(u))
    ensures s.queue[0].id in OutstandingIds(s)
    ensures OutstandingIds(u) == OutstandingIds(s) - {s.queue[0].id}
  {
    IncreasingTail(s.queue);
    IdsOfTail(s.queue);
  }

  /**
   * The state a HAL rejection of the head of the queue leads to, before the
   * next request is tried: Dispatch's rejecting branch, written out for the
   * proofs (DispatchRejected states that Dispatch takes it).
   */
  function Rejected(s: State, env: Env): State
    requires s.active.None? && s.queue != []
  {
    var r := s.queue[0];
    var cmd := s.nextCmdId;
    s.(queue := s.queue[1..], nextCmdId := cmd + 1,
       halCalls := s.halCalls + [RangeRequest(cmd, r.id, Translate(r.peers, env.awareMacs))],
       callbacks := s.callbacks + [Callback(r.id, OnFailure(CodeFail))],
       unlinked := s.unlinked + {r.id})
  }

  /** A rejected head of the queue is failed once and its recipient unlinked: the invariant holds for the rest. */
  lemma RejectKeepsCore(s: State, env: Env)
    requires Core(s) && s.active.None? && s.queue != []
    ensures Core(Rejected(s, env))
  {
    var u := Rejected(s, env);
    var r := s.queue[0];
    PopIds(s, u);
    NotifyKeepsAccounts(s, u, Callback(r.id, OnFailure(CodeFail)));
    SendKeepsOrder(s, s.nextCmdId, Translate(r.peers, env.awareMacs));
  }

  /** Moving the head of the queue onto the HAL leaves the pending requests as they were. */
  lemma ActivatePending(s: State, u: State)
    requires s.active.None? && s.queue != []
    requires u.active.Some? && u.active.value.request == s.queue[0] && u.queue == s.queue[1..]
    ensures Pending(u) == Pending(s)
  {
  }

  /** An accepted head of the queue becomes the executing request with the timer armed. */
  lemma AcceptKeepsInv(s: State, env: Env)
    requires Core(s) && s.active.None? && s.queue != [] && env.halAccepts(s.nextCmdId)
    ensures Inv(Dispatch(s, env))
  {
    var u := Dispatch(s, env);
    ActivatePending(s, u);
    SendKeepsOrder(s, s.nextCmdId, Translate(s.queue[0].peers, env.awareMacs));
  }

  /**
   * The state a HAL acceptance of the head of the queue leads to, that
   * request executing: Dispatch's accepting branch, written out for the
   * proofs (DispatchAccepted states that Dispatch takes it).
   */
  function Accepted(s: State, env: Env): State
    requires s.active.None? && s.queue != []
  {
    var r := s.queue[0];
    var cmd := s.nextCmdId;
    var hal := Translate(r.peers, env.awareMacs);
    s.(queue := s.queue[1..], nextCmdId := cmd + 1, halCalls := s.halCalls + [RangeRequest(cmd, r.id, hal)],
       active := Some(Active(r, cmd, hal)), timerArmed := true,
       ledger := Stamp(s.ledger, r.workSource, env.now), effects := s.effects + [Alarm(SetExact)])
  }

  lemma DispatchAccepted(s: State, env: Env)
    requires s.active.None? && s.queue != [] && env.halAccepts(s.nextCmdId)
    ensures Dispatch(s, env) == Accepted(s, env)
  {
  }

  lemma DispatchRejected(s: State, env: Env)
    requires s.active.None? && s.queue != [] && !env.halAccepts(s.nextCmdId)
    ensures Dispatch(s, env) == Dispatch(Rejected(s, env), env)
  {
  }

  /** Dispatching from any consistent state leaves the HAL busy or the queue empty, with the invariant intact. */
  lemma {:induction false} DispatchKeepsInvariant(s: State, env: Env)
    requires Core(s)
    ensures Inv(Dispatch(s, env))
    decreases |s.queue|
  {
    if s.active.None? && s.queue != [] {
      if env.halAccepts(s.nextCmdId) {
        AcceptKeepsInv(s, env);
      } else {
        RejectKeepsCore(s, env);
        DispatchRejected(s, env);
        DispatchKeepsInvariant(Rejected(s, env), env);
      }
    }
  }

  // ---------------------------------------------------------------------------
  // Events

  lemma SamePending(s: State, u: State)
    requires u.active == s.active && u.queue == s.queue
    ensures Pending(u) == Pending(s)
  {
  }

  /** Removing the first pending request makes exactly its id no longer outstanding. */
  lemma DropHead(s: State, w: State)
    requires Pending(s) != [] && Pending(w) == Pending(s)[1..] && Increasing(Pending(s))
    ensures Increasing(Pending(w))
    ensures Pending(s)[0].id in OutstandingIds(s)
    ensures OutstandingIds(w) == OutstandingIds(s) - {Pending(s)[0].id}
  {
    IncreasingTail(Pending(s));
    IdsOfTail(Pending(s));
  }

  lemma InitialInv(gap: nat)
    ensures Inv(Initial(gap))
  {
    var s := Initial(gap);
    assert Below(0) == {};
    assert OutstandingIds(s) == {};
    assert NotifiedIds(s.callbacks) == {};
  }

  // startRanging

  /** The state after a request is refused at admission with `code`. */
  function Refused(s: State, code: StatusCode): State
  {
    s.(nextRequestId := s.nextRequestId + 1,
       callbacks := s.callbacks + [Callback(s.nextRequestId, OnFailure(code))])
  }

  /** The state after request `r` is admitted, before it is dispatched. */
  function Enqueued(s: State, r: Request): State
  {
    s.(nextRequestId := r.id + 1, queue := s.queue + [r], linked := s.linked + {r.id})
  }

  lemma StartRangingCases(s: State, uid: Uid, workSource: set<Uid>, peers: seq<Peer>,
                          permitted: bool, foreground: bool, env: Env)
    ensures var t := StartRanging(s, uid, workSource, peers, permitted, foreground, env);
      var billed := AttributionOf(uid, workSource);
      if !permitted then t == Refused(s, CodeFail)
      else if !s.available then t == Refused(s, CodeFailRttNotAvailable)
      else if !foreground && !MayExecute(s.ledger, billed, env.now, s.gap) then t == Refused(s, CodeFail)
      else t == Dispatch(Enqueued(s, Request(s.nextRequestId, uid, billed, peers)), env)
  {
  }

  lemma RefuseKeepsInv(s: State, code: StatusCode)
    requires Inv(s)
    ensures Inv(Refused(s, code))
  {
    var u := Refused(s, code);
    SamePending(s, u);
    RefuseKeepsAccounts(s, u, Callback(s.nextRequestId, OnFailure(code)));
  }

  lemma EnqueuePending(s: State, r: Request)
    ensures Pending(Enqueued(s, r)) == Pending(s) + [r]
  {
    if s.active.Some? {
      assert [s.active.value.request] + (s.queue + [r]) == ([s.active.value.request] + s.queue) + [r];
    }
  }

  lemma EnqueueIds(s: State, r: Request)
    requires Increasing(Pending(s)) && OutcomeInvariant(s) && r.id == s.nextRequestId
    ensures Increasing(Pending(Enqueued(s, r)))
    ensures OutstandingIds(Enqueued(s, r)) == OutstandingIds(s) + {r.id}
  {
    EnqueuePending(s, r);
    forall x | x in Pending(s) ensures x.id < r.id {
      assert x.id in OutstandingIds(s);
    }
    AppendIncreasing(Pending(s), r);
    IdsOfConcat(Pending(s), [r]);
    IdsOfSingle(r);
  }

  lemma EnqueueKeepsOrder(s: State, r: Request)
    requires OrderInvariant(s) && OutcomeInvariant(s) && r.id == s.nextRequestId
    ensures OrderInvariant(Enqueued(s, r))
  {
    var w := Enqueued(s, r);
    EnqueueIds(s, r);
    forall d, x | d in DispatchedIds(w.halCalls) && x in w.queue ensures d < x.id {
      if x != r {
        assert x in s.queue;
      }
    }
  }

  /** An admitted request joins the back of the queue with the next id. */
  lemma EnqueueKeepsCore(s: State, r: Request)
    requires Inv(s) && s.available && r.id == s.nextRequestId
    ensures Core(Enqueued(s, r))
  {
    EnqueueKeepsOrder(s, r);
    EnqueueIds(s, r);
    AdmitKeepsAccounts(s, Enqueued(s, r));
  }

  lemma StartRangingKeepsInv(s: State, uid: Uid, workSource: set<Uid>, peers: seq<Peer>,
                             permitted: bool, foreground: bool, env: Env)
    requires Inv(s)
    ensures Inv(StartRanging(s, uid, workSource, peers, permitted, foreground, env))
  {
    StartRangingCases(s, uid, workSource, peers, permitted, foreground, env);
    var billed := AttributionOf(uid, workSource);
    if !permitted || !s.available || (!foreground && !MayExecute(s.ledger, billed, env.now, s.gap)) {
      RefuseKeepsInv(s, if permitted && !s.available then CodeFailRttNotAvailable else CodeFail);
    } else {
      var r := Request(s.nextRequestId, uid, billed, peers);
      EnqueueKeepsCore(s, r);
      DispatchKeepsInvariant(Enqueued(s, r), env);
    }
  }

  // Results and timeout

  /** The executing request leaves the HAL with one callback: the invariant holds before the next dispatch. */
  lemma FinishKeepsCore(s: State, w: State, c: Callback)
    requires Inv(s) && s.active.Some? && c.request == s.active.value.request.id
    requires w == Retire(s).(callbacks := s.callbacks + [c], halCalls := w.halCalls, effects := w.effects)
    requires DispatchedIds(w.halCalls) == DispatchedIds(s.halCalls)
    ensures Core(w)
  {
    DropHead(s, w);
    NotifyKeepsAccounts(s, w, c);
  }

  lemma OnRangingResultsKeepsInv(s: State, cmdId: CommandId, raw: seq<RttResult>, permitted: bool, env: Env)
    requires Inv(s)
    ensures Inv(OnRangingResults(s, cmdId, raw, permitted, env))
  {
    if s.active.Some? && s.active.value.cmdId == cmdId {
      var a := s.active.value;
      var outcome := if permitted then OnResults(Correlate(a.request.peers, a.halPeers, raw))
                     else OnFailure(CodeFail);
      var c := Callback(a.request.id, outcome);
      var w := Retire(s).(callbacks := s.callbacks + [c], effects := s.effects + [Alarm(CancelAlarm)]);
      FinishKeepsCore(s, w, c);
      DispatchKeepsInvariant(w, env);
    }
  }

  lemma OnTimeoutKeepsInv(s: State, env: Env)
    requires Inv(s)
    ensures Inv(OnTimeout(s, env))
  {
    if s.active.Some? {
      var a := s.active.value;
      var c := Callback(a.request.id, OnFailure(CodeFail));
      var cancel := RangeCancel(a.cmdId, Macs(a.halPeers));
      var w := Retire(s).(halCalls := s.halCalls + [cancel], callbacks := s.callbacks + [c]);
      DispatchedAppend(s.halCalls, cancel);
      FinishKeepsCore(s, w, c);
      DispatchKeepsInvariant(w, env);
    }
  }

  // Cancellation and requester death

  /**
   * The state after a purge that covers the executing request, before the
   * next dispatch: SilentPurge's first branch without its Dispatch
   * (SilentPurgeCases states that SilentPurge takes it).
   */
  function PurgedActive(s: State, p: Purge): State
    requires s.active.Some?
  {
    var a := s.active.value;
    var gone := PurgedIds(s.queue, p);
    Retire(s).(queue := Kept(s.queue, p),
               silentlyRemoved := s.silentlyRemoved + gone + {a.request.id},
               unlinked := s.unlinked + gone + {a.request.id},
               halCalls := s.halCalls + [RangeCancel(a.cmdId, Macs(a.halPeers))],
               effects := s.effects + [Alarm(CancelAlarm)])
  }

  /**
   * The state after a purge that leaves the executing request, if any,
   * alone: SilentPurge's other branches (SilentPurgeCases states this).
   */
  function PurgedQueued(s: State, p: Purge): State
  {
    var gone := PurgedIds(s.queue, p);
    s.(queue := Kept(s.queue, p), silentlyRemoved := s.silentlyRemoved + gone, unlinked := s.unlinked + gone)
  }

  /**
   * The executing request removed silently, cancelled on the HAL with its
   * timeout and its death recipient unlinked: the part of SilentPurge's
   * first branch that concerns the executing request, split off for the
   * service's Purge (PurgedActiveSteps relates the two).
   */
  function Abandoned(s: State): State
    requires s.active.Some?
  {
    var a := s.active.value;
    Retire(s).(silentlyRemoved := s.silentlyRemoved + {a.request.id},
               halCalls := s.halCalls + [RangeCancel(a.cmdId, Macs(a.halPeers))],
               effects := s.effects + [Alarm(CancelAlarm)])
  }

  /** Purging a queue and then abandoning the executing request is purging both at once. */
  lemma PurgedActiveSteps(s: State, p: Purge)
    requires s.active.Some?
    ensures PurgedActive(s, p) == Abandoned(PurgedQueued(s, p))
  {
  }

  lemma SilentPurgeCases(s: State, p: Purge, env: Env)
    ensures s.active.Some? && Purges(p, s.active.value.request) ==>
      SilentPurge(s, p, env) == Dispatch(PurgedActive(s, p), env)
    ensures !(s.active.Some? && Purges(p, s.active.value.request)) ==>
      SilentPurge(s, p, env) == PurgedQueued(s, p)
  {
  }

  /** The queue left by a purge: in order, with exactly the unpurged ids. */
  lemma PurgeQueueFacts(s: State, p: Purge)
    requires Increasing(Pending(s))
    ensures Increasing(s.queue) && Increasing(Kept(s.queue, p))
    ensures PurgedIds(s.queue, p) <= IdsOf(s.queue)
    ensures IdsOf(Kept(s.queue, p)) == IdsOf(s.queue) - PurgedIds(s.queue, p)
  {
    if s.active.Some? {
      IncreasingTail(Pending(s));
      assert Pending(s)[1..] == s.queue;
    }
    KeptIncreasing(s.queue, p);
    KeptIds(s.queue, p);
  }

  /** Set algebra: removing the head and then a purged part of the rest. */
  lemma RemoveHeadThenPurged(o: set<RequestId>, a: RequestId, rest: set<RequestId>, g: set<RequestId>, k: set<RequestId>)
    requires a in o && rest == o - {a} && g <= rest && k == rest - g
    ensures g + {a} <= o && k == o - (g + {a})
  {
  }

  /** Set algebra: keeping the head and removing a purged part of the rest. */
  lemma KeepHeadRemovePurged(o: set<RequestId>, a: RequestId, rest: set<RequestId>, g: set<RequestId>, k: set<RequestId>)
    requires a in o && rest == o - {a} && g <= rest
    ensures g <= o && {a} + (rest - g) == o - g
  {
  }

  lemma UnionAssoc(a: set<RequestId>, b: set<RequestId>, c: set<RequestId>)
    ensures a + b + c == a + (b + c)
  {
  }

  lemma PurgeActiveIds(s: State, p: Purge)
    requires Increasing(Pending(s)) && s.active.Some?
    ensures Increasing(Pending(PurgedActive(s, p)))
    ensures var g := PurgedIds(s.queue, p) + {s.active.value.request.id};
      g <= OutstandingIds(s) && OutstandingIds(PurgedActive(s, p)) == OutstandingIds(s) - g
  {
    var a := s.active.value.request;
    DropHead(s, Retire(s));
    PurgeQueueFacts(s, p);
    assert Pending(PurgedActive(s, p)) == Kept(s.queue, p);
    RemoveHeadThenPurged(OutstandingIds(s), a.id, IdsOf(s.queue), PurgedIds(s.queue, p), IdsOf(Kept(s.queue, p)));
  }

  lemma PurgeActiveKeepsOrder(s: State, p: Purge)
    requires OrderInvariant(s) && s.active.Some?
    ensures OrderInvariant(PurgedActive(s, p))
  {
    var a := s.active.value;
    var w := PurgedActive(s, p);
    PurgeActiveIds(s, p);
    DispatchedAppend(s.halCalls, RangeCancel(a.cmdId, Macs(a.halPeers)));
    forall d, x | d in DispatchedIds(w.halCalls) && x in w.queue ensures d < x.id {
      assert x in s.queue;
    }
  }

  /** The executing request is purged along with the covered queued ones: the invariant holds before the next dispatch. */
  lemma PurgeActiveKeepsCore(s: State, p: Purge)
    requires Inv(s) && s.active.Some?
    ensures Core(PurgedActive(s, p))
  {
    var g := PurgedIds(s.queue, p);
    var aid := s.active.value.request.id;
    var w := PurgedActive(s, p);
    PurgeActiveKeepsOrder(s, p);
    PurgeActiveIds(s, p);
    UnionAssoc(s.silentlyRemoved, g, {aid});
    UnionAssoc(s.unlinked, g, {aid});
    PurgeKeepsAccounts(s, w, g + {aid});
  }

  lemma PurgeQueuedIds(s: State, p: Purge)
    requires Increasing(Pending(s)) && (s.active.None? ==> s.queue == [])
    ensures Increasing(Pending(PurgedQueued(s, p)))
    ensures PurgedIds(s.queue, p) <= OutstandingIds(s)
    ensures OutstandingIds(PurgedQueued(s, p)) == OutstandingIds(s) - PurgedIds(s.queue, p)
  {
    if s.active.None? {
      assert Kept(s.queue, p) == [] && PurgedIds(s.queue, p) == {};
      SamePending(s, PurgedQueued(s, p));
    } else {
      PurgeQueuedAroundActive(s, p);
    }
  }

  lemma PurgeQueuedAroundActive(s: State, p: Purge)
    requires Increasing(Pending(s)) && s.active.Some?
    ensures Increasing(Pending(PurgedQueued(s, p)))
    ensures PurgedIds(s.queue, p) <= OutstandingIds(s)
    ensures OutstandingIds(PurgedQueued(s, p)) == OutstandingIds(s) - PurgedIds(s.queue, p)
  {
    var q := s.queue;
    var k := Kept(q, p);
    var a := s.active.value.request;
    assert Pending(PurgedQueued(s, p)) == [a] + k;
    PurgeQueueFacts(s, p);
    DropHead(s, s.(active := None));
    forall x | x in k ensures a.id < x.id {
      IncreasingTail(Pending(s));
      assert x in Pending(s)[1..];
    }
    PrependIncreasing(a, k);
    IdsOfConcat([a], k);
    IdsOfSingle(a);
    KeepHeadRemovePurged(OutstandingIds(s), a.id, IdsOf(q), PurgedIds(q, p), IdsOf(k));
  }

  lemma PurgeQueuedKeepsOrder(s: State, p: Purge)
    requires OrderInvariant(s) && (s.active.None? ==> s.queue == [])
    ensures OrderInvariant(PurgedQueued(s, p))
  {
    var u := PurgedQueued(s, p);
    PurgeQueuedIds(s, p);
    forall d, x | d in DispatchedIds(u.halCalls) && x in u.queue ensures d < x.id {
      assert x in s.queue;
    }
  }

  /** Only queued requests are purged: the executing one, if any, goes on. */
  lemma PurgeQueuedKeepsInv(s: State, p: Purge)
    requires Inv(s)
    ensures Inv(PurgedQueued(s, p))
  {
    PurgeQueuedKeepsOrder(s, p);
    PurgeQueuedIds(s, p);
    PurgeKeepsAccounts(s, PurgedQueued(s, p), PurgedIds(s.queue, p));
    if s.active.None? {
      assert Kept(s.queue, p) == [];
    }
  }

  lemma SilentPurgeKeepsInv(s: State, p: Purge, env: Env)
    requires Inv(s)
    ensures Inv(SilentPurge(s, p, env))
  {
    SilentPurgeCases(s, p, env);
    if s.active.Some? && Purges(p, s.active.value.request) {
      PurgeActiveKeepsCore(s, p);
      DispatchKeepsInvariant(PurgedActive(s, p), env);
    } else {
      PurgeQueuedKeepsInv(s, p);
    }
  }

  // Disable and enable

  lemma DisableFacts(s: State)
    ensures Pending(Disable(s)) == [] && OutstandingIds(Disable(s)) == {}
    ensures DispatchedIds(Disable(s).halCalls) == DispatchedIds(s.halCalls)
  {
    var u := Disable(s);
    if s.active.Some? {
      DispatchedAppend(s.halCalls, RangeCancel(s.active.value.cmdId, Macs(s.active.value.halPeers)));
    } else {
      assert u.halCalls == s.halCalls;
    }
  }

  /**
   * The state Disable leaves, given the cancellations, notices, failures and
   * released links it computes: Disable's update with those parts as
   * parameters, as the service computes them apart (DisableSteps relates the two).
   */
  function Shutdown(s: State, cancels: seq<HalCall>, notices: seq<Effect>, failed: seq<Callback>,
                    released: set<RequestId>): State
  {
    s.(available := false, queue := [], active := None, timerArmed := false,
       halCalls := s.halCalls + cancels, effects := s.effects + notices,
       callbacks := s.callbacks + failed, unlinked := s.unlinked + released)
  }

  /** Disable as the service carries it out: the cancellations, the failures and the released links computed apart. */
  lemma DisableSteps(s: State, pending: seq<Request>, cancels: seq<HalCall>, notices: seq<Effect>,
                     failed: seq<Callback>, released: set<RequestId>)
    requires pending == Pending(s)
    requires cancels == (match s.active case Some(a) => [RangeCancel(a.cmdId, Macs(a.halPeers))] case None => [])
    requires notices == [StateChanged(false)] + (if s.active.Some? then [Alarm(CancelAlarm)] else [])
    requires failed == Failures(pending, CodeFailRttNotAvailable) && released == IdsOf(pending)
    ensures Disable(s) == Shutdown(s, cancels, notices, failed, released)
  {
  }

  lemma DisableKeepsInv(s: State)
    requires Inv(s)
    ensures Inv(Disable(s))
  {
    DisableFacts(s);
    FailAllKeepsAccounts(s, Disable(s), CodeFailRttNotAvailable);
  }

  lemma EnableKeepsInv(s: State)
    requires Inv(s)
    ensures Inv(Enable(s))
  {
    SamePending(s, Enable(s));
  }

  // Any event

  lemma StepCases(s: State, input: Input)
    ensures var env := input.env;
      var t := Step(s, input);
      match input.event
      case StartRangingCall(uid, ws, peers, permitted, foreground) =>
        t == StartRanging(s, uid, ws, peers, permitted, foreground, env)
      case RangingResultsCall(cmdId, raw, permitted) => t == OnRangingResults(s, cmdId, raw, permitted, env)
      case TimeoutAlarm => t == OnTimeout(s, env)
      case CancelRangingCall(cancelled) => t == SilentPurge(s, Covered(cancelled), env)
      case RequesterDeath(uid) => t == SilentPurge(s, RequesterDied(uid), env)
      case DisableRtt => t == Disable(s)
      case EnableRtt => t == Enable(s)
  {
  }

  /** Every event, whatever the collaborators answer, keeps the invariant. */
  lemma StepKeepsInv(s: State, input: Input)
    requires Inv(s)
    ensures Inv(Step(s, input))
  {
    StepCases(s, input);
    var env := input.env;
    match input.event
    case StartRangingCall(uid, ws, peers, permitted, foreground) =>
      StartRangingKeepsInv(s, uid, ws, peers, permitted, foreground, env);
    case RangingResultsCall(cmdId, raw, permitted) =>
      OnRangingResultsKeepsInv(s, cmdId, raw, permitted, env);
    case TimeoutAlarm =>
      OnTimeoutKeepsInv(s, env);
    case CancelRangingCall(cancelled) =>
      SilentPurgeKeepsInv(s, Covered(cancelled), env);
    case RequesterDeath(uid) =>
      SilentPurgeKeepsInv(s, RequesterDied(uid), env);
    case DisableRtt =>
      DisableKeepsInv(s);
    case EnableRtt =>
      EnableKeepsInv(s);
  }

  /** The invariant holds after any sequence of events from a state that satisfies it. */
  lemma {:induction false} RunKeepsInv(s: State, inputs: seq<Input>)
    requires Inv(s)
    ensures Inv(Run(s, inputs))
    decreases |inputs|
  {
    if inputs != [] {
      StepKeepsInv(s, inputs[0]);
      RunKeepsInv(Step(s, inputs[0]), inputs[1..]);
    }
  }
}
