/**
 * Background throttling: a ledger of the last execution time of each uid.
 * A background request billed to a set of uids may execute when at least one
 * of them has not executed within the last `gap` milliseconds; when a request
 * executes, every uid it is billed to is stamped with the execution time.
 */
module Throttle {
  import opened RttTypes

  type Ledger = map<Uid, int>

  /**
   * Some uid of the work source has never executed, or last executed before
   * now - gap. A uid that has never executed always lets its request through;
   * an empty work source never does.
   */
  predicate MayExecute(ledger: Ledger, workSource: set<Uid>, now: int, gap: nat)
    ensures (exists u :: u in workSource && u !in ledger) ==> MayExecute(ledger, workSource, now, gap)
    ensures ledger == map[] ==> (MayExecute(ledger, workSource, now, gap) <==> workSource != {})
  {
    exists u :: u in workSource && (u !in ledger || ledger[u] < now - gap)
  }

  /** The ledger after a request billed to `workSource` executes at `now`. */
  function Stamp(ledger: Ledger, workSource: set<Uid>, now: int): (stamped: Ledger)
    ensures stamped.Keys == ledger.Keys + workSource
    ensures forall u :: u in workSource ==> stamped[u] == now
    ensures forall u :: u in ledger && u !in workSource ==> stamped[u] == ledger[u]
  {
    map u | u in ledger.Keys + workSource :: if u in workSource then now else ledger[u]
  }

  /**
   * Right after an execution at time t, every non-empty part of its work
   * source stays throttled until more than `gap` has passed.
   */
  lemma StampedUidsThrottled(ledger: Ledger, workSource: set<Uid>, t: int, part: set<Uid>, now: int, gap: nat)
    requires part <= workSource
    requires now - gap <= t
    ensures !MayExecute(Stamp(ledger, workSource, t), part, now, gap)
  {
  }

  /** Once more than `gap` has passed since an execution, its uids may execute again. */
  lemma StampedUidsReleased(ledger: Ledger, workSource: set<Uid>, t: int, u: Uid, now: int, gap: nat)
    requires u in workSource
    requires t < now - gap
    ensures MayExecute(Stamp(ledger, workSource, t), {u}, now, gap)
  {
    assert u in {u};
  }

  /** Stamping a uid never makes its entry older: the ledger keeps the latest of its dispatches. */
  lemma StampKeepsLatest(ledger: Ledger, ws1: set<Uid>, t1: int, ws2: set<Uid>, t2: int, u: Uid)
    requires t1 <= t2 && u in ws1
    ensures Stamp(Stamp(ledger, ws1, t1), ws2, t2)[u] >= t1
  {
  }

  /**
   * The timeline of one background uid u. It executes at 100. It is
   * throttled half a gap later. It executes at 100 + 1.1 gap (computed in
   * integer arithmetic, so gap must be at least 10 for that to exceed gap).
   * A foreground execution 5 ms after that stamps u again, so a background
   * request 5 ms later still is throttled.
   */
  lemma BackgroundTimeline(u: Uid, gap: nat)
    requires gap >= 10
    ensures var t3 := 100 + gap * 11 / 10;
      var l1 := Stamp(map[], {u}, 100);
      && MayExecute(map[], {u}, 100, gap)
      && !MayExecute(l1, {u}, 100 + gap / 2, gap)
      && MayExecute(l1, {u}, t3, gap)
      && !MayExecute(Stamp(Stamp(l1, {u}, t3), {u}, t3 + 5), {u}, t3 + 10, gap)
  {
    assert u in {u};
    assert gap * 11 / 10 >= gap + 1 by {
      assert gap * 11 == (gap + 1) * 10 + (gap - 10);
    }
  }

  /**
   * The timeline of a work source. Uid 10 executes at 100. Half a gap later
   * a request billed to {10, 20} still executes, because uid 20 has never
   * executed, and that execution stamps uid 10 too. So at 100 + 1.1 gap uid
   * 10 is throttled. It would not have been, had only uid 20 been stamped.
   */
  lemma WorkSourceTimeline(gap: nat)
    requires gap >= 10
    ensures var t2 := 100 + gap / 2;
      var t3 := 100 + gap * 11 / 10;
      var l1 := Stamp(map[], {10}, 100);
      && MayExecute(map[], {10}, 100, gap)
      && MayExecute(l1, {10, 20}, t2, gap)
      && !MayExecute(Stamp(l1, {10, 20}, t2), {10}, t3, gap)
      && MayExecute(Stamp(l1, {20}, t2), {10}, t3, gap)
  {
    assert 10 in {10} && 20 in {10, 20};
    assert gap + 1 <= gap * 11 / 10 <= gap + gap / 2 by {
      assert gap * 11 == (gap + 1) * 10 + (gap - 10);
      assert gap * 11 / 10 == gap + gap / 10;
    }
  }
}
