/**
 * Peer identity translation and result correlation.
 *
 * Before dispatch, peers named by Wi-Fi Aware peer handle are resolved to MAC
 * addresses (unresolvable handles are left out of the HAL request). When the
 * HAL reports, every requested peer gets exactly one result, under the
 * identity the caller used; a peer the HAL did not report on gets a
 * synthesised failure with all measurement fields zero.
 */
module PeerTranslation {
  import opened RttTypes

  /** The handles of the peers named by peer handle, in request order: the list sent to the resolver. */
  function HandlesOf(peers: seq<Peer>): (ids: seq<PeerHandle>)
    ensures forall h :: h in ids <==> HandlePeer(h) in peers
  {
    if peers == [] then []
    else
      assert peers == [peers[0]] + peers[1..];
      (if peers[0].HandlePeer? then [peers[0].handle] else []) + HandlesOf(peers[1..])
  }

  /**
   * The resolver as the test harness answers it: for every requested peer id
   * that it knows a MAC for, that MAC; unknown ids are skipped.
   */
  method RequestMacAddresses(known: map<PeerHandle, MacAddress>, peerIds: seq<PeerHandle>)
    returns (result: map<PeerHandle, MacAddress>)
    ensures forall h :: h in result <==> h in peerIds && h in known
    ensures forall h :: h in result ==> result[h] == known[h]
  {
    result := map[];
    var i := 0;
    while i < |peerIds|
      invariant 0 <= i <= |peerIds|
      invariant forall h :: h in result <==> h in peerIds[..i] && h in known
      invariant forall h :: h in result ==> result[h] == known[h]
    {
      var peerId := peerIds[i];
      assert peerIds[..i + 1] == peerIds[..i] + [peerId];
      if peerId in known {
        result := result[peerId := known[peerId]];
      }
      i := i + 1;
    }
    assert peerIds[..i] == peerIds;
  }

  /** The HAL form of one peer, or None when its handle has no known MAC. */
  function ToHal(p: Peer, macOf: map<PeerHandle, MacAddress>): Option<HalPeer>
  {
    match p
    case MacPeer(m) => Some(HalPeer(m, None))
    case HandlePeer(h) => if h in macOf then Some(HalPeer(macOf[h], Some(h))) else None
  }

  /** The peer list sent to the HAL: every peer in order, unresolvable handles dropped. */
  function Translate(peers: seq<Peer>, macOf: map<PeerHandle, MacAddress>): (hal: seq<HalPeer>)
    ensures |hal| <= |peers|
    ensures forall x :: x in hal ==> exists p :: p in peers && ToHal(p, macOf) == Some(x)
  {
    if peers == [] then []
    else (match ToHal(peers[0], macOf) case Some(x) => [x] case None => []) + Translate(peers[1..], macOf)
  }

  /** The identity the caller used for a HAL peer. */
  function FromHal(x: HalPeer): Peer
  {
    match x.handle
    case Some(h) => HandlePeer(h)
    case None => MacPeer(x.mac)
  }

  function Untranslate(hal: seq<HalPeer>): seq<Peer>
  {
    seq(|hal|, i requires 0 <= i < |hal| => FromHal(hal[i]))
  }

  /** The peers that can be sent to the HAL, in request order. */
  function Resolvable(peers: seq<Peer>, macOf: map<PeerHandle, MacAddress>): seq<Peer>
  {
    if peers == [] then []
    else (if ToHal(peers[0], macOf).Some? then [peers[0]] else []) + Resolvable(peers[1..], macOf)
  }

  /** The MAC list of a HAL request, as passed to rangeCancel. */
  function Macs(hal: seq<HalPeer>): (macs: seq<MacAddress>)
    ensures |macs| == |hal|
    ensures forall x :: x in hal ==> x.mac in macs
  {
    var macs := seq(|hal|, i requires 0 <= i < |hal| => hal[i].mac);
    assert forall i :: 0 <= i < |hal| ==> macs[i] == hal[i].mac;
    macs
  }

  /** Translating to the HAL and back gives back exactly the resolvable peers, in order. */
  lemma {:induction false} TranslateRoundTrip(peers: seq<Peer>, macOf: map<PeerHandle, MacAddress>)
    ensures Untranslate(Translate(peers, macOf)) == Resolvable(peers, macOf)
  {
    if peers != [] {
      TranslateRoundTrip(peers[1..], macOf);
      var rest := Translate(peers[1..], macOf);
      match ToHal(peers[0], macOf)
      case Some(x) =>
        assert FromHal(x) == peers[0];
        assert Untranslate([x] + rest) == [FromHal(x)] + Untranslate(rest);
      case None =>
        assert Translate(peers, macOf) == rest;
    }
  }

  /** When every handle resolves, the HAL request has one entry per peer, in order. */
  lemma {:induction false} TranslateResolved(peers: seq<Peer>, macOf: map<PeerHandle, MacAddress>)
    requires forall h :: HandlePeer(h) in peers ==> h in macOf
    ensures |Translate(peers, macOf)| == |peers|
    ensures forall i :: 0 <= i < |peers| ==> ToHal(peers[i], macOf) == Some(Translate(peers, macOf)[i])
  {
    if peers != [] {
      assert peers == [peers[0]] + peers[1..];
      TranslateResolved(peers[1..], macOf);
      var rest := Translate(peers[1..], macOf);
      var x := ToHal(peers[0], macOf).value;
      assert Translate(peers, macOf) == [x] + rest;
      forall i | 0 <= i < |peers|
        ensures ToHal(peers[i], macOf) == Some(Translate(peers, macOf)[i])
      {
        if i > 0 {
          assert peers[i] == peers[1..][i - 1];
        }
      }
    }
  }

  /** The MAC list of a fully resolved request names each peer's MAC (or its handle's MAC), in order. */
  lemma CancelListFollowsRequest(peers: seq<Peer>, macOf: map<PeerHandle, MacAddress>)
    requires forall h :: HandlePeer(h) in peers ==> h in macOf
    ensures |Macs(Translate(peers, macOf))| == |peers|
    ensures forall i :: 0 <= i < |peers| ==>
      Macs(Translate(peers, macOf))[i] == (match peers[i] case MacPeer(m) => m case HandlePeer(h) => macOf[h])
  {
    TranslateResolved(peers, macOf);
  }

  /**
   * In general the MAC list follows the resolvable peers: one MAC per peer
   * sent, in request order, a handle's entry being the MAC it resolved to.
   */
  lemma CancelListFollowsResolvable(peers: seq<Peer>, macOf: map<PeerHandle, MacAddress>)
    ensures |Macs(Translate(peers, macOf))| == |Resolvable(peers, macOf)|
    ensures forall i :: 0 <= i < |Resolvable(peers, macOf)| ==>
      match Resolvable(peers, macOf)[i]
      case MacPeer(m) => Macs(Translate(peers, macOf))[i] == m
      case HandlePeer(h) => h in macOf && Macs(Translate(peers, macOf))[i] == macOf[h]
  {
    var hal := Translate(peers, macOf);
    TranslateRoundTrip(peers, macOf);
    forall i | 0 <= i < |hal| && hal[i].handle.Some?
      ensures hal[i].handle.value in macOf && hal[i].mac == macOf[hal[i].handle.value]
    {
      TranslatedHandlesCarryTheirMac(peers, macOf, hal[i]);
    }
  }

  /** Every HAL peer carrying a handle carries that handle's MAC. */
  lemma {:induction false} TranslatedHandlesCarryTheirMac(peers: seq<Peer>, macOf: map<PeerHandle, MacAddress>, x: HalPeer)
    requires x in Translate(peers, macOf)
    requires x.handle.Some?
    ensures x.handle.value in macOf && x.mac == macOf[x.handle.value]
  {
    if peers != [] {
      var rest := Translate(peers[1..], macOf);
      if x in rest {
        TranslatedHandlesCarryTheirMac(peers[1..], macOf, x);
      }
    }
  }

  /** Every resolvable peer appears in the HAL request. */
  lemma {:induction false} ResolvedPeerSent(peers: seq<Peer>, macOf: map<PeerHandle, MacAddress>, p: Peer)
    requires p in peers && ToHal(p, macOf).Some?
    ensures ToHal(p, macOf).value in Translate(peers, macOf)
  {
    if peers[0] != p {
      assert p in peers[1..];
      ResolvedPeerSent(peers[1..], macOf, p);
    }
  }

  /** Two resolver answers that agree on the requested handles give the same HAL request. */
  lemma {:induction false} TranslateDependsOnRequestedHandles(peers: seq<Peer>, m1: map<PeerHandle, MacAddress>, m2: map<PeerHandle, MacAddress>)
    requires forall h :: HandlePeer(h) in peers ==> (h in m1 <==> h in m2)
    requires forall h :: HandlePeer(h) in peers && h in m1 ==> m1[h] == m2[h]
    ensures Translate(peers, m1) == Translate(peers, m2)
  {
    if peers != [] {
      assert peers == [peers[0]] + peers[1..];
      assert ToHal(peers[0], m1) == ToHal(peers[0], m2);
      TranslateDependsOnRequestedHandles(peers[1..], m1, m2);
    }
  }

  /** The first raw result for a MAC address, if the HAL reported one. */
  function Lookup(raw: seq<RttResult>, addr: MacAddress): (r: Option<RttResult>)
    ensures r.Some? ==> r.value in raw && r.value.addr == addr
    ensures r.None? ==> forall x :: x in raw ==> x.addr != addr
    ensures r.Some? ==> exists k :: 0 <= k < |raw| && raw[k] == r.value && forall j :: 0 <= j < k ==> raw[j].addr != addr
  {
    if raw == [] then None
    else if raw[0].addr == addr then Some(raw[0])
    else Lookup(raw[1..], addr)
  }

  /** The MAC a handle was translated to in a HAL request, if it was sent. */
  function MacOfHandle(hal: seq<HalPeer>, h: PeerHandle): (m: Option<MacAddress>)
    ensures m.Some? ==> HalPeer(m.value, Some(h)) in hal
    ensures m.None? ==> forall x :: x in hal ==> x.handle != Some(h)
  {
    if hal == [] then None
    else if hal[0].handle == Some(h) then Some(hal[0].mac)
    else MacOfHandle(hal[1..], h)
  }

  /** The address the HAL measured a requested peer at, if the peer was sent. */
  function AddressOf(p: Peer, hal: seq<HalPeer>): Option<MacAddress>
  {
    match p
    case MacPeer(m) => Some(m)
    case HandlePeer(h) => MacOfHandle(hal, h)
  }

  /** The synthesised result for a peer the HAL did not report on. */
  function Backfill(p: Peer): RangingResult
  {
    RangingResult(StatusFail, p, 0, 0, 0, 0)
  }

  /** A raw HAL result re-labelled with the identity the caller used. */
  function Reported(p: Peer, x: RttResult): RangingResult
  {
    RangingResult(x.status, p, x.distanceMm, x.distanceStdDevMm, x.rssi, x.timestamp)
  }

  function ResultFor(p: Peer, hal: seq<HalPeer>, raw: seq<RttResult>): RangingResult
  {
    match AddressOf(p, hal)
    case None => Backfill(p)
    case Some(a) =>
      match Lookup(raw, a)
      case None => Backfill(p)
      case Some(x) => Reported(p, x)
  }

  /** The results delivered to the caller: one per requested peer, under the caller's identity for it. */
  function Correlate(peers: seq<Peer>, hal: seq<HalPeer>, raw: seq<RttResult>): (out: seq<RangingResult>)
    ensures |out| == |peers|
    ensures forall i :: 0 <= i < |peers| ==> out[i].peer == peers[i]
  {
    seq(|peers|, i requires 0 <= i < |peers| => ResultFor(peers[i], hal, raw))
  }

  /** No two raw results name the same MAC address. */
  ghost predicate DistinctAddresses(raw: seq<RttResult>)
  {
    forall i, j :: 0 <= i < j < |raw| ==> raw[i].addr != raw[j].addr
  }

  lemma {:induction false} LookupFindsReported(raw: seq<RttResult>, x: RttResult)
    requires DistinctAddresses(raw)
    requires x in raw
    ensures Lookup(raw, x.addr) == Some(x)
  {
    if raw[0] != x {
      assert x in raw[1..];
      var k :| 0 <= k < |raw| && raw[k] == x;
      assert raw[0].addr != x.addr;
      LookupFindsReported(raw[1..], x);
    }
  }

  /** A requested peer the HAL did not report on gets STATUS_FAIL with all measurement fields zero. */
  lemma MissingPeerBackfilled(peers: seq<Peer>, hal: seq<HalPeer>, raw: seq<RttResult>, i: nat)
    requires i < |peers|
    requires forall x :: x in raw ==> AddressOf(peers[i], hal) != Some(x.addr)
    ensures Correlate(peers, hal, raw)[i] == RangingResult(StatusFail, peers[i], 0, 0, 0, 0)
  {
  }

  /** A requested peer the HAL reported on gets that report, under the caller's identity. */
  lemma ReportedPeerCarried(peers: seq<Peer>, hal: seq<HalPeer>, raw: seq<RttResult>, i: nat, x: RttResult)
    requires i < |peers|
    requires DistinctAddresses(raw)
    requires x in raw && AddressOf(peers[i], hal) == Some(x.addr)
    ensures Correlate(peers, hal, raw)[i] == Reported(peers[i], x)
  {
    LookupFindsReported(raw, x);
  }

  /**
   * A peer requested by handle, resolved before dispatch and reported by the
   * HAL at its MAC, is delivered under its handle: the caller never sees the MAC.
   */
  lemma HandleResultTranslatedBack(peers: seq<Peer>, macOf: map<PeerHandle, MacAddress>, raw: seq<RttResult>, i: nat, x: RttResult)
    requires i < |peers| && peers[i].HandlePeer? && peers[i].handle in macOf
    requires DistinctAddresses(raw)
    requires x in raw && x.addr == macOf[peers[i].handle]
    ensures Correlate(peers, Translate(peers, macOf), raw)[i] == Reported(HandlePeer(peers[i].handle), x)
  {
    var h := peers[i].handle;
    var hal := Translate(peers, macOf);
    ResolvedPeerSent(peers, macOf, peers[i]);
    var m := MacOfHandle(hal, h);
    assert m.Some?;
    TranslatedHandlesCarryTheirMac(peers, macOf, HalPeer(m.value, Some(h)));
    ReportedPeerCarried(peers, hal, raw, i, x);
  }

  /**
   * Without assuming distinct MACs: a peer requested by handle and resolved
   * before dispatch is delivered under its handle, carrying one of the
   * reports the HAL made at its MAC (the first one).
   */
  lemma HandleResultUnderHandle(peers: seq<Peer>, macOf: map<PeerHandle, MacAddress>, raw: seq<RttResult>, i: nat)
    requires i < |peers| && peers[i].HandlePeer? && peers[i].handle in macOf
    requires exists y :: y in raw && y.addr == macOf[peers[i].handle]
    ensures exists x :: x in raw && x.addr == macOf[peers[i].handle]
                      && Correlate(peers, Translate(peers, macOf), raw)[i] == Reported(HandlePeer(peers[i].handle), x)
  {
    var h := peers[i].handle;
    var hal := Translate(peers, macOf);
    ResolvedPeerSent(peers, macOf, peers[i]);
    var m := MacOfHandle(hal, h);
    assert m.Some?;
    TranslatedHandlesCarryTheirMac(peers, macOf, HalPeer(m.value, Some(h)));
    var x := Lookup(raw, macOf[h]).value;
    assert Correlate(peers, hal, raw)[i] == Reported(HandlePeer(h), x);
  }

  /** A lookup that finds a report in one listing finds the same report in any reordering of it. */
  lemma LookupIgnoresRawOrder(raw1: seq<RttResult>, raw2: seq<RttResult>, a: MacAddress)
    requires DistinctAddresses(raw2)
    requires multiset(raw1) == multiset(raw2)
    ensures Lookup(raw1, a).Some? ==> Lookup(raw2, a) == Lookup(raw1, a)
  {
    var l := Lookup(raw1, a);
    if l.Some? {
      assert l.value in multiset(raw2);
      LookupFindsReported(raw2, l.value);
    }
  }

  /** The order in which the HAL lists its results does not change what the caller receives. */
  lemma CorrelateIgnoresRawOrder(peers: seq<Peer>, hal: seq<HalPeer>, raw1: seq<RttResult>, raw2: seq<RttResult>)
    requires DistinctAddresses(raw1) && DistinctAddresses(raw2)
    requires multiset(raw1) == multiset(raw2)
    ensures Correlate(peers, hal, raw1) == Correlate(peers, hal, raw2)
  {
    forall i | 0 <= i < |peers|
      ensures Correlate(peers, hal, raw1)[i] == Correlate(peers, hal, raw2)[i]
    {
      match AddressOf(peers[i], hal)
      case None =>
      case Some(a) =>
        LookupIgnoresRawOrder(raw1, raw2, a);
        LookupIgnoresRawOrder(raw2, raw1, a);
    }
  }
}
