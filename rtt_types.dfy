/**
 * Values exchanged between the Wi-Fi RTT ranging service, its callers and the
 * ranging hardware (HAL): peers, per-peer results, callback outcomes and the
 * calls the service makes to its collaborators.
 */
module RttTypes {

  type Uid = int
  type PeerHandle = int
  /** A 6-byte MAC address; its length is not constrained by the model. */
  type MacAddress = seq<bv8>
  /** Identity of one startRanging call (its record and its death recipient). */
  type RequestId = nat
  /** The command id the service hands to the HAL with a dispatched request. */
  type CommandId = nat

  datatype Option<T> = None | Some(value: T)

  /** A peer named in a ranging request: by MAC address, or by an opaque Wi-Fi Aware peer handle. */
  datatype Peer = MacPeer(mac: MacAddress) | HandlePeer(handle: PeerHandle)

  /** A peer as sent to the HAL: always a MAC, remembering the handle it was resolved from. */
  datatype HalPeer = HalPeer(mac: MacAddress, handle: Option<PeerHandle>)

  datatype RangingStatus = StatusSuccess | StatusFail

  /** One raw per-peer record reported by the HAL, keyed by MAC address. */
  datatype RttResult = RttResult(
    addr: MacAddress,
    status: RangingStatus,
    distanceMm: int,
    distanceStdDevMm: int,
    rssi: int,
    timestamp: int)

  /** One per-peer result as delivered to the caller, under the identity the caller used. */
  datatype RangingResult = RangingResult(
    status: RangingStatus,
    peer: Peer,
    distanceMm: int,
    distanceStdDevMm: int,
    rssi: int,
    timestamp: int)

  /** The failure codes a caller can receive: STATUS_CODE_FAIL and STATUS_CODE_FAIL_RTT_NOT_AVAILABLE. */
  datatype StatusCode = CodeFail | CodeFailRttNotAvailable

  /** What one invocation of the caller's callback carried. */
  datatype Outcome = OnResults(results: seq<RangingResult>) | OnFailure(code: StatusCode)

  datatype Callback = Callback(request: RequestId, outcome: Outcome)

  /** An admitted request; workSource is the non-empty set of uids it is billed to. */
  datatype Request = Request(id: RequestId, uid: Uid, workSource: set<Uid>, peers: seq<Peer>)

  /** The request currently executing on the HAL, with its command id and its translated peers. */
  datatype Active = Active(request: Request, cmdId: CommandId, halPeers: seq<HalPeer>)

  /** Calls into the HAL: rangeRequest(cmdId, request) and rangeCancel(cmdId, macs). */
  datatype HalCall =
    | RangeRequest(cmdId: CommandId, request: RequestId, peers: seq<HalPeer>)
    | RangeCancel(cmdId: CommandId, macs: seq<MacAddress>)

  /** Calls into the alarm manager for the single ranging timeout. */
  datatype AlarmCall = SetExact | CancelAlarm

  /**
   * What the alarm manager and the context observe, in one order: alarm
   * calls and ACTION_WIFI_RTT_STATE_CHANGED broadcasts (with the new availability).
   */
  datatype Effect = Alarm(call: AlarmCall) | StateChanged(available: bool)
}
