/**
 * `DeviceSelectAction`: make a chosen device the new active source. It sends the
 * routing frame first, then a power-on key to a target that is off, reports success
 * and finishes, all inside `start`.
 */
module DeviceSelect {
  import opened Wrappers
  import opened Cec

  const STATE_NONE: int := 0
  const STATE_WAIT_FOR_REPORT_POWER_STATUS: int := 1
  /** Declared by the source but never used. */
  const LOOP_COUNTER_MAX: int := 2

  /** `sendSetStreamPath`: <Set Stream Path> for a source target, else <Routing Change> from the active path. */
  function RoutingFrame(src: int, target: DeviceInfo, activePath: PhysicalAddress): (m: Message)
    ensures m.source == src && m.destination == ADDR_BROADCAST
    ensures target.IsSourceType() ==>
              m.opcode == MESSAGE_SET_STREAM_PATH && |m.params| == 2 &&
              TwoBytesToInt(m.params) == target.physicalAddress
    ensures !target.IsSourceType() ==>
              m.opcode == MESSAGE_ROUTING_CHANGE && |m.params| == 4 &&
              TwoBytesToInt(m.params[..2]) == activePath &&
              TwoBytesToInt(m.params[2..]) == target.physicalAddress
  {
    if target.IsSourceType() then SetStreamPath(src, target.physicalAddress)
    else RoutingChange(src, activePath, target.physicalAddress)
  }

  class DeviceSelectAction {
    const source: int
    const target: DeviceInfo
    const hasCallback: bool
    /** The <Give Device Power Status> frame built at construction and never sent. */
    const givePowerStatus: Message

    var state: int
    var powerStatusCounter: int
    var sent: seq<Message>
    var finished: bool
    var results: seq<int>

    ghost predicate Valid()
      reads this
    {
      (finished ==> state == STATE_NONE) && (!hasCallback ==> results == [])
    }

    constructor (src: int, selected: DeviceInfo, withCallback: bool)
      ensures Valid() && source == src && target == selected && hasCallback == withCallback
      ensures givePowerStatus == Message(src, selected.logicalAddress, MESSAGE_GIVE_DEVICE_POWER_STATUS, [])
      ensures state == STATE_NONE && powerStatusCounter == 0
      ensures sent == [] && !finished && results == []
    {
      source := src;
      target := selected;
      hasCallback := withCallback;
      givePowerStatus := Message(src, selected.logicalAddress, MESSAGE_GIVE_DEVICE_POWER_STATUS, []);
      state := STATE_NONE;
      powerStatusCounter := 0;
      sent := [];
      finished := false;
      results := [];
    }

    /**
     * `start`: the routing frame, then the power-on key if the target is neither on
     * nor turning on; success is reported and the action finishes synchronously.
     */
    method Start(activePath: PhysicalAddress) returns (r: bool)
      requires Valid() && !finished && results == []
      modifies this
      ensures Valid() && r && finished && state == STATE_NONE
      ensures sent == old(sent) + [RoutingFrame(source, target, activePath)]
                      + (if IsPowerOnOrTransient(target.powerStatus) then []
                         else PowerOnKey(source, target.logicalAddress))
      ensures results == if hasCallback then [RESULT_SUCCESS] else []
    {
      sent := sent + [RoutingFrame(source, target, activePath)];
      if !IsPowerOnOrTransient(target.powerStatus) {
        sent := sent + PowerOnKey(source, target.logicalAddress);
      }
      if hasCallback {
        results := results + [RESULT_SUCCESS];
      }
      state := STATE_NONE;
      finished := true;
      return true;
    }

    /** `processCommand` never consumes a frame. */
    method ProcessCommand(cmd: Message) returns (consumed: bool)
      ensures !consumed
    {
      return false;
    }

    /** `handleTimerEvent` does nothing in any state. */
    method HandleTimerEvent(timeoutState: int)
      requires Valid()
      modifies this
      ensures Valid() && unchanged(this)
    {
      if state != timeoutState {
        return;
      }
    }
  }
}
