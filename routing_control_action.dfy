/**
 * `RoutingControlAction` (HDMI 1.4b CEC Supplement, CEC 13.2 Routing Control):
 * after a port switch the TV announces the new path, wakes the device found
 * there, and for a non-source device waits for the switch's
 * <Routing Information> to learn the final path.
 */
module RoutingControl {
  import opened Wrappers
  import opened Cec
  import CecPath

  const STATE_NONE: int := 0
  const STATE_WAIT_FOR_ROUTING_INFORMATION: int := 1

  /** The power-on key press for `target` when it is known and neither on nor turning on. */
  function WakeUp(src: int, target: Option<DeviceInfo>): (keys: seq<Message>)
    ensures keys != [] <==> target.Some? && !IsPowerOnOrTransient(target.value.powerStatus)
    ensures keys != [] ==> keys == PowerOnKey(src, target.value.logicalAddress)
  {
    if target.Some? && !IsPowerOnOrTransient(target.value.powerStatus)
    then PowerOnKey(src, target.value.logicalAddress)
    else []
  }

  class RoutingControlAction {
    /** Logical address of the TV the action runs on. */
    const source: int
    const oldPath: PhysicalAddress
    /** Whether a completion callback was given; without one results go nowhere. */
    const hasCallback: bool
    const queryDevicePowerStatus: bool
    const notifyInputChange: bool

    var state: int
    var currentRoutingPath: PhysicalAddress
    /** Frames sent, oldest first. */
    var sent: seq<Message>
    /** The state an armed timer will report, if one is armed. */
    var timer: Option<int>
    var finished: bool
    /** Results handed to the callback. */
    var results: seq<int>

    ghost predicate Valid()
      reads this
    {
      (finished ==> state == STATE_NONE && timer.None?) &&
      (!hasCallback ==> results == []) &&
      (results != [] ==> finished && results == [RESULT_SUCCESS])
    }

    /**
     * The 5-argument constructor; the TV's 3-argument form does not pass the old
     * path, which is therefore a parameter here.
     */
    constructor (src: int, previousPath: PhysicalAddress, newPath: PhysicalAddress,
                 queryPowerStatus: bool, withCallback: bool)
      ensures Valid()
      ensures source == src && oldPath == previousPath && currentRoutingPath == newPath
      ensures hasCallback == withCallback && notifyInputChange == !withCallback
      ensures queryDevicePowerStatus == queryPowerStatus
      ensures state == STATE_NONE && sent == [] && timer.None? && !finished && results == []
    {
      source := src;
      oldPath := previousPath;
      currentRoutingPath := newPath;
      queryDevicePowerStatus := queryPowerStatus;
      hasCallback := withCallback;
      notifyInputChange := !withCallback;
      state := STATE_NONE;
      sent := [];
      timer := None;
      finished := false;
      results := [];
    }

    /** `finishWithCallback`: report `result` (when there is a callback) and finish. */
    method FinishWithCallback(result: int)
      requires Valid() && !finished && result == RESULT_SUCCESS
      modifies this
      ensures Valid() && finished && state == STATE_NONE && timer.None?
      ensures results == if hasCallback then [result] else []
      ensures sent == old(sent) && currentRoutingPath == old(currentRoutingPath)
    {
      if hasCallback {
        results := results + [result];
      }
      state := STATE_NONE;
      timer := None;
      finished := true;
    }

    /**
     * `start`: to a known target that is off, a power-on key first; then a source
     * target gets <Set Stream Path> and the action succeeds at once, any other known
     * target gets <Routing Change> and a timer, and an unknown path gets
     * <Routing Change> with no timer.
     */
    method Start(devices: seq<DeviceInfo>) returns (r: bool)
      requires Valid() && !finished && state == STATE_NONE && results == []
      modifies this
      ensures Valid() && r
      ensures currentRoutingPath == old(currentRoutingPath)
      ensures var target := DeviceByPath(devices, currentRoutingPath);
        if target.Some? && target.value.IsSourceType() then
          sent == old(sent) + WakeUp(source, target) + [SetStreamPath(source, currentRoutingPath)]
          && finished && results == (if hasCallback then [RESULT_SUCCESS] else [])
        else if target.Some? then
          sent == old(sent) + WakeUp(source, target) + [RoutingChange(source, oldPath, currentRoutingPath)]
          && !finished && state == STATE_WAIT_FOR_ROUTING_INFORMATION
          && timer == Some(STATE_WAIT_FOR_ROUTING_INFORMATION) && results == []
        else
          sent == old(sent) + [RoutingChange(source, oldPath, currentRoutingPath)]
          && !finished && state == STATE_WAIT_FOR_ROUTING_INFORMATION
          && timer == old(timer) && results == []
    {
      state := STATE_WAIT_FOR_ROUTING_INFORMATION;
      var target := DeviceByPath(devices, currentRoutingPath);
      if target.Some? {
        sent := sent + WakeUp(source, target);
        if target.value.IsSourceType() {
          sent := sent + [SetStreamPath(source, currentRoutingPath)];
          FinishWithCallback(RESULT_SUCCESS);
          return true;
        } else {
          sent := sent + [RoutingChange(source, oldPath, currentRoutingPath)];
          timer := Some(STATE_WAIT_FOR_ROUTING_INFORMATION);
        }
      } else {
        sent := sent + [RoutingChange(source, oldPath, currentRoutingPath)];
      }
      return true;
    }

    /**
     * `processCommand`: only <Routing Information> while waiting is consumed. A path
     * outside the current routing path is ignored and the action keeps waiting; a path
     * inside it becomes the routing path, gets <Set Stream Path>, its device is woken
     * if needed, and the action succeeds.
     */
    method ProcessCommand(cmd: Message, devices: seq<DeviceInfo>) returns (consumed: bool)
      requires Valid()
      requires cmd.opcode == MESSAGE_ROUTING_INFORMATION ==> |cmd.params| >= 2
      modifies this
      ensures Valid()
      ensures consumed <==> old(state) == STATE_WAIT_FOR_ROUTING_INFORMATION
                            && cmd.opcode == MESSAGE_ROUTING_INFORMATION
      ensures !consumed ==> unchanged(this)
      ensures consumed && !CecPath.InActiveRoutingPath(old(currentRoutingPath), TwoBytesToInt(cmd.params))
              ==> unchanged(this)
      ensures consumed && CecPath.InActiveRoutingPath(old(currentRoutingPath), TwoBytesToInt(cmd.params))
              ==> var path := TwoBytesToInt(cmd.params);
                  currentRoutingPath == path && finished
                  && sent == old(sent) + [SetStreamPath(source, path)]
                            + WakeUp(source, DeviceByPath(devices, path))
                  && results == (if hasCallback then [RESULT_SUCCESS] else [])
    {
      if state == STATE_WAIT_FOR_ROUTING_INFORMATION && cmd.opcode == MESSAGE_ROUTING_INFORMATION {
        var routingPath := TwoBytesToInt(cmd.params);
        if !CecPath.InActiveRoutingPath(currentRoutingPath, routingPath) {
          return true;
        }
        currentRoutingPath := routingPath;
        sent := sent + [SetStreamPath(source, currentRoutingPath)];
        var target := DeviceByPath(devices, currentRoutingPath);
        sent := sent + WakeUp(source, target);
        FinishWithCallback(RESULT_SUCCESS);
        return true;
      }
      return false;
    }

    /** `handleTimerEvent`: a timeout while waiting is a success; any other timer is ignored. */
    method HandleTimerEvent(timeoutState: int)
      requires Valid()
      modifies this
      ensures Valid()
      ensures old(state) != timeoutState || old(state) == STATE_NONE ==> unchanged(this)
      ensures old(state) == timeoutState == STATE_WAIT_FOR_ROUTING_INFORMATION ==>
                finished && sent == old(sent)
                && results == (if hasCallback then [RESULT_SUCCESS] else [])
    {
      if state != timeoutState || state == STATE_NONE {
        return;
      }
      if timeoutState == STATE_WAIT_FOR_ROUTING_INFORMATION {
        FinishWithCallback(RESULT_SUCCESS);
      }
    }
  }
}
