/**
 * `RequestArcAction`: the behaviour shared by the <Request ARC Initiation> and
 * <Request ARC Termination> feature actions (HDMI 1.4b CEC Supplement, CEC 13.17,
 * Audio Return Channel Control). The shared vocabulary (states, calls into the TV,
 * the callback bookkeeping) lives here; the base handlers are modelled by
 * `RequestArcAction`, whose waiting state is entered by `Begin`, standing for the
 * `start` a concrete subclass supplies.
 */
module RequestArc {
  import opened Wrappers
  import opened Cec

  const STATE_NONE: int := 0
  const STATE_WAITING_FOR_REQUEST_ARC_REQUEST_RESPONSE: int := 1

  /** Calls the ARC actions make into the TV local device and the control service. */
  datatype Effect =
    | StartSetArcTransmissionState(avr: int, enabled: bool) // `disableArcTransmission`
    | SetArcStatus(enabled: bool)                           // `tv().setArcStatus`
    | DisableArc                                            // `tv().disableArc`
    | HandleTerminateArc(cmd: Message)                      // `tv().handleTerminateArc`
    | SetEarcMode(enabled: bool)                            // `mService.setEarcMode`

  /**
   * The parameter bytes the base handler reads: the aborted opcode of a
   * <Feature Abort>, and the abort reason too when the aborted opcode is
   * <Request ARC Initiation>.
   */
  predicate ArcAbortReadable(cmd: Message) {
    FeatureAbortHasOpcode(cmd) &&
    (cmd.opcode == MESSAGE_FEATURE_ABORT && cmd.params[0] == MESSAGE_REQUEST_ARC_INITIATION ==> |cmd.params| >= 2)
  }

  /** The base handler's decision: which frames it consumes. */
  predicate BaseConsumes(waiting: bool, avr: int, cmd: Message)
    requires ArcAbortReadable(cmd)
  {
    waiting && FromPeer(cmd, avr) && cmd.opcode == MESSAGE_FEATURE_ABORT &&
    (cmd.params[0] == MESSAGE_REQUEST_ARC_TERMINATION ||
     (cmd.params[0] == MESSAGE_REQUEST_ARC_INITIATION &&
      cmd.params[1] != ABORT_UNRECOGNIZED_OPCODE))
  }

  /** A timer event is acted on only in the waiting state it was armed for. */
  predicate TimerMatches(state: int, timeoutState: int) {
    state == timeoutState && timeoutState == STATE_WAITING_FOR_REQUEST_ARC_REQUEST_RESPONSE
  }

  class RequestArcAction {
    const source: int
    const avrAddress: int
    var state: int
    var timer: Option<int>
    var sent: seq<Message>
    var effects: seq<Effect>
    var finished: bool

    ghost predicate Valid()
      reads this
    {
      ValidEndpoints(source, avrAddress) &&
      (finished ==> state == STATE_NONE && timer.None?)
    }

    constructor (src: int, avr: int)
      requires ValidEndpoints(src, avr)
      ensures Valid() && source == src && avrAddress == avr
      ensures state == STATE_NONE && timer.None? && sent == [] && effects == [] && !finished
    {
      source := src;
      avrAddress := avr;
      state := STATE_NONE;
      timer := None;
      sent := [];
      effects := [];
      finished := false;
    }

    /** The waiting state and timer a subclass's `start` sets up. */
    method Begin()
      requires Valid() && !finished
      modifies this
      ensures Valid() && state == STATE_WAITING_FOR_REQUEST_ARC_REQUEST_RESPONSE
      ensures timer == Some(STATE_WAITING_FOR_REQUEST_ARC_REQUEST_RESPONSE)
      ensures sent == old(sent) && effects == old(effects) && !finished
    {
      state := STATE_WAITING_FOR_REQUEST_ARC_REQUEST_RESPONSE;
      timer := Some(state);
    }

    method Finish()
      requires Valid()
      modifies this
      ensures Valid() && finished && state == STATE_NONE && timer.None?
      ensures sent == old(sent) && effects == old(effects)
    {
      state := STATE_NONE;
      timer := None;
      finished := true;
    }

    /**
     * `processCommand`: only a <Feature Abort> from the AVR in the waiting state is
     * handled. An abort of <Request ARC Termination> switches ARC transmission off and
     * finishes; an abort of <Request ARC Initiation> re-sends the request unless the
     * reason is "unrecognized opcode".
     */
    method ProcessCommand(cmd: Message) returns (consumed: bool)
      requires Valid() && ArcAbortReadable(cmd)
      modifies this
      ensures Valid()
      ensures consumed <==>
        BaseConsumes(old(state) == STATE_WAITING_FOR_REQUEST_ARC_REQUEST_RESPONSE, avrAddress, cmd)
      ensures !consumed ==> unchanged(this)
      ensures consumed && cmd.params[0] == MESSAGE_REQUEST_ARC_TERMINATION ==>
        effects == old(effects) + [StartSetArcTransmissionState(avrAddress, false)] &&
        sent == old(sent) && finished && state == STATE_NONE
      ensures consumed && cmd.params[0] == MESSAGE_REQUEST_ARC_INITIATION ==>
        sent == old(sent) + [RequestArcInitiation(source, avrAddress)] &&
        effects == old(effects) && state == old(state) && timer == old(timer) &&
        finished == old(finished)
    {
      if state != STATE_WAITING_FOR_REQUEST_ARC_REQUEST_RESPONSE || !FromPeer(cmd, avrAddress) {
        return false;
      }
      if cmd.opcode == MESSAGE_FEATURE_ABORT {
        var originalOpcode := cmd.params[0];
        if originalOpcode == MESSAGE_REQUEST_ARC_TERMINATION {
          effects := effects + [StartSetArcTransmissionState(avrAddress, false)];
          Finish();
          return true;
        } else if originalOpcode == MESSAGE_REQUEST_ARC_INITIATION {
          var abortCode := cmd.params[1];
          if abortCode != ABORT_UNRECOGNIZED_OPCODE {
            sent := sent + [RequestArcInitiation(source, avrAddress)];
            return true;
          }
          return false;
        }
        return false;
      }
      return false;
    }

    /** Send completion of a re-sent `sendRequestArcInitiation`: a failure turns ARC off and finishes. */
    method OnResendResult(success: bool)
      requires Valid()
      modifies this
      ensures Valid() && sent == old(sent)
      ensures success ==> unchanged(this)
      ensures !success ==> effects == old(effects) + [SetArcStatus(false)] && finished
    {
      if !success {
        effects := effects + [SetArcStatus(false)];
        Finish();
      }
    }

    /** `handleTimerEvent`: the waiting-state timeout finishes; any other timer is ignored. */
    method HandleTimerEvent(timeoutState: int)
      requires Valid()
      modifies this
      ensures Valid() && sent == old(sent) && effects == old(effects)
      ensures !TimerMatches(old(state), timeoutState) ==> unchanged(this)
      ensures TimerMatches(old(state), timeoutState) ==> finished && state == STATE_NONE
    {
      if !TimerMatches(state, timeoutState) {
        return;
      }
      Finish();
    }
  }
}
