/**
 * `RequestArcTerminationAction`: the TV asks the AVR to stop ARC. With the eARC flag
 * set, the AVR's <Terminate ARC> (or a timeout) also switches the service to eARC.
 */
module RequestArcTermination {
  import opened Wrappers
  import opened Cec
  import opened RequestArc

  /** The frames `processCommand` consumes. */
  predicate TerminationConsumes(waiting: bool, avr: int, earc: bool, cmd: Message)
    requires FeatureAbortHasOpcode(cmd)
  {
    waiting && FromPeer(cmd, avr) &&
    ((cmd.opcode == MESSAGE_FEATURE_ABORT && cmd.params[0] == MESSAGE_REQUEST_ARC_TERMINATION) ||
     (cmd.opcode == MESSAGE_TERMINATE_ARC && earc))
  }

  /** The calls made when the waiting-state timer fires. */
  function TimeoutEffects(avr: int, earc: bool): (es: seq<Effect>)
    ensures |es| == if earc then 2 else 1
    ensures es[0] == StartSetArcTransmissionState(avr, false)
    ensures SetEarcMode(true) in es <==> earc
  {
    [StartSetArcTransmissionState(avr, false)] + (if earc then [SetEarcMode(true)] else [])
  }

  class RequestArcTerminationAction {
    const source: int
    const avrAddress: int
    const earc: bool
    var state: int
    var timer: Option<int>
    var sent: seq<Message>
    var effects: seq<Effect>
    var finished: bool
    var callbacks: nat

    ghost predicate Valid()
      reads this
    {
      ValidEndpoints(source, avrAddress) && (finished ==> state == STATE_NONE && timer.None?)
    }

    /** The two-argument constructor leaves the eARC flag false. */
    constructor (src: int, avr: int)
      requires ValidEndpoints(src, avr)
      ensures Valid() && source == src && avrAddress == avr && !earc
      ensures state == STATE_NONE && timer.None? && sent == [] && effects == [] && !finished
      ensures callbacks == 0
    {
      source := src;
      avrAddress := avr;
      earc := false;
      state := STATE_NONE;
      timer := None;
      sent := [];
      effects := [];
      finished := false;
      callbacks := 0;
    }

    constructor WithEarc(src: int, avr: int, earcOn: bool)
      requires ValidEndpoints(src, avr)
      ensures Valid() && source == src && avrAddress == avr && earc == earcOn
      ensures state == STATE_NONE && timer.None? && sent == [] && effects == [] && !finished
      ensures callbacks == 0
    {
      source := src;
      avrAddress := avr;
      earc := earcOn;
      state := STATE_NONE;
      timer := None;
      sent := [];
      effects := [];
      finished := false;
      callbacks := 0;
    }

    method AddCallback()
      modifies this
      ensures callbacks == old(callbacks) + 1
      ensures state == old(state) && sent == old(sent) && effects == old(effects)
      ensures timer == old(timer) && finished == old(finished)
    {
      callbacks := callbacks + 1;
    }

    method Finish()
      requires Valid()
      modifies this
      ensures Valid() && finished && state == STATE_NONE && timer.None?
      ensures sent == old(sent) && effects == old(effects) && callbacks == old(callbacks)
    {
      state := STATE_NONE;
      timer := None;
      finished := true;
    }

    /** `start`: enter the waiting state, arm the timer and send <Request ARC Termination>. */
    method Start() returns (r: bool)
      requires Valid() && !finished
      modifies this
      ensures Valid() && r && !finished
      ensures state == STATE_WAITING_FOR_REQUEST_ARC_REQUEST_RESPONSE && timer == Some(state)
      ensures sent == old(sent) + [RequestArcTermination(source, avrAddress)]
      ensures effects == old(effects)
    {
      state := STATE_WAITING_FOR_REQUEST_ARC_REQUEST_RESPONSE;
      timer := Some(state);
      sent := sent + [RequestArcTermination(source, avrAddress)];
      return true;
    }

    /** Send completion: a failure switches ARC transmission off and finishes. */
    method OnSendResult(success: bool)
      requires Valid()
      modifies this
      ensures Valid() && sent == old(sent)
      ensures success ==> unchanged(this)
      ensures !success ==> effects == old(effects) + [StartSetArcTransmissionState(avrAddress, false)]
                           && finished
    {
      if !success {
        effects := effects + [StartSetArcTransmissionState(avrAddress, false)];
        Finish();
      }
    }

    /**
     * `processCommand`: from the AVR in the waiting state, an abort of the termination
     * request switches transmission off and finishes; with the eARC flag, <Terminate ARC>
     * is handed to the TV, eARC mode is switched on, and the action finishes.
     */
    method ProcessCommand(cmd: Message) returns (consumed: bool)
      requires Valid() && FeatureAbortHasOpcode(cmd)
      modifies this
      ensures Valid() && sent == old(sent)
      ensures consumed <==> TerminationConsumes(
                old(state) == STATE_WAITING_FOR_REQUEST_ARC_REQUEST_RESPONSE, avrAddress, earc, cmd)
      ensures !consumed ==> unchanged(this)
      ensures consumed && cmd.opcode == MESSAGE_FEATURE_ABORT ==>
                effects == old(effects) + [StartSetArcTransmissionState(avrAddress, false)] && finished
      ensures consumed && cmd.opcode == MESSAGE_TERMINATE_ARC ==>
                effects == old(effects) + [HandleTerminateArc(cmd), SetEarcMode(true)] && finished
    {
      if state != STATE_WAITING_FOR_REQUEST_ARC_REQUEST_RESPONSE || !FromPeer(cmd, avrAddress) {
        return false;
      }
      if cmd.opcode == MESSAGE_FEATURE_ABORT {
        var originalOpcode := cmd.params[0];
        if originalOpcode == MESSAGE_REQUEST_ARC_TERMINATION {
          effects := effects + [StartSetArcTransmissionState(avrAddress, false)];
          Finish();
          return true;
        }
      } else if cmd.opcode == MESSAGE_TERMINATE_ARC {
        if earc {
          effects := effects + [HandleTerminateArc(cmd), SetEarcMode(true)];
          Finish();
          return true;
        }
      }
      return false;
    }

    /** `handleTimerEvent`: transmission off, eARC on only if flagged, then finish. */
    method HandleTimerEvent(timeoutState: int)
      requires Valid()
      modifies this
      ensures Valid() && sent == old(sent)
      ensures !TimerMatches(old(state), timeoutState) ==> unchanged(this)
      ensures TimerMatches(old(state), timeoutState) ==>
                effects == old(effects) + TimeoutEffects(avrAddress, earc) && finished
    {
      if !TimerMatches(state, timeoutState) {
        return;
      }
      effects := effects + [StartSetArcTransmissionState(avrAddress, false)];
      if earc {
        effects := effects + [SetEarcMode(true)];
      }
      Finish();
    }
  }
}
