/**
 * `RequestArcInitiationAction`: the TV asks the AVR to start ARC and waits for
 * <Initiate ARC>. Failed transmissions and timeouts share one retry counter, so the
 * request goes out at most `1 + MAX_SEND_RETRY_COUNT` times.
 */
module RequestArcInitiation {
  import opened Wrappers
  import opened Cec
  import opened RequestArc

  const MAX_SEND_RETRY_COUNT: nat := 2

  function Min(a: nat, b: nat): nat { if a < b then a else b }

  class RequestArcInitiationAction {
    const source: int
    const avrAddress: int
    var state: int
    var timer: Option<int>
    var sendRetryCount: nat
    var sent: seq<Message>
    var effects: seq<Effect>
    var finished: bool
    /** Number of registered callbacks (`addCallback`), and the results delivered to them. */
    var callbacks: nat
    var delivered: seq<int>

    ghost predicate Valid()
      reads this
    {
      ValidEndpoints(source, avrAddress) &&
      (finished ==> state == STATE_NONE && timer.None?) &&
      (forall i :: 0 <= i < |sent| ==> sent[i] == RequestArcInitiation(source, avrAddress)) &&
      (sent == [] ==> sendRetryCount == 0 && state == STATE_NONE) &&
      (sent != [] ==> |sent| == 1 + Min(sendRetryCount, MAX_SEND_RETRY_COUNT))
    }

    /** The number of <Request ARC Initiation> frames sent so far: never more than three. */
    function Transmissions(): (n: nat)
      reads this
      requires Valid()
      ensures n <= 1 + MAX_SEND_RETRY_COUNT
      ensures n == 0 <==> sent == []
    {
      |sent|
    }

    constructor (src: int, avr: int, withCallback: bool)
      requires ValidEndpoints(src, avr)
      ensures Valid() && source == src && avrAddress == avr
      ensures state == STATE_NONE && timer.None? && sendRetryCount == 0 && !finished
      ensures sent == [] && effects == [] && delivered == []
      ensures callbacks == if withCallback then 1 else 0
    {
      source := src;
      avrAddress := avr;
      state := STATE_NONE;
      timer := None;
      sendRetryCount := 0;
      sent := [];
      effects := [];
      finished := false;
      callbacks := if withCallback then 1 else 0;
      delivered := [];
    }

    /** `addCallback`, used by the TV to merge a second request into this action. */
    method AddCallback()
      modifies this
      ensures callbacks == old(callbacks) + 1
      ensures state == old(state) && sent == old(sent) && delivered == old(delivered)
      ensures timer == old(timer) && finished == old(finished) && effects == old(effects)
      ensures sendRetryCount == old(sendRetryCount)
    {
      callbacks := callbacks + 1;
    }

    method Finish()
      requires Valid()
      modifies this
      ensures Valid() && finished && state == STATE_NONE && timer.None?
      ensures sent == old(sent) && effects == old(effects) && delivered == old(delivered)
      ensures sendRetryCount == old(sendRetryCount) && callbacks == old(callbacks)
    {
      state := STATE_NONE;
      timer := None;
      finished := true;
    }

    /** `finishWithCallback`: every registered callback receives `result`, then `finish`. */
    method FinishWithCallback(result: int)
      requires Valid()
      modifies this
      ensures Valid() && finished && state == STATE_NONE && timer.None?
      ensures delivered == old(delivered) + seq(callbacks, _ => result)
      ensures sent == old(sent) && effects == old(effects)
      ensures sendRetryCount == old(sendRetryCount) && callbacks == old(callbacks)
    {
      delivered := delivered + seq(callbacks, _ => result);
      Finish();
    }

    /** `start`: enter the waiting state, arm the timer and send the request. */
    method Start() returns (r: bool)
      requires Valid() && sent == [] && !finished
      modifies this
      ensures Valid() && r
      ensures state == STATE_WAITING_FOR_REQUEST_ARC_REQUEST_RESPONSE && timer == Some(state)
      ensures sent == [RequestArcInitiation(source, avrAddress)] && sendRetryCount == 0
      ensures effects == old(effects) && delivered == old(delivered) && !finished
    {
      state := STATE_WAITING_FOR_REQUEST_ARC_REQUEST_RESPONSE;
      timer := Some(state);
      sent := sent + [RequestArcInitiation(source, avrAddress)];
      return true;
    }

    /**
     * Send completion of `sendArcInitiation`: a failure re-sends while the counter is
     * below the maximum; the failure after that disables ARC on the TV and finishes
     * without a callback.
     */
    method OnSendResult(success: bool)
      requires Valid() && sent != []
      modifies this
      ensures Valid() && delivered == old(delivered)
      ensures success ==> unchanged(this)
      ensures !success ==> sendRetryCount == old(sendRetryCount) + 1
      ensures !success && old(sendRetryCount) < MAX_SEND_RETRY_COUNT ==>
                sent == old(sent) + [RequestArcInitiation(source, avrAddress)] &&
                effects == old(effects) && state == old(state) && timer == old(timer) &&
                finished == old(finished)
      ensures !success && old(sendRetryCount) >= MAX_SEND_RETRY_COUNT ==>
                sent == old(sent) && effects == old(effects) + [DisableArc] && finished
    {
      if !success {
        var count := sendRetryCount;
        sendRetryCount := sendRetryCount + 1;
        if count >= MAX_SEND_RETRY_COUNT {
          effects := effects + [DisableArc];
          Finish();
          return;
        }
        sent := sent + [RequestArcInitiation(source, avrAddress)];
      }
    }

    /**
     * `processCommand`: in the waiting state and from the AVR only. An abort of the
     * request finishes with TARGET_NOT_AVAILABLE and is consumed (ARC is left as it
     * is); <Initiate ARC> finishes with SUCCESS but is left for the TV to handle.
     */
    method ProcessCommand(cmd: Message) returns (consumed: bool)
      requires Valid() && FeatureAbortHasOpcode(cmd)
      modifies this
      ensures Valid() && sent == old(sent) && effects == old(effects)
      ensures consumed <==>
        old(state) == STATE_WAITING_FOR_REQUEST_ARC_REQUEST_RESPONSE && FromPeer(cmd, avrAddress) &&
        cmd.opcode == MESSAGE_FEATURE_ABORT && cmd.params[0] == MESSAGE_REQUEST_ARC_INITIATION
      ensures consumed ==> finished && delivered == old(delivered) + seq(callbacks, _ => RESULT_TARGET_NOT_AVAILABLE)
      ensures old(state) == STATE_WAITING_FOR_REQUEST_ARC_REQUEST_RESPONSE && FromPeer(cmd, avrAddress) &&
              cmd.opcode == MESSAGE_INITIATE_ARC ==>
                finished && delivered == old(delivered) + seq(callbacks, _ => RESULT_SUCCESS)
      ensures !consumed && cmd.opcode != MESSAGE_INITIATE_ARC ==> unchanged(this)
      ensures old(state) != STATE_WAITING_FOR_REQUEST_ARC_REQUEST_RESPONSE ==> unchanged(this)
    {
      if state != STATE_WAITING_FOR_REQUEST_ARC_REQUEST_RESPONSE || !FromPeer(cmd, avrAddress) {
        return false;
      }
      if cmd.opcode == MESSAGE_FEATURE_ABORT {
        var originalOpcode := cmd.params[0];
        if originalOpcode == MESSAGE_REQUEST_ARC_INITIATION {
          FinishWithCallback(RESULT_TARGET_NOT_AVAILABLE);
          return true;
        }
        return false;
      } else if cmd.opcode == MESSAGE_INITIATE_ARC {
        FinishWithCallback(RESULT_SUCCESS);
        return false;
      }
      return false;
    }

    /**
     * `handleTimerEvent`: on the waiting-state timeout, re-arm and re-send while retries
     * remain (the same counter as send failures), else finish with TIMEOUT.
     */
    method HandleTimerEvent(timeoutState: int)
      requires Valid()
      modifies this
      ensures Valid() && effects == old(effects)
      ensures !TimerMatches(old(state), timeoutState) ==> unchanged(this)
      ensures TimerMatches(old(state), timeoutState) ==> sendRetryCount == old(sendRetryCount) + 1
      ensures TimerMatches(old(state), timeoutState) && old(sendRetryCount) < MAX_SEND_RETRY_COUNT ==>
                sent == old(sent) + [RequestArcInitiation(source, avrAddress)] &&
                timer == Some(STATE_WAITING_FOR_REQUEST_ARC_REQUEST_RESPONSE) &&
                state == old(state) && delivered == old(delivered) && !finished
      ensures TimerMatches(old(state), timeoutState) && old(sendRetryCount) >= MAX_SEND_RETRY_COUNT ==>
                sent == old(sent) && finished &&
                delivered == old(delivered) + seq(callbacks, _ => RESULT_TIMEOUT)
    {
      if !TimerMatches(state, timeoutState) {
        return;
      }
      var count := sendRetryCount;
      sendRetryCount := sendRetryCount + 1;
      if count >= MAX_SEND_RETRY_COUNT {
        FinishWithCallback(RESULT_TIMEOUT);
        return;
      }
      timer := Some(state);
      sent := sent + [RequestArcInitiation(source, avrAddress)];
    }
  }
}
