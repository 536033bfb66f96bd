/**
 * `SystemAudioInitiationActionFromAvr`: run by an audio system (AVR) to turn System Audio
 * Mode on (HDMI 1.4b CEC Supplement, CEC 13.15). `start` goes straight to asking the TV
 * whether it supports System Audio Mode; the <Active Source> wait and its timeout are kept
 * in the handlers, but no code of this action enters `STATE_WAITING_FOR_ACTIVE_SOURCE`.
 */
module SystemAudioInitiation {
  import opened Wrappers
  import opened Cec

  const STATE_NONE: int := 0
  const STATE_WAITING_FOR_ACTIVE_SOURCE: int := 1
  const STATE_WAITING_FOR_TV_SUPPORT: int := 2
  const MAX_RETRY_COUNT: nat := 5
  /** `Constants.CEC_SWITCH_PORT_MAX`. */
  const CEC_SWITCH_PORT_MAX: int := 15

  /** Calls into the audio-system local device and the control service. */
  datatype Effect =
    | OneTouchPlay
    | HandleActiveSource(cmd: Message)
    | QueryTvSystemAudioModeSupport
    | CheckSupportAndSetSystemAudioMode(on: bool)
    | SetAndBroadcastActiveSource(path: PhysicalAddress)

  class SystemAudioInitiationActionFromAvr {
    const source: int
    const sourcePath: PhysicalAddress
    var state: int
    var timer: Option<int>
    var requestActiveSourceRetryCount: nat
    var setSystemAudioModeRetryCount: nat
    var sent: seq<Message>
    var effects: seq<Effect>
    var finished: bool

    ghost predicate Valid()
      reads this
    {
      requestActiveSourceRetryCount <= MAX_RETRY_COUNT &&
      setSystemAudioModeRetryCount <= MAX_RETRY_COUNT &&
      (finished ==> timer.None?)
    }

    constructor (src: int, path: PhysicalAddress)
      ensures Valid() && source == src && sourcePath == path
      ensures state == STATE_NONE && timer.None? && sent == [] && effects == [] && !finished
      ensures requestActiveSourceRetryCount == 0 && setSystemAudioModeRetryCount == 0
    {
      source := src;
      sourcePath := path;
      state := STATE_NONE;
      timer := None;
      requestActiveSourceRetryCount := 0;
      setSystemAudioModeRetryCount := 0;
      sent := [];
      effects := [];
      finished := false;
    }

    method Finish()
      requires Valid()
      modifies this
      ensures Valid() && finished && timer.None?
      ensures sent == old(sent) && effects == old(effects)
      ensures requestActiveSourceRetryCount == old(requestActiveSourceRetryCount)
      ensures setSystemAudioModeRetryCount == old(setSystemAudioModeRetryCount)
    {
      state := STATE_NONE;
      timer := None;
      finished := true;
    }

    /**
     * `start`: One Touch Play only when the local active port is `CEC_SWITCH_PORT_MAX`,
     * then always wait for the TV's System Audio Mode support.
     */
    method Start(localActivePort: int) returns (r: bool)
      requires Valid()
      modifies this
      ensures Valid() && r && state == STATE_WAITING_FOR_TV_SUPPORT && sent == old(sent)
      ensures effects == old(effects) +
                (if localActivePort == CEC_SWITCH_PORT_MAX then [OneTouchPlay] else []) +
                [QueryTvSystemAudioModeSupport]
      ensures finished == old(finished) && timer == old(timer)
    {
      if localActivePort == CEC_SWITCH_PORT_MAX {
        effects := effects + [OneTouchPlay];
      }
      state := STATE_WAITING_FOR_TV_SUPPORT;
      effects := effects + [QueryTvSystemAudioModeSupport];
      return true;
    }

    /**
     * `processCommand`: only <Active Source>, and only while waiting for it; the timer is
     * cleared, the frame forwarded to the local device, and the TV queried.
     */
    method ProcessCommand(cmd: Message) returns (consumed: bool)
      requires Valid()
      modifies this
      ensures Valid() && sent == old(sent) && finished == old(finished)
      ensures consumed <==>
                cmd.opcode == MESSAGE_ACTIVE_SOURCE && old(state) == STATE_WAITING_FOR_ACTIVE_SOURCE
      ensures !consumed ==> unchanged(this)
      ensures consumed ==>
                timer.None? && state == STATE_WAITING_FOR_TV_SUPPORT &&
                effects == old(effects) + [HandleActiveSource(cmd), QueryTvSystemAudioModeSupport]
    {
      if cmd.opcode == MESSAGE_ACTIVE_SOURCE {
        if state != STATE_WAITING_FOR_ACTIVE_SOURCE {
          return false;
        }
        timer := None;
        effects := effects + [HandleActiveSource(cmd)];
        state := STATE_WAITING_FOR_TV_SUPPORT;
        effects := effects + [QueryTvSystemAudioModeSupport];
        return true;
      }
      return false;
    }

    /**
     * `handleTimerEvent`: only the <Active Source> wait has a timeout. A playback device
     * then claims active source and queries the TV; otherwise System Audio Mode is set
     * off. Both finish.
     */
    method HandleTimerEvent(timeoutState: int, isPlaybackDevice: bool)
      requires Valid()
      modifies this
      ensures Valid() && sent == old(sent)
      ensures (old(state) != timeoutState || old(state) != STATE_WAITING_FOR_ACTIVE_SOURCE)
                ==> unchanged(this)
      ensures old(state) == timeoutState == STATE_WAITING_FOR_ACTIVE_SOURCE ==>
                finished &&
                effects == old(effects) +
                  (if isPlaybackDevice
                   then [SetAndBroadcastActiveSource(sourcePath), QueryTvSystemAudioModeSupport]
                   else [CheckSupportAndSetSystemAudioMode(false)])
    {
      if state != timeoutState {
        return;
      }
      if state == STATE_WAITING_FOR_ACTIVE_SOURCE {
        if isPlaybackDevice {
          effects := effects + [SetAndBroadcastActiveSource(sourcePath)];
          state := STATE_WAITING_FOR_TV_SUPPORT;
          effects := effects + [QueryTvSystemAudioModeSupport];
        } else {
          effects := effects + [CheckSupportAndSetSystemAudioMode(false)];
        }
        Finish();
      }
    }

    /** `sendRequestActiveSource`. */
    method SendRequestActiveSource()
      modifies this
      ensures sent == old(sent) + [RequestActiveSource(source)]
      ensures effects == old(effects) && state == old(state) && timer == old(timer)
      ensures finished == old(finished)
      ensures requestActiveSourceRetryCount == old(requestActiveSourceRetryCount)
      ensures setSystemAudioModeRetryCount == old(setSystemAudioModeRetryCount)
    {
      sent := sent + [RequestActiveSource(source)];
    }

    /** Send completion of <Request Active Source>: re-send at most five times, then finish. */
    method OnRequestActiveSourceResult(success: bool)
      requires Valid()
      modifies this
      ensures Valid() && effects == old(effects)
      ensures success ==> unchanged(this)
      ensures !success && old(requestActiveSourceRetryCount) < MAX_RETRY_COUNT ==>
                requestActiveSourceRetryCount == old(requestActiveSourceRetryCount) + 1 &&
                sent == old(sent) + [RequestActiveSource(source)] && finished == old(finished)
      ensures !success && old(requestActiveSourceRetryCount) == MAX_RETRY_COUNT ==>
                requestActiveSourceRetryCount == MAX_RETRY_COUNT && sent == old(sent) && finished
    {
      if !success {
        if requestActiveSourceRetryCount < MAX_RETRY_COUNT {
          requestActiveSourceRetryCount := requestActiveSourceRetryCount + 1;
          SendRequestActiveSource();
        } else {
          Finish();
        }
      }
    }

    /**
     * Send completion of <Set System Audio Mode>: re-send at most five times, then set
     * System Audio Mode off and finish.
     */
    method OnSetSystemAudioModeResult(success: bool, on: bool, dest: int)
      requires Valid()
      modifies this
      ensures Valid()
      ensures success ==> unchanged(this)
      ensures !success && old(setSystemAudioModeRetryCount) < MAX_RETRY_COUNT ==>
                setSystemAudioModeRetryCount == old(setSystemAudioModeRetryCount) + 1 &&
                sent == old(sent) + [SetSystemAudioMode(source, dest, on)] &&
                effects == old(effects) && finished == old(finished)
      ensures !success && old(setSystemAudioModeRetryCount) == MAX_RETRY_COUNT ==>
                sent == old(sent) && finished &&
                effects == old(effects) + [CheckSupportAndSetSystemAudioMode(false)]
    {
      if !success {
        if setSystemAudioModeRetryCount < MAX_RETRY_COUNT {
          setSystemAudioModeRetryCount := setSystemAudioModeRetryCount + 1;
          sent := sent + [SetSystemAudioMode(source, dest, on)];
        } else {
          effects := effects + [CheckSupportAndSetSystemAudioMode(false)];
          Finish();
        }
      }
    }

    /**
     * The TV's answer to `queryTvSystemAudioModeSupport`. If supported, the mode is set
     * on locally and broadcast only when that local set succeeds (`localSetSucceeds`);
     * if not, the mode is set off. Both finish.
     */
    method OnTvSupportResult(supported: bool, localSetSucceeds: bool)
      requires Valid()
      modifies this
      ensures Valid() && finished
      ensures supported ==>
                effects == old(effects) + [CheckSupportAndSetSystemAudioMode(true)] &&
                sent == old(sent) +
                  (if localSetSucceeds then [SetSystemAudioMode(source, ADDR_BROADCAST, true)] else [])
      ensures !supported ==>
                effects == old(effects) + [CheckSupportAndSetSystemAudioMode(false)] && sent == old(sent)
    {
      if supported {
        effects := effects + [CheckSupportAndSetSystemAudioMode(true)];
        if localSetSucceeds {
          sent := sent + [SetSystemAudioMode(source, ADDR_BROADCAST, true)];
        }
        Finish();
      } else {
        effects := effects + [CheckSupportAndSetSystemAudioMode(false)];
        Finish();
      }
    }
  }
}
