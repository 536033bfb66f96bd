/**
 * `ShortAudioDescriptorAction`: the TV asks the AVR for its Short Audio Descriptors one
 * audio format code at a time (CEA-861-D section 7.5.2, codes 1 to 14) and collects the
 * reported descriptor bytes as a lowercase hex string, which it hands to the TV once every
 * code has been asked.
 */
module ShortAudioDescriptor {
  import opened Wrappers
  import opened Numerals
  import opened Cec
  import Strings

  // CEA-861-D audio format codes.
  const AUDIO_FORMAT_RESERVED: int := 0
  const AUDIO_FORMAT_LINEAR_PCM: int := 1
  const AUDIO_FORMAT_AC_3: int := 2
  const AUDIO_FORMAT_MPEG1: int := 3
  const AUDIO_FORMAT_MP3: int := 4
  const AUDIO_FORMAT_MPEG2: int := 5
  const AUDIO_FORMAT_AAC: int := 6
  const AUDIO_FORMAT_DTS: int := 7
  const AUDIO_FORMAT_ATRAC: int := 8
  const AUDIO_FORMAT_ONE_BIT_AUDIO: int := 9
  const AUDIO_FORMAT_DOLBY_DIGITAL_PLUS: int := 10
  const AUDIO_FORMAT_DTS_HD: int := 11
  const AUDIO_FORMAT_MAT: int := 12
  const AUDIO_FORMAT_DST: int := 13
  const AUDIO_FORMAT_WMA_PRO: int := 14
  const AUDIO_FORMAT_RESERVED1: int := 15

  const STATE_NONE: int := 0
  const STATE_WAITING_REPORT: int := 1

  /** Every byte as two lowercase hex digits (`String.format("%02x", b)`), in order. */
  function HexBlock(bs: seq<Byte>): (s: string)
    ensures |s| == 2 * |bs|
  {
    if bs == [] then [] else Hex2(bs[0]) + HexBlock(bs[1..])
  }

  /** The value of one hex digit; a non-digit reads as 0. */
  function DigitOf(c: char): nat {
    if IsHexDigit(c) then HexValue(c) else 0
  }

  /** Reads a block of two-digit hex pairs back into bytes. */
  function DecodeHexBlock(s: string): (bs: seq<int>)
    requires |s| % 2 == 0
    ensures |bs| == |s| / 2
  {
    if s == [] then []
    else [DigitOf(s[0]) * 16 + DigitOf(s[1])] + DecodeHexBlock(s[2..])
  }

  /** A leading pair decodes to one byte ahead of the rest. */
  lemma DecodeFirstPair(b: string, rest: string, v: int)
    requires |rest| % 2 == 0 && |b| == 2 && AllHexDigits(b)
    requires HexValue(b[0]) * 16 + HexValue(b[1]) == v
    ensures DecodeHexBlock(b + rest) == [v] + DecodeHexBlock(rest)
  {
    var s := b + rest;
    assert s[2..] == rest;
  }

  lemma {:induction false} HexBlockRoundTrip(bs: seq<Byte>)
    ensures DecodeHexBlock(HexBlock(bs)) == bs
  {
    if bs != [] {
      DecodeFirstPair(Hex2(bs[0]), HexBlock(bs[1..]), bs[0]);
      HexBlockRoundTrip(bs[1..]);
      assert bs == [bs[0]] + bs[1..];
    }
  }

  lemma {:induction false} HexBlockAppend(a: seq<Byte>, b: seq<Byte>)
    ensures HexBlock(a + b) == HexBlock(a) + HexBlock(b)
    decreases |a|
  {
    if a != [] {
      assert (a + b)[0] == a[0];
      assert (a + b)[1..] == a[1..] + b;
      HexBlockAppend(a[1..], b);
    } else {
      assert a + b == b;
    }
  }

  /** One more byte of input is two more characters of block. */
  lemma HexBlockStep(bs: seq<Byte>, i: nat)
    requires i < |bs|
    ensures HexBlock(bs[..i + 1]) == HexBlock(bs[..i]) + Hex2(bs[i])
  {
    assert bs[..i + 1] == bs[..i] + [bs[i]];
    HexBlockAppend(bs[..i], [bs[i]]);
    assert [bs[i]][1..] == [];
  }

  /** The frames the waiting action handles: an abort of the query, or a report. */
  predicate SadConsumes(cmd: Message)
    requires FeatureAbortHasOpcode(cmd)
  {
    (cmd.opcode == MESSAGE_FEATURE_ABORT && cmd.params[0] == MESSAGE_REQUEST_SHORT_AUDIO_DESCRIPTOR) ||
    cmd.opcode == MESSAGE_REPORT_SHORT_AUDIO_DESCRIPTOR
  }

  /** What a handled frame adds to the block: a report's bytes, an abort nothing. */
  function ReportedBlock(cmd: Message): (s: string)
    ensures |s| == if cmd.opcode == MESSAGE_REPORT_SHORT_AUDIO_DESCRIPTOR then 2 * |cmd.params| else 0
  {
    if cmd.opcode == MESSAGE_REPORT_SHORT_AUDIO_DESCRIPTOR then HexBlock(cmd.params) else ""
  }

  /** The queries sent so far: formats 1, 2, ... in order. */
  ghost predicate QueriesInOrder(sent: seq<Message>, src: int, dev: int)
  {
    forall i :: 0 <= i < |sent| ==>
      i + 1 < 256 && sent[i] == RequestShortAudioDescriptor(src, dev, [i + 1])
  }

  class ShortAudioDescriptorAction {
    const source: int
    const devAddr: int
    /** The action's own state field; `finish` resets the base state, not this one. */
    var state: int
    var formatStart: int
    var audioDataBlock: string
    /** Every descriptor byte reported so far, in order; the block is their hex form. */
    ghost var received: seq<Byte>
    var timer: Option<int>
    var sent: seq<Message>
    var finished: bool
    /** The blocks handed to `tv().setArcAudioDescriptor`. */
    var delivered: seq<string>

    /** The queries sent are the format codes 1, 2, ... in order, so there are at most 14. */
    ghost predicate Valid()
      reads this
    {
      ValidEndpoints(source, devAddr) &&
      0 <= formatStart <= AUDIO_FORMAT_RESERVED1 &&
      |sent| == (if formatStart == 0 then 0 else formatStart - 1) &&
      QueriesInOrder(sent, source, devAddr) &&
      (formatStart == 0 ==> state == STATE_NONE) &&
      audioDataBlock == HexBlock(received) &&
      (finished ==> timer.None?)
    }

    constructor (src: int, dev: int)
      requires ValidEndpoints(src, dev)
      ensures Valid() && source == src && devAddr == dev
      ensures state == STATE_NONE && formatStart == 0 && audioDataBlock == ""
      ensures timer.None? && sent == [] && !finished && delivered == []
    {
      source := src;
      devAddr := dev;
      state := STATE_NONE;
      formatStart := 0;
      audioDataBlock := "";
      received := [];
      timer := None;
      sent := [];
      finished := false;
      delivered := [];
    }

    /**
     * `SendAudioDescriptorQueryMsg`: ask for the next format code and re-arm the timer,
     * or, once all codes have been asked, deliver the block (without finishing).
     */
    method SendQuery()
      requires Valid() && formatStart >= 1 && !finished
      modifies this
      ensures Valid() && !finished && audioDataBlock == old(audioDataBlock)
      ensures old(formatStart) < AUDIO_FORMAT_RESERVED1 ==>
                sent == old(sent) + [RequestShortAudioDescriptor(source, devAddr, [old(formatStart)])] &&
                formatStart == old(formatStart) + 1 && state == STATE_WAITING_REPORT &&
                timer == Some(STATE_WAITING_REPORT) && delivered == old(delivered)
      ensures old(formatStart) == AUDIO_FORMAT_RESERVED1 ==>
                delivered == old(delivered) + [audioDataBlock] && sent == old(sent) &&
                formatStart == old(formatStart) && state == old(state) && timer == old(timer)
    {
      if formatStart < AUDIO_FORMAT_RESERVED1 {
        var params := [formatStart];
        formatStart := formatStart + 1;
        state := STATE_WAITING_REPORT;
        timer := Some(state);
        sent := sent + [RequestShortAudioDescriptor(source, devAddr, params)];
      } else {
        delivered := delivered + [audioDataBlock];
      }
    }

    /** `start`: begin at LPCM with an empty block and send the first query. */
    method Start() returns (r: bool)
      requires Valid() && formatStart == 0 && !finished
      modifies this
      ensures Valid() && r && !finished
      ensures sent == [RequestShortAudioDescriptor(source, devAddr, [AUDIO_FORMAT_LINEAR_PCM])]
      ensures formatStart == AUDIO_FORMAT_LINEAR_PCM + 1 && audioDataBlock == "" && received == []
      ensures state == STATE_WAITING_REPORT && timer == Some(STATE_WAITING_REPORT)
      ensures delivered == old(delivered)
    {
      state := STATE_WAITING_REPORT;
      formatStart := AUDIO_FORMAT_LINEAR_PCM;
      audioDataBlock := "";
      received := [];
      SendQuery();
      return true;
    }

    /** Appends every reported byte to the block as two lowercase hex digits. */
    method AppendDescriptors(params: seq<Byte>)
      requires Valid()
      modifies this`audioDataBlock, this`received
      ensures Valid() && audioDataBlock == old(audioDataBlock) + HexBlock(params)
      ensures received == old(received) + params
      ensures sent == old(sent) && formatStart == old(formatStart) && state == old(state)
      ensures timer == old(timer) && finished == old(finished) && delivered == old(delivered)
    {
      var i := 0;
      while i < |params|
        invariant 0 <= i <= |params|
        invariant audioDataBlock == old(audioDataBlock) + HexBlock(params[..i])
        invariant received == old(received)
      {
        HexBlockStep(params, i);
        Strings.AppendAssoc(old(audioDataBlock), HexBlock(params[..i]), Hex2(params[i]));
        audioDataBlock := audioDataBlock + Hex2(params[i]);
        i := i + 1;
      }
      assert params[..i] == params;
      HexBlockAppend(received, params);
      received := received + params;
    }

    /**
     * `processCommand`: in the waiting state, a <Feature Abort> of the query moves on to
     * the next format without appending, and a <Report Short Audio Descriptor> appends its
     * bytes and moves on. Frames are taken from any sender.
     */
    method ProcessCommand(cmd: Message) returns (consumed: bool)
      requires Valid() && FeatureAbortHasOpcode(cmd) && !finished
      modifies this
      ensures Valid() && !finished
      ensures consumed <==> (old(state) == STATE_WAITING_REPORT && SadConsumes(cmd))
      ensures !consumed ==> unchanged(this)
      ensures consumed ==>
        audioDataBlock == old(audioDataBlock) + ReportedBlock(cmd)
      ensures consumed && old(formatStart) < AUDIO_FORMAT_RESERVED1 ==>
        sent == old(sent) + [RequestShortAudioDescriptor(source, devAddr, [old(formatStart)])] &&
        formatStart == old(formatStart) + 1 && delivered == old(delivered)
      ensures consumed && old(formatStart) == AUDIO_FORMAT_RESERVED1 ==>
        sent == old(sent) && delivered == old(delivered) + [audioDataBlock]
    {
      if state != STATE_WAITING_REPORT {
        return false;
      }
      if cmd.opcode == MESSAGE_FEATURE_ABORT {
        var originalOpcode := cmd.params[0];
        if originalOpcode == MESSAGE_REQUEST_SHORT_AUDIO_DESCRIPTOR {
          SendQuery();
          return true;
        }
      } else if cmd.opcode == MESSAGE_REPORT_SHORT_AUDIO_DESCRIPTOR {
        AppendDescriptors(cmd.params);
        SendQuery();
        return true;
      }
      return false;
    }

    method Finish()
      requires Valid()
      modifies this
      ensures Valid() && finished && timer.None?
      ensures state == old(state) && sent == old(sent) && formatStart == old(formatStart)
      ensures audioDataBlock == old(audioDataBlock) && delivered == old(delivered)
    {
      timer := None;
      finished := true;
    }

    /** Send completion of a query: a failure finishes without delivering the block. */
    method OnSendResult(success: bool)
      requires Valid()
      modifies this
      ensures Valid() && delivered == old(delivered) && sent == old(sent)
      ensures success ==> unchanged(this)
      ensures !success ==> finished
    {
      if !success {
        Finish();
      }
    }

    /** `handleTimerEvent`: a timeout in the waiting state finishes without delivering. */
    method HandleTimerEvent(timeoutState: int)
      requires Valid()
      modifies this
      ensures Valid() && delivered == old(delivered) && sent == old(sent)
      ensures !(old(state) == timeoutState == STATE_WAITING_REPORT) ==> unchanged(this)
      ensures old(state) == timeoutState == STATE_WAITING_REPORT ==> finished
    {
      if state != timeoutState || state != STATE_WAITING_REPORT {
        return;
      }
      Finish();
    }
  }

  /** The delivered block decodes back to exactly the bytes the AVR reported, in order. */
  lemma BlockDecodesToReports(action: ShortAudioDescriptorAction)
    requires action.Valid()
    ensures |action.audioDataBlock| == 2 * |action.received|
    ensures DecodeHexBlock(action.audioDataBlock) == action.received
  {
    HexBlockRoundTrip(action.received);
  }
}
