/**
 * The HDMI-in audio path of the TV input service (`AudioStream`): the choice
 * of output device, the start and stop of the capture thread, and the
 * conversions between captured 16-bit PCM bytes and samples.
 *
 * Java `byte` and `short` are signed; casts wrap modulo 2^8 and 2^16.
 */
module AudioStream {
  import opened Wrappers
  import opened Numerals

  type JByte = b: int | -0x80 <= b < 0x80
  type JShort = s: int | -0x8000 <= s < 0x8000

  /** A `(byte)` cast: the low 8 bits, read as a signed value. */
  function Wrap8(x: int): (r: JByte)
    ensures (r - x) % 0x100 == 0
  {
    var m := x % 0x100;
    if m < 0x80 then m else m - 0x100
  }

  /** A `(short)` cast: the low 16 bits, read as a signed value. */
  function Wrap16(x: int): (r: JShort)
    ensures (r - x) % 0x1_0000 == 0
    ensures -0x8000 <= x < 0x8000 ==> r == x
  {
    var m := x % 0x1_0000;
    if m < 0x8000 then m else m - 0x1_0000
  }

  /**
   * `(short) (hi << 8 | lo & 0xff)`: the high byte sign-extended and shifted,
   * the low byte masked. The low 8 bits of `hi << 8` are zero, so the `|`
   * adds the two parts.
   */
  function Sample(lo: JByte, hi: JByte): JShort {
    Wrap16(hi * 0x100 + lo % 0x100)
  }

  /** `(byte) (s >> 0)`. */
  function LowByte(s: JShort): JByte {
    Wrap8(s)
  }

  /** `(byte) (s >> 8)`: an arithmetic shift, which rounds toward minus infinity. */
  function HighByte(s: JShort): JByte {
    Wrap8(s / 0x100)
  }

  /** A sample split into its two bytes and put together again is the same sample. */
  lemma SampleOfBytes(s: JShort)
    ensures Sample(LowByte(s), HighByte(s)) == s
  {
    assert HighByte(s) == s / 0x100;
    assert LowByte(s) % 0x100 == s % 0x100;
  }

  /** Two bytes put together into a sample split into the same two bytes. */
  lemma BytesOfSample(lo: JByte, hi: JByte)
    ensures LowByte(Sample(lo, hi)) == lo && HighByte(Sample(lo, hi)) == hi
  {
    var s := hi * 0x100 + lo % 0x100;
    assert Sample(lo, hi) == s;
    assert s / 0x100 == hi;
    assert s % 0x100 == lo % 0x100;
  }

  /** What `toShortArray` returns: byte pairs read little-endian; an odd trailing byte is dropped. */
  function ShortsOf(bytes: seq<JByte>): (r: seq<JShort>)
    ensures |r| == |bytes| / 2
  {
    seq(|bytes| / 2, i requires 0 <= i < |bytes| / 2 => Sample(bytes[2 * i], bytes[2 * i + 1]))
  }

  /** What `toByteArray(short[])` returns: each sample as two bytes, low byte first. */
  function BytesOf(samples: seq<JShort>): (r: seq<JByte>)
    ensures |r| == 2 * |samples|
  {
    seq(2 * |samples|, i requires 0 <= i < 2 * |samples| =>
      if i % 2 == 0 then LowByte(samples[i / 2]) else HighByte(samples[i / 2]))
  }

  lemma Halves(i: int)
    ensures (2 * i) / 2 == i && (2 * i) % 2 == 0
    ensures (2 * i + 1) / 2 == i && (2 * i + 1) % 2 == 1
  {
  }

  /** The sample `ShortsOf` puts at position `i`. */
  lemma ShortsOfAt(bytes: seq<JByte>, i: int)
    requires 0 <= i < |bytes| / 2
    ensures 2 * i + 1 < |bytes| && ShortsOf(bytes)[i] == Sample(bytes[2 * i], bytes[2 * i + 1])
  {
    assert |bytes| == 2 * (|bytes| / 2) + |bytes| % 2;
  }

  /** The two bytes `BytesOf` puts for sample `k`. */
  lemma BytesOfAt(samples: seq<JShort>, k: int)
    requires 0 <= k < |samples|
    ensures BytesOf(samples)[2 * k] == LowByte(samples[k])
    ensures BytesOf(samples)[2 * k + 1] == HighByte(samples[k])
  {
    Halves(k);
  }

  /** Samples written as bytes read back as the same samples. */
  lemma ShortsOfBytesOf(samples: seq<JShort>)
    ensures ShortsOf(BytesOf(samples)) == samples
  {
    var bytes := BytesOf(samples);
    Halves(|samples|);
    assert |ShortsOf(bytes)| == |samples|;
    forall i | 0 <= i < |samples|
      ensures ShortsOf(bytes)[i] == samples[i]
    {
      ShortsOfAt(bytes, i);
      BytesOfAt(samples, i);
      SampleOfBytes(samples[i]);
    }
  }

  /** Bytes read as samples and written back give the bytes without an odd trailing byte. */
  lemma BytesOfShortsOf(bytes: seq<JByte>)
    ensures BytesOf(ShortsOf(bytes)) == bytes[..|bytes| / 2 * 2]
  {
    var samples := ShortsOf(bytes);
    var n := |bytes| / 2;
    assert |BytesOf(samples)| == 2 * n == |bytes[..n * 2]|;
    forall k | 0 <= k < n
      ensures BytesOf(samples)[2 * k] == bytes[2 * k] && BytesOf(samples)[2 * k + 1] == bytes[2 * k + 1]
    {
      ShortsOfAt(bytes, k);
      BytesOfAt(samples, k);
      BytesOfSample(bytes[2 * k], bytes[2 * k + 1]);
    }
    forall i | 0 <= i < 2 * n
      ensures BytesOf(samples)[i] == bytes[i]
    {
      var k := i / 2;
      assert i == 2 * k || i == 2 * k + 1;
    }
  }

  /** `toShortArray`. */
  method ToShortArray(src: array<JByte>) returns (dest: array<JShort>)
    ensures dest[..] == ShortsOf(src[..])
  {
    var count := src.Length / 2;
    dest := new JShort[count];
    for i := 0 to count
      invariant forall j :: 0 <= j < i ==> dest[j] == Sample(src[2 * j], src[2 * j + 1])
    {
      dest[i] := Sample(src[2 * i + 0], src[i * 2 + 1]);
    }
  }

  /** `toByteArray(short[])`; the `count << 1` overflow of a 2^30-sample array is not modelled. */
  method ToByteArray(src: array<JShort>) returns (dest: array<JByte>)
    ensures dest[..] == BytesOf(src[..])
  {
    var count := src.Length;
    dest := new JByte[2 * count];
    for i := 0 to count
      invariant forall j :: 0 <= j < 2 * i ==> dest[j] == BytesOf(src[..])[j]
    {
      dest[i * 2 + 0] := LowByte(src[i]);
      dest[i * 2 + 1] := HighByte(src[i]);
    }
  }


  /**
   * `toByteArray(byte[], short[])`: writes as many samples as fit, low byte
   * first, and leaves the rest of `dest` as it was.
   */
  method ToByteArrayInto(dest: array<JByte>, src: array<JShort>)
    modifies dest
    ensures forall i :: 0 <= i < dest.Length ==>
              dest[i] == if i < 2 * Min(src.Length, dest.Length / 2) then BytesOf(src[..])[i] else old(dest[i])
  {
    var count := src.Length;
    if dest.Length / 2 < count {
      count := dest.Length / 2;
    }
    for i := 0 to count
      invariant forall j :: 0 <= j < dest.Length ==>
                  dest[j] == if j < 2 * i then BytesOf(src[..])[j] else old(dest[j])
    {
      dest[i * 2 + 0] := LowByte(src[i]);
      dest[i * 2 + 1] := HighByte(src[i]);
    }
  }

  /** `strOutDevice`: the values of `media.audio.device_policy`, by output number. */
  const OUT_DEVICES: seq<string> := ["bypass", "hdmi", "speaker", "usb", "bluetooth",
                                     "hdmi,speaker,usb,bluetooth", ""]
  /** Output 0 routes HDMI-in to the codec's speaker path without a capture thread. */
  const BYPASS_OUTPUT: int := 0
  /** Output 6 lets the audio policy choose the device. */
  const AUTO_OUTPUT: int := 6

  /**
   * The output switcher. Calls into `AudioManager.setParameters` and writes of
   * `media.audio.device_policy` are kept as logs; the capture thread is
   * represented by whether one was ever created and how many were started.
   */
  class AudioStream {
    var isRecording: bool
    var isStartup: bool
    /** `record != null`: a capture thread object exists (it is never reset to null). */
    var hasRecord: bool
    var currOutput: int
    var audioParameters: seq<string>
    var devicePolicy: seq<string>
    var recordThreads: nat

    /**
     * The states `switchAudioOutput` alone reaches from the constructor: until
     * a capture thread exists the switcher is still at output 0 and not
     * started, which `stop`'s early return for a missing thread relies on. A
     * direct `start(0)` leaves the switcher started with no thread, outside
     * this predicate; `SwitchAudioOutput` states what happens from there.
     */
    predicate Valid()
      reads this
    {
      !hasRecord ==> currOutput == BYPASS_OUTPUT && !isStartup
    }

    constructor()
      ensures Valid()
      ensures isRecording && !isStartup && !hasRecord && currOutput == BYPASS_OUTPUT
      ensures audioParameters == [] && devicePolicy == [] && recordThreads == 0
    {
      isRecording := true;
      isStartup := false;
      hasRecord := false;
      currOutput := BYPASS_OUTPUT;
      audioParameters := [];
      devicePolicy := [];
      recordThreads := 0;
    }

    /**
     * `start`: a second start is ignored. Output 0 only enables HDMI-in in the
     * audio HAL; other outputs set the device policy and start a capture
     * thread. An output with no policy name throws (`None`) after the state
     * has already been marked started.
     */
    method Start(output: int) returns (result: Option<bool>)
      modifies this`isStartup, this`currOutput, this`audioParameters, this`devicePolicy
      modifies this`isRecording, this`hasRecord, this`recordThreads
      ensures old(isStartup) ==> result == Some(true) && unchanged(this)
      ensures !old(isStartup) ==> isStartup && currOutput == output
      ensures !old(isStartup) && output == BYPASS_OUTPUT ==>
                && result == Some(true)
                && audioParameters == old(audioParameters) + ["HDMIin_enable=true"]
                && devicePolicy == old(devicePolicy) && hasRecord == old(hasRecord)
                && isRecording == old(isRecording) && recordThreads == old(recordThreads)
      ensures !old(isStartup) && output != BYPASS_OUTPUT && !(0 <= output < |OUT_DEVICES|) ==>
                && result == None
                && audioParameters == old(audioParameters) && devicePolicy == old(devicePolicy)
                && hasRecord == old(hasRecord) && isRecording == old(isRecording)
                && recordThreads == old(recordThreads)
      ensures !old(isStartup) && 0 < output < |OUT_DEVICES| ==>
                && result == Some(true)
                && audioParameters == old(audioParameters)
                && devicePolicy == old(devicePolicy) + [OUT_DEVICES[output]]
                && isRecording && hasRecord && recordThreads == old(recordThreads) + 1
    {
      if isStartup {
        return Some(true);
      }
      isStartup := true;
      currOutput := output;
      if currOutput == BYPASS_OUTPUT {
        audioParameters := audioParameters + ["HDMIin_enable=true"];
        return Some(true);
      }
      if !(0 <= currOutput < |OUT_DEVICES|) {
        return None;
      }
      devicePolicy := devicePolicy + [OUT_DEVICES[currOutput]];
      isRecording := true;
      hasRecord := true;
      recordThreads := recordThreads + 1;
      return Some(true);
    }

    /**
     * `stop`: asks the capture loop to end and, if a capture thread exists,
     * hands the output back to the policy (6) and clears the started flag.
     * Without a thread it returns early with the flag untouched; from a valid
     * state the flag is already clear then.
     */
    method Stop()
      modifies this`isRecording, this`currOutput, this`audioParameters, this`devicePolicy, this`isStartup
      ensures !isRecording
      ensures audioParameters == old(audioParameters) + (if old(currOutput) == BYPASS_OUTPUT then ["HDMIin_enable=false"] else [])
      ensures !hasRecord ==>
                currOutput == old(currOutput) && isStartup == old(isStartup) && devicePolicy == old(devicePolicy)
      ensures hasRecord ==>
                && currOutput == AUTO_OUTPUT && !isStartup
                && devicePolicy == old(devicePolicy) + [OUT_DEVICES[AUTO_OUTPUT]]
      ensures old(Valid()) ==> Valid() && !isStartup
    {
      if currOutput == BYPASS_OUTPUT {
        audioParameters := audioParameters + ["HDMIin_enable=false"];
      }
      isRecording := false;
      if !hasRecord {
        return;
      }
      currOutput := AUTO_OUTPUT;
      devicePolicy := devicePolicy + [OUT_DEVICES[currOutput]];
      isStartup := false;
    }

    /**
     * `switchAudioOutput`: an output without a policy name throws before
     * anything changes; the current output is left alone; any other output is
     * stopped and restarted, and from a valid state ends started on `output`.
     * Started without a capture thread (after a direct `start(0)`), `stop`
     * returns early with the started flag still set, so the restart is
     * ignored: the switcher stays on its output, with HDMI-in switched off.
     */
    method SwitchAudioOutput(output: int) returns (thrown: bool)
      modifies this`isStartup, this`currOutput, this`audioParameters, this`devicePolicy
      modifies this`isRecording, this`hasRecord, this`recordThreads
      ensures thrown <==> !(0 <= output < |OUT_DEVICES|)
      ensures thrown || output == old(currOutput) ==> unchanged(this)
      ensures old(Valid()) ==> Valid()
      ensures old(Valid()) && !thrown && output != old(currOutput) ==> isStartup && currOutput == output
      ensures !old(hasRecord) && old(isStartup) && !thrown && output != old(currOutput) ==>
                && currOutput == old(currOutput) && isStartup && !isRecording
                && audioParameters == old(audioParameters) + (if old(currOutput) == BYPASS_OUTPUT then ["HDMIin_enable=false"] else [])
                && devicePolicy == old(devicePolicy) && !hasRecord && recordThreads == old(recordThreads)
    {
      if !(0 <= output < |OUT_DEVICES|) {
        return true;
      }
      if output == currOutput {
        return false;
      }
      Stop();
      var _ := Start(output);
      return false;
    }

    /**
     * `stop` as its callers evidently expect it: the started flag is cleared
     * even when no capture thread exists, so that the `start` after it acts.
     */
    method StopIntended()
      modifies this`isRecording, this`currOutput, this`audioParameters, this`devicePolicy, this`isStartup
      ensures !isRecording && !isStartup
      ensures audioParameters == old(audioParameters) + (if old(currOutput) == BYPASS_OUTPUT then ["HDMIin_enable=false"] else [])
      ensures !hasRecord ==> currOutput == old(currOutput) && devicePolicy == old(devicePolicy)
      ensures hasRecord ==> currOutput == AUTO_OUTPUT && devicePolicy == old(devicePolicy) + [OUT_DEVICES[AUTO_OUTPUT]]
    {
      if currOutput == BYPASS_OUTPUT {
        audioParameters := audioParameters + ["HDMIin_enable=false"];
      }
      isRecording := false;
      isStartup := false;
      if !hasRecord {
        return;
      }
      currOutput := AUTO_OUTPUT;
      devicePolicy := devicePolicy + [OUT_DEVICES[currOutput]];
    }

    /** `switchAudioOutput` over `StopIntended`: from any state a new output ends started on it. */
    method SwitchAudioOutputIntended(output: int) returns (thrown: bool)
      modifies this`isStartup, this`currOutput, this`audioParameters, this`devicePolicy
      modifies this`isRecording, this`hasRecord, this`recordThreads
      ensures thrown <==> !(0 <= output < |OUT_DEVICES|)
      ensures thrown || output == old(currOutput) ==> unchanged(this)
      ensures !thrown && output != old(currOutput) ==> isStartup && currOutput == output
      ensures !thrown && output != old(currOutput) && output != BYPASS_OUTPUT ==> isRecording && hasRecord
    {
      if !(0 <= output < |OUT_DEVICES|) {
        return true;
      }
      if output == currOutput {
        return false;
      }
      StopIntended();
      var _ := Start(output);
      return false;
    }
  }

  /**
   * A switcher started directly on output 0 cannot be switched away from it:
   * `switchAudioOutput(2)` leaves it on output 0, started, with HDMI-in
   * switched off; the intended switch ends on output 2.
   */
  method BypassStartBlocksSwitch() returns (asWritten: int, intended: int, hdmiIn: seq<string>)
    ensures asWritten == BYPASS_OUTPUT && hdmiIn == ["HDMIin_enable=true", "HDMIin_enable=false"]
    ensures intended == 2
  {
    var a := new AudioStream();
    var _ := a.Start(BYPASS_OUTPUT);
    var _ := a.SwitchAudioOutput(2);
    asWritten := a.currOutput;
    hdmiIn := a.audioParameters;
    var b := new AudioStream();
    var _ := b.Start(BYPASS_OUTPUT);
    var _ := b.SwitchAudioOutputIntended(2);
    intended := b.currOutput;
  }
}
