/**
 * `JTvInputHal`: the JNI glue between the TV input HAL and the framework.
 * Modelled here are three pieces of it:
 *
 *  - the text of an audio device address that `onDeviceAvailable` hands
 *    to `TvInputHardwareInfo.Builder.audioAddress`;
 *  - the wrapping and filtering of TV message events;
 *  - the buffer bookkeeping of `BufferProducerThread::onCaptured`, which
 *    reacts to the HAL reporting a captured preview frame.
 */
module TvInputHal {
  import opened Wrappers
  import opened Numerals
  import opened Strings

  // ------------------------------------------------------------ audio addresses

  /** An unsigned byte of a MAC or IPv4 address. */
  type Byte = b: int | 0 <= b < 256

  /** The audio device type; only whether it is `NONE` matters here. */
  datatype AudioDeviceType = NoAudioDevice | AudioDevice(code: int)

  /** The tagged union `AudioDeviceAddress`. */
  datatype AudioDeviceAddress =
    | Id(id: string)
    | Mac(mac: seq<Byte>)
    | Ipv4(ipv4: seq<Byte>)
    | Ipv6(ipv6: seq<int>)
    | Alsa(alsa: seq<int>)

  /** What `onDeviceAvailable` passes on as the audio address. */
  datatype AddressOutcome =
    | NoAddress                 // audio type NONE: no address is set
    | AddressText(text: string) // the address text
    | AlsaOutOfBounds           // an ALSA address with fewer than two entries is read past its end

  /** One MAC byte: uppercase hexadecimal, zero-padded to two digits. */
  function HexByte(b: Byte): string {
    PadLeft(HexDigits(b, true), 2, '0')
  }

  /** One IPv6 word: uppercase hexadecimal of its unsigned 32-bit view, zero-padded to at least four digits. */
  function HexWord(w: int): string {
    PadLeft(HexDigits(w % TWO_32, true), 4, '0')
  }

  /** A MAC byte takes exactly two hex digits, which read back as the byte. */
  lemma HexByteValue(b: Byte)
    ensures |HexByte(b)| == 2 && AllHexDigits(HexByte(b))
    ensures HexStringValue(HexByte(b)) == b
  {
    HexDigitsWellFormed(b, true);
    assert b >= 16 ==> HexDigits(b, true) == HexDigits(b / 16, true) + [HexChar(b % 16, true)];
    PaddedHexValue(HexDigits(b, true), 2);
  }

  /** An IPv6 word takes at least four hex digits, which read back as its unsigned 32-bit view. */
  lemma HexWordValue(w: int)
    ensures |HexWord(w)| >= 4 && AllHexDigits(HexWord(w))
    ensures HexStringValue(HexWord(w)) == w % TWO_32
  {
    HexDigitsWellFormed(w % TWO_32, true);
    PaddedHexValue(HexDigits(w % TWO_32, true), 4);
  }

  /** Leading zeros do not change the value of a hexadecimal string. */
  lemma PaddedHexValue(s: string, width: nat)
    requires AllHexDigits(s)
    ensures AllHexDigits(PadLeft(s, width, '0'))
    ensures HexStringValue(PadLeft(s, width, '0')) == HexStringValue(s)
  {
    if |s| < width {
      LeadingZerosValue(seq(width - |s|, _ => '0'), s);
    }
  }

  lemma {:induction false} LeadingZerosValue(zeros: string, s: string)
    requires forall i :: 0 <= i < |zeros| ==> zeros[i] == '0'
    requires AllHexDigits(s)
    ensures AllHexDigits(zeros + s)
    ensures HexStringValue(zeros + s) == HexStringValue(s)
    decreases |zeros + s|
  {
    assert AllHexDigits(zeros + s) by {
      forall i | 0 <= i < |zeros + s|
        ensures IsHexDigit((zeros + s)[i])
      {
        if i >= |zeros| { assert (zeros + s)[i] == s[i - |zeros|]; }
      }
    }
    if s == [] {
      assert zeros + s == zeros;
      if zeros != [] {
        LeadingZerosValue(zeros[..|zeros| - 1], []);
        assert zeros[..|zeros| - 1] + [] == zeros[..|zeros| - 1];
      }
    } else {
      LeadingZerosValue(zeros, s[..|s| - 1]);
      assert (zeros + s)[..|zeros + s| - 1] == zeros + s[..|s| - 1];
    }
  }

  /** "AA:0B:…": the bytes as two uppercase hex digits, separated by ':'. */
  function MacText(mac: seq<Byte>): string
    decreases |mac|
  {
    if |mac| == 0 then ""
    else if |mac| == 1 then HexByte(mac[0])
    else MacText(mac[..|mac| - 1]) + [':'] + HexByte(mac[|mac| - 1])
  }

  /** "192.168.0.1": the bytes in decimal, separated by '.'. */
  function Ipv4Text(ipv4: seq<Byte>): string
    decreases |ipv4|
  {
    if |ipv4| == 0 then ""
    else if |ipv4| == 1 then DecDigits(ipv4[0])
    else Ipv4Text(ipv4[..|ipv4| - 1]) + ['.'] + DecDigits(ipv4[|ipv4| - 1])
  }

  /** "FE80:0000:…": the words as at least four uppercase hex digits, separated by ':'. */
  function Ipv6Text(ipv6: seq<int>): string
    decreases |ipv6|
  {
    if |ipv6| == 0 then ""
    else if |ipv6| == 1 then HexWord(ipv6[0])
    else Ipv6Text(ipv6[..|ipv6| - 1]) + [':'] + HexWord(ipv6[|ipv6| - 1])
  }

  /** "card=<a[0]>;device=<a[1]>". */
  function AlsaText(card: int, device: int): string {
    ("card=" + IntToDec(card)) + [';'] + ("device=" + IntToDec(device))
  }

  /** The audio address `onDeviceAvailable` builds for a device of the given audio type. */
  function AudioAddressOutcome(audioType: AudioDeviceType, address: AudioDeviceAddress): AddressOutcome {
    if audioType.NoAudioDevice? then NoAddress
    else
      match address
      case Id(id) => AddressText(CStr(id))
      case Mac(mac) => AddressText(MacText(mac))
      case Ipv4(ipv4) => AddressText(Ipv4Text(ipv4))
      case Ipv6(ipv6) => AddressText(Ipv6Text(ipv6))
      case Alsa(alsa) => if |alsa| < 2 then AlsaOutOfBounds else AddressText(AlsaText(alsa[0], alsa[1]))
  }

  // The three stream loops, each proved against its text.

  lemma MacTextStep(mac: seq<Byte>, i: nat)
    requires i < |mac|
    ensures MacText(mac[..i + 1]) == if i == 0 then HexByte(mac[0]) else MacText(mac[..i]) + [':'] + HexByte(mac[i])
  {
    var prefix := mac[..i + 1];
    assert prefix[..i] == mac[..i] && prefix[i] == mac[i];
  }

  method FormatMac(mac: seq<Byte>) returns (s: string)
    ensures s == MacText(mac)
  {
    s := "";
    var i := 0;
    while i < |mac|
      invariant 0 <= i <= |mac|
      invariant s == MacText(mac[..i])
    {
      if i != 0 {
        s := s + [':'];
      }
      s := s + HexByte(mac[i]);
      MacTextStep(mac, i);
      i := i + 1;
    }
    assert mac[..i] == mac;
  }

  lemma Ipv4TextStep(ipv4: seq<Byte>, i: nat)
    requires i < |ipv4|
    ensures Ipv4Text(ipv4[..i + 1]) == if i == 0 then DecDigits(ipv4[0]) else Ipv4Text(ipv4[..i]) + ['.'] + DecDigits(ipv4[i])
  {
    var prefix := ipv4[..i + 1];
    assert prefix[..i] == ipv4[..i] && prefix[i] == ipv4[i];
  }

  method FormatIpv4(ipv4: seq<Byte>) returns (s: string)
    ensures s == Ipv4Text(ipv4)
  {
    s := "";
    var i := 0;
    while i < |ipv4|
      invariant 0 <= i <= |ipv4|
      invariant s == Ipv4Text(ipv4[..i])
    {
      if i != 0 {
        s := s + ['.'];
      }
      s := s + DecDigits(ipv4[i]);
      Ipv4TextStep(ipv4, i);
      i := i + 1;
    }
    assert ipv4[..i] == ipv4;
  }

  lemma Ipv6TextStep(ipv6: seq<int>, i: nat)
    requires i < |ipv6|
    ensures Ipv6Text(ipv6[..i + 1]) == if i == 0 then HexWord(ipv6[0]) else Ipv6Text(ipv6[..i]) + [':'] + HexWord(ipv6[i])
  {
    var prefix := ipv6[..i + 1];
    assert prefix[..i] == ipv6[..i] && prefix[i] == ipv6[i];
  }

  method FormatIpv6(ipv6: seq<int>) returns (s: string)
    ensures s == Ipv6Text(ipv6)
  {
    s := "";
    var i := 0;
    while i < |ipv6|
      invariant 0 <= i <= |ipv6|
      invariant s == Ipv6Text(ipv6[..i])
    {
      if i != 0 {
        s := s + [':'];
      }
      s := s + HexWord(ipv6[i]);
      Ipv6TextStep(ipv6, i);
      i := i + 1;
    }
    assert ipv6[..i] == ipv6;
  }

  /** The audio-address part of `onDeviceAvailable`. */
  method FormatAudioAddress(audioType: AudioDeviceType, address: AudioDeviceAddress) returns (r: AddressOutcome)
    ensures r == AudioAddressOutcome(audioType, address)
  {
    if audioType.NoAudioDevice? {
      return NoAddress;
    }
    match address {
      case Id(id) =>
        r := AddressText(CStr(id));
      case Mac(mac) =>
        var s := FormatMac(mac);
        r := AddressText(s);
      case Ipv4(ipv4) =>
        var s := FormatIpv4(ipv4);
        r := AddressText(s);
      case Ipv6(ipv6) =>
        var s := FormatIpv6(ipv6);
        r := AddressText(s);
      case Alsa(alsa) =>
        if |alsa| < 2 {
          r := AlsaOutOfBounds;
        } else {
          r := AddressText(AlsaText(alsa[0], alsa[1]));
        }
    }
  }

  // Reading an address text back.

  /** The value of one field: a non-empty run of digits of the given base. */
  function FieldValue(field: string, hex: bool): Option<nat> {
    if hex then
      if |field| > 0 && AllHexDigits(field) then Some(HexStringValue(field)) else None
    else
      if |field| > 0 && AllDigits(field) then Some(DecValue(field)) else None
  }

  /** The values of the fields, none if any field is not a number. */
  function FieldValues(fields: seq<string>, hex: bool): Option<seq<nat>>
    decreases |fields|
  {
    if fields == [] then Some([])
    else
      var init := FieldValues(fields[..|fields| - 1], hex);
      var last := FieldValue(fields[|fields| - 1], hex);
      if init.Some? && last.Some? then Some(init.value + [last.value]) else None
  }

  /** The numbers of an address text: the fields between separators, none for the empty text. */
  function ParseAddress(s: string, sep: char, hex: bool): Option<seq<nat>> {
    if s == [] then Some([]) else FieldValues(Split(s, sep), hex)
  }

  /** Parsing a text with one more field appends that field's value. */
  lemma ParseSnoc(s: string, sep: char, hex: bool, field: string)
    requires s != [] && sep !in field
    ensures ParseAddress(s + [sep] + field, sep, hex) ==
      if ParseAddress(s, sep, hex).Some? && FieldValue(field, hex).Some? then
        Some(ParseAddress(s, sep, hex).value + [FieldValue(field, hex).value])
      else None
  {
    SplitSnoc(s, sep, field);
    LastOfSnoc(Split(s, sep), field);
  }

  lemma LastOfSnoc<T>(a: seq<T>, x: T)
    ensures (a + [x])[..|a|] == a && (a + [x])[|a|] == x
  {
  }

  lemma OneField(field: string, hex: bool)
    ensures FieldValues([field], hex) ==
      if FieldValue(field, hex).Some? then Some([FieldValue(field, hex).value]) else None
  {
    var fields := [field];
    assert fields[..0] == [];
    assert FieldValues(fields[..0], hex) == Some([]);
    assert fields[0] == field;
    assert FieldValue(field, hex).Some? ==> [] + [FieldValue(field, hex).value] == [FieldValue(field, hex).value];
  }

  /** A text without separators is one field. */
  lemma ParseOne(g: string, sep: char, hex: bool)
    requires g != [] && sep !in g
    ensures ParseAddress(g, sep, hex) ==
      if FieldValue(g, hex).Some? then Some([FieldValue(g, hex).value]) else None
  {
    assert Split(g, sep) == [g];
    OneField(g, hex);
  }

  lemma InitAndLast<T>(s: seq<T>)
    requires |s| > 0
    ensures s[..|s| - 1] + [s[|s| - 1]] == s
  {
  }

  /** A MAC text reads back as its bytes, and each byte takes exactly two characters. */
  lemma {:induction false} MacRoundTrip(mac: seq<Byte>)
    ensures ParseAddress(MacText(mac), ':', true) == Some(mac)
    ensures |mac| > 0 ==> |MacText(mac)| == 3 * |mac| - 1
    decreases |mac|
  {
    if |mac| > 0 {
      var g := HexByte(mac[|mac| - 1]);
      HexByteValue(mac[|mac| - 1]);
      assert ':' !in g;
      if |mac| == 1 {
        ParseOne(g, ':', true);
        assert [mac[0]] == mac;
      } else {
        var init := mac[..|mac| - 1];
        MacRoundTrip(init);
        assert MacText(mac) == MacText(init) + [':'] + g;
        assert FieldValue(g, true) == Some(mac[|mac| - 1]);
        ParseSnoc(MacText(init), ':', true, g);
        InitAndLast(mac);
      }
    }
  }

  /** An IPv4 byte takes one to three decimal digits, which read back as the byte. */
  lemma DecByteValue(b: Byte)
    ensures 1 <= |DecDigits(b)| <= 3 && AllDigits(DecDigits(b)) && '.' !in DecDigits(b)
    ensures DecValue(DecDigits(b)) == b
  {
    DecDigitsWellFormed(b);
    DecByteLength(b);
  }

  lemma DecByteLength(b: Byte)
    ensures |DecDigits(b)| <= 3
  {
    if b >= 10 {
      var q := b / 10;
      assert q < 26;
      assert |DecDigits(b)| == |DecDigits(q)| + 1;
      if q >= 10 {
        assert q / 10 < 10;
        assert |DecDigits(q)| == |DecDigits(q / 10)| + 1;
      }
    }
  }

  /** An IPv4 text reads back as its bytes. */
  lemma {:induction false} Ipv4RoundTrip(ipv4: seq<Byte>)
    ensures ParseAddress(Ipv4Text(ipv4), '.', false) == Some(ipv4)
    ensures |ipv4| > 0 ==> 2 * |ipv4| - 1 <= |Ipv4Text(ipv4)| <= 4 * |ipv4| - 1
    decreases |ipv4|
  {
    if |ipv4| > 0 {
      var b := ipv4[|ipv4| - 1];
      var g := DecDigits(b);
      DecByteValue(b);
      if |ipv4| == 1 {
        ParseOne(g, '.', false);
        assert [b] == ipv4;
      } else {
        var init := ipv4[..|ipv4| - 1];
        Ipv4RoundTrip(init);
        assert Ipv4Text(ipv4) == Ipv4Text(init) + ['.'] + g;
        assert FieldValue(g, false) == Some(b);
        ParseSnoc(Ipv4Text(init), '.', false, g);
        InitAndLast(ipv4);
      }
    }
  }

  /** The unsigned 32-bit views of the words. */
  function Unsigned32(words: seq<int>): (r: seq<nat>)
    ensures |r| == |words|
    decreases |words|
  {
    if words == [] then [] else Unsigned32(words[..|words| - 1]) + [words[|words| - 1] % TWO_32]
  }

  /** An IPv6 text reads back as the unsigned 32-bit views of its words, each taking at least four characters. */
  lemma {:induction false} Ipv6RoundTrip(ipv6: seq<int>)
    ensures ParseAddress(Ipv6Text(ipv6), ':', true) == Some(Unsigned32(ipv6))
    ensures |ipv6| > 0 ==> |Ipv6Text(ipv6)| >= 5 * |ipv6| - 1
    decreases |ipv6|
  {
    if |ipv6| > 0 {
      var g := HexWord(ipv6[|ipv6| - 1]);
      HexWordValue(ipv6[|ipv6| - 1]);
      assert ':' !in g;
      if |ipv6| == 1 {
        ParseOne(g, ':', true);
        assert ipv6[..0] == [];
        assert Unsigned32(ipv6) == [] + [ipv6[0] % TWO_32];
      } else {
        var init := ipv6[..|ipv6| - 1];
        Ipv6RoundTrip(init);
        assert Ipv6Text(ipv6) == Ipv6Text(init) + [':'] + g;
        assert FieldValue(g, true) == Some(ipv6[|ipv6| - 1] % TWO_32);
        ParseSnoc(Ipv6Text(init), ':', true, g);
        assert ParseAddress(Ipv6Text(ipv6), ':', true) == Some(Unsigned32(init) + [ipv6[|ipv6| - 1] % TWO_32]);
      }
    }
  }

  lemma CardFieldHasNoSemicolon(card: int)
    ensures ';' !in "card=" + IntToDec(card)
  {
    IntToDecShape(card);
    var f := "card=" + IntToDec(card);
    forall i | 0 <= i < |f|
      ensures f[i] != ';'
    {
      if i >= 5 {
        assert f[i] == IntToDec(card)[i - 5];
      }
    }
  }

  /** ALSA texts of different card or device numbers differ. */
  lemma AlsaTextInjective(card: int, device: int, card': int, device': int)
    requires AlsaText(card, device) == AlsaText(card', device')
    ensures card == card' && device == device'
  {
    var c, c' := IntToDec(card), IntToDec(card');
    CardFieldHasNoSemicolon(card);
    CardFieldHasNoSemicolon(card');
    SeparatorSplitsUniquely("card=" + c, ';', "device=" + IntToDec(device), "card=" + c', "device=" + IntToDec(device'));
    assert ("card=" + c)[5..] == c && ("card=" + c')[5..] == c';
    IntToDecInjective(card, card');
    assert ("device=" + IntToDec(device))[7..] == IntToDec(device);
    assert ("device=" + IntToDec(device'))[7..] == IntToDec(device');
    IntToDecInjective(device, device');
  }

  /**
   * No address exactly for audio type NONE; an out-of-bounds read exactly for
   * a short ALSA address; an id without NUL characters is passed on verbatim.
   */
  lemma AudioAddressFacts(audioType: AudioDeviceType, address: AudioDeviceAddress)
    ensures audioType.NoAudioDevice? <==> AudioAddressOutcome(audioType, address).NoAddress?
    ensures AudioAddressOutcome(audioType, address).AlsaOutOfBounds? <==>
      audioType.AudioDevice? && address.Alsa? && |address.alsa| < 2
    ensures audioType.AudioDevice? && address.Id? && '\0' !in address.id ==>
      AudioAddressOutcome(audioType, address) == AddressText(address.id)
  {
    if audioType.AudioDevice? && address.Id? && '\0' !in address.id {
      CLengthOfNulFree(address.id);
    }
  }

  // ------------------------------------------------------------ TV message events

  const DEVICE_ID_SUBTYPE: string := "device_id"

  /** One `TvMessage`: `data` stands for its payload. */
  datatype TvMessage = TvMessage(subType: string, groupId: int, data: seq<int>)

  datatype TvMessageEvent = TvMessageEvent(eventType: int, streamId: int, messages: seq<TvMessage>)

  datatype TvMessageEventWrapper = TvMessageEventWrapper(eventType: int, streamId: int, deviceId: int, messages: seq<TvMessage>)

  /**
   * `TvMessageEventWrapper::createEventWrapper`: the first message carries
   * the device id and is dropped; the rest are kept in order.
   */
  function CreateEventWrapper(event: TvMessageEvent): (w: TvMessageEventWrapper)
    requires |event.messages| >= 1
    ensures |w.messages| == |event.messages| - 1
    ensures forall i :: 0 <= i < |w.messages| ==> w.messages[i] == event.messages[i + 1]
    ensures w.deviceId == event.messages[0].groupId
    ensures w.eventType == event.eventType && w.streamId == event.streamId
  {
    TvMessageEventWrapper(event.eventType, event.streamId, event.messages[0].groupId, event.messages[1..])
  }

  /** `notifyTvMessageEvent`: the wrapper sent to the looper, if any. */
  function NotifyTvMessageEvent(event: TvMessageEvent): Option<TvMessageEventWrapper> {
    if |event.messages| > 1 && event.messages[0].subType == DEVICE_ID_SUBTYPE then Some(CreateEventWrapper(event))
    else None
  }

  /**
   * An event is forwarded exactly when it has a leading "device_id" message
   * and at least one more; the forwarded wrapper is never empty.
   */
  lemma NotifyForwardsIff(event: TvMessageEvent)
    ensures NotifyTvMessageEvent(event).Some? <==>
      |event.messages| >= 2 && event.messages[0].subType == DEVICE_ID_SUBTYPE
    ensures NotifyTvMessageEvent(event).Some? ==> |NotifyTvMessageEvent(event).value.messages| >= 1
  {
  }

  /** The header message rebuilt from a wrapper, put back in front, gives the event's messages. */
  lemma WrapperKeepsMessages(event: TvMessageEvent, header: TvMessage)
    requires |event.messages| >= 1 && header == event.messages[0]
    ensures var w := CreateEventWrapper(event);
      [TvMessage(header.subType, w.deviceId, header.data)] + w.messages == event.messages
  {
    var w := CreateEventWrapper(event);
    assert [TvMessage(header.subType, w.deviceId, header.data)] == [event.messages[0]];
  }

  /**
   * A forwarded wrapper determines everything of its event except the
   * payload of the dropped header message.
   */
  lemma ForwardedWrapperDeterminesTail(e1: TvMessageEvent, e2: TvMessageEvent)
    requires NotifyTvMessageEvent(e1).Some? && NotifyTvMessageEvent(e1) == NotifyTvMessageEvent(e2)
    ensures e1.eventType == e2.eventType && e1.streamId == e2.streamId
    ensures |e1.messages| == |e2.messages|
    ensures e1.messages[0].groupId == e2.messages[0].groupId && e1.messages[0].subType == e2.messages[0].subType
    ensures e1.messages[1..] == e2.messages[1..]
  {
  }

  // ------------------------------------------------------------ onCaptured

  /** `mBufferState`. */
  datatype BufferState = Capturing | Captured | Released

  /** `buffStatus` of a preview buffer. */
  datatype BuffStatus = Queued | Dequeued | QueuedFailed | DequeuedFailed

  /**
   * The fields of `BufferProducerThread` that `onCaptured` reads or writes.
   * `hasSurface` stands for `mSurface != NULL`; `queuedToSurface` records the
   * indexes of the preview buffers handed to `queueBuffer`, in order.
   */
  datatype ProducerState = ProducerState(
    shutdown: bool,
    hasSurface: bool,
    seqNo: int,
    currBuffId: int,
    firstCaptured: bool,
    alreadyShowSignal: bool,
    bufferState: BufferState,
    buffIds: seq<int>,
    statuses: seq<BuffStatus>,
    queuedToSurface: seq<nat>)

  /** The preview pool is consistent, and a surface comes with at least one buffer. */
  predicate ProducerInvariant(p: ProducerState) {
    |p.statuses| == |p.buffIds| && (p.hasSurface ==> |p.buffIds| > 0) &&
    (forall k :: 0 <= k < |p.queuedToSurface| ==> p.queuedToSurface[k] < |p.buffIds|)
  }

  /**
   * `onCaptured(buffId, buffSeq, succeeded)`; `queueOk` is whether the
   * surface accepted the matching buffer (the show-signal queue result is
   * ignored by the source).
   */
  function OnCapturedStep(p: ProducerState, buffId: int, buffSeq: int, succeeded: bool, queueOk: bool): ProducerState
    requires ProducerInvariant(p)
  {
    if p.shutdown then p
    else
      var p := p.(seqNo := buffSeq);
      if !(succeeded && p.hasSurface) then p
      else if buffId == 0 && !p.alreadyShowSignal then
        p.(alreadyShowSignal := true, queuedToSurface := p.queuedToSurface + [|p.buffIds| - 1])
      else if p.alreadyShowSignal then p
      else QueueMatching(p, buffId, queueOk)
  }

  /** The search loop of `onCaptured`: the first buffer with the reported id is queued, and marked on success. */
  function QueueMatching(p: ProducerState, buffId: int, queueOk: bool): ProducerState
    requires ProducerInvariant(p)
  {
    match IndexOf(p.buffIds, buffId)
    case None => p
    case Some(i) =>
      var p := p.(queuedToSurface := p.queuedToSurface + [i]);
      if !queueOk then p
      else
        p.(statuses := p.statuses[i := Queued], currBuffId := buffId,
           bufferState := if p.firstCaptured then Capturing else Released,
           firstCaptured := false)
  }

  /** `onCaptured` keeps the pool consistent. */
  lemma OnCapturedKeepsInvariant(p: ProducerState, buffId: int, buffSeq: int, succeeded: bool, queueOk: bool)
    requires ProducerInvariant(p)
    ensures ProducerInvariant(OnCapturedStep(p, buffId, buffSeq, succeeded, queueOk))
    ensures OnCapturedStep(p, buffId, buffSeq, succeeded, queueOk).buffIds == p.buffIds
  {
  }

  /** After shutdown nothing changes; otherwise the sequence number follows the reported one. */
  lemma OnCapturedSequence(p: ProducerState, buffId: int, buffSeq: int, succeeded: bool, queueOk: bool)
    requires ProducerInvariant(p)
    ensures p.shutdown ==> OnCapturedStep(p, buffId, buffSeq, succeeded, queueOk) == p
    ensures !p.shutdown ==> OnCapturedStep(p, buffId, buffSeq, succeeded, queueOk).seqNo == buffSeq
    ensures !p.shutdown && !(succeeded && p.hasSurface) ==>
      OnCapturedStep(p, buffId, buffSeq, succeeded, queueOk) == p.(seqNo := buffSeq)
  {
  }

  /**
   * The first successful capture of buffer 0 shows the signal: the flag is
   * set, the last buffer of the pool is queued, and no status changes.
   */
  lemma ShowSignal(p: ProducerState, buffSeq: int, queueOk: bool)
    requires ProducerInvariant(p)
    requires !p.shutdown && p.hasSurface && !p.alreadyShowSignal
    ensures var q := OnCapturedStep(p, 0, buffSeq, true, queueOk);
      q.alreadyShowSignal && q.queuedToSurface == p.queuedToSurface + [|p.buffIds| - 1] &&
      q.statuses == p.statuses && q.bufferState == p.bufferState && q.currBuffId == p.currBuffId &&
      q.firstCaptured == p.firstCaptured
  {
  }

  /** A sequence of `onCaptured` reports: (buffId, buffSeq, succeeded, queueOk). */
  datatype Capture = Capture(buffId: int, buffSeq: int, succeeded: bool, queueOk: bool)

  function Replay(p: ProducerState, captures: seq<Capture>): (q: ProducerState)
    requires ProducerInvariant(p)
    ensures ProducerInvariant(q)
    decreases |captures|
  {
    if captures == [] then p
    else
      var c := captures[0];
      OnCapturedKeepsInvariant(p, c.buffId, c.buffSeq, c.succeeded, c.queueOk);
      Replay(OnCapturedStep(p, c.buffId, c.buffSeq, c.succeeded, c.queueOk), captures[1..])
  }

  /**
   * Once the signal has been shown, every later capture is ignored: only the
   * sequence number moves, to the last one reported.
   */
  lemma {:induction false} SignalFreezesBuffers(p: ProducerState, captures: seq<Capture>)
    requires ProducerInvariant(p) && p.alreadyShowSignal
    ensures Replay(p, captures) ==
      if p.shutdown || captures == [] then p else p.(seqNo := captures[|captures| - 1].buffSeq)
    decreases |captures|
  {
    if captures != [] {
      var c := captures[0];
      var q := OnCapturedStep(p, c.buffId, c.buffSeq, c.succeeded, c.queueOk);
      assert q == if p.shutdown then p else p.(seqNo := c.buffSeq);
      SignalFreezesBuffers(q, captures[1..]);
      if |captures| > 1 {
        assert captures[1..][|captures[1..]| - 1] == captures[|captures| - 1];
      }
    }
  }

  /**
   * A capture of a buffer in the pool, before any signal, that the surface
   * accepts: that buffer (its first occurrence) becomes `QUEUED`, it becomes
   * the current buffer, and the state is `CAPTURING` on the first such capture
   * and `RELEASED` after; no other buffer's status changes.
   */
  lemma MatchingCapture(p: ProducerState, buffId: int, buffSeq: int, i: nat)
    requires ProducerInvariant(p)
    requires !p.shutdown && p.hasSurface && !p.alreadyShowSignal && buffId != 0
    requires i < |p.buffIds| && p.buffIds[i] == buffId
    requires forall k :: 0 <= k < i ==> p.buffIds[k] != buffId
    ensures var q := OnCapturedStep(p, buffId, buffSeq, true, true);
      q.statuses[i] == Queued && q.currBuffId == buffId && !q.firstCaptured &&
      q.bufferState == (if p.firstCaptured then Capturing else Released) &&
      |q.statuses| == |p.statuses| &&
      (forall k :: 0 <= k < |p.statuses| && k != i ==> q.statuses[k] == p.statuses[k]) &&
      q.queuedToSurface == p.queuedToSurface + [i]
  {
    IndexOfFirst(p.buffIds, buffId, i);
  }

  /** A buffer id that is not in the pool, or a rejected queue, leaves every status and the capture state alone. */
  lemma UnmatchedCaptureKeepsStatuses(p: ProducerState, buffId: int, buffSeq: int, succeeded: bool, queueOk: bool)
    requires ProducerInvariant(p)
    requires buffId !in p.buffIds || !queueOk
    ensures var q := OnCapturedStep(p, buffId, buffSeq, succeeded, queueOk);
      q.statuses == p.statuses && q.currBuffId == p.currBuffId && q.bufferState == p.bufferState &&
      q.firstCaptured == p.firstCaptured
  {
  }

  /** Two accepted captures of pool buffers in a row: `CAPTURING` then `RELEASED`. */
  lemma FirstCaptureThenReleased(p: ProducerState, c1: Capture, c2: Capture)
    requires ProducerInvariant(p)
    requires !p.shutdown && p.hasSurface && !p.alreadyShowSignal && p.firstCaptured
    requires c1.succeeded && c1.queueOk && c1.buffId != 0 && c1.buffId in p.buffIds
    requires c2.succeeded && c2.queueOk && c2.buffId != 0 && c2.buffId in p.buffIds
    ensures var q := OnCapturedStep(p, c1.buffId, c1.buffSeq, true, true);
      q.bufferState == Capturing && ProducerInvariant(q) &&
      var q' := OnCapturedStep(q, c2.buffId, c2.buffSeq, true, true);
      q'.bufferState == Released && !q'.firstCaptured
  {
    OnCapturedKeepsInvariant(p, c1.buffId, c1.buffSeq, true, true);
  }

  /** The search loop of `onCaptured`: the first preview buffer with the reported id. */
  method FindBuffer(buffIds: seq<int>, buffId: int) returns (found: Option<nat>)
    ensures found == IndexOf(buffIds, buffId)
  {
    var i := 0;
    while i < |buffIds|
      invariant 0 <= i <= |buffIds|
      invariant forall k :: 0 <= k < i ==> buffIds[k] != buffId
    {
      if buffId == buffIds[i] {
        IndexOfFirst(buffIds, buffId, i);
        return Some(i);
      }
      i := i + 1;
    }
    return None;
  }

  /** `BufferProducerThread` as `onCaptured` and `shutdown` see it. */
  class BufferProducer {
    var shutdown: bool
    var hasSurface: bool
    var seqNo: int
    var currBuffId: int
    var firstCaptured: bool
    var alreadyShowSignal: bool
    var bufferState: BufferState
    var buffIds: seq<int>
    var statuses: seq<BuffStatus>
    var queuedToSurface: seq<nat>

    function State(): ProducerState
      reads this
    {
      ProducerState(shutdown, hasSurface, seqNo, currBuffId, firstCaptured, alreadyShowSignal,
                    bufferState, buffIds, statuses, queuedToSurface)
    }

    ghost predicate Valid()
      reads this
    {
      ProducerInvariant(State())
    }

    /** `readyToRun` after `configPreviewBuff` has dequeued the pool `ids` onto a surface. */
    constructor (ids: seq<int>)
      requires |ids| > 0
      ensures Valid()
      ensures State() == ProducerState(false, true, 0, 0, true, false, Released, ids,
                                       seq(|ids|, _ => Dequeued), [])
    {
      shutdown := false;
      hasSurface := true;
      seqNo := 0;
      currBuffId := 0;
      firstCaptured := true;
      alreadyShowSignal := false;
      bufferState := Released;
      buffIds := ids;
      statuses := seq(|ids|, _ => Dequeued);
      queuedToSurface := [];
    }

    /** `onCaptured`; `queueOk` is what `queueBuffer` answers for a matching buffer. */
    method OnCaptured(buffId: int, buffSeq: int, succeeded: bool, queueOk: bool)
      requires Valid()
      modifies this
      ensures Valid()
      ensures State() == OnCapturedStep(old(State()), buffId, buffSeq, succeeded, queueOk)
    {
      ghost var p := State();
      if !shutdown {
        seqNo := buffSeq;
        if succeeded && hasSurface {
          if buffId == 0 && !alreadyShowSignal {
            alreadyShowSignal := true;
            queuedToSurface := queuedToSurface + [|buffIds| - 1];
          } else if !alreadyShowSignal {
            QueueMatchingBuffer(buffId, queueOk);
          }
        }
      }
      OnCapturedKeepsInvariant(p, buffId, buffSeq, succeeded, queueOk);
    }

    /** The search loop of `onCaptured` and what it does to the buffer it finds. */
    method QueueMatchingBuffer(buffId: int, queueOk: bool)
      requires Valid()
      modifies this
      ensures State() == QueueMatching(old(State()), buffId, queueOk)
    {
      var found := FindBuffer(buffIds, buffId);
      if found.Some? {
        var i := found.value;
        queuedToSurface := queuedToSurface + [i];
        if queueOk {
          statuses := statuses[i := Queued];
          currBuffId := buffId;
          if !firstCaptured {
            bufferState := Released;
          } else {
            firstCaptured := false;
            bufferState := Capturing;
          }
        }
      }
    }

    /**
     * `shutdown`: the flag is set and the surface and its pool are released.
     * The queue log holds positions in the pool, so it is emptied with it.
     */
    method Shutdown()
      requires Valid()
      modifies this
      ensures Valid()
      ensures State() == old(State()).(shutdown := true, hasSurface := false, buffIds := [], statuses := [],
                                       queuedToSurface := [])
    {
      shutdown := true;
      hasSurface := false;
      buffIds := [];
      statuses := [];
      queuedToSurface := [];
    }
  }
}
