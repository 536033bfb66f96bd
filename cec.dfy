/**
 * The HDMI-CEC vocabulary the feature actions and the TV device share: logical
 * and physical addresses, opcodes, result codes, the frames the actions send and
 * the device records they look up. Opcode and address values are those of the
 * HDMI 1.4b CEC Supplement; result, power-status and device-type codes are the
 * Android framework's (`HdmiControlManager`, `HdmiDeviceInfo`), which are not
 * part of this model and are restated here as constants.
 */
module Cec {
  import opened Wrappers

  type Byte = b: int | 0 <= b < 256

  /** A 16-bit physical address (HDMI 1.4b section 8.7): four 4-bit port numbers. */
  type PhysicalAddress = p: int | 0 <= p < 0x1_0000

  // Logical addresses
  const ADDR_TV: int := 0
  const ADDR_AUDIO_SYSTEM: int := 5
  const ADDR_BROADCAST: int := 15
  /** The id under which the TV's own (internal) source is registered. */
  const ADDR_INTERNAL: int := 0

  const INVALID_PHYSICAL_ADDRESS: PhysicalAddress := 0xFFFF
  const INVALID_PORT_ID: int := -1

  // Opcodes
  const MESSAGE_FEATURE_ABORT: Byte := 0x00
  const MESSAGE_USER_CONTROL_PRESSED: Byte := 0x44
  const MESSAGE_USER_CONTROL_RELEASED: Byte := 0x45
  const MESSAGE_SET_SYSTEM_AUDIO_MODE: Byte := 0x72
  const MESSAGE_GIVE_SYSTEM_AUDIO_MODE_STATUS: Byte := 0x7D
  const MESSAGE_ROUTING_CHANGE: Byte := 0x80
  const MESSAGE_GIVE_DEVICE_POWER_STATUS: Byte := 0x8F
  const MESSAGE_ROUTING_INFORMATION: Byte := 0x81
  const MESSAGE_ACTIVE_SOURCE: Byte := 0x82
  const MESSAGE_REQUEST_ACTIVE_SOURCE: Byte := 0x85
  const MESSAGE_SET_STREAM_PATH: Byte := 0x86
  const MESSAGE_INACTIVE_SOURCE: Byte := 0x9D
  const MESSAGE_REPORT_SHORT_AUDIO_DESCRIPTOR: Byte := 0xA3
  const MESSAGE_REQUEST_SHORT_AUDIO_DESCRIPTOR: Byte := 0xA4
  const MESSAGE_INITIATE_ARC: Byte := 0xC0
  const MESSAGE_REQUEST_ARC_INITIATION: Byte := 0xC3
  const MESSAGE_REQUEST_ARC_TERMINATION: Byte := 0xC4
  const MESSAGE_TERMINATE_ARC: Byte := 0xC5

  /** Abort reason 0 of <Feature Abort>. */
  const ABORT_UNRECOGNIZED_OPCODE: Byte := 0
  /** UI command "Power On Function" of <User Control Pressed>. */
  const CEC_KEYCODE_POWER_ON_FUNCTION: Byte := 0x6D

  // Callback results
  const RESULT_SUCCESS: int := 0
  const RESULT_TIMEOUT: int := 1
  const RESULT_TARGET_NOT_AVAILABLE: int := 3
  const RESULT_INCORRECT_MODE: int := 6

  // Power status
  const POWER_STATUS_UNKNOWN: int := -1
  const POWER_STATUS_ON: int := 0
  const POWER_STATUS_STANDBY: int := 1
  const POWER_STATUS_TRANSIENT_TO_ON: int := 2
  const POWER_STATUS_TRANSIENT_TO_STANDBY: int := 3

  // Device types
  const DEVICE_TV: int := 0
  const DEVICE_RECORDER: int := 1
  const DEVICE_RESERVED: int := 2
  const DEVICE_TUNER: int := 3
  const DEVICE_PLAYBACK: int := 4
  const DEVICE_AUDIO_SYSTEM: int := 5
  const DEVICE_PURE_CEC_SWITCH: int := 6

  /** A CEC frame: initiator, destination, opcode and operand bytes. */
  datatype Message = Message(source: int, destination: int, opcode: Byte, params: seq<Byte>)

  /** A device the local device knows about (an `HdmiDeviceInfo`). */
  datatype DeviceInfo = DeviceInfo(
    id: int,
    logicalAddress: int,
    physicalAddress: PhysicalAddress,
    portId: int,
    deviceType: int,
    powerStatus: int,
    displayName: string)
  {
    /** Playback, recorder and tuner devices are sources. */
    predicate IsSourceType() {
      deviceType == DEVICE_PLAYBACK || deviceType == DEVICE_RECORDER || deviceType == DEVICE_TUNER
    }
  }

  predicate IsPowerOnOrTransient(status: int) {
    status == POWER_STATUS_ON || status == POWER_STATUS_TRANSIENT_TO_ON
  }

  /** The device type that the logical-address allocation of the CEC Supplement gives `addr`. */
  function TypeOfAddress(addr: int): (t: Option<int>)
    ensures t.Some? ==> DEVICE_TV <= t.value <= DEVICE_AUDIO_SYSTEM
  {
    if addr == 0 || addr == 14 then Some(DEVICE_TV)
    else if addr == 1 || addr == 2 || addr == 9 then Some(DEVICE_RECORDER)
    else if addr == 3 || addr == 6 || addr == 7 || addr == 10 then Some(DEVICE_TUNER)
    else if addr == 4 || addr == 8 || addr == 11 then Some(DEVICE_PLAYBACK)
    else if addr == 5 then Some(DEVICE_AUDIO_SYSTEM)
    else if addr == 12 || addr == 13 then Some(DEVICE_RESERVED)
    else None
  }

  /** `verifyAddressType`: the address is allocated to a device of type `deviceType`. */
  predicate AddressHasType(addr: int, deviceType: int) {
    TypeOfAddress(addr) == Some(deviceType)
  }

  lemma AudioSystemAddressIsUnique(addr: int)
    ensures AddressHasType(addr, DEVICE_AUDIO_SYSTEM) <==> addr == ADDR_AUDIO_SYSTEM
  {
  }

  /** `HdmiUtils.checkCommandSource`: the frame was sent by `expected`. */
  predicate FromPeer(cmd: Message, expected: int) {
    cmd.source == expected
  }

  /** A <Feature Abort> carries at least the aborted opcode, its first parameter byte. */
  predicate FeatureAbortHasOpcode(cmd: Message) {
    cmd.opcode == MESSAGE_FEATURE_ABORT ==> |cmd.params| >= 1
  }

  /** The constructor's checks: a TV source and an audio-system AVR; anything else throws. */
  predicate ValidEndpoints(src: int, avr: int) {
    AddressHasType(src, DEVICE_TV) && AddressHasType(avr, DEVICE_AUDIO_SYSTEM)
  }

  lemma ValidEndpointsExactly(src: int, avr: int)
    ensures ValidEndpoints(src, avr) <==> (src == ADDR_TV || src == 14) && avr == ADDR_AUDIO_SYSTEM
  {
    AudioSystemAddressIsUnique(avr);
  }

  // ------------------------------------------------------------ frames sent

  function HighByte(p: PhysicalAddress): Byte { p / 256 }
  function LowByte(p: PhysicalAddress): Byte { p % 256 }

  /** `twoBytesToInt`: a big-endian 16-bit operand. */
  function TwoBytesToInt(params: seq<Byte>): (p: PhysicalAddress)
    requires |params| >= 2
  {
    (params[0] as int) * 256 + (params[1] as int)
  }

  lemma TwoBytesRoundTrip(p: PhysicalAddress)
    ensures TwoBytesToInt([HighByte(p), LowByte(p)]) == p
  {
  }

  function SetStreamPath(src: int, path: PhysicalAddress): Message {
    Message(src, ADDR_BROADCAST, MESSAGE_SET_STREAM_PATH, [HighByte(path), LowByte(path)])
  }

  function RoutingChange(src: int, oldPath: PhysicalAddress, newPath: PhysicalAddress): Message {
    Message(src, ADDR_BROADCAST, MESSAGE_ROUTING_CHANGE,
            [HighByte(oldPath), LowByte(oldPath), HighByte(newPath), LowByte(newPath)])
  }

  function RequestArcInitiation(src: int, dest: int): Message {
    Message(src, dest, MESSAGE_REQUEST_ARC_INITIATION, [])
  }

  function RequestArcTermination(src: int, dest: int): Message {
    Message(src, dest, MESSAGE_REQUEST_ARC_TERMINATION, [])
  }

  function RequestShortAudioDescriptor(src: int, dest: int, codes: seq<Byte>): Message {
    Message(src, dest, MESSAGE_REQUEST_SHORT_AUDIO_DESCRIPTOR, codes)
  }

  function RequestActiveSource(src: int): Message {
    Message(src, ADDR_BROADCAST, MESSAGE_REQUEST_ACTIVE_SOURCE, [])
  }

  function SetSystemAudioMode(src: int, dest: int, on: bool): Message {
    Message(src, dest, MESSAGE_SET_SYSTEM_AUDIO_MODE, [if on then 1 else 0])
  }

  function ActiveSource(src: int, path: PhysicalAddress): Message {
    Message(src, ADDR_BROADCAST, MESSAGE_ACTIVE_SOURCE, [HighByte(path), LowByte(path)])
  }

  /** `sendUserControlPressedAndReleased`: a key press followed by its release. */
  function KeyPressAndRelease(src: int, dest: int, key: Byte): seq<Message> {
    [Message(src, dest, MESSAGE_USER_CONTROL_PRESSED, [key]),
     Message(src, dest, MESSAGE_USER_CONTROL_RELEASED, [])]
  }

  function PowerOnKey(src: int, dest: int): seq<Message> {
    KeyPressAndRelease(src, dest, CEC_KEYCODE_POWER_ON_FUNCTION)
  }

  /** The first registered device whose physical address is `path` (`getDeviceInfoByPath`). */
  function DeviceByPath(devices: seq<DeviceInfo>, path: int): (r: Option<DeviceInfo>)
    ensures r.Some? ==> r.value in devices && r.value.physicalAddress == path
    ensures r.None? ==> forall d :: d in devices ==> d.physicalAddress != path
  {
    if devices == [] then None
    else if devices[0].physicalAddress == path then Some(devices[0])
    else DeviceByPath(devices[1..], path)
  }

  /** The first registered device with id `id` (`getDeviceInfo`). */
  function DeviceById(devices: seq<DeviceInfo>, id: int): (r: Option<DeviceInfo>)
    ensures r.Some? ==> r.value in devices && r.value.id == id
    ensures r.None? ==> forall d :: d in devices ==> d.id != id
  {
    if devices == [] then None
    else if devices[0].id == id then Some(devices[0])
    else DeviceById(devices[1..], id)
  }

  /** The first registered device with logical address `addr` (`getCecDeviceInfo`). */
  function DeviceByLogicalAddress(devices: seq<DeviceInfo>, addr: int): (r: Option<DeviceInfo>)
    ensures r.Some? ==> r.value in devices && r.value.logicalAddress == addr
    ensures r.None? ==> forall d :: d in devices ==> d.logicalAddress != addr
  {
    if devices == [] then None
    else if devices[0].logicalAddress == addr then Some(devices[0])
    else DeviceByLogicalAddress(devices[1..], addr)
  }
}
