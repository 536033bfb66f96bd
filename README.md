# A verified model of Rockchip/Khadas additions to the Android framework

This project is a Dafny model of the core of a vendor branch of Android's
`frameworks/base`. At its centre is the HDMI-CEC control plane of the
TV-role local device: addressing state, ARC flags and the feature actions
it starts. Beside it are a number of smaller self-contained parts of the
same tree, each modelled and proved in its own module. Every module
matches one source file. Modules that change state in place are classes
with `modifies` frames. Pure logic is written as functions and lemmas.

| module | file | what it models |
|---|---|---|
| `Wrappers`, `Numerals`, `Strings` | `wrappers.dfy`, `numerals.dfy`, `strings.dfy` | shared pieces: `Option`, decimal and hex text, 32-bit wrap-around, C's truncating `%`, `startsWith`/`contains`/`replaceAll`/`split`, `strlen`, `strchr`, `indexOf` |
| `Cec`, `CecPath` | `cec.dfy`, `cec_path.dfy` | the CEC vocabulary (addresses, opcodes, result codes, frames, device records); physical addresses as port paths (HDMI 1.4b section 8.7) |
| `RoutingControl` | `routing_control_action.dfy` | `RoutingControlAction` (CEC 13.2 Routing Control) |
| `DeviceSelect` | `device_select_action.dfy` | `DeviceSelectAction` |
| `RequestArc`, `RequestArcInitiation`, `RequestArcTermination` | `request_arc_*.dfy` | the ARC request actions (CEC 13.17 Audio Return Channel Control) and their shared base |
| `ShortAudioDescriptor` | `short_audio_descriptor_action.dfy` | the per-format Short Audio Descriptor query (CEA-861-D section 7.5.2) |
| `SystemAudioInitiation` | `system_audio_initiation_action_from_avr.dfy` | `SystemAudioInitiationActionFromAvr` (CEC 13.15 System Audio Control) |
| `CecFeatures` | `hdmi_cec_features_info.dfy` | the operands of <Report Features> (HDMI CEC 2.0) |
| `EarcObserver` | `earc_observer.dfy` | change detection of the eARC connect type |
| `CecActiveness` | `hdmi_cec_activeness.dfy` | the activeness setting and its JSON value |
| `CecLocalDeviceTv` | `hdmi_cec_local_device_tv.dfy` | `HdmiCecLocalDeviceTv`: active source and path, previous port, ARC flags, and the live-action list with at most one action per kind |
| `AlarmAlignment` | `alarm_alignment_manager.dfy` | screen-off alarm alignment: rounding to wake-up boundaries, re-timing, filtering, the skipped-alarm list |
| `RockchipEqualizer` | `rockchip_equalizer.dfy` | the 2180-byte equalizer/DRC `Settings` layout, every block's serialiser and reader, preset names, parameter-change events |
| `AudioSetting` | `audio_setting.dfy` | the `Device:…;Mode:…` and `Format:…` setting texts and the supported-format list |
| `AudioStream` | `audio_stream.dfy` | PCM byte/short conversion and the start/stop state of the HDMI-in audio path |
| `BootAnimation` | `boot_animation.dfy` | the `desc.txt` field parsers, volume keys and persisted volume of the boot video, the input device table, texture rounding, glyph lookup |
| `Rklog` | `rklog.dfy` | the crash-report hashes and the de-duplication tables of the box service |
| `UsbHostManager` | `usb_host_manager.dfy` | the sysfs attribute parser, the id split, the sysfs directory search, the rockusb refusal |
| `ExtconStateObserver` | `extcon_state_observer.dfy` | per-name HDMI/DP tags and the rewriting of connector state |
| `KhadasApiService` | `khadas_api_service.dfy` | LED, fan and Wake-on-LAN settings over sysfs nodes and properties; locale reordering |
| `IsoManager` | `iso_manager.dfy` | the Blu-ray folder validator over an abstract file system |
| `TvInputHal` | `tv_input_hal.dfy` | the audio address text, TV message event wrapping and filtering, capture-buffer bookkeeping |

Collaborators whose source is not part of this model become parameters or
abstract state of the model. These are `HdmiCecFeatureAction`,
`HdmiUtils`, `Constants`, `HdmiControlService`, `HdmiCecMessageBuilder`,
`AlarmManager`, `AudioSystem`, the Android `Settings` and
`SystemProperties` stores, and the file system. Sent CEC frames form an
append-only log. A timer is a recorded request, and its expiry is a
method call. A send-completion callback is an event method.

Java `int` wrap-around is written out where the source can overflow. Java `long`
arithmetic is taken as unbounded, except in the `long` form of
`roundToNextWakeup`, where its wrap-around is written out to show where the
unbounded rounding stops matching it.
C's `/` and `%` truncate toward zero and are modelled as such. Floating
point values are kept as their raw 32-bit words.

Where the code and its comments disagree, the model follows the code. For
example, the comment at `services/core/jni/rkbox/rklog.cpp:76` says
`data_app_anr` is reported by default. The level the code sets,
`DROPBOX_SYSTEM_APP_ANR` (8), keeps only entries that name one of the
first eight kinds, up to `system_app_anr` (`Rklog.DropboxAccepted`). So
`system_server_wtf`, `system_app_wtf` and `data_app_anr` are ignored
together with the data-app crash and wtf entries
(`Rklog.DataAppAnrIgnoredByDefault`). The comment may be stale, since the
level can also be set from `persist.sys.rklog.level`, so this is not
listed as a finding.

## Model

| member | source | states |
|---|---|---|
| Cec.TypeOfAddress | services/core/java/com/android/server/hdmi/RequestArcAction.java:42-47 | the device type the CEC logical-address allocation gives an address, when it gives one, lies between TV and audio system (what `verifyAddressType` checks against) |
| Cec.AudioSystemAddressIsUnique | services/core/java/com/android/server/hdmi/RequestArcAction.java:45 | an address has the audio-system type exactly when it is logical address 5 |
| Cec.ValidEndpointsExactly | services/core/java/com/android/server/hdmi/RequestArcAction.java:42-47 | the ARC actions' constructors accept exactly a TV source (0 or 14) talking to the audio system at address 5 |
| Cec.TwoBytesRoundTrip | services/core/java/com/android/server/hdmi/HdmiCecLocalDeviceTv.java:595 | reading a physical address back from its two-byte big-endian form gives the address |
| Cec.DeviceByPath | services/core/java/com/android/server/hdmi/HdmiCecLocalDeviceTv.java:188 | a device found by physical address is registered with that address; none found means no registered device has it |
| Cec.DeviceById | services/core/java/com/android/server/hdmi/HdmiCecLocalDeviceTv.java:364 | a device found by id is registered with that id; none found means no registered device has it |
| Cec.DeviceByLogicalAddress | services/core/java/com/android/server/hdmi/HdmiCecLocalDeviceTv.java:596 | a device found by logical address is registered with it; none found means no registered device has it |
| CecPath.Nibble | services/core/java/com/android/server/hdmi/HdmiCecLocalDeviceTv.java:819 | `(p >> 4k) & 0xF` is a nibble, between 0 and 15 |
| CecPath.Nibbles | services/core/java/com/android/server/hdmi/HdmiCecLocalDeviceTv.java:818-829 | the four nibbles of a physical address, index 3 the top one |
| CecPath.TailFromNoZero | services/core/java/com/android/server/hdmi/HdmiCecLocalDeviceTv.java:818-829 | the nibble loop answers false when no nibble it reaches in the active path is zero |
| CecPath.TailFromTopZero | services/core/java/com/android/server/hdmi/HdmiCecLocalDeviceTv.java:818-829 | the nibble loop answers true from a zero nibble exactly when the path agrees with the active path on every nibble above it |
| CecPath.TailNeedsZeroNibble | services/core/java/com/android/server/hdmi/HdmiCecLocalDeviceTv.java:813-830 | with the internal source (0) or an active path without a zero nibble, no path is a tail |
| CecPath.TailCharacterization | services/core/java/com/android/server/hdmi/HdmiCecLocalDeviceTv.java:813-830 | otherwise a path is a tail of the active path exactly when it repeats the active path's nibbles above its first zero nibble |
| CecPath.ActivePathIsOwnTail | services/core/java/com/android/server/hdmi/HdmiCecLocalDeviceTv.java:813-830 | a nonzero active path with a zero nibble is a tail of itself |
| CecPath.DirectConnectMeansLowNibblesZero | services/core/java/com/android/server/hdmi/HdmiCecLocalDeviceTv.java:1210-1212 | an address is directly connected exactly when its three low nibbles are zero |
| CecPath.InPathFromReflexive | services/core/java/com/android/server/hdmi/RoutingControlAction.java:118 | the nibble-wise routing-path comparison holds between a path and itself |
| CecPath.InPathFromSymmetric | services/core/java/com/android/server/hdmi/RoutingControlAction.java:118 | the nibble-wise routing-path comparison does not depend on the order of its arguments |
| CecPath.RoutingPathReflexiveAndSymmetric | services/core/java/com/android/server/hdmi/RoutingControlAction.java:118 | every path is in its own active routing path, and "is in the routing path of" is symmetric |
| RoutingControl.WakeUp | services/core/java/com/android/server/hdmi/RoutingControlAction.java:82-91 | a power-on key press is sent exactly when the target is known and neither on nor turning on, and then it is the key press to that target's logical address |
| RoutingControl.RoutingControlAction.constructor | services/core/java/com/android/server/hdmi/RoutingControlAction.java:65-75 | source, old and new path, callback and power-query flags as given; the notify-input-change flag is set exactly when there is no callback; nothing sent, no timer, not finished |
| RoutingControl.RoutingControlAction.FinishWithCallback | services/core/java/com/android/server/hdmi/RoutingControlAction.java:152-156 | the result reaches the callback only when there is one; the action finishes with no timer, nothing more sent |
| RoutingControl.RoutingControlAction.Start | services/core/java/com/android/server/hdmi/RoutingControlAction.java:80-106 | a source-type target: wake-up key if needed, then <Set Stream Path> and success at once; another known target: <Routing Change> and the routing-information timer; an unknown path: <Routing Change> and no timer |
| RoutingControl.RoutingControlAction.ProcessCommand | services/core/java/com/android/server/hdmi/RoutingControlAction.java:109-134 | consumed exactly when <Routing Information> arrives while waiting; a path outside the current routing path changes nothing; one inside becomes the routing path, gets <Set Stream Path>, wakes its device if needed and finishes with success |
| RoutingControl.RoutingControlAction.HandleTimerEvent | services/core/java/com/android/server/hdmi/RoutingControlAction.java:157-169 | a stale or foreign timer changes nothing; the waiting-state timeout finishes with success and sends nothing |
| DeviceSelect.RoutingFrame | services/core/java/com/android/server/hdmi/DeviceSelectAction.java:102-111 | a source-type target gets a broadcast <Set Stream Path> carrying its physical address, any other a broadcast <Routing Change> from the active path to its address |
| DeviceSelect.DeviceSelectAction.constructor | services/core/java/com/android/server/hdmi/DeviceSelectAction.java:55-66 | source, target and callback as given, the <Give Device Power Status> frame to the target prepared, nothing sent |
| DeviceSelect.DeviceSelectAction.Start | services/core/java/com/android/server/hdmi/DeviceSelectAction.java:74-89 | sends the routing frame, then the power-on key unless the target is on or turning on, reports success and finishes synchronously |
| DeviceSelect.DeviceSelectAction.ProcessCommand | services/core/java/com/android/server/hdmi/DeviceSelectAction.java:92-94 | never consumes a frame |
| DeviceSelect.DeviceSelectAction.HandleTimerEvent | services/core/java/com/android/server/hdmi/DeviceSelectAction.java:114-119 | a timer changes nothing |
| RequestArc.RequestArcAction.constructor | services/core/java/com/android/server/hdmi/RequestArcAction.java:42-47 | only a TV source and the audio-system AVR are accepted; nothing sent, no effect, not finished |
| RequestArc.RequestArcAction.Begin | services/core/java/com/android/server/hdmi/RequestArcInitiationAction.java:55-56 | enters the waiting state with its timer armed and sends nothing |
| RequestArc.RequestArcAction.Finish | services/core/java/com/android/server/hdmi/RequestArcAction.java:64 | finishes with no state and no timer, sending nothing |
| RequestArc.RequestArcAction.ProcessCommand | services/core/java/com/android/server/hdmi/RequestArcAction.java:50-80 | consumed exactly when a <Feature Abort> from the AVR arrives while waiting (for a request opcode); an abort of termination switches ARC transmission off and finishes; an abort of initiation re-sends the request unless the reason is "unrecognized opcode" |
| RequestArc.RequestArcAction.OnResendResult | services/core/java/com/android/server/hdmi/RequestArcAction.java:89-102 | a successful re-send changes nothing; a failed one turns ARC off and finishes |
| RequestArc.RequestArcAction.HandleTimerEvent | services/core/java/com/android/server/hdmi/RequestArcAction.java:104-111 | the waiting-state timeout finishes; any other timer changes nothing |
| RequestArcInitiation.RequestArcInitiationAction.Transmissions | services/core/java/com/android/server/hdmi/RequestArcInitiationAction.java:62-79 | at most three <Request ARC Initiation> frames are ever sent, and none only before `start` |
| RequestArcInitiation.RequestArcInitiationAction.constructor | services/core/java/com/android/server/hdmi/RequestArcInitiationAction.java:38-50 | TV source and audio-system AVR only; one callback when given, none otherwise; nothing sent |
| RequestArcInitiation.RequestArcInitiationAction.AddCallback | services/core/java/com/android/server/hdmi/HdmiCecLocalDeviceTv.java:1146-1202 | adds one callback and changes nothing else |
| RequestArcInitiation.RequestArcInitiationAction.Finish | services/core/java/com/android/server/hdmi/RequestArcInitiationAction.java:71-72 | finishes without delivering a result |
| RequestArcInitiation.RequestArcInitiationAction.FinishWithCallback | services/core/java/com/android/server/hdmi/RequestArcInitiationAction.java:98 | every registered callback receives the result, then the action finishes |
| RequestArcInitiation.RequestArcInitiationAction.Start | services/core/java/com/android/server/hdmi/RequestArcInitiationAction.java:52-60 | waiting state, timer armed, exactly one <Request ARC Initiation> sent, retry counter 0 |
| RequestArcInitiation.RequestArcInitiationAction.OnSendResult | services/core/java/com/android/server/hdmi/RequestArcInitiationAction.java:65-79 | success changes nothing; a failure counts a retry and re-sends while below the maximum; after that ARC is disabled and the action finishes without a callback |
| RequestArcInitiation.RequestArcInitiationAction.ProcessCommand | services/core/java/com/android/server/hdmi/RequestArcInitiationAction.java:83-108 | consumed exactly when the AVR aborts the request while waiting, which finishes with TARGET_NOT_AVAILABLE; <Initiate ARC> from the AVR finishes with SUCCESS but is left for the TV |
| RequestArcInitiation.RequestArcInitiationAction.HandleTimerEvent | services/core/java/com/android/server/hdmi/RequestArcInitiationAction.java:111-123 | a foreign timer changes nothing; the timeout counts a retry and re-arms and re-sends while below the maximum, else finishes with TIMEOUT |
| RequestArcTermination.TimeoutEffects | services/core/java/com/android/server/hdmi/RequestArcTerminationAction.java:99-110 | a timeout switches ARC transmission off, and switches eARC on exactly when the action was told eARC is on |
| RequestArcTermination.RequestArcTerminationAction.constructor | services/core/java/com/android/server/hdmi/RequestArcTerminationAction.java:35-37 | TV source and audio-system AVR only, eARC flag false, nothing sent |
| RequestArcTermination.RequestArcTerminationAction.WithEarc | services/core/java/com/android/server/hdmi/RequestArcTerminationAction.java:39-43 | as the two-argument form, with the eARC flag as given |
| RequestArcTermination.RequestArcTerminationAction.AddCallback | services/core/java/com/android/server/hdmi/HdmiCecLocalDeviceTv.java:1146-1202 | adds one callback and changes nothing else |
| RequestArcTermination.RequestArcTerminationAction.Finish | services/core/java/com/android/server/hdmi/RequestArcTerminationAction.java:59 | finishes, sending nothing |
| RequestArcTermination.RequestArcTerminationAction.Start | services/core/java/com/android/server/hdmi/RequestArcTerminationAction.java:45-64 | waiting state, timer armed, one <Request ARC Termination> sent |
| RequestArcTermination.RequestArcTerminationAction.OnSendResult | services/core/java/com/android/server/hdmi/RequestArcTerminationAction.java:54-61 | a failed send switches ARC transmission off and finishes; success changes nothing |
| RequestArcTermination.RequestArcTerminationAction.ProcessCommand | services/core/java/com/android/server/hdmi/RequestArcTerminationAction.java:67-96 | an abort of the termination request from the AVR while waiting switches transmission off and finishes; with the eARC flag, <Terminate ARC> is handed to the TV, eARC is switched on and the action finishes; nothing else is consumed |
| RequestArcTermination.RequestArcTerminationAction.HandleTimerEvent | services/core/java/com/android/server/hdmi/RequestArcTerminationAction.java:99-110 | the waiting-state timeout performs the timeout effects and finishes; a foreign timer changes nothing |
| ShortAudioDescriptor.HexBlock | services/core/java/com/android/server/hdmi/ShortAudioDescriptorAction.java:133 | every byte becomes two characters of the block |
| ShortAudioDescriptor.DecodeHexBlock | services/core/java/com/android/server/hdmi/ShortAudioDescriptorAction.java:133 | reading two-digit pairs back gives one byte per pair |
| ShortAudioDescriptor.DecodeFirstPair | services/core/java/com/android/server/hdmi/ShortAudioDescriptorAction.java:133 | a leading hex pair decodes to exactly its byte, ahead of the decoding of the rest |
| ShortAudioDescriptor.HexBlockRoundTrip | services/core/java/com/android/server/hdmi/ShortAudioDescriptorAction.java:133 | the block decodes back to the reported bytes: the `%02x` rendering loses nothing |
| ShortAudioDescriptor.HexBlockAppend | services/core/java/com/android/server/hdmi/ShortAudioDescriptorAction.java:132-134 | the block of two reports is the concatenation of their blocks |
| ShortAudioDescriptor.HexBlockStep | services/core/java/com/android/server/hdmi/ShortAudioDescriptorAction.java:132-134 | one more byte is two more characters at the end of the block |
| ShortAudioDescriptor.ReportedBlock | services/core/java/com/android/server/hdmi/ShortAudioDescriptorAction.java:122-137 | a report adds two characters per parameter byte, an abort adds nothing |
| ShortAudioDescriptor.ShortAudioDescriptorAction.constructor | services/core/java/com/android/server/hdmi/ShortAudioDescriptorAction.java:65-71 | TV source and audio-system device only; empty block, no format asked yet, nothing sent or delivered |
| ShortAudioDescriptor.ShortAudioDescriptorAction.SendQuery | services/core/java/com/android/server/hdmi/ShortAudioDescriptorAction.java:82-109 | below the reserved format code: asks for the next code, moves the counter on and re-arms the timer; at the reserved code: delivers the block once, sending nothing |
| ShortAudioDescriptor.ShortAudioDescriptorAction.Start | services/core/java/com/android/server/hdmi/ShortAudioDescriptorAction.java:74-80 | starts at LPCM with an empty block and sends exactly the LPCM query |
| ShortAudioDescriptor.ShortAudioDescriptorAction.AppendDescriptors | services/core/java/com/android/server/hdmi/ShortAudioDescriptorAction.java:132-134 | the block grows by the hex rendering of every reported byte, nothing else changes |
| ShortAudioDescriptor.ShortAudioDescriptorAction.ProcessCommand | services/core/java/com/android/server/hdmi/ShortAudioDescriptorAction.java:116-139 | consumed exactly while waiting for an abort of the query or a report, from any sender; the block grows by what was reported and the next format is queried |
| ShortAudioDescriptor.ShortAudioDescriptorAction.Finish | services/core/java/com/android/server/hdmi/ShortAudioDescriptorAction.java:147 | finishes without delivering |
| ShortAudioDescriptor.ShortAudioDescriptorAction.OnSendResult | services/core/java/com/android/server/hdmi/ShortAudioDescriptorAction.java:99-107 | a failed query send finishes without delivering a block |
| ShortAudioDescriptor.ShortAudioDescriptorAction.HandleTimerEvent | services/core/java/com/android/server/hdmi/ShortAudioDescriptorAction.java:142-148 | the waiting-state timeout finishes without delivering; other timers change nothing |
| ShortAudioDescriptor.BlockDecodesToReports | services/core/java/com/android/server/hdmi/ShortAudioDescriptorAction.java:116-139 | at every point the block is twice as long as the bytes received and decodes back to exactly them, in order |
| SystemAudioInitiation.SystemAudioInitiationActionFromAvr.constructor | services/core/java/com/android/server/hdmi/SystemAudioInitiationActionFromAvr.java:39-41 | nothing sent, no effect, both retry counters 0 |
| SystemAudioInitiation.SystemAudioInitiationActionFromAvr.Finish | services/core/java/com/android/server/hdmi/SystemAudioInitiationActionFromAvr.java:141 | finishes, changing no counter and sending nothing |
| SystemAudioInitiation.SystemAudioInitiationActionFromAvr.Start | services/core/java/com/android/server/hdmi/SystemAudioInitiationActionFromAvr.java:44-64 | One Touch Play only when the local active port is CEC_SWITCH_PORT_MAX, then always the TV support query, in the wait-for-TV state |
| SystemAudioInitiation.SystemAudioInitiationActionFromAvr.ProcessCommand | services/core/java/com/android/server/hdmi/SystemAudioInitiationActionFromAvr.java:67-82 | consumed exactly for <Active Source> while waiting for it; the timer is cleared, the frame handed to the local device and the TV queried |
| SystemAudioInitiation.SystemAudioInitiationActionFromAvr.HandleTimerEvent | services/core/java/com/android/server/hdmi/SystemAudioInitiationActionFromAvr.java:85-95 | only the <Active Source> wait has a timeout: a playback device claims active source and queries the TV, any other device sets System Audio Mode off; both finish |
| SystemAudioInitiation.SystemAudioInitiationActionFromAvr.SendRequestActiveSource | services/core/java/com/android/server/hdmi/SystemAudioInitiationActionFromAvr.java:97-98 | sends one <Request Active Source> and changes nothing else |
| SystemAudioInitiation.SystemAudioInitiationActionFromAvr.OnRequestActiveSourceResult | services/core/java/com/android/server/hdmi/SystemAudioInitiationActionFromAvr.java:99-109 | a failure re-sends while fewer than five retries were made, then finishes |
| SystemAudioInitiation.SystemAudioInitiationActionFromAvr.OnSetSystemAudioModeResult | services/core/java/com/android/server/hdmi/SystemAudioInitiationActionFromAvr.java:112-126 | a failure re-sends while fewer than five retries were made, then sets System Audio Mode off and finishes |
| SystemAudioInitiation.SystemAudioInitiationActionFromAvr.OnTvSupportResult | services/core/java/com/android/server/hdmi/SystemAudioInitiationActionFromAvr.java:144-158 | support sets the mode on locally and broadcasts it only when that succeeds; no support sets it off; both finish |
| CecFeatures.TypeBitIndex | services/core/java/com/android/server/hdmi/HdmiCecFeaturesInfo.java:62-87 | a device type has a bit in [All Device Types] between 2 and 7, or none |
| CecFeatures.DeviceTypeMask | services/core/java/com/android/server/hdmi/HdmiCecFeaturesInfo.java:62-87 | the mask never has the two reserved low bits set |
| CecFeatures.TypeBitExactly | services/core/java/com/android/server/hdmi/HdmiCecFeaturesInfo.java:62-87 | one device type's bit is set in another's exactly when they are the same type |
| CecFeatures.MaskBitSet | services/core/java/com/android/server/hdmi/HdmiCecFeaturesInfo.java:62-87 | a type's bit is set in the mask exactly when that type is among the local devices |
| CecFeatures.HdmiCecFeaturesInfo.constructor | services/core/java/com/android/server/hdmi/HdmiCecFeaturesInfo.java:48-53 | keeps the CEC version and the local device types |
| CecFeatures.HdmiCecFeaturesInfo.IsTvDevice | services/core/java/com/android/server/hdmi/HdmiCecFeaturesInfo.java:121-123 | true exactly when a TV is among the local devices |
| CecFeatures.HdmiCecFeaturesInfo.GetCecFeatures | services/core/java/com/android/server/hdmi/HdmiCecFeaturesInfo.java:125-138 | for CEC 2.0 the four bytes version, device-type mask, RC profile 0 and the TV feature byte (zero without a TV); for another version nothing; every entry a byte |
| CecFeatures.HdmiCecFeaturesInfo.CanRecordTvScreen | services/core/java/com/android/server/hdmi/HdmiCecFeaturesInfo.java:148-150 | throws (`None`) exactly for a CEC version other than 2.0, whose feature array is empty; otherwise set exactly when a TV is local |
| CecFeatures.HdmiCecFeaturesInfo.CanSetOsdString | services/core/java/com/android/server/hdmi/HdmiCecFeaturesInfo.java:152-154 | throws (`None`) exactly for a CEC version other than 2.0, whose feature array is empty; otherwise set exactly when a TV is local |
| CecFeatures.HdmiCecFeaturesInfo.CanControlledByDeckControl | services/core/java/com/android/server/hdmi/HdmiCecFeaturesInfo.java:156-158 | throws (`None`) exactly for a CEC version other than 2.0, whose feature array is empty; otherwise never set |
| CecFeatures.HdmiCecFeaturesInfo.CanSetAudioRate | services/core/java/com/android/server/hdmi/HdmiCecFeaturesInfo.java:160-162 | throws (`None`) exactly for a CEC version other than 2.0, whose feature array is empty; otherwise never set |
| CecFeatures.HdmiCecFeaturesInfo.CanSupportArc | services/core/java/com/android/server/hdmi/HdmiCecFeaturesInfo.java:164-166 | throws (`None`) exactly for a CEC version other than 2.0, whose feature array is empty; otherwise set exactly when a TV is local |
| EarcObserver.RemoveNewlines | services/core/java/com/android/server/hdmi/EarcObserver.java:69 | no newline remains, the result is no longer than the text, a text without newlines is kept, and every character of the result comes from the text |
| EarcObserver.RemoveNewlinesCounts | services/core/java/com/android/server/hdmi/EarcObserver.java:69 | the result holds every character other than a newline as often as the text does |
| EarcObserver.RemoveNewlinesCons | services/core/java/com/android/server/hdmi/EarcObserver.java:69 | the first character is kept unless it is a newline, and the rest is filtered the same way |
| EarcObserver.RemoveNewlinesAppend | services/core/java/com/android/server/hdmi/EarcObserver.java:69 | removing newlines from a concatenation is removing them from each part, in order |
| EarcObserver.RemoveNewlinesKeepsOrder | services/core/java/com/android/server/hdmi/EarcObserver.java:69 | the result equals an independent back-to-front filter, so the other characters keep their order |
| EarcObserver.RemoveNewlinesIdempotent | services/core/java/com/android/server/hdmi/EarcObserver.java:69 | removing newlines twice is removing them once |
| EarcObserver.CreateEarcObserver | services/core/java/com/android/server/hdmi/EarcObserver.java:79-89 | a TV gets the TV observer, an audio system the audio-system observer, any other type none |
| EarcObserver.EarcObserver.constructor | services/core/java/com/android/server/hdmi/EarcObserver.java:54-58 | starts unconnected, having reported nothing |
| EarcObserver.EarcObserver.IsEarcOn | services/core/java/com/android/server/hdmi/EarcObserver.java:95-97 | on exactly when the stored connect type is eARC |
| EarcObserver.EarcObserver.OnUEvent | services/core/java/com/android/server/hdmi/EarcObserver.java:60-77 | an event without a state is ignored; otherwise the newline-free state's connect type is stored, and reported only when it changed |
| CecActiveness.GetJsonValue | services/core/java/com/android/server/hdmi/HdmiCecActiveness.java:114-133 | empty exactly for a state other than active, inactive and unknown ("disabled" included) |
| CecActiveness.ActiveCecStateOf | services/core/java/com/android/server/hdmi/HdmiCecActiveness.java:93-105 | a state read from the setting is one whose one-key JSON object is the setting's text |
| CecActiveness.PublishedStateRoundTrip | services/core/java/com/android/server/hdmi/HdmiCecActiveness.java:83-133 | a reader of the setting gets back active, inactive or unknown exactly as set, and nothing for any other state |
| CecActiveness.HdmiCecActiveness.constructor | services/core/java/com/android/server/hdmi/HdmiCecActiveness.java:78-81 | `init` publishes "inactive" once |
| CecActiveness.HdmiCecActiveness.SetState | services/core/java/com/android/server/hdmi/HdmiCecActiveness.java:83-91 | the current state writes nothing; any other becomes current and is written once |
| CecLocalDeviceTv.Count | services/core/java/com/android/server/hdmi/HdmiCecLocalDeviceTv.java:1183-1185 | the number of live actions of one kind, never more than the live actions |
| CecLocalDeviceTv.Remove | services/core/java/com/android/server/hdmi/HdmiCecLocalDeviceTv.java:1205-1207 | removing a kind never makes the action list longer |
| CecLocalDeviceTv.FirstOf | services/core/java/com/android/server/hdmi/HdmiCecLocalDeviceTv.java:1184-1186 | `getActions(k).get(0)`: the first live action of that kind, none of it earlier |
| CecLocalDeviceTv.CountAppend | services/core/java/com/android/server/hdmi/HdmiCecLocalDeviceTv.java:404 | starting an action adds one to its own kind's count and nothing to the others |
| CecLocalDeviceTv.RemoveCount | services/core/java/com/android/server/hdmi/HdmiCecLocalDeviceTv.java:403 | after `removeAction(k)` no action of kind k is live and every other kind's count is unchanged |
| CecLocalDeviceTv.UpdateCount | services/core/java/com/android/server/hdmi/HdmiCecLocalDeviceTv.java:1186 | giving an action one more callback changes no kind's count |
| CecLocalDeviceTv.RemoveKeepsDiscipline | services/core/java/com/android/server/hdmi/HdmiCecLocalDeviceTv.java:1205-1207 | removing a kind keeps "at most one Routing Control, Device Select, ARC initiation and ARC termination action" and leaves none of that kind |
| CecLocalDeviceTv.AppendUnrestrictedKeepsDiscipline | services/core/java/com/android/server/hdmi/HdmiCecLocalDeviceTv.java:790 | starting an action of any other kind keeps the discipline |
| CecLocalDeviceTv.ReplaceCount | services/core/java/com/android/server/hdmi/HdmiCecLocalDeviceTv.java:403-404 | remove-then-start leaves exactly one action of the started kind and every other count unchanged |
| CecLocalDeviceTv.ReplaceKeepsDiscipline | services/core/java/com/android/server/hdmi/HdmiCecLocalDeviceTv.java:561-562 | remove-then-start of Routing Control or Device Select keeps the discipline with exactly one of that kind live |
| CecLocalDeviceTv.AddCallbacks | services/core/java/com/android/server/hdmi/HdmiCecLocalDeviceTv.java:1183-1198 | merging callbacks into the existing ARC request action keeps the number of live actions |
| CecLocalDeviceTv.ArcActionsDiscipline | services/core/java/com/android/server/hdmi/HdmiCecLocalDeviceTv.java:1180-1201 | after an ARC request the two ARC directions never coexist: exactly one action of the requested direction and none of the other |
| CecLocalDeviceTv.RoutingControlDiscipline | services/core/java/com/android/server/hdmi/HdmiCecLocalDeviceTv.java:546-564 | routing keeps the discipline, and a real path change leaves exactly one Routing Control action |
| CecLocalDeviceTv.Avr | services/core/java/com/android/server/hdmi/HdmiCecLocalDeviceTv.java:1554-1557 | the AVR is a registered device at the audio-system address; none only when no such device is registered |
| CecLocalDeviceTv.FirstSourceOnTail | services/core/java/com/android/server/hdmi/HdmiCecLocalDeviceTv.java:214-229 | a device found is a registered source device at the tail of the path; none found means no such device exists |
| CecLocalDeviceTv.FindDeviceOnPath | services/core/java/com/android/server/hdmi/HdmiCecLocalDeviceTv.java:214-229 | nothing when an AVR is present; otherwise a registered source device at the tail of the path, or none exactly when there is no such device |
| CecLocalDeviceTv.SwitchTargetOnPortPath | services/core/java/com/android/server/hdmi/HdmiCecLocalDeviceTv.java:499-543 | manual port switching routes to the port's own path or to a source device at its tail, and always to the port's own path when an AVR is present |
| CecLocalDeviceTv.ArcChannelEffects | services/core/java/com/android/server/hdmi/HdmiCecLocalDeviceTv.java:1074-1080 | the ARC hardware is switched exactly when an AVR on a valid port is known, and then on that port |
| CecLocalDeviceTv.HdmiCecLocalDeviceTv.constructor | services/core/java/com/android/server/hdmi/HdmiCecLocalDeviceTv.java:252-259 | no active source, invalid active path and previous port, ARC not established and enabled on no port, nothing live or sent |
| CecLocalDeviceTv.HdmiCecLocalDeviceTv.IsArcEstablished | services/core/java/com/android/server/hdmi/HdmiCecLocalDeviceTv.java:1106-1114 | established only when the flag is set, and never when no port has ARC enabled |
| CecLocalDeviceTv.HdmiCecLocalDeviceTv.IsArcFeatureEnabled | services/core/java/com/android/server/hdmi/HdmiCecLocalDeviceTv.java:158-175 | false with System Audio Control off or no AVR; otherwise true when ARC is enabled on the AVR's port, and else true exactly for an AVR with the HDMI test OSD name on the HDMI test port or with the eARC test name on the eARC test port; for any other name, exactly SAC on and ARC enabled on its port |
| CecLocalDeviceTv.HdmiCecLocalDeviceTv.CanStartArcUpdateAction | services/core/java/com/android/server/hdmi/HdmiCecLocalDeviceTv.java:1360-1374 | only the registered AVR's address passes; disabling needs only that, enabling also ARC enabled on its port and a direct connection |
| CecLocalDeviceTv.HdmiCecLocalDeviceTv.UpdateActiveSource | services/core/java/com/android/server/hdmi/HdmiCecLocalDeviceTv.java:435-453 | a no-op for the current active source; otherwise the new one becomes active, and the previous port is recorded only for a known non-local device on the active port |
| CecLocalDeviceTv.HdmiCecLocalDeviceTv.HandleSelectInternalSource | services/core/java/com/android/server/hdmi/HdmiCecLocalDeviceTv.java:408-426 | with CEC on and another device active, the TV becomes the active source and announces itself unless routing control is to be skipped (then only the skip flag clears) |
| CecLocalDeviceTv.HdmiCecLocalDeviceTv.DeviceSelect | services/core/java/com/android/server/hdmi/HdmiCecLocalDeviceTv.java:362-405 | unknown id: TARGET_NOT_AVAILABLE and nothing else; already the active source: SUCCESS and nothing else; same physical address as the active source: nothing; internal target: request-active-source actions dropped, the TV active on its own path with SUCCESS, <Active Source> and the skip flag as `handleSelectInternalSource` leaves them; CEC off: only recorded (INCORRECT_MODE); otherwise <Routing Change> and exactly one Device Select action; the skip flag and previous port otherwise kept |
| CecLocalDeviceTv.HdmiCecLocalDeviceTv.SelectInternalDevice | services/core/java/com/android/server/hdmi/HdmiCecLocalDeviceTv.java:379-387 | the TV becomes the active source on its own path and the callback gets SUCCESS, even with CEC off; the frames sent and the skip flag are those of `handleSelectInternalSource`; the previous port is kept |
| CecLocalDeviceTv.HdmiCecLocalDeviceTv.StartRoutingControl | services/core/java/com/android/server/hdmi/HdmiCecLocalDeviceTv.java:546-564 | nothing for an unchanged path; otherwise <Routing Change> then <Set Stream Path> and exactly one Routing Control action, for the new path |
| CecLocalDeviceTv.HdmiCecLocalDeviceTv.DoManualPortSwitching | services/core/java/com/android/server/hdmi/HdmiCecLocalDeviceTv.java:499-543 | an invalid port answers INCORRECT_MODE and the active port SUCCESS, both without routing; otherwise the active source is dropped, with CEC off the port only becomes active, with CEC on routing starts from the old path to the switch target |
| CecLocalDeviceTv.HdmiCecLocalDeviceTv.EnableArc | services/core/java/com/android/server/hdmi/HdmiCecLocalDeviceTv.java:1045-1058 | blocked by eARC it changes nothing; otherwise ARC is established and switched on with the audio service told |
| CecLocalDeviceTv.HdmiCecLocalDeviceTv.DisableArc | services/core/java/com/android/server/hdmi/HdmiCecLocalDeviceTv.java:1061-1068 | ARC is always switched off and no longer established |
| CecLocalDeviceTv.HdmiCecLocalDeviceTv.StartArcAction | services/core/java/com/android/server/hdmi/HdmiCecLocalDeviceTv.java:1146-1202 | without an AVR only a disable acts (drops the initiation, disables ARC); failing the ARC checks or an eARC block of an enable gives INCORRECT_MODE; otherwise the opposite request is dropped and this direction's single action receives the callback |
| CecLocalDeviceTv.HdmiCecLocalDeviceTv.ChangeArcFeatureEnabled | services/core/java/com/android/server/hdmi/HdmiCecLocalDeviceTv.java:1117-1132 | a no-op for an unchanged flag; otherwise the port's flag is stored, and for the AVR's port with the flag differing from the established state the full `startArcAction` outcome follows (`ArcActionTaken`), else nothing else changes; enabling with SAC on, a directly connected AVR and no eARC block leaves exactly one initiation and no termination request; switching off the last enabled port leaves ARC not established, and after enabling, ARC is established exactly when the flag is set |
| CecLocalDeviceTv.HdmiCecLocalDeviceTv.FollowArcFeature | services/core/java/com/android/server/hdmi/HdmiCecLocalDeviceTv.java:1124-1131 | for the AVR's port, when the flag differs from the established state, the `startArcAction` outcome in that direction; otherwise nothing changes; the established flag is kept either way |
| CecLocalDeviceTv.HdmiCecLocalDeviceTv.HandleInitiateArc | services/core/java/com/android/server/hdmi/HdmiCecLocalDeviceTv.java:1302-1358 | eARC blocking answers NOT_IN_CORRECT_MODE and changes nothing; a sender failing the checks is buffered, asked for its address or refused with <Request ARC Termination>; an established ARC is reported again; otherwise one transmission-state action enabling ARC replaces the initiation request |
| CecLocalDeviceTv.HdmiCecLocalDeviceTv.HandleTerminateArc | services/core/java/com/android/server/hdmi/HdmiCecLocalDeviceTv.java:1379-1400 | in standby ARC is disabled; without ARC established <Report ARC Terminated> is sent again; otherwise one transmission-state action disabling ARC replaces the termination request; always handled |
| CecLocalDeviceTv.HdmiCecLocalDeviceTv.HandleInactiveSource | services/core/java/com/android/server/hdmi/HdmiCecLocalDeviceTv.java:651-687 | only the active source's message outside prohibit mode acts: with a previous port, a known sender on another port clears it; with none, the active source and path are dropped and the input listener told; always handled |
| CecLocalDeviceTv.HdmiCecLocalDeviceTv.HasNewDeviceActionFor | services/core/java/com/android/server/hdmi/HdmiCecLocalDeviceTv.java:776-788 | true exactly when a New Device action for that logical and physical address is live |
| CecLocalDeviceTv.HdmiCecLocalDeviceTv.StartNewDeviceAction | services/core/java/com/android/server/hdmi/HdmiCecLocalDeviceTv.java:775-792 | a duplicate request changes nothing, a new one appends one New Device action; afterwards one for the source is live |
| CecLocalDeviceTv.HdmiCecLocalDeviceTv.SetSystemAudioMode | services/core/java/com/android/server/hdmi/HdmiCecLocalDeviceTv.java:989-1009 | turning on is refused while System Audio Control is off; otherwise the mode becomes `on`, a change of mode appends the audio-manager and announcement calls, then, unless turning on with ARC already established, the `startArcAction` outcome in direction `on` follows from that state; after turning off no initiation request is left, with an AVR exactly one termination request runs and without one ARC is not established |
| CecLocalDeviceTv.HdmiCecLocalDeviceTv.UpdateSystemAudioMode | services/core/java/com/android/server/hdmi/HdmiCecLocalDeviceTv.java:1000-1004 | the mode flag becomes `on`; the audio-manager update and the announcement are made exactly when the mode changes |
| CecLocalDeviceTv.ModeChangeEffects | services/core/java/com/android/server/hdmi/HdmiCecLocalDeviceTv.java:1000-1004 | no calls exactly when the mode does not change |
| CecLocalDeviceTv.ArcDisableOutcome | services/core/java/com/android/server/hdmi/HdmiCecLocalDeviceTv.java:1146-1202 | a disabling ARC request withdraws every initiation request; with an AVR exactly one termination request runs, without one ARC is switched off |
| CecLocalDeviceTv.ArcRequestOutcome | services/core/java/com/android/server/hdmi/HdmiCecLocalDeviceTv.java:1146-1202 | a request that passes the ARC checks (and is not an eARC-blocked enable) leaves exactly one request in its direction and none in the other, with the established flag, calls and callback results unchanged |
| CecLocalDeviceTv.DisablingLastArcPortEndsArc | services/core/java/com/android/server/hdmi/HdmiCecLocalDeviceTv.java:1106-1114 | switching ARC off on the last port that had it leaves ARC not established, whatever the flag |
| CecLocalDeviceTv.EnabledArcPortDefersToFlag | services/core/java/com/android/server/hdmi/HdmiCecLocalDeviceTv.java:1106-1114 | with ARC switched on for some port, ARC is established exactly when the flag is set |
| CecLocalDeviceTv.ArcUpdateOnlyFromAvr | services/core/java/com/android/server/hdmi/HdmiCecLocalDeviceTv.java:1360-1374 | only the AVR's address passes the ARC checks, and whatever passes for enabling passes for disabling |
| AlarmAlignment.MulSign | services/core/java/com/android/server/AlarmAlignmentManager.java:713-714 | a positive number of alignments is at least one alignment, a non-positive one at most zero |
| AlarmAlignment.MultipleMod | services/core/java/com/android/server/AlarmAlignmentManager.java:713-714 | a multiple of the alignment is a boundary |
| AlarmAlignment.BoundaryArith | services/core/java/com/android/server/AlarmAlignmentManager.java:722-725 | sums of boundaries, and a boundary moved by one alignment, are boundaries |
| AlarmAlignment.FirstBoundaryIsAfterNow | services/core/java/com/android/server/AlarmAlignmentManager.java:713-714 | `(now / align + 1) * align` with Java's truncating division is a boundary after now, and for a non-negative now the first one |
| AlarmAlignment.StepUp | services/core/java/com/android/server/AlarmAlignmentManager.java:722-725 | the stepping loop stops at the first value, from a boundary again a boundary, not below the trigger, overshooting by less than one alignment |
| AlarmAlignment.Rounded | services/core/java/com/android/server/AlarmAlignmentManager.java:699-755 | without the FIXED2 strategy or without a positive alignment the trigger is returned unchanged |
| AlarmAlignment.RoundedIsBoundaryAfterNow | services/core/java/com/android/server/AlarmAlignmentManager.java:699-755 | with FIXED2 and a positive alignment every rounded trigger is a boundary after now |
| AlarmAlignment.BoundaryBetween | services/core/java/com/android/server/AlarmAlignmentManager.java:722-745 | two boundaries less than one alignment apart are the same |
| AlarmAlignment.RoundedOnBoundaries | services/core/java/com/android/server/AlarmAlignmentManager.java:719-731 | a trigger no later than the first boundary after now goes to that boundary, and a trigger already on a later boundary stays, whatever the round type |
| AlarmAlignment.RoundTypeMeaning | services/core/java/com/android/server/AlarmAlignmentManager.java:732-748 | between two boundaries, round type 0 takes the one below, 1 the one above, any other the nearer one with a tie going up |
| AlarmAlignment.StepUpLong | services/core/java/com/android/server/AlarmAlignmentManager.java:719-726 | the stepping loop as `long` arithmetic: `next += align` wraps at 2^64; a finished loop ends at a `long` not below the trigger, at once when `next` is already there |
| AlarmAlignment.RoundedLong | services/core/java/com/android/server/AlarmAlignmentManager.java:699-755 | `roundToNextWakeup` in `long` arithmetic: its result is a `long`, and without FIXED2 or a positive alignment it is the trigger |
| AlarmAlignment.StepUpLongAgrees | services/core/java/com/android/server/AlarmAlignmentManager.java:719-726 | when the boundary reached is at most `Long.MAX_VALUE` and enough steps are allowed, the `long` loop ends where the unbounded one does |
| AlarmAlignment.RoundedLongAgrees | services/core/java/com/android/server/AlarmAlignmentManager.java:699-755 | when no boundary reached passes `Long.MAX_VALUE`, the `long` computation returns exactly the unbounded `Rounded` |
| AlarmAlignment.SteppedRoundingAgrees | services/core/java/com/android/server/AlarmAlignmentManager.java:727-748 | once the `long` loop has stepped as the unbounded one, the round-type choice in `long` is the unbounded one |
| AlarmAlignment.StepUpLongNeverReachesMax | services/core/java/com/android/server/AlarmAlignmentManager.java:722-725 | from an even `next` with an even alignment, the `long` loop towards `Long.MAX_VALUE` never ends, however many steps |
| AlarmAlignment.RoundToNextWakeupHangs | services/core/java/com/android/server/AlarmAlignmentManager.java:699-755 | with FIXED2, alignment 300000, trigger `Long.MAX_VALUE` and now 0, the source's `long` loop never ends, while the unbounded rounding down gives 9223372036854600000 |
| AlarmAlignment.ExtendedInterval | services/core/java/com/android/server/AlarmAlignmentManager.java:112-119 | a positive repeat interval shorter than the repeat alignment grows to the alignment; any other interval is kept |
| AlarmAlignment.AlignApp | services/core/java/com/android/server/AlarmAlignmentManager.java:93-156 | no extra exactly when the alarm fires within the skip-short window (then nothing changes); otherwise an extra recording the original interval and window, born with survival 0 |
| AlarmAlignment.AlignAppMovesToBoundary | services/core/java/com/android/server/AlarmAlignmentManager.java:121-149 | an aligned one-shot alarm moves its elapsed trigger by the recorded delta onto a boundary after now; an RTC trigger moves by the same delta plus the minimum-trigger correction, an elapsed one is set to the boundary; the window becomes exact and the alarm standalone |
| AlarmAlignment.AlignAppKeepsUnalignedTrigger | services/core/java/com/android/server/AlarmAlignmentManager.java:112-122 | an alarm that is not aligned keeps its triggers, window and flags; only its interval may grow, and the recorded delta is 0 |
| AlarmAlignment.EnsureExtra | services/core/java/com/android/server/AlarmAlignmentManager.java:180 | an existing extra is kept as it is |
| AlarmAlignment.AlignRepeat | services/core/java/com/android/server/AlarmAlignmentManager.java:163-196 | nothing changes without FIXED2 or within the skip-short window; otherwise the alarm ends with an extra |
| AlarmAlignment.AlignRepeatShiftsBothTriggers | services/core/java/com/android/server/AlarmAlignmentManager.java:177-191 | an aligned repeating alarm moves both trigger times by the distance from the next trigger to its boundary after now; a non-zero distance is recorded in the extra, whose other fields are kept |
| AlarmAlignment.IsFilteredAppAlarm | services/core/java/com/android/server/AlarmAlignmentManager.java:604-623 | an idle-until alarm or one with alarm-clock info is never aligned; a system alarm (no package) exactly when system alarms are aligned |
| AlarmAlignment.BlackListBeforeWhiteList | services/core/java/com/android/server/AlarmAlignmentManager.java:625-655 | a blacklist hit aligns the alarm even when it is also whitelisted; otherwise a whitelist hit exempts it |
| AlarmAlignment.UnlistedPackageDecision | services/core/java/com/android/server/AlarmAlignmentManager.java:666-687 | a package on neither list is aligned when system alarms are, otherwise exactly when it is not a system application, judged by its package-manager flags or, failing those, by its name prefix |
| AlarmAlignment.DecreasedSurvival | services/core/java/com/android/server/AlarmAlignmentManager.java:582-587 | only the survival changes, and it drops by one exactly when it was positive |
| AlarmAlignment.SurvivalRunsOut | services/core/java/com/android/server/AlarmAlignmentManager.java:582-587 | from a non-negative start survival never goes negative, after at least that many decreases it is 0, and nothing else of the extra changes |
| AlarmAlignment.DecreasedTimesSurvival | services/core/java/com/android/server/AlarmAlignmentManager.java:582-587 | from a non-negative survival s, n decreases leave s - n, or 0 once n reaches s |
| AlarmAlignment.FilteredAfterDecreases | services/core/java/com/android/server/AlarmAlignmentManager.java:582-598 | an alarm that can be filtered (a pending intent, no alarm-clock info, not idle-until) is filtered after n decreases of a survival s >= 0 exactly when n >= s; any other alarm never is |
| AlarmAlignment.SurvivalKeepsUnfiltered | services/core/java/com/android/server/AlarmAlignmentManager.java:590-598 | an alarm whose extra still has positive survival is not filtered |
| AlarmAlignment.Alarm.constructor | services/core/java/com/android/server/AlarmAlignmentManager.java:592-597 | the alarm's operation, alarm-clock flag, flags and extra as given |
| AlarmAlignment.WithoutAppend | services/core/java/com/android/server/AlarmAlignmentManager.java:541-580 | removal from a concatenation is the concatenation of the removals |
| AlarmAlignment.WithoutMeaning | services/core/java/com/android/server/AlarmAlignmentManager.java:541-580 | removal leaves no selected alarm, keeps every other one, and changes nothing when none is selected |
| AlarmAlignment.AlarmAlignmentManager.constructor | services/core/java/com/android/server/AlarmAlignmentManager.java:69-79 | the given configuration and no skipped alarms |
| AlarmAlignment.AlarmAlignmentManager.RoundToNextWakeup | services/core/java/com/android/server/AlarmAlignmentManager.java:699-755 | the stepping loop computes the rounded trigger |
| AlarmAlignment.AlarmAlignmentManager.AlignAppAlarm | services/core/java/com/android/server/AlarmAlignmentManager.java:93-156 | a null info gives no extra; otherwise the info's new fields and the extra are those of the alignment |
| AlarmAlignment.AlarmAlignmentManager.MoveAlarmToBoundary | services/core/java/com/android/server/AlarmAlignmentManager.java:123-149 | the trigger move, window and flag update of an aligned one-shot alarm, and the delta recorded |
| AlarmAlignment.AlarmAlignmentManager.AlignRepeatAppAlarm | services/core/java/com/android/server/AlarmAlignmentManager.java:163-196 | a null info changes nothing; otherwise the alarm's extra and the info are those of the repeat alignment |
| AlarmAlignment.AlarmAlignmentManager.AddSkippedNonWakeupAlarm | services/core/java/com/android/server/AlarmAlignmentManager.java:518-520 | the alarm is appended to the skipped list |
| AlarmAlignment.AlarmAlignmentManager.LookForSkippedNonWakeupAlarm | services/core/java/com/android/server/AlarmAlignmentManager.java:522-539 | true exactly when some skipped alarm was created by the package |
| AlarmAlignment.AlarmAlignmentManager.RemoveSkipped | services/core/java/com/android/server/AlarmAlignmentManager.java:544-549 | the reverse-index removal loop leaves exactly the unselected alarms, in order |
| AlarmAlignment.AlarmAlignmentManager.RemoveSkippedByOperation | services/core/java/com/android/server/AlarmAlignmentManager.java:541-551 | removes exactly the alarms with an equal operation |
| AlarmAlignment.AlarmAlignmentManager.RemoveSkippedByPackage | services/core/java/com/android/server/AlarmAlignmentManager.java:553-567 | removes exactly the alarms whose operation's creator package is the one given |
| AlarmAlignment.AlarmAlignmentManager.RemoveSkippedByUser | services/core/java/com/android/server/AlarmAlignmentManager.java:569-580 | removes exactly the alarms whose creator uid belongs to the user |
| AlarmAlignment.AlarmAlignmentManager.DecreaseSurvival | services/core/java/com/android/server/AlarmAlignmentManager.java:582-587 | an alarm with an extra has its survival decreased once; one without keeps none |
| AlarmAlignment.AlarmAlignmentInfo.constructor | services/core/java/com/android/server/AlarmAlignmentManager.java:1103-1110 | the five fields as given |
| RockchipEqualizer.WordBytes | media/java/android/media/audiofx/RockchipEqualizer.java:1600-1601 | a 32-bit word is four bytes in the native (little-endian) order |
| RockchipEqualizer.WordBijection | media/java/android/media/audiofx/RockchipEqualizer.java:1307-1308 | four bytes and a word are the same thing, read either way |
| RockchipEqualizer.IntWordRoundTrip | media/java/android/media/audiofx/RockchipEqualizer.java:1324 | `putInt` then `getInt` gives back any 32-bit int |
| RockchipEqualizer.WordsBytes | media/java/android/media/audiofx/RockchipEqualizer.java:1598-1653 | a word sequence is four bytes per word |
| RockchipEqualizer.WordsOf | media/java/android/media/audiofx/RockchipEqualizer.java:1306-1308 | reading words from an array gives one word per whole four bytes |
| RockchipEqualizer.WordsBytesAt | media/java/android/media/audiofx/RockchipEqualizer.java:1598-1653 | word k sits at bytes 4k to 4k+3 |
| RockchipEqualizer.WordsRoundTrip | media/java/android/media/audiofx/RockchipEqualizer.java:1306-1374 | reading back the bytes of written words gives the words |
| RockchipEqualizer.BytesRoundTrip | media/java/android/media/audiofx/RockchipEqualizer.java:1306-1374 | writing back read words reproduces the bytes up to the last whole word |
| RockchipEqualizer.Zeros | media/java/android/media/audiofx/RockchipEqualizer.java:1651 | the unwritten tail of an allocated buffer is that many zero bytes |
| RockchipEqualizer.ByteBuffer.Allocate | media/java/android/media/audiofx/RockchipEqualizer.java:311 | an empty buffer of the given capacity |
| RockchipEqualizer.ByteBuffer.Wrap | media/java/android/media/audiofx/RockchipEqualizer.java:1307 | a reading buffer over the whole words of the array, nothing consumed |
| RockchipEqualizer.ByteBuffer.PutFloat | media/java/android/media/audiofx/RockchipEqualizer.java:312 | appends one word |
| RockchipEqualizer.ByteBuffer.PutInt | media/java/android/media/audiofx/RockchipEqualizer.java:1601 | appends the two's-complement word of the int |
| RockchipEqualizer.ByteBuffer.PutFloats | media/java/android/media/audiofx/RockchipEqualizer.java:313-315 | appends the words in order |
| RockchipEqualizer.ByteBuffer.Put | media/java/android/media/audiofx/RockchipEqualizer.java:1621-1623 | putting a block's bytes appends that block's words |
| RockchipEqualizer.ByteBuffer.Array | media/java/android/media/audiofx/RockchipEqualizer.java:317 | `array()` has the buffer's capacity |
| RockchipEqualizer.ByteBuffer.GetFloat | media/java/android/media/audiofx/RockchipEqualizer.java:287 | consumes exactly the next word |
| RockchipEqualizer.ByteBuffer.GetInt | media/java/android/media/audiofx/RockchipEqualizer.java:1324 | consumes the next word, read as a signed 32-bit value |
| RockchipEqualizer.ByteBuffer.GetFloats | media/java/android/media/audiofx/RockchipEqualizer.java:288-290 | consumes exactly the next n words, in order |
| RockchipEqualizer.Speaker.Words | media/java/android/media/audiofx/RockchipEqualizer.java:310-318 | the Speaker block is 5 words |
| RockchipEqualizer.Speaker.FromBuffer | media/java/android/media/audiofx/RockchipEqualizer.java:286-292 | the `Speaker(ByteBuffer)` constructor consumes exactly the block's 5 words, in layout order |
| RockchipEqualizer.Speaker.ToBytes | media/java/android/media/audiofx/RockchipEqualizer.java:310-318 | `toBytes` yields the block's words in layout order, 20 bytes |
| RockchipEqualizer.SpeakerInjective | media/java/android/media/audiofx/RockchipEqualizer.java:310-318 | two Speaker blocks with the same words are the same block |
| RockchipEqualizer.SpeakerRoundTrip | media/java/android/media/audiofx/RockchipEqualizer.java:286-292 | a Speaker block read back from the bytes its `toBytes` wrote is the same block |
| RockchipEqualizer.AutoGain.Words | media/java/android/media/audiofx/RockchipEqualizer.java:397-409 | the AutoGain block is 10 words |
| RockchipEqualizer.AutoGain.FromBuffer | media/java/android/media/audiofx/RockchipEqualizer.java:333-343 | the `AutoGain(ByteBuffer)` constructor consumes exactly the block's 10 words, in layout order |
| RockchipEqualizer.AutoGain.ToBytes | media/java/android/media/audiofx/RockchipEqualizer.java:397-409 | `toBytes` yields the block's words in layout order, 40 bytes |
| RockchipEqualizer.AutoGainInjective | media/java/android/media/audiofx/RockchipEqualizer.java:397-409 | two AutoGain blocks with the same words are the same block |
| RockchipEqualizer.AutoGainRoundTrip | media/java/android/media/audiofx/RockchipEqualizer.java:333-343 | a AutoGain block read back from the bytes its `toBytes` wrote is the same block |
| RockchipEqualizer.BassEnhancer.Words | media/java/android/media/audiofx/RockchipEqualizer.java:499-512 | the BassEnhancer block is 10 words |
| RockchipEqualizer.BassEnhancer.FromBuffer | media/java/android/media/audiofx/RockchipEqualizer.java:425-436 | the `BassEnhancer(ByteBuffer)` constructor consumes exactly the block's 10 words, in layout order |
| RockchipEqualizer.BassEnhancer.ToBytes | media/java/android/media/audiofx/RockchipEqualizer.java:499-512 | `toBytes` yields the block's words in layout order, 40 bytes |
| RockchipEqualizer.BassEnhancerInjective | media/java/android/media/audiofx/RockchipEqualizer.java:499-512 | two BassEnhancer blocks with the same words are the same block |
| RockchipEqualizer.BassEnhancerRoundTrip | media/java/android/media/audiofx/RockchipEqualizer.java:425-436 | a BassEnhancer block read back from the bytes its `toBytes` wrote is the same block |
| RockchipEqualizer.Exciter.Words | media/java/android/media/audiofx/RockchipEqualizer.java:577-586 | the Exciter block is 5 words |
| RockchipEqualizer.Exciter.FromBuffer | media/java/android/media/audiofx/RockchipEqualizer.java:526-532 | the `Exciter(ByteBuffer)` constructor consumes exactly the block's 5 words, in layout order |
| RockchipEqualizer.Exciter.ToBytes | media/java/android/media/audiofx/RockchipEqualizer.java:577-586 | `toBytes` yields the block's words in layout order, 20 bytes |
| RockchipEqualizer.ExciterInjective | media/java/android/media/audiofx/RockchipEqualizer.java:577-586 | two Exciter blocks with the same words are the same block |
| RockchipEqualizer.ExciterRoundTrip | media/java/android/media/audiofx/RockchipEqualizer.java:526-532 | a Exciter block read back from the bytes its `toBytes` wrote is the same block |
| RockchipEqualizer.Deesser.Words | media/java/android/media/audiofx/RockchipEqualizer.java:632-641 | the Deesser block is 5 words |
| RockchipEqualizer.Deesser.FromBuffer | media/java/android/media/audiofx/RockchipEqualizer.java:598-605 | the `Deesser(ByteBuffer)` constructor consumes exactly the block's 5 words, in layout order |
| RockchipEqualizer.Deesser.ToBytes | media/java/android/media/audiofx/RockchipEqualizer.java:632-641 | `toBytes` yields the block's words in layout order, 20 bytes |
| RockchipEqualizer.DeesserInjective | media/java/android/media/audiofx/RockchipEqualizer.java:632-641 | two Deesser blocks with the same words are the same block |
| RockchipEqualizer.DeesserRoundTrip | media/java/android/media/audiofx/RockchipEqualizer.java:598-605 | a Deesser block read back from the bytes its `toBytes` wrote is the same block |
| RockchipEqualizer.EqBand.Words | media/java/android/media/audiofx/RockchipEqualizer.java:717-726 | the EqBand block is 5 words |
| RockchipEqualizer.EqBand.FromBuffer | media/java/android/media/audiofx/RockchipEqualizer.java:657-663 | the `EqBand(ByteBuffer)` constructor consumes exactly the block's 5 words, in layout order |
| RockchipEqualizer.EqBand.ToBytes | media/java/android/media/audiofx/RockchipEqualizer.java:717-726 | `toBytes` yields the block's words in layout order, 20 bytes |
| RockchipEqualizer.EqBandInjective | media/java/android/media/audiofx/RockchipEqualizer.java:717-726 | two EqBand blocks with the same words are the same block |
| RockchipEqualizer.EqBandRoundTrip | media/java/android/media/audiofx/RockchipEqualizer.java:657-663 | a EqBand block read back from the bytes its `toBytes` wrote is the same block |
| RockchipEqualizer.MbdrcFreq.Words | media/java/android/media/audiofx/RockchipEqualizer.java:931-950 | the MbdrcFreq block is 20 words |
| RockchipEqualizer.MbdrcFreq.FromBuffer | media/java/android/media/audiofx/RockchipEqualizer.java:797-814 | the `MbdrcFreq(ByteBuffer)` constructor consumes exactly the block's 20 words, in layout order |
| RockchipEqualizer.MbdrcFreq.ToBytes | media/java/android/media/audiofx/RockchipEqualizer.java:931-950 | `toBytes` yields the block's words in layout order, 80 bytes |
| RockchipEqualizer.MbdrcFreqInjective | media/java/android/media/audiofx/RockchipEqualizer.java:931-950 | two MbdrcFreq blocks with the same words are the same block |
| RockchipEqualizer.MbdrcFreqRoundTrip | media/java/android/media/audiofx/RockchipEqualizer.java:797-814 | a MbdrcFreq block read back from the bytes its `toBytes` wrote is the same block |
| RockchipEqualizer.Mbdrc.Words | media/java/android/media/audiofx/RockchipEqualizer.java:1042-1057 | the Mbdrc block is 100 words |
| RockchipEqualizer.Mbdrc.FromBuffer | media/java/android/media/audiofx/RockchipEqualizer.java:970-984 | the `Mbdrc(ByteBuffer)` constructor consumes exactly the block's 100 words, in layout order |
| RockchipEqualizer.Mbdrc.ToBytes | media/java/android/media/audiofx/RockchipEqualizer.java:1042-1057 | `toBytes` yields the block's words in layout order, 400 bytes |
| RockchipEqualizer.MbdrcInjective | media/java/android/media/audiofx/RockchipEqualizer.java:1042-1057 | two Mbdrc blocks with the same words are the same block |
| RockchipEqualizer.MbdrcRoundTrip | media/java/android/media/audiofx/RockchipEqualizer.java:970-984 | a Mbdrc block read back from the bytes its `toBytes` wrote is the same block |
| RockchipEqualizer.Maximizer.Words | media/java/android/media/audiofx/RockchipEqualizer.java:1109-1116 | the Maximizer block is 3 words |
| RockchipEqualizer.Maximizer.FromBuffer | media/java/android/media/audiofx/RockchipEqualizer.java:1069-1073 | the `Maximizer(ByteBuffer)` constructor consumes exactly the block's 3 words, in layout order |
| RockchipEqualizer.Maximizer.ToBytes | media/java/android/media/audiofx/RockchipEqualizer.java:1109-1116 | `toBytes` yields the block's words in layout order, 12 bytes |
| RockchipEqualizer.MaximizerInjective | media/java/android/media/audiofx/RockchipEqualizer.java:1109-1116 | two Maximizer blocks with the same words are the same block |
| RockchipEqualizer.MaximizerRoundTrip | media/java/android/media/audiofx/RockchipEqualizer.java:1069-1073 | a Maximizer block read back from the bytes its `toBytes` wrote is the same block |
| RockchipEqualizer.Agc.Words | media/java/android/media/audiofx/RockchipEqualizer.java:1228-1243 | the Agc block is 17 words |
| RockchipEqualizer.Agc.FromBuffer | media/java/android/media/audiofx/RockchipEqualizer.java:1134-1147 | the `Agc(ByteBuffer)` constructor consumes exactly the block's 17 words, in layout order |
| RockchipEqualizer.Agc.ToBytes | media/java/android/media/audiofx/RockchipEqualizer.java:1228-1243 | `toBytes` yields the block's words in layout order, 68 bytes |
| RockchipEqualizer.AgcInjective | media/java/android/media/audiofx/RockchipEqualizer.java:1228-1243 | two Agc blocks with the same words are the same block |
| RockchipEqualizer.AgcRoundTrip | media/java/android/media/audiofx/RockchipEqualizer.java:1134-1147 | a Agc block read back from the bytes its `toBytes` wrote is the same block |
| RockchipEqualizer.EqBandWords | media/java/android/media/audiofx/RockchipEqualizer.java:766-773 | each band contributes five words to the equalizer block |
| RockchipEqualizer.Eq.Words | media/java/android/media/audiofx/RockchipEqualizer.java:766-773 | an equalizer with at least ten bands is 50 words, the first ten bands in order |
| RockchipEqualizer.Eq.FromBuffer | media/java/android/media/audiofx/RockchipEqualizer.java:738-743 | `Eq(ByteBuffer)` reads exactly ten bands, 50 words |
| RockchipEqualizer.Eq.ToBytes | media/java/android/media/audiofx/RockchipEqualizer.java:766-773 | `toBytes` succeeds exactly when there are at least ten bands (else indexing throws) and then yields the 200 bytes of the first ten |
| RockchipEqualizer.EqInjective | media/java/android/media/audiofx/RockchipEqualizer.java:766-773 | two ten-band equalizers with the same words are equal |
| RockchipEqualizer.EqRoundTrip | media/java/android/media/audiofx/RockchipEqualizer.java:738-773 | an equalizer read back from its bytes holds the first ten bands of the one written |
| RockchipEqualizer.SpeakerWordsInjective | media/java/android/media/audiofx/RockchipEqualizer.java:310-318 | the speaker layout is injective |
| RockchipEqualizer.AutoGainWordsInjective | media/java/android/media/audiofx/RockchipEqualizer.java:397-409 | the auto-gain layout is injective |
| RockchipEqualizer.BassEnhancerWordsInjective | media/java/android/media/audiofx/RockchipEqualizer.java:499-512 | the bass-enhancer layout is injective |
| RockchipEqualizer.ExciterWordsInjective | media/java/android/media/audiofx/RockchipEqualizer.java:577-586 | the exciter layout is injective |
| RockchipEqualizer.DeesserWordsInjective | media/java/android/media/audiofx/RockchipEqualizer.java:632-641 | the de-esser layout is injective |
| RockchipEqualizer.MbdrcWordsInjective | media/java/android/media/audiofx/RockchipEqualizer.java:1042-1057 | the multi-band DRC layout is injective |
| RockchipEqualizer.ChannelsInjective | media/java/android/media/audiofx/RockchipEqualizer.java:1621-1648 | equal runs of fixed-size injective blocks come from equal blocks |
| RockchipEqualizer.ChannelPairInjective | media/java/android/media/audiofx/RockchipEqualizer.java:1621-1648 | the two channels' blocks are determined by their run |
| RockchipEqualizer.EqPairInjective | media/java/android/media/audiofx/RockchipEqualizer.java:1636-1638 | the two channels' equalizers are determined by their run |
| RockchipEqualizer.MaxAgcPairInjective | media/java/android/media/audiofx/RockchipEqualizer.java:1645-1648 | the alternating maximizer/AGC run determines both channels' maximizers and AGCs |
| RockchipEqualizer.EqsWords | media/java/android/media/audiofx/RockchipEqualizer.java:1636-1638 | the equalizers of n channels are 50 words each |
| RockchipEqualizer.MaxAgcWords | media/java/android/media/audiofx/RockchipEqualizer.java:1645-1648 | each channel contributes its maximizer followed by its AGC, 20 words |
| RockchipEqualizer.PutSpeakers | media/java/android/media/audiofx/RockchipEqualizer.java:1621-1623 | the speaker loop writes both channels' blocks in order, 10 words |
| RockchipEqualizer.PutAutoGains | media/java/android/media/audiofx/RockchipEqualizer.java:1624-1626 | the auto-gain loop writes both channels' blocks in order, 20 words |
| RockchipEqualizer.PutBassEnhancers | media/java/android/media/audiofx/RockchipEqualizer.java:1630-1632 | the bass-enhancer loop writes both channels' blocks in order, 20 words |
| RockchipEqualizer.PutExciters | media/java/android/media/audiofx/RockchipEqualizer.java:1633-1635 | the exciter loop writes both channels' blocks in order, 10 words |
| RockchipEqualizer.PutDeessers | media/java/android/media/audiofx/RockchipEqualizer.java:1636-1638 | the de-esser loop writes both channels' blocks in order, 10 words |
| RockchipEqualizer.PutMbdrcs | media/java/android/media/audiofx/RockchipEqualizer.java:1642-1644 | the multi-band DRC loop writes both channels' blocks in order, 200 words |
| RockchipEqualizer.PutEqs | media/java/android/media/audiofx/RockchipEqualizer.java:1639-1641 | the equalizer loop writes both channels' first ten bands, 100 words |
| RockchipEqualizer.PutMaxAgcs | media/java/android/media/audiofx/RockchipEqualizer.java:1645-1648 | each channel's maximizer then its AGC, 40 words |
| RockchipEqualizer.ReadSpeakers | media/java/android/media/audiofx/RockchipEqualizer.java:1343-1345 | reads exactly both channels' speaker blocks |
| RockchipEqualizer.ReadAutoGains | media/java/android/media/audiofx/RockchipEqualizer.java:1346-1348 | reads exactly both channels' auto-gain blocks |
| RockchipEqualizer.ReadBassEnhancers | media/java/android/media/audiofx/RockchipEqualizer.java:1352-1354 | reads exactly both channels' bass-enhancer blocks |
| RockchipEqualizer.ReadExciters | media/java/android/media/audiofx/RockchipEqualizer.java:1355-1357 | reads exactly both channels' exciter blocks |
| RockchipEqualizer.ReadDeessers | media/java/android/media/audiofx/RockchipEqualizer.java:1358-1360 | reads exactly both channels' de-esser blocks |
| RockchipEqualizer.ReadMbdrcs | media/java/android/media/audiofx/RockchipEqualizer.java:1364-1366 | reads exactly both channels' multi-band DRC blocks |
| RockchipEqualizer.ReadEqs | media/java/android/media/audiofx/RockchipEqualizer.java:1361-1363 | reads exactly two ten-band equalizers |
| RockchipEqualizer.ReadMaxAgcs | media/java/android/media/audiofx/RockchipEqualizer.java:1367-1370 | reads each channel's maximizer then its AGC |
| RockchipEqualizer.ReadFrontBlocks | media/java/android/media/audiofx/RockchipEqualizer.java:1343-1354 | the speaker, auto-gain, third reserved run and bass-enhancer reads, in that order, 60 words |
| RockchipEqualizer.ReadBackBlocks | media/java/android/media/audiofx/RockchipEqualizer.java:1355-1373 | the exciter, de-esser, equalizer, multi-band DRC, maximizer/AGC and final reserved reads, 464 words |
| RockchipEqualizer.Settings.Truncated | media/java/android/media/audiofx/RockchipEqualizer.java:1598-1653 | what `toBytes` keeps of a settings object (two channels, ten bands) is canonical |
| RockchipEqualizer.Settings.Header | media/java/android/media/audiofx/RockchipEqualizer.java:1601-1620 | the preset, stream format and enable flags are 21 words |
| RockchipEqualizer.Settings.ToBytes | media/java/android/media/audiofx/RockchipEqualizer.java:1598-1653 | succeeds exactly when every channel array has two entries and both equalizers ten bands, and then yields all the words, 2180 bytes |
| RockchipEqualizer.Settings.FromBytes | media/java/android/media/audiofx/RockchipEqualizer.java:1306-1374 | fails exactly for an array shorter than 2180 bytes; otherwise canonical settings whose words are the first 545 words of the array |
| RockchipEqualizer.Settings.ReadSettings | media/java/android/media/audiofx/RockchipEqualizer.java:1324-1373 | reads 545 words into canonical settings whose layout is exactly what was consumed |
| RockchipEqualizer.Settings.ReadHeader | media/java/android/media/audiofx/RockchipEqualizer.java:1324-1342 | reads the 21 header words |
| RockchipEqualizer.Settings.PutHeader | media/java/android/media/audiofx/RockchipEqualizer.java:1601-1620 | writes the 21 header words |
| RockchipEqualizer.SettingsSize | media/java/android/media/audiofx/RockchipEqualizer.java:1600 | writable settings are 545 words, the 2180 bytes allocated |
| RockchipEqualizer.HeaderInjective | media/java/android/media/audiofx/RockchipEqualizer.java:1601-1620 | the header words determine the preset, stream format and every enable flag |
| RockchipEqualizer.SettingsWordsParts | media/java/android/media/audiofx/RockchipEqualizer.java:1598-1653 | equal serialisations agree section by section |
| RockchipEqualizer.FrontSize | media/java/android/media/audiofx/RockchipEqualizer.java:1601-1635 | the sections before the equalizers are 101 words |
| RockchipEqualizer.FrontParts | media/java/android/media/audiofx/RockchipEqualizer.java:1601-1638 | equal front sections agree on the header and on each channel run |
| RockchipEqualizer.FrontInjective | media/java/android/media/audiofx/RockchipEqualizer.java:1601-1638 | the front section determines the header and the blocks before the equalizers |
| RockchipEqualizer.SettingsInjective | media/java/android/media/audiofx/RockchipEqualizer.java:1598-1653 | distinct canonical settings serialise to distinct words |
| RockchipEqualizer.TruncatedWords | media/java/android/media/audiofx/RockchipEqualizer.java:1598-1653 | cutting to two channels and ten bands loses nothing `toBytes` writes |
| RockchipEqualizer.TruncatedBack | media/java/android/media/audiofx/RockchipEqualizer.java:1636-1648 | cutting keeps the equalizer and maximizer/AGC sections |
| RockchipEqualizer.TruncatedFront | media/java/android/media/audiofx/RockchipEqualizer.java:1601-1635 | cutting keeps the front sections |
| RockchipEqualizer.SettingsRoundTrip | media/java/android/media/audiofx/RockchipEqualizer.java:1306-1374 | reading back what `toBytes` wrote gives the settings cut to two channels and ten bands |
| RockchipEqualizer.WordsOfPrefix | media/java/android/media/audiofx/RockchipEqualizer.java:1306-1308 | the first n words of an array are the words of its first 4n bytes |
| RockchipEqualizer.BytesSettingsRoundTrip | media/java/android/media/audiofx/RockchipEqualizer.java:1306-1374 | writing back what `Settings(byte[])` read reproduces the first 2180 bytes of the array |
| RockchipEqualizer.SettingsLayout | media/java/android/media/audiofx/RockchipEqualizer.java:1645-1651 | the preset is word 0; each channel's maximizer is followed by its AGC from word 401 (byte 1604) on, and the last 104 words are the final reserved run |
| RockchipEqualizer.FirstNul | media/java/android/media/audiofx/RockchipEqualizer.java:141 | the first NUL byte: a NUL with none before it |
| RockchipEqualizer.Latin1 | media/java/android/media/audiofx/RockchipEqualizer.java:143 | ISO-8859-1 decoding maps each byte to the character with that code |
| RockchipEqualizer.NameLength | media/java/android/media/audiofx/RockchipEqualizer.java:140-141 | the scan stops exactly at the first NUL, and finds none exactly when the reply holds no NUL (where the scan would run off the array) |
| RockchipEqualizer.BytesToInt | media/java/android/media/audiofx/RockchipEqualizer.java:236 | four native-order bytes give a signed 32-bit int |
| RockchipEqualizer.BytesToShort | media/java/android/media/audiofx/RockchipEqualizer.java:242 | two native-order bytes give a signed 16-bit value |
| RockchipEqualizer.DecodeParameterChange | media/java/android/media/audiofx/RockchipEqualizer.java:231-249 | an event is passed on only with a first parameter of at least four bytes and a 2- or 4-byte value, decoded as such, the second parameter -1 without eight bytes, and neither the first parameter nor the value -1 |
| RockchipEqualizer.IntBytes | media/java/android/media/audiofx/RockchipEqualizer.java:236 | an int is four native-order bytes |
| RockchipEqualizer.ShortBytes | media/java/android/media/audiofx/RockchipEqualizer.java:242 | a short is two native-order bytes |
| RockchipEqualizer.IntBytesRoundTrip | media/java/android/media/audiofx/RockchipEqualizer.java:236 | decoding the bytes of an int gives the int |
| RockchipEqualizer.ParameterChangeRoundTrip | media/java/android/media/audiofx/RockchipEqualizer.java:231-249 | two int parameters and an int or short value decode to those numbers, unless the first parameter or the value is -1, when the event is dropped |
| RockchipEqualizer.MalformedEventsDropped | media/java/android/media/audiofx/RockchipEqualizer.java:235-247 | a parameter blob shorter than four bytes, or a value blob of any size but 2 and 4, never reaches the listener |
| RockchipEqualizer.FirstListenerWins | media/java/android/media/audiofx/RockchipEqualizer.java:259-269 | after any sequence of registrations the first listener is the registered one |
| RockchipEqualizer.RockchipEqualizer.Init | media/java/android/media/audiofx/RockchipEqualizer.java:123-149 | the preset count and the names as scanned from each reply; no listener registered |
| RockchipEqualizer.RockchipEqualizer.Open | media/java/android/media/audiofx/RockchipEqualizer.java:123-149 | fails exactly for a negative preset count or a reply with no NUL; otherwise one name per preset from the replies, no listener |
| RockchipEqualizer.RockchipEqualizer.GetPresetName | media/java/android/media/audiofx/RockchipEqualizer.java:188-194 | "" outside the table, else the preset's name: shorter than 32 characters and NUL-free |
| RockchipEqualizer.RockchipEqualizer.SetParameterListener | media/java/android/media/audiofx/RockchipEqualizer.java:259-269 | only the first listener is kept, and only then is the base listener scheduled, once |
| RockchipEqualizer.RockchipEqualizer.OnParameterChange | media/java/android/media/audiofx/RockchipEqualizer.java:222-251 | an event is delivered exactly when a listener is registered and the event decodes, and then to that listener with the decoded numbers |
| RockchipEqualizer.RockchipEqualizer.GetProperties | media/java/android/media/audiofx/RockchipEqualizer.java:1661-1667 | the settings read from the 2180 engine bytes are canonical and lay out exactly those bytes' words |
| RockchipEqualizer.RockchipEqualizer.SetProperties | media/java/android/media/audiofx/RockchipEqualizer.java:1674-1677 | bytes are handed over exactly when `toBytes` does not throw, and they are the settings' 2180 bytes |
| RockchipEqualizer.PropertiesRoundTrip | media/java/android/media/audiofx/RockchipEqualizer.java:1661-1677 | restoring saved properties hands the engine back exactly the bytes it gave |
| AudioSetting.FormatsDistinct | media/java/android/media/AudioSetting.java:98-104 | the keys of the format maps are seven distinct encodings |
| AudioSetting.SettingNamesDistinct | media/java/android/media/AudioSetting.java:110-116 | the property names of the formats are distinct |
| AudioSetting.SettingString | media/java/android/media/AudioSetting.java:286-313 | the stored setting splits at ';' into exactly a device field and a mode field |
| AudioSetting.DeviceFieldParses | media/java/android/media/AudioSetting.java:350-363 | the device field written is read back as HDMI, S/PDIF or none |
| AudioSetting.ModeFieldParses | media/java/android/media/AudioSetting.java:365-379 | the mode field written is not taken for a device field and is read back as Auto, Manual or Decode |
| AudioSetting.SettingRoundTrip | media/java/android/media/AudioSetting.java:286-338 | parsing a written setting yields its device and mode, whatever the state before (other devices read back as none, other modes as Decode) |
| AudioSetting.EnabledNames | media/java/android/media/AudioSetting.java:223-236 | the names appended for the enabled formats contain no space, so the word split recovers them |
| AudioSetting.EnabledFormats | media/java/android/media/AudioSetting.java:223-236 | the enabled formats among the map's first k keys: exactly those in the list, each once |
| AudioSetting.Matching | media/java/android/media/AudioSetting.java:388-396 | a word only ever adds formats of the map |
| AudioSetting.MatchingName | media/java/android/media/AudioSetting.java:388-396 | a format's own property name adds exactly that format (names being distinct) |
| AudioSetting.MatchingNone | media/java/android/media/AudioSetting.java:388-396 | a word that is no property name adds nothing |
| AudioSetting.TokenFormats | media/java/android/media/AudioSetting.java:386-397 | the words of a "Format:" value only add formats of the map |
| AudioSetting.NamesToFormats | media/java/android/media/AudioSetting.java:220-242 | reading the names written for the enabled formats gives those formats, in map order |
| AudioSetting.FormatsStringTokens | media/java/android/media/AudioSetting.java:220-242 | the text `translateFormatsString` writes starts with "Format:" and its words are the enabled setting names, in map order |
| AudioSetting.FormatsRoundTrip | media/java/android/media/AudioSetting.java:220-242 | parsing the text `translateFormatsString` writes gives the enabled formats, each once and in map order; for a list of map formats that is the same set |
| AudioSetting.ContainedFormats | media/java/android/media/AudioSetting.java:169-180 | a format is added exactly when its HAL name occurs in the reply, each once |
| AudioSetting.ReportedPrefixesEnabled | media/java/android/media/AudioSetting.java:177 | membership is by substring: a reply naming DTS-HD also enables DTS, and one naming E-AC3-JOC also enables E-AC3 |
| AudioSetting.ReportedFormatsValid | media/java/android/media/AudioSetting.java:168-180 | the HAL reply only ever enables formats of the map |
| AudioSetting.RemoveFirst | media/java/android/media/AudioSetting.java:204 | `List.remove(Integer)` takes away one occurrence and nothing else |
| AudioSetting.RemoveFirstMembers | media/java/android/media/AudioSetting.java:204 | removing adds nothing and keeps every other format |
| AudioSetting.RemoveFirstNoDup | media/java/android/media/AudioSetting.java:204 | without duplicates the removed format is gone altogether |
| AudioSetting.Toggle | media/java/android/media/AudioSetting.java:197-207 | enabling adds a missing format without duplicating, disabling removes it from a duplicate-free list, no other format changes, and only map formats are ever in the list |
| AudioSetting.AudioSetting.constructor | media/java/android/media/AudioSetting.java:56-57 | device none, Decode mode, an empty list, nothing written to the property |
| AudioSetting.AudioSetting.GetSupportBitstream | media/java/android/media/AudioSetting.java:154-181 | a reply that is not a format report leaves the list; a report replaces it by the formats it names |
| AudioSetting.AudioSetting.TranslateFormatsString | media/java/android/media/AudioSetting.java:220-242 | yields the "Format:" text of the list |
| AudioSetting.AudioSetting.SetFormats | media/java/android/media/AudioSetting.java:188-215 | a format not in the map changes nothing; otherwise the list is toggled and the new text is stored for the current device (HDMI or S/PDIF) |
| AudioSetting.AudioSetting.ParseDevice | media/java/android/media/AudioSetting.java:350-363 | only a "Device:" field sets the device |
| AudioSetting.AudioSetting.ParseMode | media/java/android/media/AudioSetting.java:365-379 | only a "Mode:" field sets the mode |
| AudioSetting.AudioSetting.ParseSetting | media/java/android/media/AudioSetting.java:321-338 | a missing value keeps device and mode; otherwise each field is applied in order |
| AudioSetting.AudioSetting.ParseFormat | media/java/android/media/AudioSetting.java:381-400 | a "Format:" value appends the formats its words name; any other value changes nothing |
| AudioSetting.AppendMatching | media/java/android/media/AudioSetting.java:388-396 | the inner loop over the setting map appends, in map order, the formats whose setting name equals the word (by `MatchingName` and `MatchingNone`, exactly its own format for a listed name and none otherwise) |
| AudioSetting.AudioSetting.ParserSupportFormat | media/java/android/media/AudioSetting.java:340-348 | a "Format:" value replaces the list by the formats it names; any other value is ignored |
| AudioSetting.AudioSetting.ReadFormats | media/java/android/media/AudioSetting.java:128-148 | Auto mode: the HAL's report for HDMI, empty otherwise; Manual: the formats stored for the device; Decode: empty |
| AudioSetting.AudioSetting.ReadSetting | media/java/android/media/AudioSetting.java:119-126 | device and mode come from the stored setting, and the list is then rebuilt for them |
| AudioSetting.AudioSetting.SetDeviceAndMode | media/java/android/media/AudioSetting.java:247-278 | an invalid device, an invalid mode, or Auto without HDMI changes nothing; otherwise the setting is stored and reads back as exactly the given device and mode |
| AudioSetting.AudioSetting.Update | media/java/android/media/AudioSetting.java:410-424 | the property becomes the setting text, ';', and the format text |
| AudioSetting.AudioSetting.HdmiAutoUpdate | media/java/android/media/AudioSetting.java:402-408 | only for HDMI in Auto mode is the list refreshed from the HAL and the property rewritten; otherwise nothing changes |
| AudioStream.Wrap8 | services/core/java/com/android/server/tv/AudioStream.java:131-132 | a `(byte)` cast keeps the value modulo 256, as a signed byte |
| AudioStream.Wrap16 | services/core/java/com/android/server/tv/AudioStream.java:121 | a `(short)` cast keeps the value modulo 65536 and leaves a value already in range alone |
| AudioStream.SampleOfBytes | services/core/java/com/android/server/tv/AudioStream.java:121-132 | a sample split into its low and high byte and put together again is the same sample |
| AudioStream.BytesOfSample | services/core/java/com/android/server/tv/AudioStream.java:121-132 | two bytes put together into a sample split into the same two bytes |
| AudioStream.ShortsOf | services/core/java/com/android/server/tv/AudioStream.java:116-124 | one sample per whole byte pair; an odd trailing byte is dropped |
| AudioStream.BytesOf | services/core/java/com/android/server/tv/AudioStream.java:126-136 | two bytes per sample |
| AudioStream.ShortsOfBytesOf | services/core/java/com/android/server/tv/AudioStream.java:116-136 | samples written as bytes read back as the same samples |
| AudioStream.BytesOfShortsOf | services/core/java/com/android/server/tv/AudioStream.java:116-136 | bytes read as samples and written back give the bytes without an odd trailing byte |
| AudioStream.ToShortArray | services/core/java/com/android/server/tv/AudioStream.java:116-124 | the returned array holds the byte pairs read little-endian |
| AudioStream.ToByteArray | services/core/java/com/android/server/tv/AudioStream.java:126-136 | the returned array holds each sample as two bytes, low byte first |
| AudioStream.ToByteArrayInto | services/core/java/com/android/server/tv/AudioStream.java:138-147 | as many samples as fit are written, low byte first; the rest of the destination is left as it was |
| AudioStream.AudioStream.constructor | services/core/java/com/android/server/tv/AudioStream.java:25-28 | recording flag set, not started, no capture thread, current output 0 |
| AudioStream.AudioStream.Start | services/core/java/com/android/server/tv/AudioStream.java:60-84 | a second start changes nothing; output 0 only enables HDMI-in; an output with a policy name sets the policy and starts one capture thread; any other output throws after being marked started |
| AudioStream.AudioStream.Stop | services/core/java/com/android/server/tv/AudioStream.java:86-109 | recording ends; HDMI-in is disabled when output 0 is current; only with a capture thread is the output handed back to the automatic policy and the started flag cleared |
| AudioStream.AudioStream.SwitchAudioOutput | services/core/java/com/android/server/tv/AudioStream.java:45-58 | an output without a policy name throws before anything changes; the current output is left alone; from a state reached by switching alone, any other output ends started on that output; started without a capture thread (a direct `start(0)`), the switcher stays on its output, started, with HDMI-in switched off and no thread |
| AudioStream.AudioStream.StopIntended | services/core/java/com/android/server/tv/AudioStream.java:86-109 | as `stop`, except that the started flag is always cleared (corrected form) |
| AudioStream.AudioStream.SwitchAudioOutputIntended | services/core/java/com/android/server/tv/AudioStream.java:45-58 | over the corrected stop, a new output with a policy name ends started on it from any state, with a capture thread for outputs other than 0 |
| AudioStream.BypassStartBlocksSwitch | services/core/java/com/android/server/tv/AudioStream.java:45-96 | after `start(0)` on a new switcher, `switchAudioOutput(2)` leaves output 0 with HDMI-in enabled then disabled, while the corrected switch ends on output 2 |
| BootAnimation.SkipSpaces | cmds/bootanimation/BootAnimation.cpp:1444 | `strtol` skips exactly the leading white space |
| BootAnimation.RunLength | cmds/bootanimation/BootAnimation.cpp:1444 | the digits `strtol` consumes are the longest run of digits of the base |
| BootAnimation.RunValueDecimal | cmds/bootanimation/BootAnimation.cpp:1444 | a run of decimal digits has its decimal value |
| BootAnimation.SaturateLong | cmds/bootanimation/BootAnimation.cpp:1444 | an out-of-range conversion saturates at the `long` limits; one in range is exact |
| BootAnimation.ConvertDigits | cmds/bootanimation/BootAnimation.cpp:1444 | the conversion ends inside the text, and a successful one lies within the `long` range |
| BootAnimation.Strtol | cmds/bootanimation/BootAnimation.cpp:1444 | `strtol(str, &end, 0)` ends inside the text, and a successful one lies within the `long` range |
| BootAnimation.ParseTextCoord | cmds/bootanimation/BootAnimation.cpp:1437-1450 | "c" is the centre; a success otherwise is an `int` that is neither the centre nor the missing marker; a failure leaves `*dest` as it was |
| BootAnimation.ConvertDecimalDigits | cmds/bootanimation/BootAnimation.cpp:1444 | decimal digits without a leading zero convert to their value, to the end of the text |
| BootAnimation.StrtolDecimal | cmds/bootanimation/BootAnimation.cpp:1444 | `strtol` reads the decimal text of an `int` back to that `int`, consuming it all |
| BootAnimation.DecimalCoordRoundTrip | cmds/bootanimation/BootAnimation.cpp:1437-1450 | the decimal text of a coordinate parses back to that coordinate |
| BootAnimation.RunLengthToEnd | cmds/bootanimation/BootAnimation.cpp:1444 | a text of digits to its end is consumed to its end |
| BootAnimation.ParsePosition | cmds/bootanimation/BootAnimation.cpp:1453-1472 | both coordinates come out missing or neither does; no first value means missing; a single value is the y of a horizontally centred text |
| BootAnimation.DecimalPositionRoundTrip | cmds/bootanimation/BootAnimation.cpp:1453-1472 | two decimal coordinates read back as given |
| BootAnimation.Component | cmds/bootanimation/BootAnimation.cpp:1483-1494 | each component is a byte value |
| BootAnimation.ColorOf | cmds/bootanimation/BootAnimation.cpp:1481-1497 | three byte components exactly when the first six characters are hex digits |
| BootAnimation.HexPair | cmds/bootanimation/BootAnimation.cpp:1488-1490 | two hex digits of either case whose value is the byte |
| BootAnimation.ColorRoundTrip | cmds/bootanimation/BootAnimation.cpp:1474-1497 | "RRGGBB" written in hex digits of either case reads back as the same components |
| BootAnimation.ParseHexDigit | cmds/bootanimation/BootAnimation.cpp:1488-1491 | a value exactly for the hex digits, and then the digit's value |
| BootAnimation.ParseColor | cmds/bootanimation/BootAnimation.cpp:1481-1497 | succeeds exactly for six hex digits, writing the three components; a failure leaves the colour as it was |
| BootAnimation.KeyActionDone | cmds/bootanimation/BootAnimation.cpp:579-591 | 1 exactly when the same key is released after a press or repeats, else 0 |
| BootAnimation.GetLabel | cmds/bootanimation/BootAnimation.cpp:572-577 | the name of the first entry with the value, and none exactly when no entry has it |
| BootAnimation.SetVolume | cmds/bootanimation/BootAnimation.cpp:211-252 | mute toggles the mute flag, and muting stores the volume plus 1000 and shows the mute level; up and down unmute; an unmuted volume is what is stored |
| BootAnimation.VolumeStepsStayInRange | cmds/bootanimation/BootAnimation.cpp:214-231 | up and down move the volume (restored from the property when muted) by one step, within 0 to 100 |
| BootAnimation.MuteUnmuteRestores | cmds/bootanimation/BootAnimation.cpp:205-209 | muting and unmuting again restores the volume |
| BootAnimation.DecodeBootVideo | cmds/bootanimation/BootAnimation.cpp:1302-1320 | the configuration is the vendor value's thousands; with no stored volume the vendor value's remainder is the volume and is stored; a stored volume with thousands is muted |
| BootAnimation.VolumePersists | cmds/bootanimation/BootAnimation.cpp:1302-1320 | what a volume key stores is what the next boot decodes: the same volume, or muted |
| BootAnimation.BootVideoVolume.constructor | cmds/bootanimation/BootAnimation.cpp:211-212 | volume 0, not muted, the property as read |
| BootAnimation.BootVideoVolume.BootVideoSetVolume | cmds/bootanimation/BootAnimation.cpp:211-252 | the volume state becomes its `SetVolume` transition |
| BootAnimation.BootVideoVolume.LoadBootVideoConfig | cmds/bootanimation/BootAnimation.cpp:1302-1320 | configuration and volume become the decoding of the properties |
| BootAnimation.FirstMatch | cmds/bootanimation/BootAnimation.cpp:642-643 | the first matching index in the range, or none exactly when no index there matches |
| BootAnimation.InputReader.CloseDevice | cmds/bootanimation/BootAnimation.cpp:639-654 | -1 exactly when no entry from 1 on has the name; otherwise the first one is removed, the later entries move down by one, and the count drops by one |
| BootAnimation.ShiftDown | cmds/bootanimation/BootAnimation.cpp:646-647 | `memmove` moves the entries down by one over entry i and leaves the rest |
| BootAnimation.FloorPowerOfTwo | cmds/bootanimation/BootAnimation.cpp:957-958 | the largest power of two not above w |
| BootAnimation.PowersOfTwoDouble | cmds/bootanimation/BootAnimation.cpp:959-960 | of two distinct powers of two the larger is at least twice the smaller |
| BootAnimation.TextureSizeIsCeilingPowerOfTwo | cmds/bootanimation/BootAnimation.cpp:956-960 | the texture side is the smallest power of two at least w |
| BootAnimation.GlyphCell | cmds/bootanimation/BootAnimation.cpp:1570-1579 | a character of the font maps to its own cell; any other to the cell of '?' |
| BootAnimation.DrawGlyphs | cmds/bootanimation/BootAnimation.cpp:1569-1589 | glyph i is drawn i character widths to the right of the start, and the pen ends past the last glyph |
| BootAnimation.TextStart | cmds/bootanimation/BootAnimation.cpp:1553-1565 | a centred text has equal margins, within the rounding; a negative coordinate ends that far before the far edge; any other is taken as it is |
| BootAnimation.DrawText | cmds/bootanimation/BootAnimation.cpp:1553-1589 | the text is placed per axis, then each glyph drawn at its offset; x ends past the last glyph |
| Rklog.Step | services/core/jni/rkbox/rklog.cpp:122 | one hash step stays an `unsigned int` |
| Rklog.HashChars | services/core/jni/rkbox/rklog.cpp:121-122 | hashing a text keeps the hash an `unsigned int` |
| Rklog.Mask31 | services/core/jni/rkbox/rklog.cpp:127 | the returned hash has its top bit cleared |
| Rklog.HashLines | services/core/jni/rkbox/rklog.cpp:114-124 | hashing the lines of a file keeps the hash an `unsigned int` |
| Rklog.FileHash | services/core/jni/rkbox/rklog.cpp:103-128 | 0 for a file that does not open; otherwise a 31-bit hash |
| Rklog.HashLinesAppend | services/core/jni/rkbox/rklog.cpp:114-124 | the hash of a file is the hash of its later lines continued from the hash of its earlier ones |
| Rklog.VolatileLineIgnored | services/core/jni/rkbox/rklog.cpp:118-120 | a line holding "PID" or "Process-Runtime" does not change the file's hash |
| Rklog.ShiftAddIsStep | services/core/jni/rkbox/rklog.cpp:122 | `hash += (hash << 5) + c` with the shift wrapping is hash times 33 plus c, modulo 2^32 |
| Rklog.HashBuffer | services/core/jni/rkbox/rklog.cpp:121-122 | the loop hashes every character of the C string in the buffer |
| Rklog.GenFileHash | services/core/jni/rkbox/rklog.cpp:103-128 | the hash computed is `FileHash` of the file |
| Rklog.TombstoneScan | services/core/jni/rkbox/rklog.cpp:263-279 | the scan keeps the hash an `unsigned int` |
| Rklog.HashSlashLines | services/core/jni/rkbox/rklog.cpp:273-277 | hashing the texts from the first '/' keeps the hash an `unsigned int` |
| Rklog.FirstWith | services/core/jni/rkbox/rklog.cpp:266-268 | the index found is a line of the file |
| Rklog.FirstWithIsFirst | services/core/jni/rkbox/rklog.cpp:266-268 | the line found is the first holding the marker; none is found exactly when no line holds it |
| Rklog.TombstoneHash | services/core/jni/rkbox/rklog.cpp:250-283 | 0 for a file that does not open; otherwise a 31-bit hash |
| Rklog.BacktraceHash | services/core/jni/rkbox/rklog.cpp:271-277 | the hash of the five lines after the backtrace line is a 31-bit value |
| Rklog.ScanAfterBacktrace | services/core/jni/rkbox/rklog.cpp:271-277 | after the backtrace line the scan hashes the slash texts of the next `budget` lines |
| Rklog.ScanBeforeBacktrace | services/core/jni/rkbox/rklog.cpp:266-270 | before the backtrace line nothing is hashed; without one the seed is returned |
| Rklog.TombstoneScanIsHash | services/core/jni/rkbox/rklog.cpp:250-283 | the loop of `gen_tombstone_hash` computes the hash of the five lines after the first "backtrace:" line |
| Rklog.ScanIsBacktraceHash | services/core/jni/rkbox/rklog.cpp:263-282 | the loop from the backtrace line on computes `BacktraceHash` |
| Rklog.TombstoneHashIgnoresLaterLines | services/core/jni/rkbox/rklog.cpp:271-272 | lines after the five hashed ones do not change the hash |
| Rklog.FirstWithPrefix | services/core/jni/rkbox/rklog.cpp:266-268 | lines appended after the first backtrace line do not move it |
| Rklog.GenTombstoneHash | services/core/jni/rkbox/rklog.cpp:250-283 | the hash computed is `TombstoneHash` of the file |
| Rklog.FindHash | services/core/jni/rkbox/rklog.cpp:178-179 | the first record with the hash, or none exactly when no record has it |
| Rklog.DropboxName | services/core/jni/rkbox/rklog.cpp:79-93 | a name exactly for the 13 kinds; the entry past them is NULL |
| Rklog.StoreWellFormed | services/core/jni/rkbox/rklog.cpp:173-205 | storing keeps each hash in one record, and the table holds exactly the old hashes and the new one |
| Rklog.StoreChangesOneRecord | services/core/jni/rkbox/rklog.cpp:178-195 | no record is lost and records with other hashes are untouched |
| Rklog.RepeatWithinWindow | services/core/jni/rkbox/rklog.cpp:180-187 | a repeated hash starts a report exactly when it comes later than the window after the stored time |
| Rklog.DropboxKind | services/core/jni/rkbox/rklog.cpp:217-220 | the first dropbox name the entry's name contains, or 13 when none does |
| Rklog.DropboxAccepted | services/core/jni/rkbox/rklog.cpp:217-225 | an entry is accepted exactly when one of the first `level` names occurs in its name |
| Rklog.DataAppAnrIgnoredByDefault | services/core/jni/rkbox/rklog.cpp:76-78 | with the initial level a `data_app_anr` entry is ignored, although the comment beside the level says it is enabled |
| Rklog.Watcher.constructor | services/core/jni/rkbox/rklog.cpp:78-95 | empty tables, no reports, the initial dropbox level |
| Rklog.Watcher.StoreDropbox | services/core/jni/rkbox/rklog.cpp:173-205 | the table is updated as `Store` says, 0 exactly when a report is started and -1 otherwise, and a report carries the entry's name and time |
| Rklog.Watcher.StoreTombstone | services/core/jni/rkbox/rklog.cpp:285-320 | the table is updated as `Store` says, 0 exactly when a report is started and -1 otherwise, and a report carries "TOMBSTONE" and the time |
| Rklog.Watcher.ParseDropboxEvent | services/core/jni/rkbox/rklog.cpp:207-240 | directories, nameless events and kinds above the level are ignored (0); a zero hash is -1 and not stored; otherwise the entry is stored with its kind, name, hash and uptime |
| Rklog.Watcher.ParseTombstoneEvent | services/core/jni/rkbox/rklog.cpp:322-343 | directories and ".pb" copies are ignored (0); a zero hash is -1 and not stored; otherwise the backtrace hash is stored with the uptime |
| UsbHostManager.AttrNumber | services/core/jni/com_android_server_UsbHostManager.cpp:67-89 | -1 unless every character is a digit of the base; hex needs at least one digit, decimal reads the empty text as 0 and saturates at the 64-bit `long` maximum before the cast, so a decimal text above it reads as -1; the value is an `int` |
| UsbHostManager.StrToDigit | services/core/jni/com_android_server_UsbHostManager.cpp:67-89 | the character-checking loop and conversion compute `AttrNumber` |
| UsbHostManager.HexNumberRoundTrip | services/core/jni/com_android_server_UsbHostManager.cpp:73-79 | the hexadecimal text of a non-negative `int`, in either case, parses back to it |
| UsbHostManager.DecimalNumberRoundTrip | services/core/jni/com_android_server_UsbHostManager.cpp:80-86 | the decimal text of a non-negative `int` parses back to it |
| UsbHostManager.AttrString | services/core/jni/com_android_server_UsbHostManager.cpp:91-118 | a value read fits the 100-byte line buffer |
| UsbHostManager.AttrStringRoundTrip | services/core/jni/com_android_server_UsbHostManager.cpp:105-113 | a value written as one line is read back without its newline |
| UsbHostManager.AttrValue | services/core/jni/com_android_server_UsbHostManager.cpp:120-137 | an `int`, and -1 when the attribute cannot be read |
| UsbHostManager.Truncate | services/core/jni/com_android_server_UsbHostManager.cpp:155-156 | `snprintf` keeps a prefix of at most the buffer size minus one |
| UsbHostManager.SplitId | services/core/jni/com_android_server_UsbHostManager.cpp:151-153 | bus times 1000 plus device number is the id; for a non-negative id the device number is below 1000 |
| UsbHostManager.SplitIdRoundTrip | services/core/jni/com_android_server_UsbHostManager.cpp:151-153 | an id made of a bus and a device number splits back into them |
| UsbHostManager.FirstMatching | services/core/jni/com_android_server_UsbHostManager.cpp:164-176 | the first directory entry from i on that matches the device, or none exactly when none does |
| UsbHostManager.GetAttrStrFromName | services/core/jni/com_android_server_UsbHostManager.cpp:139-181 | the `readdir` loop computes the attribute of the first matching port directory, or none |
| UsbHostManager.AttrValueFromName | services/core/jni/com_android_server_UsbHostManager.cpp:183-200 | an `int`, and -1 when the attribute cannot be found or read |
| UsbHostManager.RockusbVerdict | services/core/jni/com_android_server_UsbHostManager.cpp:211-221 | 1 exactly for vendor 0x2207 and product 0x180a, 0 otherwise and whenever an id was not read |
| UsbHostManager.IsRockusb | services/core/jni/com_android_server_UsbHostManager.cpp:202-222 | the verdict is 0 or 1 |
| UsbHostManager.RockusbIdsRecognised | services/core/jni/com_android_server_UsbHostManager.cpp:120-137 | the rockusb ids as sysfs writes them, four lower-case hex digits and a newline, read as 0x2207 and 0x180a |
| UsbHostManager.RockusbDigits | services/core/jni/com_android_server_UsbHostManager.cpp:73-79 | "2207" and "180a" parse as the rockusb vendor and product |
| UsbHostManager.OpensDevice | services/core/jni/com_android_server_UsbHostManager.cpp:224-230 | the device is refused exactly when its ids read as the rockusb ones |
| UsbHostManager.RockusbNeverOpened | services/core/jni/com_android_server_UsbHostManager.cpp:202-228 | a device whose matching directory holds the rockusb ids is never opened |
| ExtconStateObserver.TrimIsTrimmed | services/core/java/com/android/server/ExtconStateObserver.java:54-55 | `trim()` gives a text no longer than the original with no blank at either end |
| ExtconStateObserver.TrimOfTrimmed | services/core/java/com/android/server/ExtconStateObserver.java:54-55 | a trimmed text is its own trim, so trimming is idempotent |
| ExtconStateObserver.TrimDropsLeading | services/core/java/com/android/server/ExtconStateObserver.java:54-55 | leading blanks are dropped |
| ExtconStateObserver.TrimDropsTrailing | services/core/java/com/android/server/ExtconStateObserver.java:54-55 | trailing blanks after a trimmed text are dropped |
| ExtconStateObserver.TrimDropsBlanks | services/core/java/com/android/server/ExtconStateObserver.java:54-55 | blanks around a trimmed text are dropped |
| ExtconStateObserver.TagInjective | services/core/java/com/android/server/ExtconStateObserver.java:60-61 | distinct numbers give distinct tags |
| ExtconStateObserver.Register | services/core/java/com/android/server/ExtconStateObserver.java:59-61 | a first-seen name gets the next number's tag; names already there keep theirs |
| ExtconStateObserver.RegisterKeepsTagsUnique | services/core/java/com/android/server/ExtconStateObserver.java:39-40 | registering keeps every name's tag unique and numbered below the registry size |
| ExtconStateObserver.RawStateParsed | services/core/java/com/android/server/ExtconStateObserver.java:71-80 | off a tablet, and for states that are neither HDMI nor DP, the trimmed state is parsed as it is |
| ExtconStateObserver.RawEventParsed | services/core/java/com/android/server/ExtconStateObserver.java:105-110 | off a tablet, and for events that are neither HDMI nor DP, the event's state is parsed as it is |
| ExtconStateObserver.FirstHdmiReadTagged | services/core/java/com/android/server/ExtconStateObserver.java:57-63 | a first-seen HDMI name gets tag `HDMI_k`, k the number of names before it, every "HDMI" in its state is rewritten to it, and the DP registry is untouched |
| ExtconStateObserver.FirstDpReadTagged | services/core/java/com/android/server/ExtconStateObserver.java:64-70 | a first-seen DP name gets tag `DP_k` in its own registry, and the HDMI registry is untouched |
| ExtconStateObserver.RepeatHdmiReadParsesTag | services/core/java/com/android/server/ExtconStateObserver.java:58-59 | as written, a repeat read of a registered HDMI name hands the stored tag itself to `parseState` |
| ExtconStateObserver.RepeatReadLosesState | services/core/java/com/android/server/ExtconStateObserver.java:57-63 | the same "HDMI=1" state of "port.hdmi" reads as "HDMI_0=1" the first time and as "HDMI_0" the second |
| ExtconStateObserver.FileReadKeepsTags | services/core/java/com/android/server/ExtconStateObserver.java:57-70 | a state file read keeps both registries uniquely tagged and never changes a tag once given |
| ExtconStateObserver.FileReadAgreesWithUEvent | services/core/java/com/android/server/ExtconStateObserver.java:50-114 | read as intended, a state file and a uevent carrying the same name and state hand the same text to `parseState` |
| ExtconStateObserver.RepeatReadStable | services/core/java/com/android/server/ExtconStateObserver.java:50-81 | read as intended, reading the same files again gives the same text and registries |
| ExtconStateObserver.UnregisteredEventFails | services/core/java/com/android/server/ExtconStateObserver.java:99-104 | on a tablet, an HDMI or DP uevent for a name never read from its files throws in `replaceAll` |
| ExtconStateObserver.Observer.constructor | services/core/java/com/android/server/ExtconStateObserver.java:39-40 | both registries empty, no updates |
| ExtconStateObserver.Observer.ParseStateFromFile | services/core/java/com/android/server/ExtconStateObserver.java:50-81 | the registries and the parsed text are those of the code as written; no update is made |
| ExtconStateObserver.Observer.TagStatus | services/core/java/com/android/server/ExtconStateObserver.java:58-61 | the status is the stored tag or the rewritten state, and the registry gains the name |
| ExtconStateObserver.Observer.OnUEvent | services/core/java/com/android/server/ExtconStateObserver.java:92-114 | registries unchanged; throws exactly when the name has no tag; otherwise `updateState` is called exactly when the state parses |
| KhadasApiService.GetProp | services/core/java/com/android/server/khadas/KhadasApiServiceImpl.java:104-106 | an unset property gives the default, a non-empty one its value |
| KhadasApiService.ParseInt | services/core/java/com/android/server/khadas/KhadasApiServiceImpl.java:96-98 | an integer accepted by `getInt` lies in the `int` range |
| KhadasApiService.ParseIntRoundTrip | services/core/java/com/android/server/khadas/KhadasApiServiceImpl.java:92-98 | every `int` written with `String.valueOf` is read back |
| KhadasApiService.ParseIntRejects | services/core/java/com/android/server/khadas/KhadasApiServiceImpl.java:96-98 | a text with a character that is neither a leading sign nor a digit is not an integer |
| KhadasApiService.GetPropInt | services/core/java/com/android/server/khadas/KhadasApiServiceImpl.java:96-98 | an unset property gives the default |
| KhadasApiService.PropIntRoundTrip | services/core/java/com/android/server/khadas/KhadasApiServiceImpl.java:92-98 | `setSystemProperties_int` followed by `getSystemProperties_int` returns the value |
| KhadasApiService.PropIntIndependent | services/core/java/com/android/server/khadas/KhadasApiServiceImpl.java:92-98 | setting one property leaves every other where it was |
| KhadasApiService.FanProps | services/core/java/com/android/server/khadas/KhadasApiServiceImpl.java:139-172 | an unknown mode changes no property; a known one only adds or overwrites |
| KhadasApiService.FanNodes | services/core/java/com/android/server/khadas/KhadasApiServiceImpl.java:167-170 | an unknown mode writes no node |
| KhadasApiService.FanLevelNodes | services/core/java/com/android/server/khadas/KhadasApiServiceImpl.java:150-162 | a level mode leaves the fan enabled, in manual mode, at that level, on every node that opens |
| KhadasApiService.FanMode | services/core/java/com/android/server/khadas/KhadasApiServiceImpl.java:174-180 | off (6) when the fan is not enabled, and unset means not enabled |
| KhadasApiService.FanModeRoundTrip | services/core/java/com/android/server/khadas/KhadasApiServiceImpl.java:139-180 | `getFanMode` returns the mode `setFanMode` was given, for each of 0 to 6 |
| KhadasApiService.FanModeSettings | services/core/java/com/android/server/khadas/KhadasApiServiceImpl.java:143-162 | automatic mode enables the hardware's own control, a level mode the fixed level |
| KhadasApiService.LedMode | services/core/java/com/android/server/khadas/KhadasApiServiceImpl.java:128-136 | 2 ("off") when the LED's property is unset |
| KhadasApiService.LedModeRoundTrip | services/core/java/com/android/server/khadas/KhadasApiServiceImpl.java:108-136 | after a `setLedMode` that stored the mode, `getLedMode` returns it, and the other LED is unaffected |
| KhadasApiService.LedTextsDistinct | services/core/java/com/android/server/khadas/KhadasApiServiceImpl.java:35-44 | the three modes write three different texts to either LED |
| KhadasApiService.OverwriteFirst | services/core/java/com/android/server/khadas/KhadasApiServiceImpl.java:186 | `writeBytes` at the start of the file overwrites only the first character |
| KhadasApiService.WolRoundTrip | services/core/java/com/android/server/khadas/KhadasApiServiceImpl.java:182-213 | on a node holding one flag character and at most one line end ("\n", "\r" or "\r\n"), `getWolMode` returns what `setWolMode` wrote |
| KhadasApiService.WolLineEnds | services/core/java/com/android/server/khadas/KhadasApiServiceImpl.java:193-213 | a "1" line ended by "\r\n" counts as on, and so does a "1" after a lone "\r" or on a later "\n"-ended line |
| KhadasApiService.WolLongerLines | services/core/java/com/android/server/khadas/KhadasApiServiceImpl.java:193-213 | the lines "10" and " 1" are not the flag, and a node that does not open counts as off |
| KhadasApiService.SwitchPrepends | services/core/java/com/android/server/khadas/KhadasApiServiceImpl.java:227-232 | an absent locale is put in front of the old list |
| KhadasApiService.SwapWithFirstPermutes | services/core/java/com/android/server/khadas/KhadasApiServiceImpl.java:237-238 | exchanging the first locale with another keeps the same locales |
| KhadasApiService.SwitchSwaps | services/core/java/com/android/server/khadas/KhadasApiServiceImpl.java:233-239 | a present locale changes places with the first; the others keep their places |
| KhadasApiService.SwitchIdempotent | services/core/java/com/android/server/khadas/KhadasApiServiceImpl.java:215-242 | either way the locale ends up first, and switching to it again changes nothing |
| KhadasApiService.Service.constructor | services/core/java/com/android/server/khadas/KhadasApiServiceImpl.java:62-65 | the platform state as given |
| KhadasApiService.Service.SetNode | services/core/java/com/android/server/khadas/KhadasApiServiceImpl.java:74-90 | the node gets the value's line when it opens; nothing else changes |
| KhadasApiService.Service.SetPropInt | services/core/java/com/android/server/khadas/KhadasApiServiceImpl.java:92-94 | the property becomes the value's decimal text; nothing else changes |
| KhadasApiService.Service.SetProp | services/core/java/com/android/server/khadas/KhadasApiServiceImpl.java:100-102 | the property becomes the value; nothing else changes |
| KhadasApiService.Service.SetLedMode | services/core/java/com/android/server/khadas/KhadasApiServiceImpl.java:108-126 | a node that does not open changes nothing; otherwise it is emptied, a mode outside 0..2 then throws, and a valid mode writes the mode's text to the node and the mode to the property |
| KhadasApiService.Service.SetFanMode | services/core/java/com/android/server/khadas/KhadasApiServiceImpl.java:139-172 | the properties and nodes become those of the mode, in the source's order |
| KhadasApiService.Service.SetWolMode | services/core/java/com/android/server/khadas/KhadasApiServiceImpl.java:182-191 | the flag character is written over the start of the node when it opens |
| KhadasApiService.Service.GetWolMode | services/core/java/com/android/server/khadas/KhadasApiServiceImpl.java:193-213 | the answer is true exactly when some line `readLine` returns from the node is "1", and false when the node does not open |
| KhadasApiService.Service.SwitchLanguage | services/core/java/com/android/server/khadas/KhadasApiServiceImpl.java:215-242 | the locale list becomes the switched list; nothing else changes |
| KhadasApiService.NewLocaleArray | services/core/java/com/android/server/khadas/KhadasApiServiceImpl.java:219-239 | the new array is the list with the locale moved to the front |
| IsoManager.CollapseSlashes | media/java/android/media/iso/ISOManager.java:36 | collapsing runs of '/' never lengthens a path and keeps its first and last character |
| IsoManager.CollapseSlashesClean | media/java/android/media/iso/ISOManager.java:36 | after collapsing no two slashes are adjacent |
| IsoManager.Normalize | media/java/android/media/iso/ISOManager.java:36 | `File`'s normalised path is no longer than the given one |
| IsoManager.NormalizeClean | media/java/android/media/iso/ISOManager.java:36 | a normalised path has no repeated '/' and ends in '/' only when it is "/" |
| IsoManager.ExistInBackUp | media/java/android/media/iso/ISOManager.java:32-59 | false for a missing argument or a backup that is not a directory; otherwise whether the name is there with the asked-for kind |
| IsoManager.BackUpKindsExclusive | media/java/android/media/iso/ISOManager.java:41-55 | a name is never found in the backup both as a directory and as a file |
| IsoManager.LocalPathStripsFilePrefix | media/java/android/media/iso/ISOManager.java:107-116 | the scheme test never decides anything: a "file://" prefix is removed exactly when present |
| IsoManager.IsBDDirectoryIff | media/java/android/media/iso/ISOManager.java:102-147 | a Blu-ray directory exactly when the path is a directory holding a `BDMV` directory in which `STREAM`, `PLAYLIST` and `CLIPINF` each exist, or are directories under `BDMV/BACKUP` |
| IsoManager.NoPathNotBD | media/java/android/media/iso/ISOManager.java:103-105 | no path given: not a Blu-ray directory |
| IsoManager.FileUriSameAsPath | media/java/android/media/iso/ISOManager.java:107-116 | a "file://" URI names the same folder as its path |
| IsoManager.PartPresenceAsymmetric | media/java/android/media/iso/ISOManager.java:126-137 | directly in `BDMV` any kind of file will do, while in `BACKUP` only a directory counts |
| IsoManager.IsoPath | media/java/android/media/iso/ISOManager.java:61-100 | no path unless the type is "video/iso"; then a "file://" URI's path, or else the media store's `DATA` column |
| TvInputHal.HexByteValue | services/core/jni/tvinput/JTvInputHal.cpp:329-330 | a MAC byte takes exactly two hex digits, which read back as the byte |
| TvInputHal.HexWordValue | services/core/jni/tvinput/JTvInputHal.cpp:350-351 | an IPv6 word takes at least four hex digits, which read back as its unsigned 32-bit view |
| TvInputHal.PaddedHexValue | services/core/jni/tvinput/JTvInputHal.cpp:329 | zero padding does not change the value of a hex text |
| TvInputHal.LeadingZerosValue | services/core/jni/tvinput/JTvInputHal.cpp:329 | leading zeros do not change the value of a hex text |
| TvInputHal.MacTextStep | services/core/jni/tvinput/JTvInputHal.cpp:325-331 | each further byte adds ':' and its two digits |
| TvInputHal.FormatMac | services/core/jni/tvinput/JTvInputHal.cpp:322-332 | the loop writes the MAC text of the bytes |
| TvInputHal.Ipv4TextStep | services/core/jni/tvinput/JTvInputHal.cpp:336-341 | each further byte adds '.' and its decimal digits |
| TvInputHal.FormatIpv4 | services/core/jni/tvinput/JTvInputHal.cpp:333-342 | the loop writes the dotted text of the bytes |
| TvInputHal.Ipv6TextStep | services/core/jni/tvinput/JTvInputHal.cpp:346-352 | each further word adds ':' and its hex digits |
| TvInputHal.FormatIpv6 | services/core/jni/tvinput/JTvInputHal.cpp:343-353 | the loop writes the colon text of the words |
| TvInputHal.FormatAudioAddress | services/core/jni/tvinput/JTvInputHal.cpp:314-365 | the address text handed to the builder is `AudioAddressOutcome` of the device |
| TvInputHal.ParseSnoc | services/core/jni/tvinput/JTvInputHal.cpp:325-331 | reading a text with one more field appends that field's value |
| TvInputHal.OneField | services/core/jni/tvinput/JTvInputHal.cpp:325-331 | a single field reads as its own value |
| TvInputHal.ParseOne | services/core/jni/tvinput/JTvInputHal.cpp:325-331 | a text without separators is one field |
| TvInputHal.MacRoundTrip | services/core/jni/tvinput/JTvInputHal.cpp:322-332 | a MAC text reads back as its bytes, each byte taking exactly two characters |
| TvInputHal.DecByteValue | services/core/jni/tvinput/JTvInputHal.cpp:340 | an IPv4 byte takes one to three decimal digits, which read back as the byte |
| TvInputHal.DecByteLength | services/core/jni/tvinput/JTvInputHal.cpp:340 | an IPv4 byte takes at most three digits |
| TvInputHal.Ipv4RoundTrip | services/core/jni/tvinput/JTvInputHal.cpp:333-342 | an IPv4 text reads back as its bytes |
| TvInputHal.Unsigned32 | services/core/jni/tvinput/JTvInputHal.cpp:350-351 | each word has one unsigned view |
| TvInputHal.Ipv6RoundTrip | services/core/jni/tvinput/JTvInputHal.cpp:343-353 | an IPv6 text reads back as the unsigned views of its words, each taking at least four characters |
| TvInputHal.CardFieldHasNoSemicolon | services/core/jni/tvinput/JTvInputHal.cpp:357 | the card field holds no ';' |
| TvInputHal.AlsaTextInjective | services/core/jni/tvinput/JTvInputHal.cpp:354-358 | ALSA texts of different card or device numbers differ |
| TvInputHal.AudioAddressFacts | services/core/jni/tvinput/JTvInputHal.cpp:316-361 | no address exactly for type NONE; an out-of-bounds read exactly for an ALSA address of fewer than two numbers; an id without NUL is passed on verbatim |
| TvInputHal.CreateEventWrapper | services/core/jni/tvinput/JTvInputHal.cpp:477-486 | the first message is dropped and gives the device id; the rest are kept in order, with the event's type and stream |
| TvInputHal.NotifyForwardsIff | services/core/jni/tvinput/JTvInputHal.cpp:582-594 | an event is forwarded exactly when it has a leading "device_id" message and at least one more; the forwarded wrapper is never empty |
| TvInputHal.WrapperKeepsMessages | services/core/jni/tvinput/JTvInputHal.cpp:477-486 | the header message rebuilt from the wrapper, put back in front, gives the event's messages |
| TvInputHal.ForwardedWrapperDeterminesTail | services/core/jni/tvinput/JTvInputHal.cpp:477-594 | a forwarded wrapper determines its event except the payload of the dropped header |
| TvInputHal.OnCapturedKeepsInvariant | services/core/jni/tvinput/JTvInputHal.cpp:887-933 | `onCaptured` keeps the buffer pool consistent and never changes its ids |
| TvInputHal.OnCapturedSequence | services/core/jni/tvinput/JTvInputHal.cpp:889-898 | after shutdown nothing changes; otherwise the sequence number becomes the reported one, and a failed capture or a missing surface changes nothing else |
| TvInputHal.ShowSignal | services/core/jni/tvinput/JTvInputHal.cpp:900-905 | the first successful capture of buffer 0 sets the signal flag and queues the last buffer of the pool; no status changes |
| TvInputHal.Replay | services/core/jni/tvinput/JTvInputHal.cpp:887-933 | any sequence of captures keeps the pool consistent |
| TvInputHal.SignalFreezesBuffers | services/core/jni/tvinput/JTvInputHal.cpp:906-909 | once the signal is shown, every later capture only moves the sequence number |
| TvInputHal.MatchingCapture | services/core/jni/tvinput/JTvInputHal.cpp:910-931 | an accepted capture of a pool buffer queues its first occurrence, makes it current, and sets `CAPTURING` the first time and `RELEASED` after; no other status changes |
| TvInputHal.UnmatchedCaptureKeepsStatuses | services/core/jni/tvinput/JTvInputHal.cpp:910-915 | an id not in the pool, or a rejected queue, leaves every status and the capture state alone |
| TvInputHal.FirstCaptureThenReleased | services/core/jni/tvinput/JTvInputHal.cpp:921-927 | two accepted captures in a row give `CAPTURING` then `RELEASED` |
| TvInputHal.FindBuffer | services/core/jni/tvinput/JTvInputHal.cpp:910-911 | the search finds the first buffer with the reported id |
| TvInputHal.BufferProducer.constructor | services/core/jni/tvinput/JTvInputHal.cpp:719-728 | released state, sequence 0, current buffer 0, first capture pending, no shutdown and no signal, the pool dequeued |
| TvInputHal.BufferProducer.OnCaptured | services/core/jni/tvinput/JTvInputHal.cpp:887-933 | the producer state becomes the `OnCapturedStep` of the capture |
| TvInputHal.BufferProducer.QueueMatchingBuffer | services/core/jni/tvinput/JTvInputHal.cpp:910-931 | the found buffer is queued and the state updated as `QueueMatching` says |
| TvInputHal.BufferProducer.Shutdown | services/core/jni/tvinput/JTvInputHal.cpp:935-939 | the shutdown flag is set and the surface and its pool are released |
| Numerals.Wrap32 | services/core/jni/com_android_server_UsbHostManager.cpp:78 | the result is a 32-bit signed value congruent to the input modulo 2^32, and an input already in range is kept |
| Numerals.Wrap64 | services/core/java/com/android/server/AlarmAlignmentManager.java:724 | the result is a 64-bit signed value congruent to the input modulo 2^64, and an input already in range is kept |
| Numerals.TruncRem | cmds/bootanimation/BootAnimation.cpp:207 | C's `%`: dividend equals divisor times truncated quotient plus remainder, the remainder taking the dividend's sign |
| Numerals.DigitRoundTrip | cmds/bootanimation/BootAnimation.cpp:190 | a decimal digit's character reads back as the digit |
| Numerals.DecDigitsWellFormed | cmds/bootanimation/BootAnimation.cpp:190 | a natural number's decimal text is non-empty, all digits, without a leading zero, and reads back as the number |
| Numerals.IntToDecShape | services/core/java/com/android/server/khadas/KhadasApiServiceImpl.java:93 | `String.valueOf(int)` starts with '-' exactly for a negative value, and is digits after that |
| Numerals.IntToDecInjective | services/core/java/com/android/server/khadas/KhadasApiServiceImpl.java:93 | two integers with the same decimal text are equal |
| Numerals.HexCharRoundTrip | services/core/jni/tvinput/JTvInputHal.cpp:329-330 | a hex digit's character, in either case, reads back as the digit |
| Numerals.HexDigitsWellFormed | services/core/jni/com_android_server_UsbHostManager.cpp:78 | a natural number's hex text is non-empty, all hex digits, and reads back as the number |
| Numerals.PadLeft | services/core/jni/tvinput/JTvInputHal.cpp:329-330 | a field-width pad: the result has the width (or the text's length if longer), ends with the text and is filled before it |
| Numerals.Hex2 | services/core/java/com/android/server/hdmi/ShortAudioDescriptorAction.java:133 | `%02x` of a byte: two hex digits whose value is the byte |
| Strings.ContainsSuffix | media/java/android/media/AudioSetting.java:351-353 | a text contains any text it ends with |
| Strings.MissingCharNotContained | media/java/android/media/AudioSetting.java:351-353 | a text lacking one character of a pattern does not contain the pattern |
| Strings.NotStartsWith | media/java/android/media/AudioSetting.java:351 | a mismatch at one position within the prefix means the text does not start with it |
| Strings.ContainsPrefix | services/core/jni/rkbox/rklog.cpp:267 | a text containing a pattern contains each prefix of it |
| Strings.ContainsInTail | services/core/jni/rkbox/rklog.cpp:267 | an occurrence after the first character is an occurrence |
| Strings.ReplaceAbsent | services/core/java/com/android/server/ExtconStateObserver.java:60 | `replaceAll` of a pattern that does not occur leaves the text as it is |
| Strings.ReplaceBySelf | services/core/java/com/android/server/ExtconStateObserver.java:100 | replacing a pattern by itself leaves the text as it is |
| Strings.ReplaceLeading | services/core/java/com/android/server/ExtconStateObserver.java:60 | a leading occurrence is replaced and the scan goes on after it |
| Strings.Split | media/java/android/media/AudioSetting.java:329 | `split` gives at least one piece, no piece holds the separator, and a text without it is one piece |
| Strings.SplitSnoc | media/java/android/media/AudioSetting.java:329 | splitting a text followed by a separator and a separator-free tail ends with that tail |
| Strings.JoinSnoc | media/java/android/media/AudioSetting.java:329 | joining one more word adds the separator and the word |
| Strings.SplitJoin | media/java/android/media/AudioSetting.java:329 | splitting the join of separator-free words gives the words back |
| Strings.CLength | services/core/jni/rkbox/rklog.cpp:119 | `strlen` never exceeds the buffer |
| Strings.CLengthIsFirstNul | services/core/jni/rkbox/rklog.cpp:119 | `strlen` stops at the first NUL, or at the end of a buffer holding none |
| Strings.CLengthOfNulFree | services/core/jni/rkbox/rklog.cpp:119 | a buffer without NUL has `strlen` equal to its length |
| Strings.FindChar | services/core/jni/rkbox/rklog.cpp:273 | `strchr`: a found position lies inside the text |
| Strings.FindCharIsFirst | services/core/jni/rkbox/rklog.cpp:273 | a found position holds the character and none before it does; none found means the character is absent |
| Strings.FindCharAfter | services/core/jni/rkbox/rklog.cpp:273 | the character after a prefix free of it is found right after the prefix |
| Strings.SeparatorSplitsUniquely | media/java/android/media/iso/ISOManager.java:107-109 | a text splits at its first separator in one way only |
| Strings.IndexOf | services/core/java/com/android/server/khadas/KhadasApiServiceImpl.java:220-226 | `indexOf`: a found index holds the value and no earlier one does; none found means the value is absent |
| Strings.IndexOfFirst | services/core/java/com/android/server/khadas/KhadasApiServiceImpl.java:220-226 | the first index holding the value is the one found |
| Strings.ReadLinesFrom | services/core/java/com/android/server/khadas/KhadasApiServiceImpl.java:199 | every line read holds no line end, and nothing is read only from an empty text with no line started |
| Strings.ReadLines | services/core/java/com/android/server/khadas/KhadasApiServiceImpl.java:199 | no line holds a line end, and an empty text has no line |
| Strings.ReadLinesFromLine | services/core/java/com/android/server/khadas/KhadasApiServiceImpl.java:199 | a stretch without line ends joins the line being read |
| Strings.ReadLinesTerminated | services/core/java/com/android/server/khadas/KhadasApiServiceImpl.java:199 | lines each followed by "\n", by "\r" or by "\r\n" are read back as they were |

## Left out

- `HdmiCecFeatureAction`, `HdmiUtils`, `Constants`, `HdmiControlService` and `HdmiCecMessageBuilder` are not part of this model. Their queries appear as parameters or `Environment` fields. Their side effects appear as entries of an `effects` log. `CEC_SWITCH_PORT_MAX` is taken as 15.
- The base-class callback list and waiting-state constant used by the ARC actions are not declared in the base class shown. They are modelled as one waiting state and one list of callback results per action.
- `RoutingControlAction` has a 5-argument constructor, while the TV calls a 3-argument one that is not shown. The model takes the old path as a constructor parameter. `queryDevicePowerStatus` is not called by the code shown and is left out.
- `DeviceSelectActionFromTv`, `SetArcTransmissionStateAction`, `NewDeviceAction` and the other actions the TV starts are not part of this model. The TV records each one as a `LiveAction` of its kind.
- Timers, handler threads and the message loop are left out. Arming a timer is recorded, and its expiry is a method call that carries the state it was armed for. Send-completion callbacks are method calls.
- Outbound CEC frames are an append-only log of (source, destination, opcode, parameters). Their byte encoding and transport are left out.
- `CecActiveness`: the JSON text is written as a string. Writing it to Settings is a map update.
- `AlarmAlignment`: the XML configuration load and persist, `SystemProperties`, and `recoverChangedAlarmsLocked` are left out, because the last calls `setImpl`, which is not shown. The strategy and alarm-type constants belong to `AlarmManager` and are restated here.
- `AlarmAlignment.AlarmAlignmentManager.RoundToNextWakeup`: its `long` arithmetic is taken as unbounded, so it matches the source only while the boundary reached stays at most `Long.MAX_VALUE` (`AlarmAlignment.RoundedLongAgrees`), in practice for triggers and now-values at least one alignment below it; past that the source wraps and its loop may not end (see Findings).
- `AlarmAlignment.Rounded`: its `long` arithmetic is taken as unbounded, so it matches the source only while the boundary reached stays at most `Long.MAX_VALUE` (`AlarmAlignment.RoundedLongAgrees`), in practice for triggers and now-values at least one alignment below it; past that the source wraps and its loop may not end (see Findings).
- `AlarmAlignment.StepUp`: the loop's `next += align` is taken unbounded; its `long` form with the wrap is `AlarmAlignment.StepUpLong`, which agrees with it while `next` stays at most `Long.MAX_VALUE`.
- `AlarmAlignment.FirstBoundaryIsAfterNow`: `(now / align + 1) * align` is taken unbounded; for `now` within one alignment of `Long.MAX_VALUE` the source's product wraps negative.
- `AlarmAlignment.RoundedIsBoundaryAfterNow`, `AlarmAlignment.RoundedOnBoundaries` and `AlarmAlignment.RoundTypeMeaning` state facts of the unbounded rounding, which are the source's only within the range above.
- `CecLocalDeviceTv.FirstSourceOnTail`: searches every device of the network, local ones included, while `findDeviceOnPath` iterates `getDeviceInfoList(false)`, which leaves the local devices out (HdmiCecLocalDeviceTv.java:220). The two agree unless a local device is a source type. A TV's own local device is not, so the search on a TV is unaffected.
- `Rklog.Step`: the character added in `hash += (hash << 5) + (*tmp++)` is taken as an unsigned byte (0 to 255), as a plain `char` is on ARM. Where `char` is signed, a byte of 0x80 or more would add a negative value instead.
- `RockchipEqualizer`:
  - floats are kept as the 32-bit words `putFloat` writes, with no arithmetic on them;
  - the effect engine's `setParameter`/`getParameter` replies are parameters;
  - the listener executor is modelled as a count of tasks.
- `AudioSetting`:
  - the `HashMap` iteration order is taken as a fixed key order;
  - `SystemProperties`, the `Settings.Global` store and `AudioSystem` queries are parameters or map state;
  - synchronisation is left out.
- `AudioStream`: the record thread's body, `AudioRecord`/`AudioTrack` and the float `rampVolume` are left out. The byte count `count << 1` is assumed not to overflow `int`.
- `BootAnimation`: these are left out because they are drawing, I/O or floating point:
  - GL/EGL drawing;
  - zip and asset loading;
  - `InputReaderThread` and its poll loop;
  - `open_device` (lines 593-637);
  - `TimeCheckThread`;
  - the media player's float volume and the `/255.0f` step of `parseColor`.
- `Rklog`:
  - the epoll/inotify thread and the bug-report polling are left out;
  - a file is the sequence of chunks `fgets` returns;
  - clock readings are parameters.
- `UsbHostManager`:
  - the unique id and the entries of `/sys/bus/usb/devices` are parameters;
  - the 50-byte `node_name` and `portdir` buffers are not modelled, nor is anything after `usb_device_open`;
  - a hex value wider than 8 digits is wrapped modulo 2^32 (`Numerals.Wrap32`); the C library's `sscanf` may instead saturate a value wider than 16 digits;
  - a first line starting with a NUL makes the code read `buf[-1]`; the model returns the empty text there.
- `ExtconStateObserver`:
  - the second read of the state file is taken to return the same text;
  - null fields of the event are left out;
  - the patterns handed to `replaceAll` contain no regular-expression special characters, so they are matched literally.
- `KhadasApiService`:
  - the `Locale` case rules and `Context` are left out;
  - `start()` and its `HandlerThread` are left out;
  - `SystemProperties.getInt` is native code that is not part of this model; it is modelled as reading an optional '+' or '-' and decimal digits within the 32-bit range, and falling back to the default otherwise;
  - the existence check of `setNode` only logs, and is modelled as such;
  - the `BufferedWriter` left open after a throw is not modelled.
- `IsoManager`: the media-store cursor and content resolver are parameters. `Uri.parse` is reduced to its scheme.
- `TvInputHal`:
  - the HAL, hidl and the JNI builder calls are left out;
  - the mutex and condition broadcast are left out;
  - surfaces are abstract;
  - the result of `queueBuffer` is a parameter;
  - `NewStringUTF`'s conversion is the identity on the ASCII text produced;
  - an ALSA address with fewer than two entries is modelled as the error `AlsaOutOfBounds`, where the code reads past the vector's end.
- Binder pass-throughs, DRM and display code, `CustomService` and the other vendor services are outside this model.
- `ExtconStateObserver.Observer.ParseStateFromFile`: models the code as written, so its contract is the as-written reading (see Findings). The intended reading is `ExtconStateObserver.FromFile`, whose properties are proved as lemmas.
- `CecLocalDeviceTv.HdmiCecLocalDeviceTv.DeviceSelect`: `isAlreadyActiveSource` belongs to `HdmiCecLocalDevice`, which is not part of this model. It is the `Environment` predicate `alreadyActiveSource` of the target and the current active source, and when it holds the callback is taken to get SUCCESS, as that base class answers.
- `CecLocalDeviceTv.HdmiCecLocalDeviceTv.IsArcFeatureEnabled`: the test OSD names and test ports come from `Constants`, which is not part of this model, so they are `Environment` fields.
- `RequestArc.RequestArcAction.ProcessCommand`, `RequestArcInitiation.RequestArcInitiationAction.ProcessCommand`, `RequestArcTermination.RequestArcTerminationAction.ProcessCommand`, `ShortAudioDescriptor.ShortAudioDescriptorAction.ProcessCommand` and `RoutingControl.RoutingControlAction.ProcessCommand` require the frame to hold the parameter bytes the Java code indexes: the aborted opcode of a <Feature Abort> (`Cec.FeatureAbortHasOpcode`, one byte); for `RequestArcAction` also the abort reason when the aborted opcode is <Request ARC Initiation> (`RequestArc.ArcAbortReadable`); and the two bytes of a <Routing Information> path. A frame without them makes the Java code throw an index exception, which the model does not reproduce. The requirement holds whatever the action's state, although the Java code reads the bytes only after its state and sender checks pass, so an empty <Feature Abort> that arrives outside the waiting state is also left out.
- `AudioSetting.AudioSetting.ReadSetting`: one HAL reply is passed to both the format read and the Auto-mode bitstream query, so the two queries are taken to answer the same text.
- `TvInputHal.BufferProducer.Shutdown`: the log of buffers queued to the surface is emptied with the buffer pool, because its entries are positions in that pool. The code keeps no such log.

## Findings

| source | as written | input that shows it | evidently intended | confidence | as-written member | corrected member |
|---|---|---|---|---|---|---|
| services/core/java/com/android/server/ExtconStateObserver.java:58-59 | on a tablet, a connector name already registered hands its stored tag (for example "HDMI_0") to `parseState` in place of the state text rewritten with that tag | product "tablet", name file "port.hdmi", state file "HDMI=1", read twice: the first read parses "HDMI_0=1", the second "HDMI_0" | rewrite the state with the stored tag, as the first read and `onUEvent` do | not executed | ExtconStateObserver.RepeatReadLosesState | ExtconStateObserver.RepeatReadStable |
| services/core/java/com/android/server/AlarmAlignmentManager.java:719-726 | under FIXED2, `next += mAppAlarmFixedAlignment` on `long` wraps past `Long.MAX_VALUE`, and the `while (next < triggerElapsed)` loop ends only when `next` lands between the trigger and `Long.MAX_VALUE` | FIXED2, alignment 300000, trigger `Long.MAX_VALUE`, now 0, round type 0: `next` stays even and never equals the odd trigger, so `roundToNextWakeup` never returns | round to the boundary next to the trigger, as the loop does whenever it does not overflow | not executed | AlarmAlignment.RoundToNextWakeupHangs | AlarmAlignment.RoundedIsBoundaryAfterNow |
| services/core/java/com/android/server/tv/AudioStream.java:86-96 | `stop` returns early when no capture thread exists, before clearing `mIsStartup`, so the `start` that `switchAudioOutput` calls next is ignored as "already startup" | `start(0)` on a new switcher, then `switchAudioOutput(2)`: HDMI-in is switched off and the output stays 0 | the switch ends on the new output, as it does once a capture thread exists | not executed | AudioStream.BypassStartBlocksSwitch | AudioStream.AudioStream.SwitchAudioOutputIntended |
