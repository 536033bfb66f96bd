/**
 * `HdmiCecLocalDeviceTv`: the TV-role local device. It keeps the addressing
 * state (active source, active routing path, previous port), the ARC flags
 * (established, and enabled per port), and the list of live feature actions,
 * in which the Routing Control, Device Select and the two ARC request actions
 * are kept to one instance per kind (HDMI 1.4b CEC Supplement, CEC 13.2 and
 * CEC 13.17).
 *
 * The service around the device (the CEC network's device registry, the port
 * map, configuration switches, power state) is an `Environment` value that
 * the operations read but do not change. Frames go to `sent`; calls into the
 * audio manager, the ARC hardware and the OSD go to `effects`; results handed
 * to the caller's callback go to `results`. Started actions are recorded as
 * `LiveAction` values; what each does once started is in its own module.
 */
module CecLocalDeviceTv {
  import opened Wrappers
  import opened Cec
  import CecPath

  // Message-handler results (`Constants.HANDLED`, abort reasons of <Feature Abort>)
  const HANDLED: int := -1
  const ABORT_NOT_IN_CORRECT_MODE: int := 1
  const ABORT_REFUSED: int := 4

  const ADDR_INVALID: int := -1

  const MESSAGE_GIVE_PHYSICAL_ADDRESS: Byte := 0x83
  const MESSAGE_REPORT_ARC_INITIATED: Byte := 0xC1
  const MESSAGE_REPORT_ARC_TERMINATED: Byte := 0xC2

  function GivePhysicalAddress(src: int, dest: int): Message {
    Message(src, dest, MESSAGE_GIVE_PHYSICAL_ADDRESS, [])
  }

  function ReportArcInitiated(src: int, dest: int): Message {
    Message(src, dest, MESSAGE_REPORT_ARC_INITIATED, [])
  }

  function ReportArcTerminated(src: int, dest: int): Message {
    Message(src, dest, MESSAGE_REPORT_ARC_TERMINATED, [])
  }

  /** The device currently shown, by logical and physical address. */
  datatype ActiveSource = ActiveSource(logicalAddress: int, physicalAddress: PhysicalAddress)

  /** What `ActiveSource.invalidate` leaves behind. */
  const INVALID_ACTIVE_SOURCE: ActiveSource := ActiveSource(ADDR_INVALID, INVALID_PHYSICAL_ADDRESS)

  // ------------------------------------------------------------ live actions

  datatype ActionKind =
    | RoutingControlKind
    | DeviceSelectKind
    | ArcInitiationKind
    | ArcTerminationKind
    | SetArcTransmissionKind
    | NewDeviceKind
    | RequestActiveSourceKind
    | RequestSadKind

  /** A feature action on the device's action list, with the arguments it was started with. */
  datatype LiveAction =
    | RoutingControlAct(path: PhysicalAddress, withCallback: bool)
    | DeviceSelectAct(target: DeviceInfo, withCallback: bool)
    | ArcInitiationAct(avr: int, callbacks: nat)
    | ArcTerminationAct(avr: int, callbacks: nat)
    | SetArcTransmissionAct(avr: int, enabled: bool)
    | NewDeviceAct(logicalAddress: int, physicalAddress: PhysicalAddress, deviceType: int)
    | RequestActiveSourceAct
    | RequestSadAct
  {
    function Kind(): ActionKind {
      match this
      case RoutingControlAct(_, _) => RoutingControlKind
      case DeviceSelectAct(_, _) => DeviceSelectKind
      case ArcInitiationAct(_, _) => ArcInitiationKind
      case ArcTerminationAct(_, _) => ArcTerminationKind
      case SetArcTransmissionAct(_, _) => SetArcTransmissionKind
      case NewDeviceAct(_, _, _) => NewDeviceKind
      case RequestActiveSourceAct => RequestActiveSourceKind
      case RequestSadAct => RequestSadKind
    }
  }

  /** How many actions of kind `k` are live (`getActions(k).size()`). */
  function Count(actions: seq<LiveAction>, k: ActionKind): (n: nat)
    ensures n <= |actions|
  {
    if actions == [] then 0
    else (if actions[0].Kind() == k then 1 else 0) + Count(actions[1..], k)
  }

  /** `removeAction(k)`: the live actions with every action of kind `k` taken out, in order. */
  function Remove(actions: seq<LiveAction>, k: ActionKind): (r: seq<LiveAction>)
    ensures |r| <= |actions|
  {
    if actions == [] then []
    else (if actions[0].Kind() == k then [] else [actions[0]]) + Remove(actions[1..], k)
  }

  /** The position of the first live action of kind `k` (`getActions(k).get(0)`). */
  function FirstOf(actions: seq<LiveAction>, k: ActionKind): (i: nat)
    requires Count(actions, k) > 0
    ensures i < |actions| && actions[i].Kind() == k
    ensures forall j :: 0 <= j < i ==> actions[j].Kind() != k
  {
    if actions[0].Kind() == k then 0 else 1 + FirstOf(actions[1..], k)
  }

  /** The one-instance discipline: one Routing Control, one Device Select, one ARC request. */
  predicate Disciplined(actions: seq<LiveAction>) {
    Count(actions, RoutingControlKind) <= 1
    && Count(actions, DeviceSelectKind) <= 1
    && Count(actions, ArcInitiationKind) + Count(actions, ArcTerminationKind) <= 1
  }

  lemma {:induction false} CountAppend(a: seq<LiveAction>, x: LiveAction, k: ActionKind)
    ensures Count(a + [x], k) == Count(a, k) + (if x.Kind() == k then 1 else 0)
    decreases |a|
  {
    if a != [] {
      assert (a + [x])[1..] == a[1..] + [x];
      CountAppend(a[1..], x, k);
    } else {
      assert [x][1..] == [];
    }
  }

  lemma {:induction false} RemoveCount(a: seq<LiveAction>, k: ActionKind, j: ActionKind)
    ensures Count(Remove(a, k), j) == if j == k then 0 else Count(a, j)
    decreases |a|
  {
    if a != [] {
      RemoveCount(a[1..], k, j);
      var rest := Remove(a[1..], k);
      var ka := a[0].Kind();
      assert Count(a, j) == (if ka == j then 1 else 0) + Count(a[1..], j);
      if ka == k {
        assert Remove(a, k) == rest;
      } else {
        assert Remove(a, k) == [a[0]] + rest;
        CountCons(a[0], rest, j);
      }
    }
  }

  /** Counting over a list with a known first action. */
  lemma CountCons(x: LiveAction, rest: seq<LiveAction>, j: ActionKind)
    ensures Count([x] + rest, j) == (if x.Kind() == j then 1 else 0) + Count(rest, j)
  {
    assert ([x] + rest)[0] == x && ([x] + rest)[1..] == rest;
  }

  lemma {:induction false} UpdateCount(a: seq<LiveAction>, i: nat, x: LiveAction, j: ActionKind)
    requires i < |a| && x.Kind() == a[i].Kind()
    ensures Count(a[i := x], j) == Count(a, j)
    decreases |a|
  {
    var b := a[i := x];
    var ka := a[0].Kind();
    assert Count(a, j) == (if ka == j then 1 else 0) + Count(a[1..], j);
    if i == 0 {
      assert b[1..] == a[1..];
      assert Count(b, j) == (if x.Kind() == j then 1 else 0) + Count(a[1..], j);
    } else {
      assert b[0] == a[0];
      assert b[1..] == a[1..][i - 1 := x];
      UpdateCount(a[1..], i - 1, x, j);
      assert Count(b, j) == (if ka == j then 1 else 0) + Count(b[1..], j);
    }
  }

  /** Removing a kind never breaks the discipline, and leaves none of that kind. */
  lemma RemoveKeepsDiscipline(a: seq<LiveAction>, k: ActionKind)
    requires Disciplined(a)
    ensures Disciplined(Remove(a, k)) && Count(Remove(a, k), k) == 0
  {
    RemoveCount(a, k, k);
    RemoveCount(a, k, RoutingControlKind);
    RemoveCount(a, k, DeviceSelectKind);
    RemoveCount(a, k, ArcInitiationKind);
    RemoveCount(a, k, ArcTerminationKind);
  }

  /** Adding an action of a kind outside the discipline keeps it. */
  lemma AppendUnrestrictedKeepsDiscipline(a: seq<LiveAction>, x: LiveAction)
    requires Disciplined(a)
    requires x.Kind() !in {RoutingControlKind, DeviceSelectKind, ArcInitiationKind, ArcTerminationKind}
    ensures Disciplined(a + [x])
  {
    CountAppend(a, x, RoutingControlKind);
    CountAppend(a, x, DeviceSelectKind);
    CountAppend(a, x, ArcInitiationKind);
    CountAppend(a, x, ArcTerminationKind);
  }

  /** `removeAction(kind); addAndStartAction(x)`: exactly one of that kind remains, the others keep their count. */
  function Replace(actions: seq<LiveAction>, x: LiveAction): seq<LiveAction> {
    Remove(actions, x.Kind()) + [x]
  }

  lemma {:induction false} ReplaceCount(a: seq<LiveAction>, x: LiveAction, j: ActionKind)
    ensures Count(Replace(a, x), j) == if j == x.Kind() then 1 else Count(a, j)
  {
    RemoveCount(a, x.Kind(), j);
    CountAppend(Remove(a, x.Kind()), x, j);
  }

  lemma ReplaceKeepsDiscipline(a: seq<LiveAction>, x: LiveAction)
    requires Disciplined(a)
    requires x.Kind() == RoutingControlKind || x.Kind() == DeviceSelectKind
    ensures Disciplined(Replace(a, x)) && Count(Replace(a, x), x.Kind()) == 1
  {
    ReplaceCount(a, x, RoutingControlKind);
    ReplaceCount(a, x, DeviceSelectKind);
    ReplaceCount(a, x, ArcInitiationKind);
    ReplaceCount(a, x, ArcTerminationKind);
  }

  /** `existingAction.addCallback(...)`: `n` more callbacks on the first ARC request action of kind `k`. */
  function AddCallbacks(actions: seq<LiveAction>, k: ActionKind, n: nat): (r: seq<LiveAction>)
    requires k == ArcInitiationKind || k == ArcTerminationKind
    requires Count(actions, k) > 0
    ensures |r| == |actions|
  {
    var i := FirstOf(actions, k);
    actions[i := actions[i].(callbacks := actions[i].callbacks + n)]
  }

  /** Adding callbacks changes no action's kind, so no count changes. */
  lemma AddCallbacksCount(actions: seq<LiveAction>, k: ActionKind, n: nat, j: ActionKind)
    requires k == ArcInitiationKind || k == ArcTerminationKind
    requires Count(actions, k) > 0
    ensures Count(AddCallbacks(actions, k, n), j) == Count(actions, j)
  {
    var i := FirstOf(actions, k);
    UpdateCount(actions, i, actions[i].(callbacks := actions[i].callbacks + n), j);
  }

  /**
   * The action list after `startArcAction(enabled, ...)` got past its checks:
   * the opposite request is removed, then the callbacks join the running
   * request of this direction or a new one is started.
   */
  function ArcActions(actions: seq<LiveAction>, enabled: bool, avr: int, n: nat): seq<LiveAction> {
    var mine := if enabled then ArcInitiationKind else ArcTerminationKind;
    var opposite := if enabled then ArcTerminationKind else ArcInitiationKind;
    var a := Remove(actions, opposite);
    if Count(a, mine) > 0 then AddCallbacks(a, mine, n)
    else a + [if enabled then ArcInitiationAct(avr, n) else ArcTerminationAct(avr, n)]
  }

  /** The two ARC directions never coexist, and the requested one has exactly one instance. */
  lemma ArcActionsDiscipline(actions: seq<LiveAction>, enabled: bool, avr: int, n: nat)
    requires Disciplined(actions)
    ensures Disciplined(ArcActions(actions, enabled, avr, n))
    ensures Count(ArcActions(actions, enabled, avr, n), ArcInitiationKind) == (if enabled then 1 else 0)
    ensures Count(ArcActions(actions, enabled, avr, n), ArcTerminationKind) == (if enabled then 0 else 1)
  {
    var mine := if enabled then ArcInitiationKind else ArcTerminationKind;
    var opposite := if enabled then ArcTerminationKind else ArcInitiationKind;
    var a := Remove(actions, opposite);
    RemoveKeepsDiscipline(actions, opposite);
    var r := ArcActions(actions, enabled, avr, n);
    if Count(a, mine) > 0 {
      assert r == AddCallbacks(a, mine, n);
      AddCallbacksCount(a, mine, n, RoutingControlKind);
      AddCallbacksCount(a, mine, n, DeviceSelectKind);
      AddCallbacksCount(a, mine, n, ArcInitiationKind);
      AddCallbacksCount(a, mine, n, ArcTerminationKind);
    } else {
      var x := if enabled then ArcInitiationAct(avr, n) else ArcTerminationAct(avr, n);
      assert r == a + [x];
      CountAppend(a, x, RoutingControlKind);
      CountAppend(a, x, DeviceSelectKind);
      CountAppend(a, x, ArcInitiationKind);
      CountAppend(a, x, ArcTerminationKind);
    }
  }

  /** `removeArcActions`: the initiation, transmission-state and audio-descriptor actions go. */
  function RemoveArcActions(actions: seq<LiveAction>): seq<LiveAction> {
    Remove(Remove(Remove(actions, ArcInitiationKind), SetArcTransmissionKind), RequestSadKind)
  }

  /** `startRoutingControl`'s effect on the list: nothing for an unchanged path, else one fresh Routing Control. */
  function RoutingActions(actions: seq<LiveAction>, oldPath: PhysicalAddress, newPath: PhysicalAddress,
                          withCallback: bool): seq<LiveAction>
  {
    if oldPath == newPath then actions else Replace(actions, RoutingControlAct(newPath, withCallback))
  }

  /** `startRoutingControl`'s frames: <Routing Change> then <Set Stream Path>, or none for an unchanged path. */
  function RoutingFrames(src: int, oldPath: PhysicalAddress, newPath: PhysicalAddress): seq<Message> {
    if oldPath == newPath then [] else [RoutingChange(src, oldPath, newPath), SetStreamPath(src, newPath)]
  }

  lemma RoutingControlDiscipline(actions: seq<LiveAction>, oldPath: PhysicalAddress,
                                 newPath: PhysicalAddress, withCallback: bool)
    requires Disciplined(actions)
    ensures Disciplined(RoutingActions(actions, oldPath, newPath, withCallback))
    ensures oldPath != newPath ==>
      Count(RoutingActions(actions, oldPath, newPath, withCallback), RoutingControlKind) == 1
  {
    if oldPath != newPath {
      ReplaceKeepsDiscipline(actions, RoutingControlAct(newPath, withCallback));
    }
  }

  /** `NewDeviceAction.isActionOf`: the action is for this logical and physical address. */
  predicate IsActionOf(a: LiveAction, source: ActiveSource) {
    a.NewDeviceAct? && a.logicalAddress == source.logicalAddress
    && a.physicalAddress == source.physicalAddress
  }

  // ------------------------------------------------------------ environment

  /** The service and network state the device consults and does not change here. */
  datatype Environment = Environment(
    /** Every device of the CEC network (`HdmiCecNetwork`), local ones included. */
    devices: seq<DeviceInfo>,
    localLogicalAddress: int,
    localPhysicalAddress: PhysicalAddress,
    cecControlEnabled: bool,
    systemAudioControlFeatureEnabled: bool,
    earcBlocksArcConnection: bool,
    prohibitMode: bool,
    powerStandbyOrTransient: bool,
    isValidPortId: int -> bool,
    portIdToPath: int -> PhysicalAddress,
    pathToPortId: PhysicalAddress -> int,
    isConnectedToArcPort: PhysicalAddress -> bool,
    /**
     * `isAlreadyActiveSource` of the base class, which is not part of this
     * model, for a target and the current active source; when it holds, the
     * base class has answered the callback with SUCCESS.
     */
    alreadyActiveSource: (DeviceInfo, ActiveSource) -> bool,
    /** The OSD names of the two ARC test AVRs and the ports they are accepted on (`Constants`). */
    hdmiTestOsdName: string,
    earcTestOsdName: string,
    hdmiTestArcPort: int,
    earcTestArcPort: int)

  /** Calls out of the device other than CEC frames. */
  datatype Effect =
    | EnableAudioReturnChannel(portId: int, enabled: bool)
    | SwitchToArc(enabled: bool)
    | SetArcDeviceConnected(enabled: bool, sads: seq<seq<Byte>>)
    | DisplayArcInvalidPortOsd
    | InputChangedToInactive
    | SetHdmiSystemAudioSupported(on: bool)
    | AnnounceSystemAudioModeChange(on: bool)
    | FeatureAbort(cmd: Message, reason: int)

  function Reply(withCallback: bool, result: int): seq<int> {
    if withCallback then [result] else []
  }

  /** `getAvrDeviceInfo`: the device at the audio-system address. */
  function Avr(env: Environment): (r: Option<DeviceInfo>)
    ensures r.Some? ==> r.value in env.devices && r.value.logicalAddress == ADDR_AUDIO_SYSTEM
    ensures r.None? <==> forall d :: d in env.devices ==> d.logicalAddress != ADDR_AUDIO_SYSTEM
  {
    DeviceByLogicalAddress(env.devices, ADDR_AUDIO_SYSTEM)
  }

  /** The source-type devices at the tail of `path`, the first one found. */
  function FirstSourceOnTail(devices: seq<DeviceInfo>, path: PhysicalAddress): (r: Option<DeviceInfo>)
    ensures r.Some? ==>
      r.value in devices && r.value.IsSourceType()
      && CecPath.IsTailOfActivePath(r.value.physicalAddress, path)
    ensures r.None? ==>
      forall d :: d in devices ==> !(d.IsSourceType() && CecPath.IsTailOfActivePath(d.physicalAddress, path))
  {
    if devices == [] then None
    else if devices[0].IsSourceType() && CecPath.IsTailOfActivePath(devices[0].physicalAddress, path)
    then Some(devices[0])
    else FirstSourceOnTail(devices[1..], path)
  }

  /** `findDeviceOnPath`: with an AVR present nothing; otherwise a source device at the tail of `path`. */
  function FindDeviceOnPath(env: Environment, path: PhysicalAddress): (r: Option<DeviceInfo>)
    ensures Avr(env).Some? ==> r.None?
    ensures r.Some? ==>
      r.value in env.devices && r.value.IsSourceType()
      && CecPath.IsTailOfActivePath(r.value.physicalAddress, path)
    ensures Avr(env).None? && r.None? ==>
      forall d :: d in env.devices ==>
        !(d.IsSourceType() && CecPath.IsTailOfActivePath(d.physicalAddress, path))
  {
    if Avr(env).Some? then None else FirstSourceOnTail(env.devices, path)
  }

  /** ARC is established under flag `established` and the per-port ARC switches `ports`. */
  predicate ArcEstablishedIn(established: bool, ports: map<int, bool>) {
    established && exists p :: p in ports && ports[p]
  }

  /** Switching ARC off on the last port that had it leaves ARC not established, whatever the flag says. */
  lemma DisablingLastArcPortEndsArc(established: bool, ports: map<int, bool>, port: int)
    requires forall q :: q in ports && q != port ==> !ports[q]
    ensures !ArcEstablishedIn(established, ports[port := false])
  {
  }

  /** Once one port has ARC switched on, whether ARC is established is the flag alone. */
  lemma EnabledArcPortDefersToFlag(established: bool, ports: map<int, bool>, port: int)
    ensures ArcEstablishedIn(established, ports[port := true]) == established
  {
    assert port in ports[port := true];
  }

  /** The path `doManualPortSwitching` routes to for `portId`. */
  function SwitchTarget(env: Environment, portId: int): PhysicalAddress {
    var base := env.portIdToPath(portId);
    match DeviceByPath(env.devices, base)
    case Some(d) => d.physicalAddress
    case None =>
      match FindDeviceOnPath(env, base)
      case Some(d) => d.physicalAddress
      case None => base
  }

  /**
   * Port switching lands on the port's own path, or on a source device found at
   * its tail; never on such a device when an AVR is present.
   */
  lemma SwitchTargetOnPortPath(env: Environment, portId: int)
    ensures var base := env.portIdToPath(portId);
      SwitchTarget(env, portId) == base
      || (Avr(env).None? && exists d :: (d in env.devices && d.IsSourceType()
                                        && d.physicalAddress == SwitchTarget(env, portId)
                                        && CecPath.IsTailOfActivePath(d.physicalAddress, base)))
    ensures Avr(env).Some? ==> SwitchTarget(env, portId) == env.portIdToPath(portId)
  {
    var base := env.portIdToPath(portId);
    match DeviceByPath(env.devices, base)
    case Some(d) =>
    case None =>
      match FindDeviceOnPath(env, base)
      case Some(d) =>
        assert d in env.devices && d.physicalAddress == SwitchTarget(env, portId);
      case None =>
  }

  /** The path `doManualPortSwitching` routes from: the active port's path, or the TV's own. */
  function SwitchOrigin(env: Environment, activePortId: int): PhysicalAddress {
    if activePortId != INVALID_PORT_ID && activePortId != 0 then env.portIdToPath(activePortId)
    else env.localPhysicalAddress
  }

  /** `enableAudioReturnChannel`: the ARC hardware is switched only for an AVR on a known port. */
  function ArcChannelEffects(env: Environment, enabled: bool): (es: seq<Effect>)
    ensures es != [] <==> Avr(env).Some? && Avr(env).value.portId != INVALID_PORT_ID
    ensures es != [] ==> es == [EnableAudioReturnChannel(Avr(env).value.portId, enabled)]
  {
    var avr := Avr(env);
    if avr.Some? && avr.value.portId != INVALID_PORT_ID
    then [EnableAudioReturnChannel(avr.value.portId, enabled)]
    else []
  }

  /** The calls of `enableArc`/`disableArc`: the ARC hardware, then the audio service. */
  function ArcStatusEffects(env: Environment, enabled: bool, sads: seq<seq<Byte>>): seq<Effect> {
    ArcChannelEffects(env, enabled) + [SwitchToArc(enabled), SetArcDeviceConnected(enabled, sads)]
  }

  /** `isDirectConnectAddress`. */
  predicate IsDirectConnect(p: PhysicalAddress) {
    CecPath.IsDirectConnectAddress(p)
  }

  class HdmiCecLocalDeviceTv {
    const env: Environment

    var activeSource: ActiveSource
    /** `mActiveRoutingPath`; the active port id is derived from it. */
    var activePath: PhysicalAddress
    var prevPortId: int
    var skipRoutingControl: bool
    var arcEstablished: bool
    /** `mArcFeatureEnabled`; a port not in the map reads as disabled. */
    var arcFeatureEnabled: map<int, bool>
    /** The service's System Audio Mode flag. */
    var systemAudioActivated: bool
    var actions: seq<LiveAction>
    var sent: seq<Message>
    var effects: seq<Effect>
    /** Results handed to the callbacks given with the user requests. */
    var results: seq<int>
    /** `mDelayedMessageBuffer`. */
    var delayed: seq<Message>
    /** The `startArcAction` calls made, by direction. */
    ghost var arcRequests: seq<bool>
    /** The `startRoutingControl` calls made, as (old path, new path). */
    ghost var routingRequests: seq<(PhysicalAddress, PhysicalAddress)>

    ghost predicate Valid()
      reads this`actions
    {
      Disciplined(actions)
    }

    constructor (env: Environment)
      ensures Valid()
      ensures this.env == env && actions == [] && sent == [] && effects == [] && results == []
      ensures activeSource == INVALID_ACTIVE_SOURCE && activePath == INVALID_PHYSICAL_ADDRESS
      ensures prevPortId == INVALID_PORT_ID && !arcEstablished && arcFeatureEnabled == map[]
    {
      this.env := env;
      activeSource := INVALID_ACTIVE_SOURCE;
      activePath := INVALID_PHYSICAL_ADDRESS;
      prevPortId := INVALID_PORT_ID;
      skipRoutingControl := false;
      arcEstablished := false;
      arcFeatureEnabled := map[];
      systemAudioActivated := false;
      actions := [];
      sent := [];
      effects := [];
      results := [];
      delayed := [];
      arcRequests := [];
      routingRequests := [];
    }

    /** `getActivePortId`: the port of the active routing path. */
    function ActivePortId(): int
      reads this`activePath
    {
      env.pathToPortId(activePath)
    }

    /** `mArcFeatureEnabled.get(port)`, false for a port never set. */
    function ArcEnabledOn(portId: int): bool
      reads this`arcFeatureEnabled
    {
      portId in arcFeatureEnabled && arcFeatureEnabled[portId]
    }

    /** `isArcEstablished`: the flag is set and ARC is enabled on some port. */
    function IsArcEstablished(): (b: bool)
      reads this`arcFeatureEnabled, this`arcEstablished
      ensures b ==> arcEstablished
      ensures !arcEstablished || arcFeatureEnabled == map[] ==> !b
    {
      ArcEstablishedIn(arcEstablished, arcFeatureEnabled)
    }

    /**
     * `isArcFeatureEnabled(avr)`: System Audio Control is on and ARC is
     * enabled on the AVR's port. An AVR carrying one of the two test OSD names
     * is accepted on that name's test port even where ARC is not enabled.
     */
    function IsArcFeatureEnabled(avr: Option<DeviceInfo>): (b: bool)
      reads this`arcFeatureEnabled
      ensures b ==> env.systemAudioControlFeatureEnabled && avr.Some?
      ensures env.systemAudioControlFeatureEnabled && avr.Some? && ArcEnabledOn(avr.value.portId) ==> b
      ensures env.systemAudioControlFeatureEnabled && avr.Some? && !ArcEnabledOn(avr.value.portId) ==>
        var d := avr.value;
        (b <==> (d.displayName == env.hdmiTestOsdName && d.portId == env.hdmiTestArcPort)
                || (d.displayName != env.hdmiTestOsdName && d.displayName == env.earcTestOsdName
                    && d.portId == env.earcTestArcPort))
      ensures avr.Some? && avr.value.displayName != env.hdmiTestOsdName
              && avr.value.displayName != env.earcTestOsdName ==>
        (b <==> env.systemAudioControlFeatureEnabled && ArcEnabledOn(avr.value.portId))
    {
      if !env.systemAudioControlFeatureEnabled || avr.None? then false
      else
        var d := avr.value;
        var isArcPort := ArcEnabledOn(d.portId);
        if !isArcPort && d.displayName == env.hdmiTestOsdName then d.portId == env.hdmiTestArcPort
        else if !isArcPort && d.displayName == env.earcTestOsdName then d.portId == env.earcTestArcPort
        else isArcPort
    }

    /**
     * `canStartArcUpdateAction`: the address is the AVR's, and enabling also
     * needs ARC enabled on its port and a direct connection to the TV.
     */
    function CanStartArcUpdateAction(avrAddress: int, enabled: bool): (b: bool)
      reads this`arcFeatureEnabled
      ensures b ==> avrAddress == ADDR_AUDIO_SYSTEM && Avr(env).Some?
      ensures !enabled ==> (b <==> avrAddress == ADDR_AUDIO_SYSTEM && Avr(env).Some?)
      ensures enabled && b ==>
        IsArcFeatureEnabled(Avr(env)) && IsDirectConnect(Avr(env).value.physicalAddress)
    {
      var avr := Avr(env);
      avr.Some? && avrAddress == avr.value.logicalAddress
      && (enabled ==> IsArcFeatureEnabled(avr) && IsDirectConnect(avr.value.physicalAddress))
    }

    /**
     * `updateActiveSource`: a no-op for the current active source. Otherwise
     * the new source becomes active, and when it is a known device other than
     * the TV lying on the active port, that port is remembered as the previous port.
     */
    method UpdateActiveSource(newActive: ActiveSource)
      modifies this`activeSource, this`prevPortId
      ensures old(activeSource) == newActive ==> unchanged(this)
      ensures activeSource == newActive
      ensures prevPortId ==
        if old(activeSource) != newActive
           && DeviceByLogicalAddress(env.devices, newActive.logicalAddress).Some?
           && newActive.logicalAddress != env.localLogicalAddress
           && env.pathToPortId(newActive.physicalAddress) == old(ActivePortId())
        then old(ActivePortId()) else old(prevPortId)
    {
      if activeSource == newActive {
        return;
      }
      activeSource := newActive;
      var logicalAddress := newActive.logicalAddress;
      if DeviceByLogicalAddress(env.devices, logicalAddress).Some?
         && logicalAddress != env.localLogicalAddress
      {
        if env.pathToPortId(newActive.physicalAddress) == ActivePortId() {
          prevPortId := ActivePortId();
        }
      }
    }

    /** `handleSelectInternalSource`: with CEC on, the TV claims the active source, announcing it unless told to skip. */
    method HandleSelectInternalSource()
      modifies this`activeSource, this`prevPortId, this`skipRoutingControl, this`sent
      ensures var claims := env.cecControlEnabled
                           && old(activeSource).logicalAddress != env.localLogicalAddress;
        && activeSource == (if claims then ActiveSource(env.localLogicalAddress, env.localPhysicalAddress)
                            else old(activeSource))
        && skipRoutingControl == (if claims then false else old(skipRoutingControl))
        && sent == old(sent) + (if claims && !old(skipRoutingControl)
                                then [Cec.ActiveSource(env.localLogicalAddress, env.localPhysicalAddress)]
                                else [])
      ensures prevPortId == old(prevPortId)
    {
      if env.cecControlEnabled && activeSource.logicalAddress != env.localLogicalAddress {
        UpdateActiveSource(ActiveSource(env.localLogicalAddress, env.localPhysicalAddress));
        if skipRoutingControl {
          skipRoutingControl := false;
          return;
        }
        sent := sent + [Cec.ActiveSource(env.localLogicalAddress, env.localPhysicalAddress)];
      }
    }

    /**
     * `deviceSelect`: an unknown id answers TARGET_NOT_AVAILABLE; a target
     * that is already the active source is left alone; the internal source is
     * selected locally with SUCCESS; with CEC off the target is only recorded
     * as active (INCORRECT_MODE); otherwise <Routing Change> goes out and one
     * fresh Device Select action is left running.
     */
    method DeviceSelect(id: int, withCallback: bool)
      requires Valid()
      modifies this`activeSource, this`activePath, this`prevPortId, this`skipRoutingControl
      modifies this`actions, this`sent, this`results
      ensures Valid()
      ensures DeviceById(env.devices, id).None? ==>
        results == old(results) + Reply(withCallback, RESULT_TARGET_NOT_AVAILABLE)
        && sent == old(sent) && actions == old(actions) && activeSource == old(activeSource)
        && activePath == old(activePath)
      ensures DeviceById(env.devices, id).Some? ==>
        var t := DeviceById(env.devices, id).value;
        (env.alreadyActiveSource(t, old(activeSource)) ==>
          results == old(results) + Reply(withCallback, RESULT_SUCCESS)
          && unchanged(this`activeSource, this`activePath, this`skipRoutingControl, this`actions, this`sent))
      ensures DeviceById(env.devices, id).Some? ==>
        var t := DeviceById(env.devices, id).value;
        (!env.alreadyActiveSource(t, old(activeSource)) && t.physicalAddress == old(activeSource).physicalAddress ==>
          unchanged(this))
      ensures DeviceById(env.devices, id).Some? ==>
        var t := DeviceById(env.devices, id).value;
        !env.alreadyActiveSource(t, old(activeSource)) && t.physicalAddress != old(activeSource).physicalAddress ==>
          if t.logicalAddress == ADDR_INTERNAL then
            && actions == Remove(old(actions), RequestActiveSourceKind)
            && InternalSelected(old(results), old(sent), old(skipRoutingControl), old(activeSource), withCallback)
          else if !env.cecControlEnabled then
            && actions == Remove(old(actions), RequestActiveSourceKind)
            && activeSource == ActiveSource(t.logicalAddress, t.physicalAddress)
            && results == old(results) + Reply(withCallback, RESULT_INCORRECT_MODE)
            && sent == old(sent) && activePath == old(activePath) && skipRoutingControl == old(skipRoutingControl)
          else
            && sent == old(sent) + [RoutingChange(env.localLogicalAddress, old(activePath), t.physicalAddress)]
            && actions == Replace(Remove(old(actions), RequestActiveSourceKind), DeviceSelectAct(t, withCallback))
            && results == old(results) && activeSource == old(activeSource)
            && activePath == old(activePath) && skipRoutingControl == old(skipRoutingControl)
      ensures DeviceById(env.devices, id).None? ==> skipRoutingControl == old(skipRoutingControl)
      ensures prevPortId == old(prevPortId)
    {
      var target := DeviceById(env.devices, id);
      if target.None? {
        results := results + Reply(withCallback, RESULT_TARGET_NOT_AVAILABLE);
        return;
      }
      var t := target.value;
      if env.alreadyActiveSource(t, activeSource) {
        results := results + Reply(withCallback, RESULT_SUCCESS);
        return;
      }
      if t.physicalAddress == activeSource.physicalAddress {
        return;
      }
      RemoveKeepsDiscipline(actions, RequestActiveSourceKind);
      actions := Remove(actions, RequestActiveSourceKind);
      if t.logicalAddress == ADDR_INTERNAL {
        SelectInternalDevice(withCallback);
        return;
      }
      if !env.cecControlEnabled {
        activeSource := ActiveSource(t.logicalAddress, t.physicalAddress);
        results := results + Reply(withCallback, RESULT_INCORRECT_MODE);
        return;
      }
      sent := sent + [RoutingChange(env.localLogicalAddress, activePath, t.physicalAddress)];
      ReplaceKeepsDiscipline(actions, DeviceSelectAct(t, withCallback));
      actions := Replace(actions, DeviceSelectAct(t, withCallback));
    }

    /** `deviceSelect` of the internal source: always successful, even with CEC off. */
    method SelectInternalDevice(withCallback: bool)
      modifies this`activeSource, this`activePath, this`prevPortId, this`skipRoutingControl
      modifies this`sent, this`results
      ensures InternalSelected(old(results), old(sent), old(skipRoutingControl), old(activeSource), withCallback)
      ensures prevPortId == old(prevPortId)
    {
      HandleSelectInternalSource();
      activeSource := ActiveSource(ADDR_INTERNAL, env.localPhysicalAddress);
      activePath := env.localPhysicalAddress;
      results := results + Reply(withCallback, RESULT_SUCCESS);
    }

    /**
     * The state after selecting the internal source: the TV is the active
     * source on its own path, SUCCESS; <Active Source> goes out when CEC is on,
     * the TV was not already the active source and routing was not to be skipped.
     */
    ghost predicate InternalSelected(results0: seq<int>, sent0: seq<Message>, skip0: bool, active0: ActiveSource,
                                     withCallback: bool)
      reads this`activeSource, this`activePath, this`results, this`sent, this`skipRoutingControl
    {
      var claims := env.cecControlEnabled && active0.logicalAddress != env.localLogicalAddress;
      && skipRoutingControl == (if claims then false else skip0)
      && sent == sent0 + (if claims && !skip0
                          then [Cec.ActiveSource(env.localLogicalAddress, env.localPhysicalAddress)] else [])
      && activeSource == ActiveSource(ADDR_INTERNAL, env.localPhysicalAddress)
      && activePath == env.localPhysicalAddress
      && results == results0 + Reply(withCallback, RESULT_SUCCESS)
    }

    /**
     * `startRoutingControl`: nothing for an unchanged path; otherwise
     * <Routing Change> and <Set Stream Path> go out and exactly one Routing
     * Control action, for the new path, is left running.
     */
    method StartRoutingControl(oldPath: PhysicalAddress, newPath: PhysicalAddress, withCallback: bool)
      requires Valid()
      modifies this`actions, this`sent, this`routingRequests
      ensures Valid()
      ensures sent == old(sent) + RoutingFrames(env.localLogicalAddress, oldPath, newPath)
      ensures actions == RoutingActions(old(actions), oldPath, newPath, withCallback)
      ensures routingRequests == old(routingRequests) + [(oldPath, newPath)]
    {
      routingRequests := routingRequests + [(oldPath, newPath)];
      RoutingControlDiscipline(actions, oldPath, newPath, withCallback);
      if oldPath == newPath {
        return;
      }
      sent := sent + [RoutingChange(env.localLogicalAddress, oldPath, newPath)];
      sent := sent + [SetStreamPath(env.localLogicalAddress, newPath)];
      actions := Replace(actions, RoutingControlAct(newPath, withCallback));
    }

    /**
     * `doManualPortSwitching`: an invalid port answers INCORRECT_MODE and the
     * active port SUCCESS, both without routing. Otherwise the active source
     * is dropped; with CEC off the port only becomes active (INCORRECT_MODE);
     * with CEC on the chosen port becomes the previous port and routing starts
     * from the old port's path to the port's path, or to a source found there.
     */
    method DoManualPortSwitching(portId: int, withCallback: bool)
      requires Valid()
      modifies this`activeSource, this`activePath, this`prevPortId, this`skipRoutingControl
      modifies this`actions, this`sent, this`results, this`routingRequests
      ensures Valid()
      ensures !env.isValidPortId(portId) ==>
        results == old(results) + Reply(withCallback, RESULT_INCORRECT_MODE)
        && unchanged(this`sent, this`actions, this`activePath, this`prevPortId, this`routingRequests)
      ensures env.isValidPortId(portId) && portId == old(ActivePortId()) ==>
        results == old(results) + Reply(withCallback, RESULT_SUCCESS)
        && unchanged(this`sent, this`actions, this`activePath, this`prevPortId, this`routingRequests)
      ensures env.isValidPortId(portId) && portId != old(ActivePortId()) ==>
        activeSource == INVALID_ACTIVE_SOURCE
      ensures env.isValidPortId(portId) && portId != old(ActivePortId()) && !env.cecControlEnabled ==>
        && actions == Remove(old(actions), RequestActiveSourceKind)
        && activePath == env.portIdToPath(portId)
        && results == old(results) + Reply(withCallback, RESULT_INCORRECT_MODE)
        && unchanged(this`sent, this`prevPortId, this`routingRequests)
      ensures env.isValidPortId(portId) && portId != old(ActivePortId()) && env.cecControlEnabled ==>
        var oldPath := SwitchOrigin(env, old(ActivePortId()));
        var newPath := SwitchTarget(env, portId);
        && activePath == newPath && prevPortId == portId && !skipRoutingControl
        && routingRequests == old(routingRequests) + [(oldPath, newPath)]
        && sent == old(sent) + RoutingFrames(env.localLogicalAddress, oldPath, newPath)
        && actions == RoutingActions(Remove(old(actions), RequestActiveSourceKind), oldPath, newPath, withCallback)
        && results == old(results)
    {
      if !env.isValidPortId(portId) {
        results := results + Reply(withCallback, RESULT_INCORRECT_MODE);
        return;
      }
      if portId == ActivePortId() {
        results := results + Reply(withCallback, RESULT_SUCCESS);
        return;
      }
      RemoveKeepsDiscipline(actions, RequestActiveSourceKind);
      actions := Remove(actions, RequestActiveSourceKind);
      activeSource := INVALID_ACTIVE_SOURCE;
      if !env.cecControlEnabled {
        activePath := env.portIdToPath(portId);
        results := results + Reply(withCallback, RESULT_INCORRECT_MODE);
        return;
      }
      var oldPath := SwitchOrigin(env, ActivePortId());
      skipRoutingControl := false;
      var newPath := SwitchTarget(env, portId);
      activePath := newPath;
      prevPortId := portId;
      StartRoutingControl(oldPath, newPath, withCallback);
    }

    /** `enableArc`: blocked by eARC it changes nothing; otherwise ARC is switched on and established. */
    method EnableArc(sads: seq<seq<Byte>>)
      modifies this`arcEstablished, this`effects
      ensures env.earcBlocksArcConnection ==> unchanged(this)
      ensures !env.earcBlocksArcConnection ==>
        arcEstablished && effects == old(effects) + ArcStatusEffects(env, true, sads)
    {
      if env.earcBlocksArcConnection {
        return;
      }
      effects := effects + ArcStatusEffects(env, true, sads);
      arcEstablished := true;
    }

    /** `disableArc`: ARC is switched off and no longer established, always. */
    method DisableArc()
      modifies this`arcEstablished, this`effects
      ensures !arcEstablished && effects == old(effects) + ArcStatusEffects(env, false, [])
    {
      effects := effects + ArcStatusEffects(env, false, []);
      arcEstablished := false;
    }

    /**
     * `startArcAction(enabled, callback)`: without an AVR only a disable does
     * anything (it drops the initiation and disables ARC). When the AVR fails
     * the ARC checks, or eARC blocks an enable, the callback gets
     * INCORRECT_MODE. Otherwise the opposite request goes and this direction's
     * request gets the callback, so the two never coexist.
     */
    method StartArcAction(enabled: bool, withCallback: bool)
      requires Valid()
      modifies this`arcEstablished, this`actions, this`effects, this`results, this`arcRequests
      ensures Valid()
      ensures arcRequests == old(arcRequests) + [enabled]
      ensures old(effects) <= effects
      ensures ArcActionTaken(enabled, withCallback, old(actions), old(arcEstablished), old(effects), old(results))
    {
      arcRequests := arcRequests + [enabled];
      var info := Avr(env);
      if info.None? {
        if !enabled {
          RemoveKeepsDiscipline(actions, ArcInitiationKind);
          actions := Remove(actions, ArcInitiationKind);
          DisableArc();
        }
        return;
      }
      var avr := info.value;
      if !CanStartArcUpdateAction(avr.logicalAddress, enabled) {
        if enabled && !env.isConnectedToArcPort(avr.physicalAddress)
           && avr.physicalAddress != INVALID_PHYSICAL_ADDRESS
        {
          RemoveKeepsDiscipline(actions, ArcInitiationKind);
          RemoveKeepsDiscipline(Remove(actions, ArcInitiationKind), SetArcTransmissionKind);
          RemoveKeepsDiscipline(Remove(Remove(actions, ArcInitiationKind), SetArcTransmissionKind), RequestSadKind);
          actions := RemoveArcActions(actions);
          effects := effects + [DisplayArcInvalidPortOsd];
        }
        results := results + Reply(withCallback, RESULT_INCORRECT_MODE);
        return;
      }
      if enabled && env.earcBlocksArcConnection {
        results := results + Reply(withCallback, RESULT_INCORRECT_MODE);
        return;
      }
      ArcActionsDiscipline(actions, enabled, avr.logicalAddress, if withCallback then 1 else 0);
      actions := ArcActions(actions, enabled, avr.logicalAddress, if withCallback then 1 else 0);
    }

    /**
     * What `startArcAction(enabled, callback)` leaves, from the action list,
     * ARC flag, calls and callback results it started with.
     */
    ghost predicate ArcActionTaken(enabled: bool, withCallback: bool, actions0: seq<LiveAction>,
                                   established0: bool, effects0: seq<Effect>, results0: seq<int>)
      reads this`actions, this`arcEstablished, this`effects, this`results, this`arcFeatureEnabled
    {
      if Avr(env).None? then
        if enabled then
          actions == actions0 && arcEstablished == established0 && effects == effects0 && results == results0
        else
          && actions == Remove(actions0, ArcInitiationKind)
          && !arcEstablished && effects == effects0 + ArcStatusEffects(env, false, [])
          && results == results0
      else
        var avr := Avr(env).value;
        if !CanStartArcUpdateAction(avr.logicalAddress, enabled) then
          && results == results0 + Reply(withCallback, RESULT_INCORRECT_MODE)
          && arcEstablished == established0
          && if enabled && !env.isConnectedToArcPort(avr.physicalAddress)
                && avr.physicalAddress != INVALID_PHYSICAL_ADDRESS
             then actions == RemoveArcActions(actions0) && effects == effects0 + [DisplayArcInvalidPortOsd]
             else actions == actions0 && effects == effects0
        else if enabled && env.earcBlocksArcConnection then
          && results == results0 + Reply(withCallback, RESULT_INCORRECT_MODE)
          && actions == actions0 && arcEstablished == established0 && effects == effects0
        else
          && actions == ArcActions(actions0, enabled, avr.logicalAddress, if withCallback then 1 else 0)
          && arcEstablished == established0 && effects == effects0 && results == results0
    }

    /**
     * `changeArcFeatureEnabled`: a no-op for an unchanged value. Otherwise the
     * port's flag is stored, and for the AVR's port an ARC action is started
     * towards the new value when it differs from whether ARC is established.
     */
    method ChangeArcFeatureEnabled(portId: int, enabled: bool)
      requires Valid()
      modifies this`arcFeatureEnabled, this`arcEstablished, this`actions, this`effects, this`results, this`arcRequests
      ensures Valid()
      ensures old(ArcEnabledOn(portId)) == enabled ==> unchanged(this)
      ensures old(ArcEnabledOn(portId)) != enabled ==>
        arcFeatureEnabled == old(arcFeatureEnabled)[portId := enabled] && ArcEnabledOn(portId) == enabled
      ensures var starts := old(ArcEnabledOn(portId)) != enabled && Avr(env).Some?
                            && Avr(env).value.portId == portId && enabled != old(arcEstablished);
        && (starts ==>
              arcRequests == old(arcRequests) + [enabled]
              && ArcActionTaken(enabled, false, old(actions), old(arcEstablished), old(effects), old(results)))
        && (!starts ==>
              arcRequests == old(arcRequests)
              && unchanged(this`actions, this`arcEstablished, this`effects, this`results))
      ensures enabled && !old(ArcEnabledOn(portId)) && !old(arcEstablished)
              && Avr(env).Some? && Avr(env).value.portId == portId
              && env.systemAudioControlFeatureEnabled && IsDirectConnect(Avr(env).value.physicalAddress)
              && !env.earcBlocksArcConnection ==>
        Count(actions, ArcInitiationKind) == 1 && Count(actions, ArcTerminationKind) == 0
      ensures !enabled && (forall q :: q != portId ==> !old(ArcEnabledOn(q))) ==> !IsArcEstablished()
      ensures enabled ==> (IsArcEstablished() <==> arcEstablished)
    {
      ghost var allOff := !enabled && forall q :: q != portId ==> !ArcEnabledOn(q);
      if ArcEnabledOn(portId) == enabled {
        if allOff {
          assert forall q :: q in arcFeatureEnabled ==> !ArcEnabledOn(q);
        }
        return;
      }
      if allOff {
        assert forall q :: q in arcFeatureEnabled && q != portId ==> !ArcEnabledOn(q);
        DisablingLastArcPortEndsArc(arcEstablished, arcFeatureEnabled, portId);
      } else if enabled {
        EnabledArcPortDefersToFlag(arcEstablished, arcFeatureEnabled, portId);
      }
      arcFeatureEnabled := arcFeatureEnabled[portId := enabled];
      FollowArcFeature(portId, enabled);
    }

    /**
     * The tail of `changeArcFeatureEnabled`, once the port's flag is stored:
     * for the AVR's port, ARC is requested towards the flag when that differs
     * from whether ARC is established.
     */
    method FollowArcFeature(portId: int, enabled: bool)
      requires Valid()
      modifies this`arcEstablished, this`actions, this`effects, this`results, this`arcRequests
      ensures Valid()
      ensures arcEstablished == old(arcEstablished)
      ensures var starts := Avr(env).Some? && Avr(env).value.portId == portId && enabled != old(arcEstablished);
        && (starts ==>
              arcRequests == old(arcRequests) + [enabled]
              && ArcActionTaken(enabled, false, old(actions), old(arcEstablished), old(effects), old(results)))
        && (!starts ==>
              arcRequests == old(arcRequests)
              && unchanged(this`actions, this`effects, this`results))
      ensures enabled && ArcEnabledOn(portId) && !old(arcEstablished)
              && Avr(env).Some? && Avr(env).value.portId == portId
              && env.systemAudioControlFeatureEnabled && IsDirectConnect(Avr(env).value.physicalAddress)
              && !env.earcBlocksArcConnection ==>
        Count(actions, ArcInitiationKind) == 1 && Count(actions, ArcTerminationKind) == 0
    {
      var avr := Avr(env);
      if avr.None? || avr.value.portId != portId {
        return;
      }
      if enabled && !arcEstablished {
        ghost var a0, est0, e0, r0 := actions, arcEstablished, effects, results;
        StartArcAction(true, false);
        if ArcEnabledOn(portId) && env.systemAudioControlFeatureEnabled
           && IsDirectConnect(avr.value.physicalAddress) && !env.earcBlocksArcConnection
        {
          ArcRequestOutcome(this, true, false, a0, est0, e0, r0);
        }
      } else if !enabled && arcEstablished {
        StartArcAction(false, false);
      }
    }

    /** The first live transmission-state action is one that enables ARC. */
    function TransmissionEnabling(): bool
      reads this`actions
    {
      Count(actions, SetArcTransmissionKind) > 0 && actions[FirstOf(actions, SetArcTransmissionKind)].enabled
    }

    /**
     * `handleInitiateArc`: eARC blocking answers NOT_IN_CORRECT_MODE. A sender
     * that fails the ARC checks has the message buffered (AVR unknown), the
     * AVR's physical address asked for (address unknown), or is refused with
     * <Request ARC Termination>. An established ARC is reported again; a
     * running enable is left to finish; otherwise one transmission-state
     * action enabling ARC is started.
     */
    method HandleInitiateArc(msg: Message) returns (r: int)
      requires Valid()
      modifies this`actions, this`sent, this`effects, this`delayed
      ensures Valid()
      ensures r == HANDLED || r == ABORT_NOT_IN_CORRECT_MODE || r == ABORT_REFUSED
      ensures env.earcBlocksArcConnection <==> r == ABORT_NOT_IN_CORRECT_MODE
      ensures env.earcBlocksArcConnection ==> unchanged(this)
      ensures !env.earcBlocksArcConnection && !old(CanStartArcUpdateAction(msg.source, true)) ==>
        if Avr(env).None? then
          r == HANDLED && delayed == old(delayed) + [msg] && unchanged(this`sent, this`effects)
        else if Avr(env).value.physicalAddress == INVALID_PHYSICAL_ADDRESS then
          && r == HANDLED && unchanged(this`delayed, this`effects)
          && sent == old(sent) + [GivePhysicalAddress(env.localLogicalAddress, Avr(env).value.logicalAddress)]
        else
          && r == ABORT_REFUSED && delayed == old(delayed)
          && sent == old(sent) + [RequestArcTermination(env.localLogicalAddress, msg.source)]
          && effects == old(effects) + [FeatureAbort(msg, ABORT_REFUSED)]
                        + (if env.isConnectedToArcPort(Avr(env).value.physicalAddress) then []
                           else [DisplayArcInvalidPortOsd])
      ensures !env.earcBlocksArcConnection && !old(CanStartArcUpdateAction(msg.source, true)) ==>
        actions == old(actions)
      ensures !env.earcBlocksArcConnection && old(CanStartArcUpdateAction(msg.source, true)) ==>
        && r == HANDLED && unchanged(this`delayed, this`effects)
        && if old(arcEstablished) then
             sent == old(sent) + [ReportArcInitiated(env.localLogicalAddress, msg.source)]
             && actions == old(actions)
           else if old(TransmissionEnabling()) then
             sent == old(sent) && actions == old(actions)
           else
             sent == old(sent)
             && actions == Remove(old(actions), ArcInitiationKind) + [SetArcTransmissionAct(msg.source, true)]
    {
      if env.earcBlocksArcConnection {
        return ABORT_NOT_IN_CORRECT_MODE;
      }
      if !CanStartArcUpdateAction(msg.source, true) {
        var avr := Avr(env);
        if avr.None? {
          delayed := delayed + [msg];
          return HANDLED;
        }
        if avr.value.physicalAddress == INVALID_PHYSICAL_ADDRESS {
          sent := sent + [GivePhysicalAddress(env.localLogicalAddress, avr.value.logicalAddress)];
          return HANDLED;
        }
        effects := effects + [FeatureAbort(msg, ABORT_REFUSED)];
        sent := sent + [RequestArcTermination(env.localLogicalAddress, msg.source)];
        if !env.isConnectedToArcPort(avr.value.physicalAddress)
           && avr.value.physicalAddress != INVALID_PHYSICAL_ADDRESS
        {
          effects := effects + [DisplayArcInvalidPortOsd];
        }
        return ABORT_REFUSED;
      }
      if arcEstablished {
        sent := sent + [ReportArcInitiated(env.localLogicalAddress, msg.source)];
        return HANDLED;
      }
      if TransmissionEnabling() {
        return HANDLED;
      }
      RemoveKeepsDiscipline(actions, ArcInitiationKind);
      AppendUnrestrictedKeepsDiscipline(Remove(actions, ArcInitiationKind), SetArcTransmissionAct(msg.source, true));
      actions := Remove(actions, ArcInitiationKind) + [SetArcTransmissionAct(msg.source, true)];
      return HANDLED;
    }

    /**
     * `handleTerminateArc`: in standby ARC is simply disabled; without ARC
     * established the termination is reported again; otherwise one
     * transmission-state action disabling ARC replaces the termination request.
     */
    method HandleTerminateArc(msg: Message) returns (r: int)
      requires Valid()
      modifies this`arcEstablished, this`actions, this`sent, this`effects
      ensures Valid()
      ensures r == HANDLED
      ensures env.powerStandbyOrTransient ==>
        !arcEstablished && effects == old(effects) + ArcStatusEffects(env, false, [])
        && unchanged(this`sent, this`actions)
      ensures !env.powerStandbyOrTransient && !old(arcEstablished) ==>
        sent == old(sent) + [ReportArcTerminated(env.localLogicalAddress, msg.source)]
        && unchanged(this`actions, this`effects)
      ensures !env.powerStandbyOrTransient && old(arcEstablished) ==>
        actions == Remove(old(actions), ArcTerminationKind) + [SetArcTransmissionAct(msg.source, false)]
        && unchanged(this`sent, this`effects, this`arcEstablished)
    {
      if env.powerStandbyOrTransient {
        DisableArc();
        return HANDLED;
      }
      if !arcEstablished {
        sent := sent + [ReportArcTerminated(env.localLogicalAddress, msg.source)];
        return HANDLED;
      }
      RemoveKeepsDiscipline(actions, ArcTerminationKind);
      AppendUnrestrictedKeepsDiscipline(Remove(actions, ArcTerminationKind), SetArcTransmissionAct(msg.source, false));
      actions := Remove(actions, ArcTerminationKind) + [SetArcTransmissionAct(msg.source, false)];
      return HANDLED;
    }

    /**
     * `handleInactiveSource`: only the active source's message counts, and not
     * in prohibit mode. With a previous port recorded, a known sender on
     * another port clears it; with none, the active source and path are
     * dropped and the input listener is told. The message is always handled.
     */
    method HandleInactiveSource(msg: Message) returns (r: int)
      modifies this`activeSource, this`activePath, this`prevPortId, this`effects
      ensures r == HANDLED
      ensures old(activeSource).logicalAddress != msg.source || env.prohibitMode ==> unchanged(this)
      ensures old(activeSource).logicalAddress == msg.source && !env.prohibitMode ==>
        if old(prevPortId) != INVALID_PORT_ID then
          && unchanged(this`activeSource, this`activePath, this`effects)
          && prevPortId ==
               match DeviceByLogicalAddress(env.devices, msg.source)
               case None => old(prevPortId)
               case Some(d) =>
                 if env.pathToPortId(d.physicalAddress) == old(prevPortId) then old(prevPortId)
                 else INVALID_PORT_ID
        else
          && activeSource == INVALID_ACTIVE_SOURCE && activePath == INVALID_PHYSICAL_ADDRESS
          && effects == old(effects) + [InputChangedToInactive] && prevPortId == old(prevPortId)
    {
      if activeSource.logicalAddress != msg.source {
        return HANDLED;
      }
      if env.prohibitMode {
        return HANDLED;
      }
      var portId := prevPortId;
      if portId != INVALID_PORT_ID {
        var inactiveSource := DeviceByLogicalAddress(env.devices, msg.source);
        if inactiveSource.None? {
          return HANDLED;
        }
        if env.pathToPortId(inactiveSource.value.physicalAddress) == portId {
          return HANDLED;
        }
        prevPortId := INVALID_PORT_ID;
      } else {
        activeSource := INVALID_ACTIVE_SOURCE;
        activePath := INVALID_PHYSICAL_ADDRESS;
        effects := effects + [InputChangedToInactive];
      }
      return HANDLED;
    }

    /** Whether a New Device action for `source` is already live. */
    method HasNewDeviceActionFor(source: ActiveSource) returns (found: bool)
      ensures found <==> exists i :: 0 <= i < |actions| && IsActionOf(actions[i], source)
    {
      var i := 0;
      while i < |actions|
        invariant 0 <= i <= |actions|
        invariant forall j :: 0 <= j < i ==> !IsActionOf(actions[j], source)
      {
        if IsActionOf(actions[i], source) {
          return true;
        }
        i := i + 1;
      }
      return false;
    }

    /** `startNewDeviceAction`: one New Device action per (logical, physical) source; a duplicate request is dropped. */
    method StartNewDeviceAction(source: ActiveSource, deviceType: int)
      requires Valid()
      modifies this`actions
      ensures Valid()
      ensures (exists i :: 0 <= i < |old(actions)| && IsActionOf(old(actions)[i], source)) ==> unchanged(this)
      ensures !(exists i :: 0 <= i < |old(actions)| && IsActionOf(old(actions)[i], source)) ==>
        actions == old(actions) + [NewDeviceAct(source.logicalAddress, source.physicalAddress, deviceType)]
      ensures exists i :: 0 <= i < |actions| && IsActionOf(actions[i], source)
    {
      var found := HasNewDeviceActionFor(source);
      if found {
        return;
      }
      var x := NewDeviceAct(source.logicalAddress, source.physicalAddress, deviceType);
      AppendUnrestrictedKeepsDiscipline(actions, x);
      actions := actions + [x];
      assert IsActionOf(actions[|actions| - 1], source);
    }

    /**
     * `setSystemAudioMode(on)`: turning on is refused while System Audio
     * Control is off. A change of mode updates the audio manager and is
     * announced; then ARC is requested on (if not established) or off.
     */
    method SetSystemAudioMode(on: bool)
      requires Valid()
      modifies this`systemAudioActivated, this`arcEstablished, this`actions, this`effects, this`results, this`arcRequests
      ensures Valid()
      ensures !env.systemAudioControlFeatureEnabled && on ==> unchanged(this)
      ensures env.systemAudioControlFeatureEnabled || !on ==>
        var modeEffects := ModeChangeEffects(old(systemAudioActivated), on);
        && systemAudioActivated == on
        && if on && old(arcEstablished) then
             && arcRequests == old(arcRequests) && effects == old(effects) + modeEffects
             && unchanged(this`actions, this`arcEstablished, this`results)
           else
             && arcRequests == old(arcRequests) + [on]
             && ArcActionTaken(on, false, old(actions), old(arcEstablished), old(effects) + modeEffects, old(results))
      ensures !on ==>
        && Count(actions, ArcInitiationKind) == 0
        && (Avr(env).None? ==> !arcEstablished)
        && (Avr(env).Some? ==> Count(actions, ArcTerminationKind) == 1)
    {
      if !env.systemAudioControlFeatureEnabled && on {
        return;
      }
      UpdateSystemAudioMode(on);
      if on && !arcEstablished {
        StartArcAction(true, false);
      } else if !on {
        ghost var a0, est0, e0, r0 := actions, arcEstablished, effects, results;
        StartArcAction(false, false);
        ArcDisableOutcome(this, a0, est0, e0, r0);
      }
    }

    /** The System Audio Mode flag takes `on`; a change is pushed to the audio manager and then announced. */
    method UpdateSystemAudioMode(on: bool)
      modifies this`systemAudioActivated, this`effects
      ensures systemAudioActivated == on
      ensures effects == old(effects) + ModeChangeEffects(old(systemAudioActivated), on)
    {
      if systemAudioActivated != on {
        effects := effects + [SetHdmiSystemAudioSupported(on)];
        systemAudioActivated := on;
        effects := effects + [AnnounceSystemAudioModeChange(on)];
      }
    }
  }

  /** The audio-manager and announcement calls of a System Audio Mode change from `was` to `on`. */
  function ModeChangeEffects(was: bool, on: bool): (es: seq<Effect>)
    ensures es == [] <==> was == on
  {
    if was != on then [SetHdmiSystemAudioSupported(on), AnnounceSystemAudioModeChange(on)] else []
  }

  /**
   * A request to disable ARC always withdraws every initiation request: with
   * an AVR exactly one termination request is left running, without one ARC
   * is switched off.
   */
  lemma ArcDisableOutcome(tv: HdmiCecLocalDeviceTv, a0: seq<LiveAction>, est0: bool,
                          e0: seq<Effect>, r0: seq<int>)
    requires Disciplined(a0) && tv.ArcActionTaken(false, false, a0, est0, e0, r0)
    ensures Count(tv.actions, ArcInitiationKind) == 0
    ensures Avr(tv.env).None? ==> !tv.arcEstablished
    ensures Avr(tv.env).Some? ==> Count(tv.actions, ArcTerminationKind) == 1
  {
    if Avr(tv.env).None? {
      RemoveCount(a0, ArcInitiationKind, ArcInitiationKind);
    } else {
      ArcActionsDiscipline(a0, false, Avr(tv.env).value.logicalAddress, 0);
    }
  }

  /**
   * A request that passes the ARC checks leaves exactly one request running,
   * in the requested direction, and none in the other.
   */
  lemma ArcRequestOutcome(tv: HdmiCecLocalDeviceTv, enabled: bool, withCallback: bool, a0: seq<LiveAction>,
                          est0: bool, e0: seq<Effect>, r0: seq<int>)
    requires Disciplined(a0) && tv.ArcActionTaken(enabled, withCallback, a0, est0, e0, r0)
    requires Avr(tv.env).Some? && tv.CanStartArcUpdateAction(Avr(tv.env).value.logicalAddress, enabled)
    requires !(enabled && tv.env.earcBlocksArcConnection)
    ensures Count(tv.actions, ArcInitiationKind) == (if enabled then 1 else 0)
    ensures Count(tv.actions, ArcTerminationKind) == (if enabled then 0 else 1)
    ensures tv.arcEstablished == est0 && tv.effects == e0 && tv.results == r0
  {
    ArcActionsDiscipline(a0, enabled, Avr(tv.env).value.logicalAddress, if withCallback then 1 else 0);
  }

  /** Only the AVR's address can pass the ARC checks, and enabling is the stricter of the two. */
  lemma ArcUpdateOnlyFromAvr(tv: HdmiCecLocalDeviceTv, addr: int)
    ensures tv.CanStartArcUpdateAction(addr, true) ==> tv.CanStartArcUpdateAction(addr, false)
    ensures tv.CanStartArcUpdateAction(addr, false) ==> addr == ADDR_AUDIO_SYSTEM
  {
  }
}
