/**
 * `HdmiCecFeaturesInfo`: the operands of <Report Features> (HDMI CEC 2.0): CEC version,
 * the [All Device Types] bit mask, one [RC Profile] byte and one [Device Features] byte.
 * Versions other than 2.0 have no feature operands at all.
 */
module CecFeatures {
  import opened Wrappers
  import opened Cec

  const CEC_VERSION_1_4: int := 0x05
  const CEC_VERSION_2_0: int := 0x06

  /** The [All Device Types] bit of a device type, if it has one. */
  function TypeBitIndex(t: int): (k: int)
    ensures k == -1 || 2 <= k <= 7
  {
    if t == DEVICE_PURE_CEC_SWITCH then 2
    else if t == DEVICE_AUDIO_SYSTEM then 3
    else if t == DEVICE_PLAYBACK then 4
    else if t == DEVICE_TUNER then 5
    else if t == DEVICE_RECORDER then 6
    else if t == DEVICE_TV then 7
    else -1
  }

  function TypeBit(t: int): bv8 {
    var k := TypeBitIndex(t);
    if k < 0 then 0 else 1 << k
  }

  /** `initAllDeviceTypes`: the OR of the bits of every local device type, in list order. */
  function DeviceTypeMask(types: seq<int>): (m: bv8)
    ensures m & 3 == 0
  {
    if types == [] then 0 else DeviceTypeMask(types[..|types| - 1]) | TypeBit(types[|types| - 1])
  }

  lemma TypeBitExactly(t: int, u: int)
    requires TypeBitIndex(t) >= 0
    ensures ((TypeBit(u) >> TypeBitIndex(t)) & 1 == 1) <==> u == t
  {
  }

  /** A known type's bit is set exactly when that type is among the local devices. */
  lemma {:induction false} MaskBitSet(types: seq<int>, t: int)
    requires TypeBitIndex(t) >= 0
    ensures ((DeviceTypeMask(types) >> TypeBitIndex(t)) & 1 == 1) <==> t in types
  {
    if types != [] {
      var init := types[..|types| - 1];
      var last := types[|types| - 1];
      MaskBitSet(init, t);
      TypeBitExactly(t, last);
      var a := DeviceTypeMask(init);
      var b := TypeBit(last);
      var k := TypeBitIndex(t) as bv8;
      assert ((a | b) >> k) & 1 == ((a >> k) & 1) | ((b >> k) & 1);
      assert types == init + [last];
    }
  }

  /** [Device Features] for a TV on CEC 2.0: record TV screen, set OSD string, ARC Tx. */
  const TV_DEVICE_FEATURES: bv8 := (1 << 6) | (1 << 5) | (1 << 2)

  class HdmiCecFeaturesInfo {
    const cecVersion: int
    /** The local device types given to the constructor. */
    ghost const localDevices: seq<int>
    var allDeviceTypes: bv8
    var featuresSize: nat
    var rcProfileSize: nat
    var deviceFeaturesSize: nat
    var rcProfiles: seq<bv8>
    var deviceFeatures: seq<bv8>

    ghost predicate Valid()
      reads this
    {
      allDeviceTypes == DeviceTypeMask(localDevices) &&
      (cecVersion == CEC_VERSION_2_0 ==>
         featuresSize == 4 && rcProfileSize == 1 && deviceFeaturesSize == 1) &&
      (cecVersion != CEC_VERSION_2_0 ==>
         featuresSize == 0 && rcProfileSize == 0 && deviceFeaturesSize == 0) &&
      rcProfiles == seq(rcProfileSize, _ => 0) &&
      |deviceFeatures| == deviceFeaturesSize &&
      (cecVersion == CEC_VERSION_2_0 ==>
         deviceFeatures[0] == if (allDeviceTypes >> 7) & 1 == 1 then TV_DEVICE_FEATURES else 0)
    }

    constructor (version: int, types: seq<int>)
      ensures Valid() && cecVersion == version && localDevices == types
    {
      cecVersion := version;
      localDevices := types;
      new;
      // initAllDeviceTypes
      allDeviceTypes := 0;
      var i := 0;
      while i < |types|
        invariant 0 <= i <= |types|
        invariant allDeviceTypes == DeviceTypeMask(types[..i])
      {
        assert types[..i + 1][..i] == types[..i];
        allDeviceTypes := allDeviceTypes | TypeBit(types[i]);
        i := i + 1;
      }
      assert types[..i] == types;
      // initFeaturesSize
      if version == CEC_VERSION_2_0 {
        featuresSize := 4;
        rcProfileSize := 1;
        deviceFeaturesSize := 1;
      } else {
        featuresSize := 0;
        rcProfileSize := 0;
        deviceFeaturesSize := 0;
      }
      // initRCProfiles
      rcProfiles := seq(rcProfileSize, _ => 0);
      // initDeviceFeatures
      deviceFeatures := seq(deviceFeaturesSize, _ => 0);
      if version == CEC_VERSION_2_0 {
        var f: bv8 := 0;
        if (allDeviceTypes >> 7) & 1 == 1 {
          f := f | (1 << 6);
          f := f | (1 << 5);
          f := f | (1 << 2);
        }
        deviceFeatures := deviceFeatures[0 := f];
      }
    }

    /** `isTvDevice`: bit 7 of the mask, i.e. a TV is among the local devices. */
    function IsTvDevice(): (b: bool)
      reads this
      requires Valid()
      ensures b <==> DEVICE_TV in localDevices
    {
      MaskBitSet(localDevices, DEVICE_TV);
      (allDeviceTypes >> 7) & 1 == 1
    }

    /**
     * `getCecFeatures`: for CEC 2.0 the version, the device-type mask, the RC profile and
     * the device features; for any other version nothing. Each byte is given by its
     * unsigned value (0 to 255): Java's `byte[]` holds the same bits, so a mask with the
     * TV bit set reads there as a negative byte (-128 for a TV alone).
     */
    function GetCecFeatures(): (params: seq<int>)
      reads this
      requires Valid()
      ensures cecVersion != CEC_VERSION_2_0 ==> params == []
      ensures cecVersion == CEC_VERSION_2_0 ==>
                |params| == 4 && params[0] == CEC_VERSION_2_0 &&
                params[1] == DeviceTypeMask(localDevices) as int && params[2] == 0 &&
                params[3] == (if DEVICE_TV in localDevices then TV_DEVICE_FEATURES as int else 0)
      ensures forall i :: 0 <= i < |params| ==> 0 <= params[i] < 256
    {
      if cecVersion == CEC_VERSION_2_0 then
        MaskBitSet(localDevices, DEVICE_TV);
        [cecVersion % 256, allDeviceTypes as int, rcProfiles[0] as int, deviceFeatures[0] as int]
      else seq(featuresSize, _ => 0)
    }

    /**
     * Bit `k` of the device-features byte. `None` is the ArrayIndexOutOfBoundsException
     * the source throws on the empty array built for a version other than 2.0.
     */
    function FeatureBit(k: nat): (b: Option<bool>)
      reads this
      requires Valid() && k < 8
      ensures b.None? <==> cecVersion != CEC_VERSION_2_0
    {
      if |deviceFeatures| == 0 then None else Some((1 & (deviceFeatures[0] >> k)) == 1)
    }

    /** `canRecordTvScreen`: bit 6, set exactly for a TV; throws unless CEC 2.0. */
    function CanRecordTvScreen(): (b: Option<bool>)
      reads this
      requires Valid()
      ensures b.None? <==> cecVersion != CEC_VERSION_2_0
      ensures b.Some? ==> (b.value <==> DEVICE_TV in localDevices)
    {
      MaskBitSet(localDevices, DEVICE_TV);
      FeatureBit(6)
    }

    /** `canSetOsdString`: bit 5, set exactly for a TV; throws unless CEC 2.0. */
    function CanSetOsdString(): (b: Option<bool>)
      reads this
      requires Valid()
      ensures b.None? <==> cecVersion != CEC_VERSION_2_0
      ensures b.Some? ==> (b.value <==> DEVICE_TV in localDevices)
    {
      MaskBitSet(localDevices, DEVICE_TV);
      FeatureBit(5)
    }

    /** `canControlledByDeckControl`: bit 4, never set by this class; throws unless CEC 2.0. */
    function CanControlledByDeckControl(): (b: Option<bool>)
      reads this
      requires Valid()
      ensures b.None? <==> cecVersion != CEC_VERSION_2_0
      ensures b.Some? ==> !b.value
    {
      FeatureBit(4)
    }

    /** `canSetAudioRate`: bit 3, never set by this class; throws unless CEC 2.0. */
    function CanSetAudioRate(): (b: Option<bool>)
      reads this
      requires Valid()
      ensures b.None? <==> cecVersion != CEC_VERSION_2_0
      ensures b.Some? ==> !b.value
    {
      FeatureBit(3)
    }

    /** `canSupportARC`: bit 2, set exactly for a TV; throws unless CEC 2.0. */
    function CanSupportArc(): (b: Option<bool>)
      reads this
      requires Valid()
      ensures b.None? <==> cecVersion != CEC_VERSION_2_0
      ensures b.Some? ==> (b.value <==> DEVICE_TV in localDevices)
    {
      MaskBitSet(localDevices, DEVICE_TV);
      FeatureBit(2)
    }
  }
}
