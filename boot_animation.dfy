/**
 * Parts of the boot animation player (`BootAnimation.cpp`) that do not draw:
 * the parsers of the `desc.txt` text position and colour fields, the volume
 * keys of the boot video and the volume they persist, the input device table,
 * the texture-size rounding and the glyph lookup of the clock font.
 *
 * C `int` is 32 bits and `long` 64 bits (LP64); `/` and `%` truncate toward
 * zero. Characters of `drawText` are bytes (an unsigned `char`).
 */
module BootAnimation {
  import opened Wrappers
  import opened Numerals

  const TEXT_CENTER_VALUE: int := INT_MAX
  const TEXT_MISSING_VALUE: int := INT_MIN

  // ------------------------------------------------------------ strtol, base 0

  /** `isspace` in the C locale. */
  predicate IsSpace(c: char) { c == ' ' || '\t' <= c <= '\r' }

  /** The index of the first character at or after `i` that is not white space. */
  function SkipSpaces(s: string, i: nat): (r: nat)
    requires i <= |s|
    ensures i <= r <= |s| && (r == |s| || !IsSpace(s[r]))
    ensures forall k :: i <= k < r ==> IsSpace(s[k])
    decreases |s| - i
  {
    if i < |s| && IsSpace(s[i]) then SkipSpaces(s, i + 1) else i
  }

  predicate IsBaseDigit(c: char, base: nat) {
    if base == 16 then IsHexDigit(c) else if base == 10 then IsDigit(c) else '0' <= c <= '7'
  }

  /** The length of the longest run of `base` digits starting at `i`. */
  function RunLength(s: string, i: nat, base: nat): (n: nat)
    requires i <= |s|
    ensures i + n <= |s|
    ensures forall k :: i <= k < i + n ==> IsBaseDigit(s[k], base)
    ensures i + n == |s| || !IsBaseDigit(s[i + n], base)
    decreases |s| - i
  {
    if i < |s| && IsBaseDigit(s[i], base) then 1 + RunLength(s, i + 1, base) else 0
  }

  /** The value of a run of digits in `base`, most significant first. */
  function RunValue(digits: string, base: nat): nat
    requires forall k :: 0 <= k < |digits| ==> IsHexDigit(digits[k])
  {
    if digits == [] then 0
    else RunValue(digits[..|digits| - 1], base) * base + HexValue(digits[|digits| - 1])
  }

  lemma {:induction false} RunValueDecimal(digits: string)
    requires AllDigits(digits)
    ensures RunValue(digits, 10) == DecValue(digits)
  {
    if digits != [] {
      RunValueDecimal(digits[..|digits| - 1]);
    }
  }

  /** What `strtol` returns and where it stops (`end == 0`: no conversion). */
  datatype Conversion = Conversion(value: int, end: nat)

  /** The `long` saturation of an out-of-range value. */
  function SaturateLong(v: int): (r: int)
    ensures LONG_MIN <= r <= LONG_MAX
    ensures LONG_MIN <= v <= LONG_MAX ==> r == v
  {
    if v > LONG_MAX then LONG_MAX else if v < LONG_MIN then LONG_MIN else v
  }

  /** Whether the digits at `j` are "0x"/"0X" followed by a hex digit. */
  predicate HexPrefixAt(s: string, j: nat) {
    j + 2 < |s| && s[j] == '0' && (s[j + 1] == 'x' || s[j + 1] == 'X') && IsHexDigit(s[j + 2])
  }

  /** `strtol` from the first digit at `j`: the base is picked by the prefix, as for base 0. */
  function ConvertDigits(s: string, j: nat, negative: bool): (r: Conversion)
    requires j <= |s|
    ensures r.end <= |s|
    ensures r.end > 0 ==> LONG_MIN <= r.value <= LONG_MAX
  {
    var hex := HexPrefixAt(s, j);
    var base := if hex then 16 else if j < |s| && s[j] == '0' then 8 else 10;
    var start := if hex then j + 2 else j;
    var n := RunLength(s, start, base);
    if n == 0 then Conversion(0, 0)
    else
      var magnitude := RunValue(s[start..start + n], base);
      Conversion(SaturateLong(if negative then -(magnitude as int) else magnitude), start + n)
  }

  /**
   * `strtol(s, &end, 0)`: optional white space and sign, then "0x" and hex
   * digits, or a leading 0 and octal digits, or decimal digits; out-of-range
   * values saturate at the `long` limits.
   */
  function Strtol(s: string): (r: Conversion)
    ensures r.end <= |s|
    ensures r.end > 0 ==> LONG_MIN <= r.value <= LONG_MAX
  {
    var i := SkipSpaces(s, 0);
    var signed := i < |s| && (s[i] == '-' || s[i] == '+');
    ConvertDigits(s, if signed then i + 1 else i, i < |s| && s[i] == '-')
  }

  // ------------------------------------------------------------ text positions

  /**
   * `parseTextCoord`: "c" is the centre; otherwise the whole text must be one
   * number whose `int` cast is neither `INT_MAX` nor `INT_MIN` (those two mean
   * centred and missing). Returns whether it parsed and the new `*dest`,
   * which a failure leaves as it was.
   */
  function ParseTextCoord(str: string, dest: int): (r: (bool, int))
    ensures !r.0 ==> r.1 == dest
    ensures r.0 && str != "c" ==> IsInt32(r.1) && r.1 != TEXT_CENTER_VALUE && r.1 != TEXT_MISSING_VALUE
    ensures str == "c" ==> r == (true, TEXT_CENTER_VALUE)
  {
    if str == "c" then (true, TEXT_CENTER_VALUE)
    else
      var conversion := Strtol(str);
      var val := Wrap32(conversion.value);
      if conversion.end == 0 || conversion.end != |str| || val == INT_MAX || val == INT_MIN then (false, dest)
      else (true, val)
  }

  /** Decimal digits without a leading zero, from `j` to the end, convert to their value. */
  lemma ConvertDecimalDigits(s: string, j: nat, negative: bool)
    requires j < |s| && AllDigits(s[j..]) && (s[j] != '0' || s[j..] == "0")
    requires DecValue(s[j..]) <= LONG_MAX
    ensures ConvertDigits(s, j, negative) == Conversion(if negative then -(DecValue(s[j..]) as int) else DecValue(s[j..]), |s|)
  {
    var digits := s[j..];
    var base := if s[j] == '0' then 8 else 10;
    assert !HexPrefixAt(s, j) by {
      if s[j] == '0' { assert |s| == j + 1; }
    }
    forall k | j <= k < |s| ensures IsBaseDigit(s[k], base) {
      assert s[k] == digits[k - j];
    }
    RunLengthToEnd(s, j, base);
    assert s[j..j + (|s| - j)] == digits;
    if base == 8 {
      assert RunValue("0", 8) == 0;
    } else {
      RunValueDecimal(digits);
    }
  }

  /** The decimal text of a coordinate is converted by `strtol` to that coordinate, to its end. */
  lemma StrtolDecimal(v: int)
    requires IsInt32(v)
    ensures Strtol(IntToDec(v)) == Conversion(v, |IntToDec(v)|)
  {
    var s := IntToDec(v);
    var magnitude: nat := if v < 0 then -v else v;
    DecDigitsWellFormed(magnitude);
    var j := if v < 0 then 1 else 0;
    assert s[j..] == DecDigits(magnitude);
    assert s[0] == '-' || IsDigit(s[0]);
    assert SkipSpaces(s, 0) == 0;
    ConvertDecimalDigits(s, j, v < 0);
  }

  /** The decimal text of a coordinate parses back to that coordinate. */
  lemma DecimalCoordRoundTrip(v: int, dest: int)
    requires IsInt32(v) && v != INT_MAX && v != INT_MIN
    ensures ParseTextCoord(IntToDec(v), dest) == (true, v)
  {
    var s := IntToDec(v);
    StrtolDecimal(v);
    assert s != "c" by {
      DecDigitsWellFormed(if v < 0 then -v else v);
      assert s[0] == '-' || IsDigit(s[0]);
    }
  }

  lemma {:induction false} RunLengthToEnd(s: string, i: nat, base: nat)
    requires i <= |s|
    requires forall k :: i <= k < |s| ==> IsBaseDigit(s[k], base)
    ensures RunLength(s, i, base) == |s| - i
    decreases |s| - i
  {
    if i < |s| {
      RunLengthToEnd(s, i + 1, base);
    }
  }

  /**
   * `parsePosition`: no first value, or any value that does not parse, makes
   * both coordinates missing; a single value is the y coordinate of a
   * horizontally centred text. Either both come out missing or neither does.
   */
  function ParsePosition(str1: string, str2: string, x: int, y: int): (r: (int, int))
    ensures r.0 == TEXT_MISSING_VALUE <==> r.1 == TEXT_MISSING_VALUE
    ensures |str1| == 0 ==> r == (TEXT_MISSING_VALUE, TEXT_MISSING_VALUE)
    ensures |str1| > 0 && |str2| == 0 ==>
              r == (if ParseTextCoord(str1, y).0 then (TEXT_CENTER_VALUE, ParseTextCoord(str1, y).1)
                    else (TEXT_MISSING_VALUE, TEXT_MISSING_VALUE))
  {
    var missing := (TEXT_MISSING_VALUE, TEXT_MISSING_VALUE);
    if |str1| == 0 then missing
    else if |str2| == 0 then
      var py := ParseTextCoord(str1, y);
      if py.0 then (TEXT_CENTER_VALUE, py.1) else missing
    else
      var px := ParseTextCoord(str1, x);
      if !px.0 then missing
      else
        var py := ParseTextCoord(str2, y);
        if py.0 then (px.1, py.1) else missing
  }

  /** Two decimal coordinates are read back as given. */
  lemma DecimalPositionRoundTrip(a: int, b: int, x: int, y: int)
    requires IsInt32(a) && a != INT_MAX && a != INT_MIN
    requires IsInt32(b) && b != INT_MAX && b != INT_MIN
    ensures ParsePosition(IntToDec(a), IntToDec(b), x, y) == (a, b)
  {
    DecimalCoordRoundTrip(a, x);
    DecimalCoordRoundTrip(b, y);
  }

  // ------------------------------------------------------------ colours

  /** A C string read past its end yields the terminating NUL. */
  function CharAt(s: string, i: nat): char {
    if i < |s| then s[i] else '\0'
  }

  /** The six characters `parseColor` reads are all hex digits. */
  predicate ColorDigits(str: string) {
    forall k :: 0 <= k < 6 ==> IsHexDigit(CharAt(str, k))
  }

  /** The value of the two characters at `2 * i`, read as hex digits. */
  function PairValue(str: string, i: nat): int
    requires IsHexDigit(CharAt(str, 2 * i)) && IsHexDigit(CharAt(str, 2 * i + 1))
  {
    HexValue(CharAt(str, 2 * i)) * 16 + HexValue(CharAt(str, 2 * i + 1))
  }

  /** Component `i` (0 red, 1 green, 2 blue) as the two hex digits at `2 * i`. */
  function Component(str: string, i: nat): (v: int)
    requires i < 3 && ColorDigits(str)
    ensures 0 <= v <= 255
  {
    PairValue(str, i)
  }

  /** `parseColor`'s result: the three components, if the first six characters are hex digits. */
  function ColorOf(str: string): (r: Option<seq<int>>)
    ensures r.Some? <==> ColorDigits(str)
    ensures r.Some? ==> |r.value| == 3 && forall i :: 0 <= i < 3 ==> 0 <= r.value[i] <= 255
  {
    if ColorDigits(str) then Some([Component(str, 0), Component(str, 1), Component(str, 2)]) else None
  }

  /** Two hex digits of a byte, in upper or lower case. */
  function HexPair(b: int, upper: bool): (r: string)
    requires 0 <= b <= 255
    ensures |r| == 2 && IsHexDigit(r[0]) && IsHexDigit(r[1])
    ensures HexValue(r[0]) * 16 + HexValue(r[1]) == b
  {
    HexCharRoundTrip(b / 16, upper);
    HexCharRoundTrip(b % 16, upper);
    [HexChar(b / 16, upper), HexChar(b % 16, upper)]
  }

  /** Three pairs of hex digits side by side read back as the three pair values. */
  lemma ColorOfPairs(r: string, g: string, b: string, red: int, green: int, blue: int)
    requires |r| == 2 && |g| == 2 && |b| == 2
    requires IsHexDigit(r[0]) && IsHexDigit(r[1]) && IsHexDigit(g[0]) && IsHexDigit(g[1])
    requires IsHexDigit(b[0]) && IsHexDigit(b[1])
    requires HexValue(r[0]) * 16 + HexValue(r[1]) == red
    requires HexValue(g[0]) * 16 + HexValue(g[1]) == green
    requires HexValue(b[0]) * 16 + HexValue(b[1]) == blue
    ensures ColorOf(r + g + b) == Some([red, green, blue])
  {
    var s := r + g + b;
    assert |s| == 6;
    assert CharAt(s, 0) == r[0] && CharAt(s, 1) == r[1];
    assert CharAt(s, 2) == g[0] && CharAt(s, 3) == g[1];
    assert CharAt(s, 4) == b[0] && CharAt(s, 5) == b[1];
    assert ColorDigits(s) by {
      forall k | 0 <= k < 6
        ensures IsHexDigit(CharAt(s, k))
      {
        assert k == 0 || k == 1 || k == 2 || k == 3 || k == 4 || k == 5;
      }
    }
  }

  /** "RRGGBB" written with hex digits of either case reads back as the same components. */
  lemma ColorRoundTrip(red: int, green: int, blue: int, upper: bool)
    requires 0 <= red <= 255 && 0 <= green <= 255 && 0 <= blue <= 255
    ensures ColorOf(HexPair(red, upper) + HexPair(green, upper) + HexPair(blue, upper)) == Some([red, green, blue])
  {
    ColorOfPairs(HexPair(red, upper), HexPair(green, upper), HexPair(blue, upper), red, green, blue);
  }

  /** The value of hex digit `c`, as `parseColor` computes it, or none. */
  function ParseHexDigit(c: char): (r: Option<int>)
    ensures r.Some? <==> IsHexDigit(c)
    ensures r.Some? ==> r.value == HexValue(c)
  {
    if '0' <= c <= '9' then Some((c as int) - ('0' as int))
    else if 'A' <= c <= 'F' then Some((c as int) - ('A' as int) + 10)
    else if 'a' <= c <= 'f' then Some((c as int) - ('a' as int) + 10)
    else None
  }

  /**
   * `parseColor`: two hex digits per component; the components (the source
   * stores each divided by 255 as a float) are written only if all six digits
   * are valid, and a failure leaves them as they were.
   */
  method ParseColor(str: string, color: array<int>) returns (ok: bool)
    requires color.Length == 3
    modifies color
    ensures ok <==> ColorDigits(str)
    ensures ok ==> Some(color[..]) == ColorOf(str)
    ensures !ok ==> color[..] == old(color[..])
  {
    var tmpColor := new int[3];
    for i := 0 to 3
      invariant forall k :: 0 <= k < 2 * i ==> IsHexDigit(CharAt(str, k))
      invariant forall m :: 0 <= m < i ==> tmpColor[m] == PairValue(str, m)
      invariant color[..] == old(color[..])
    {
      var val := 0;
      for j := 0 to 2
        invariant forall k :: 0 <= k < 2 * i + j ==> IsHexDigit(CharAt(str, k))
        invariant j == 0 ==> val == 0
        invariant j == 1 ==> val == HexValue(CharAt(str, 2 * i))
        invariant j == 2 ==> val == PairValue(str, i)
      {
        val := val * 16;
        var digit := ParseHexDigit(CharAt(str, 2 * i + j));
        if digit.None? {
          return false;
        }
        val := val + digit.value;
      }
      tmpColor[i] := val;
    }
    color[0], color[1], color[2] := tmpColor[0], tmpColor[1], tmpColor[2];
    assert ColorDigits(str);
    assert color[..] == [Component(str, 0), Component(str, 1), Component(str, 2)];
    return true;
  }

  // ------------------------------------------------------------ volume keys

  // Key event values (`struct input_event.value`) and `bootVideoSetVolume` requests
  const UP: int := 0
  const DOWN: int := 1
  const REPEAT: int := 2
  const MUTE: int := 3

  const BOOT_VIDEO_VOL_MAX: int := 100
  const BOOT_VIDEO_VOL_MUTE: int := 101

  /**
   * `key_action_done`: a key counts once it is released after a press, or
   * while it auto-repeats, and only if the previous event was the same key.
   */
  function KeyActionDone(lastCode: int, lastValue: int, code: int, value: int): (r: int)
    ensures r == 0 || r == 1
    ensures r == 1 <==> lastCode == code && ((lastValue == DOWN && value == UP) || lastValue == REPEAT)
  {
    if lastCode == code then
      if lastValue == DOWN && value == UP then 1
      else if lastValue == REPEAT then 1
      else 0
    else 0
  }

  /** One entry of a `struct label` table (the table's `{NULL, -1}` end marker is its end). */
  datatype Label = Label(name: string, value: int)

  // Linux key codes
  const KEY_MUTE: int := 113
  const KEY_VOLUMEDOWN: int := 114
  const KEY_VOLUMEUP: int := 115

  const KEY_LABELS: seq<Label> := [Label("KEY_VOLUMEUP", KEY_VOLUMEUP), Label("KEY_VOLUMEDOWN", KEY_VOLUMEDOWN),
                                   Label("KEY_MUTE", KEY_MUTE)]
  const KEY_VALUE_LABELS: seq<Label> := [Label("UP", UP), Label("DOWN", DOWN), Label("REPEAT", REPEAT)]

  /**
   * `get_label`: the name of the first entry with `value`, or none (NULL)
   * when the scan reaches the end marker.
   */
  method GetLabel(labels: seq<Label>, value: int) returns (r: Option<string>)
    ensures r.None? <==> forall i :: 0 <= i < |labels| ==> labels[i].value != value
    ensures r.Some? ==> exists i :: 0 <= i < |labels| && labels[i].value == value && labels[i].name == r.value &&
                                    forall k :: 0 <= k < i ==> labels[k].value != value
  {
    var i := 0;
    while i < |labels| && value != labels[i].value
      invariant 0 <= i <= |labels|
      invariant forall k :: 0 <= k < i ==> labels[k].value != value
    {
      i := i + 1;
    }
    if i == |labels| {
      return None;
    }
    return Some(labels[i].name);
  }

  /** `getVol`: the stored volume without its thousands (the mute marker). */
  function StoredVol(sysProp: int): int {
    TruncRem(sysProp, 1000)
  }

  /** The boot-video volume state: `mVol`, `mMute` and the integer in `persist.sys.bootvideo`. */
  datatype Volume = Volume(vol: int, mute: bool, sysProp: int)

  /** `bootVideoSetVolume` on the state (the media player's float volume is not modelled). */
  function SetVolume(v: Volume, status: int): (r: Volume)
    ensures status == MUTE ==> r.mute == !v.mute
    ensures status == MUTE && !v.mute ==> r.vol == BOOT_VIDEO_VOL_MUTE && r.sysProp == v.vol + 1000
    ensures status == UP || status == DOWN ==> !r.mute
    ensures !r.mute ==> r.sysProp == r.vol
  {
    var base := if (status == UP || status == DOWN) && v.mute then Volume(StoredVol(v.sysProp), false, v.sysProp) else v;
    var next :=
      if status == UP then (if base.vol < BOOT_VIDEO_VOL_MAX then base.(vol := base.vol + 1) else base)
      else if status == DOWN then (if base.vol > 0 then base.(vol := base.vol - 1) else base)
      else if status == MUTE then
        (if !base.mute then Volume(BOOT_VIDEO_VOL_MUTE, true, base.vol + 1000)
         else Volume(StoredVol(base.sysProp), false, base.sysProp))
      else base;
    if !next.mute then next.(sysProp := next.vol) else next
  }

  /** Up and down move the unmuted volume by one step and keep it within 0..100. */
  lemma VolumeStepsStayInRange(v: Volume, status: int)
    requires status == UP || status == DOWN
    requires 0 <= (if v.mute then StoredVol(v.sysProp) else v.vol) <= BOOT_VIDEO_VOL_MAX
    ensures 0 <= SetVolume(v, status).vol <= BOOT_VIDEO_VOL_MAX
    ensures var before := if v.mute then StoredVol(v.sysProp) else v.vol;
            SetVolume(v, status).vol == if status == UP then Min(before + 1, BOOT_VIDEO_VOL_MAX) else Max(before - 1, 0)
  {
  }


  /** Muting and unmuting again restores the volume (anything below 1000). */
  lemma MuteUnmuteRestores(v: Volume)
    requires !v.mute && 0 <= v.vol < 1000
    ensures SetVolume(SetVolume(v, MUTE), MUTE) == Volume(v.vol, false, v.vol)
  {
    assert TruncDiv(v.vol + 1000, 1000) == 1;
  }

  /** The boot configuration decoded from the vendor and system properties. */
  datatype BootVideoConfig = BootVideoConfig(config: int, volume: Volume)

  /**
   * `threadLoop`'s property decoding, given a vendor value other than -1:
   * the thousands of the vendor value pick the configuration; without a stored
   * volume (-1) the vendor value's remainder is the volume and is stored; a
   * stored volume with thousands is muted.
   */
  function DecodeBootVideo(vendorProp: int, sysProp: int): (r: BootVideoConfig)
    ensures r.config == TruncDiv(vendorProp, 1000)
    ensures sysProp == -1 ==> r.volume == Volume(TruncRem(vendorProp, 1000), false, TruncRem(vendorProp, 1000))
    ensures sysProp != -1 ==> r.volume.sysProp == sysProp && (r.volume.mute <==> TruncDiv(sysProp, 1000) != 0)
    ensures sysProp != -1 && r.volume.mute ==> r.volume.vol == BOOT_VIDEO_VOL_MUTE
  {
    var config := TruncDiv(vendorProp, 1000);
    if sysProp == -1 then
      var vol := TruncRem(vendorProp, 1000);
      BootVideoConfig(config, Volume(vol, false, vol))
    else
      var mute := TruncDiv(sysProp, 1000) != 0;
      BootVideoConfig(config, Volume(if mute then BOOT_VIDEO_VOL_MUTE else TruncRem(sysProp, 1000), mute, sysProp))
  }

  /** What a volume key stores is what the next boot decodes: the same volume, or muted. */
  lemma VolumePersists(v: Volume, status: int, vendorProp: int)
    requires !v.mute && 0 <= v.vol <= BOOT_VIDEO_VOL_MAX
    requires status == UP || status == DOWN || status == MUTE
    ensures var after := SetVolume(v, status);
            DecodeBootVideo(vendorProp, after.sysProp).volume.mute == after.mute
    ensures var after := SetVolume(v, status);
            !after.mute ==> DecodeBootVideo(vendorProp, after.sysProp).volume.vol == after.vol
  {
    var after := SetVolume(v, status);
    if status == MUTE {
      assert TruncDiv(v.vol + 1000, 1000) == 1;
    } else {
      assert 0 <= after.vol <= BOOT_VIDEO_VOL_MAX;
      assert TruncDiv(after.vol, 1000) == 0;
    }
  }

  /** The volume part of the animation object. */
  class BootVideoVolume {
    var vol: int
    var mute: bool
    /** `persist.sys.bootvideo` as `property_get_int` reads it (-1 when unset). */
    var sysProp: int
    var config: int

    constructor(sysProp0: int)
      ensures vol == 0 && !mute && sysProp == sysProp0 && config == 0
    {
      vol := 0;
      mute := false;
      sysProp := sysProp0;
      config := 0;
    }

    function State(): Volume
      reads this
    {
      Volume(vol, mute, sysProp)
    }

    /** `bootVideoSetVolume`. */
    method BootVideoSetVolume(status: int)
      modifies this`vol, this`mute, this`sysProp
      ensures State() == SetVolume(old(State()), status)
    {
      if status == UP || status == DOWN {
        if mute {
          vol := StoredVol(sysProp);
          mute := false;
        }
      }
      if status == UP {
        if vol < BOOT_VIDEO_VOL_MAX {
          vol := vol + 1;
        }
      } else if status == DOWN {
        if vol > 0 {
          vol := vol - 1;
        }
      } else if status == MUTE {
        mute := !mute;
        if mute {
          sysProp := vol + 1000;
          vol := BOOT_VIDEO_VOL_MUTE;
        } else {
          vol := StoredVol(sysProp);
        }
      }
      if !mute {
        sysProp := vol;
      }
    }

    /** `threadLoop`'s decoding of the properties, for a vendor value other than -1. */
    method LoadBootVideoConfig(vendorProp: int)
      modifies this`vol, this`mute, this`sysProp, this`config
      ensures BootVideoConfig(config, State()) == DecodeBootVideo(vendorProp, old(sysProp))
    {
      config := TruncDiv(vendorProp, 1000);
      var volProp := sysProp;
      if volProp == -1 {
        mute := false;
        vol := TruncRem(vendorProp, 1000);
        sysProp := vol;
      } else {
        mute := TruncDiv(volProp, 1000) != 0;
        if mute {
          vol := BOOT_VIDEO_VOL_MUTE;
        } else {
          vol := TruncRem(volProp, 1000);
        }
      }
    }
  }

  // ------------------------------------------------------------ input devices

  /** The first index at or after `from` below `n` whose name is `device`. */
  function FirstMatch(names: seq<string>, device: string, from: nat, n: nat): (r: Option<nat>)
    requires n <= |names|
    ensures r.Some? ==> from <= r.value < n && names[r.value] == device &&
                        forall k :: from <= k < r.value ==> names[k] != device
    ensures r.None? ==> forall k :: from <= k < n ==> names[k] != device
    decreases n - from
  {
    if from >= n then None
    else if names[from] == device then Some(from)
    else FirstMatch(names, device, from + 1, n)
  }

  /**
   * The input reader's device table: `device_names` and `ufds` (one poll
   * descriptor per device, entry 0 the inotify watch), of which the first
   * `nfds` entries are live.
   */
  class InputReader {
    var deviceNames: array<string>
    var pollFds: array<int>
    var nfds: nat

    predicate Valid()
      reads this
    {
      nfds <= deviceNames.Length && nfds <= pollFds.Length
    }

    /**
     * `close_device`: removes the first entry at index 1 or later named
     * `device`, moving the later live entries down by one; -1 if there is
     * none. Entry 0 is never removed.
     */
    method CloseDevice(device: string) returns (r: int)
      requires Valid()
      modifies deviceNames, pollFds, this`nfds
      ensures Valid()
      ensures var m := FirstMatch(old(deviceNames[..]), device, 1, old(nfds));
              && (r == -1 <==> m.None?)
              && (m.None? ==> nfds == old(nfds) && deviceNames[..] == old(deviceNames[..]) && pollFds[..] == old(pollFds[..]))
              && (m.Some? ==>
                    && r == 0 && nfds == old(nfds) - 1
                    && deviceNames[..] == old(deviceNames[..m.value]) + old(deviceNames[m.value + 1..nfds])
                                          + old(deviceNames[nfds - 1..])
                    && pollFds[..] == old(pollFds[..m.value]) + old(pollFds[m.value + 1..nfds]) + old(pollFds[nfds - 1..]))
    {
      var i := 1;
      while i < nfds
        invariant 1 <= i
        invariant i <= nfds || nfds == 0
        invariant FirstMatch(deviceNames[..], device, 1, nfds) == FirstMatch(deviceNames[..], device, i, nfds)
      {
        if deviceNames[i] == device {
          var count := nfds - i - 1;
          ShiftDown(deviceNames, i, count);
          ShiftDown(pollFds, i, count);
          nfds := nfds - 1;
          return 0;
        }
        i := i + 1;
      }
      return -1;
    }
  }

  /** `memmove(a + i, a + i + 1, count)`: moves `count` entries down by one over entry `i`. */
  method ShiftDown<T>(a: array<T>, i: nat, count: nat)
    requires i + count + 1 <= a.Length
    modifies a
    ensures a[..] == old(a[..i]) + old(a[i + 1..i + count + 1]) + old(a[i + count..])
  {
    var k := 0;
    while k < count
      invariant 0 <= k <= count
      invariant a[..i] == old(a[..i])
      invariant a[i..i + k] == old(a[i + 1..i + k + 1])
      invariant a[i + k..] == old(a[i + k..])
    {
      a[i + k] := a[i + k + 1];
      k := k + 1;
    }
  }

  // ------------------------------------------------------------ textures

  predicate IsPowerOfTwo(n: int)
    decreases if n > 0 then n else 0
  {
    n == 1 || (n > 1 && n % 2 == 0 && IsPowerOfTwo(n / 2))
  }

  /** `1 << (31 - __builtin_clz(w))`: the largest power of two not above `w`. */
  function FloorPowerOfTwo(w: int): (p: int)
    requires w >= 1
    ensures IsPowerOfTwo(p) && p <= w < 2 * p
  {
    if w == 1 then 1 else 2 * FloorPowerOfTwo(w / 2)
  }

  /**
   * `initTexture`'s texture side for a positive image side `w`: the largest
   * power of two not above `w`, doubled if it is below `w`. The doubling of
   * a value above 2^30 overflows the `int`.
   */
  function TextureSize(w: int): (t: int)
    requires 1 <= w <= INT_MAX
  {
    var p := FloorPowerOfTwo(w);
    if p < w then Wrap32(p * 2) else p
  }

  lemma {:induction false} PowersOfTwoDouble(p: int, q: int)
    requires IsPowerOfTwo(p) && IsPowerOfTwo(q) && p < q
    ensures 2 * p <= q
    decreases q
  {
    if p > 1 {
      PowersOfTwoDouble(p / 2, q / 2);
    }
  }

  /** Up to 2^30 the texture side is the smallest power of two at least `w`. */
  lemma TextureSizeIsCeilingPowerOfTwo(w: int, q: int)
    requires 1 <= w <= 0x4000_0000
    ensures IsPowerOfTwo(TextureSize(w)) && w <= TextureSize(w)
    ensures IsPowerOfTwo(q) && w <= q ==> TextureSize(w) <= q
  {
    var p := FloorPowerOfTwo(w);
    if p < w {
      assert IsPowerOfTwo(2 * p) by {
        assert (2 * p) / 2 == p;
      }
      if IsPowerOfTwo(q) && w <= q {
        PowersOfTwoDouble(p, q);
      }
    }
  }

  // ------------------------------------------------------------ clock font

  type Byte = b: int | 0 <= b < 256

  const FONT_BEGIN_CHAR: int := 32
  /** One past '~': the source's range check lets DEL (127) through as the last glyph. */
  const FONT_END_CHAR: int := 127
  const FONT_NUM_COLS: int := 16
  const FONT_NUM_ROWS: int := (FONT_END_CHAR - FONT_BEGIN_CHAR + 1) / FONT_NUM_COLS

  /** `drawText`'s glyph cell: characters outside the font become '?'. */
  function GlyphCell(c: Byte): (r: (int, int))
    ensures 0 <= r.0 < FONT_NUM_ROWS && 0 <= r.1 < FONT_NUM_COLS
    ensures FONT_BEGIN_CHAR <= c <= FONT_END_CHAR ==> r.0 * FONT_NUM_COLS + r.1 == c - FONT_BEGIN_CHAR
    ensures !(FONT_BEGIN_CHAR <= c <= FONT_END_CHAR) ==> r == (1, 15)  // the cell of '?'
  {
    var ch := if c < FONT_BEGIN_CHAR || c > FONT_END_CHAR then '?' as int else c;
    var charPos := ch - FONT_BEGIN_CHAR;
    (charPos / FONT_NUM_COLS, charPos % FONT_NUM_COLS)
  }

  /** The crop rectangle's left and top edge for a glyph; bold glyphs are the lower half of a cell row. */
  function GlyphOrigin(c: Byte, charWidth: int, charHeight: int, bold: bool): (int, int) {
    var cell := GlyphCell(c);
    (cell.1 * charWidth, cell.0 * charHeight * 2 + (if bold then 2 * charHeight else charHeight))
  }

  /** One `glDrawTexiOES` call: the glyph's crop origin and the screen position. */
  datatype Draw = Draw(cropLeft: int, cropTop: int, x: int, y: int)

  /**
   * `drawText`'s glyph loop: glyph `i` is drawn `i` character widths to the
   * right of the start; returns the draws and the final x.
   */
  method DrawGlyphs(str: seq<Byte>, x: int, y: int, charWidth: int, charHeight: int, bold: bool)
    returns (draws: seq<Draw>, xEnd: int)
    ensures |draws| == |str| && xEnd == x + |str| * charWidth
    ensures forall i :: 0 <= i < |str| ==>
              draws[i] == Draw(GlyphOrigin(str[i], charWidth, charHeight, bold).0,
                               GlyphOrigin(str[i], charWidth, charHeight, bold).1, x + i * charWidth, y)
  {
    draws := [];
    xEnd := x;
    for i := 0 to |str|
      invariant |draws| == i && xEnd == x + i * charWidth
      invariant forall k :: 0 <= k < i ==>
                  draws[k] == Draw(GlyphOrigin(str[k], charWidth, charHeight, bold).0,
                                   GlyphOrigin(str[k], charWidth, charHeight, bold).1, x + k * charWidth, y)
    {
      var origin := GlyphOrigin(str[i], charWidth, charHeight, bold);
      draws := draws + [Draw(origin.0, origin.1, xEnd, y)];
      xEnd := xEnd + charWidth;
    }
  }


  /**
   * `drawText`'s placement along one axis of a text `extent` pixels long on a
   * `screen` pixels wide: centred (C division), `-k` ends `k` pixels before
   * the far edge, anything else is taken as it is.
   */
  function TextStart(coord: int, screen: int, extent: int): (r: int)
    ensures coord == TEXT_CENTER_VALUE ==> -1 <= (screen - extent - r) - r <= 1
    ensures coord < 0 ==> r + extent == screen + coord
    ensures 0 <= coord < TEXT_CENTER_VALUE ==> r == coord
  {
    if coord == TEXT_CENTER_VALUE then TruncDiv(screen - extent, 2)
    else if coord < 0 then screen + coord - extent
    else coord
  }

  /**
   * `drawText`: places the text on the screen, then draws it glyph by glyph.
   * Returns the draws and the new `*x` and `*y` (x is past the last glyph).
   */
  method DrawText(str: seq<Byte>, x: int, y: int, screenWidth: int, screenHeight: int,
                  charWidth: int, charHeight: int, bold: bool)
    returns (draws: seq<Draw>, xOut: int, yOut: int)
    ensures |draws| == |str|
    ensures yOut == TextStart(y, screenHeight, charHeight)
    ensures xOut == TextStart(x, screenWidth, charWidth * |str|) + |str| * charWidth
    ensures forall i :: 0 <= i < |str| ==>
              draws[i] == Draw(GlyphOrigin(str[i], charWidth, charHeight, bold).0,
                               GlyphOrigin(str[i], charWidth, charHeight, bold).1,
                               TextStart(x, screenWidth, charWidth * |str|) + i * charWidth, yOut)
  {
    var strWidth := charWidth * |str|;
    var x0 := TextStart(x, screenWidth, strWidth);
    yOut := TextStart(y, screenHeight, charHeight);
    draws, xOut := DrawGlyphs(str, x0, yOut, charWidth, charHeight, bold);
  }
}
