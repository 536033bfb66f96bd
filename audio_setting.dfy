/**
 * Rockchip's audio-output setting (`android.media.AudioSetting`): which output
 * carries compressed audio (HDMI, S/PDIF or none), whether the box decodes it
 * itself (Decode), passes through every format the sink reports (Auto) or a
 * user-chosen list (Manual), and the text forms in which these choices are kept
 * in Settings.Global and in the `persist.system.audio.setting` property.
 *
 * `AudioSystem` and `AudioFormat` are not part of this model; the device bits
 * and encodings they define are restated as constants.
 */
module AudioSetting {
  import opened Wrappers
  import opened Strings

  // Output devices
  const DEVICE_NONE: int := 0
  const DEVICE_OUT_HDMI: int := 0x400
  const DEVICE_OUT_SPDIF: int := 0x80000

  // Encodings
  const ENCODING_AC3: int := 5
  const ENCODING_E_AC3: int := 6
  const ENCODING_DTS: int := 7
  const ENCODING_DTS_HD: int := 8
  const ENCODING_DOLBY_TRUEHD: int := 14
  const ENCODING_AC4: int := 17
  const ENCODING_E_AC3_JOC: int := 18

  // Modes
  const MODE_DECODE: int := 0
  const MODE_BITSTREAM_AUTO: int := 1
  const MODE_BITSTREAM_MANUAL: int := 2

  const DEVICES_PREF: string := "Device:"
  const MODES_PREF: string := "Mode:"
  const FORMATS_PREF: string := "Format:"
  const SEPARATOR: char := ';'
  const SUPPORT_BITSTREAM_FORMAT: string := "sup_bitstream_formats"

  /**
   * The keys of both format maps, in the order a `java.util.HashMap` of the
   * default capacity 16 visits them: by bucket `key & 15`, so AC4 (17) and
   * E-AC3-JOC (18) come before AC3 (5). Both maps have the same keys and so
   * the same order; entry `k` of each map is `FORMATS[k]` with the name at
   * index `k` of `HAL_NAMES` or `SETTING_NAMES`.
   */
  const FORMATS: seq<int> := [ENCODING_AC4, ENCODING_E_AC3_JOC, ENCODING_AC3, ENCODING_E_AC3,
                              ENCODING_DTS, ENCODING_DTS_HD, ENCODING_DOLBY_TRUEHD]
  /** The names the audio HAL reports (`BITSTREAM_FORMAT_MAP`). */
  const HAL_NAMES: seq<string> := ["AUDIO_FORMAT_AC4", "AUDIO_FORMAT_E_AC3_JOC", "AUDIO_FORMAT_AC3",
                                   "AUDIO_FORMAT_E_AC3", "AUDIO_FORMAT_DTS", "AUDIO_FORMAT_DTS_HD",
                                   "AUDIO_FORMAT_DOLBY_TRUEHD"]
  /** The names written to the settings (`BITSTREAM_SETTING_MAP`). */
  const SETTING_NAMES: seq<string> := ["AC4", "EAC3-JOC", "AC3", "EAC3", "DTS", "DTS-HD", "TrueHD"]

  lemma FormatsDistinct()
    ensures forall a, b :: 0 <= a < b < |FORMATS| ==> FORMATS[a] != FORMATS[b]
  {
  }

  lemma SettingNamesDistinct()
    ensures forall a, b :: 0 <= a < b < |SETTING_NAMES| ==> SETTING_NAMES[a] != SETTING_NAMES[b]
  {
  }

  predicate NoDup(s: seq<int>) {
    forall i, j :: 0 <= i < j < |s| ==> s[i] != s[j]
  }

  // ------------------------------------------------------------ device and mode text

  /** The device word of `translateAudioSettingString`: anything but HDMI or S/PDIF is written as none. */
  function DeviceName(device: int): string {
    if device == DEVICE_OUT_HDMI then "HDMI"
    else if device == DEVICE_OUT_SPDIF then "SPDIF"
    else "NONE"
  }

  /** The mode word: anything but Auto or Manual is written as Decode. */
  function ModeName(mode: int): string {
    if mode == MODE_BITSTREAM_AUTO then "Auto"
    else if mode == MODE_BITSTREAM_MANUAL then "Manual"
    else "Decode"
  }

  /** Neither field of the setting text holds the ';' that separates them. */
  lemma FieldsHaveNoSeparator(device: int, mode: int)
    ensures SEPARATOR !in DEVICES_PREF + DeviceName(device)
    ensures SEPARATOR !in MODES_PREF + ModeName(mode)
    ensures Split(DEVICES_PREF + DeviceName(device), SEPARATOR) == [DEVICES_PREF + DeviceName(device)]
  {
    assert SEPARATOR !in DEVICES_PREF && SEPARATOR !in MODES_PREF;
    assert SEPARATOR !in DeviceName(device) by {
      if device == DEVICE_OUT_HDMI {
        assert DeviceName(device) == "HDMI";
      } else if device == DEVICE_OUT_SPDIF {
        assert DeviceName(device) == "SPDIF";
      } else {
        assert DeviceName(device) == "NONE";
      }
    }
    assert SEPARATOR !in ModeName(mode) by {
      if mode == MODE_BITSTREAM_AUTO {
        assert ModeName(mode) == "Auto";
      } else if mode == MODE_BITSTREAM_MANUAL {
        assert ModeName(mode) == "Manual";
      } else {
        assert ModeName(mode) == "Decode";
      }
    }
  }

  /** `translateAudioSettingString`: a device field and a mode field, separated by ';'. */
  function SettingString(device: int, mode: int): (r: string)
    ensures Split(r, SEPARATOR) == [DEVICES_PREF + DeviceName(device), MODES_PREF + ModeName(mode)]
  {
    var devicePart := DEVICES_PREF + DeviceName(device);
    var modePart := MODES_PREF + ModeName(mode);
    FieldsHaveNoSeparator(device, mode);
    SplitSnoc(devicePart, SEPARATOR, modePart);
    devicePart + [SEPARATOR] + modePart
  }

  /** `parseDevice` on a "Device:" field: HDMI if it mentions HDMI, else S/PDIF if it mentions that, else none. */
  function DeviceOf(field: string): int {
    if Contains(field, "HDMI") then DEVICE_OUT_HDMI
    else if Contains(field, "SPDIF") then DEVICE_OUT_SPDIF
    else DEVICE_NONE
  }

  /** `parseMode` on a "Mode:" field: Auto if it mentions Auto, else Manual if it mentions that, else Decode. */
  function ModeOf(field: string): int {
    if Contains(field, "Auto") then MODE_BITSTREAM_AUTO
    else if Contains(field, "Manual") then MODE_BITSTREAM_MANUAL
    else MODE_DECODE
  }

  /** One iteration of `parseSetting`'s loop, on a (device, mode) pair. */
  function ParseStep(field: string, dm: (int, int)): (int, int) {
    if StartsWith(field, DEVICES_PREF) then (DeviceOf(field), dm.1)
    else if StartsWith(field, MODES_PREF) then (dm.0, ModeOf(field))
    else dm
  }

  /** The device and mode after `parseSetting` has visited `fields` in order, starting from `dm`. */
  function ParseFields(fields: seq<string>, dm: (int, int)): (int, int) {
    if fields == [] then dm
    else ParseStep(fields[|fields| - 1], ParseFields(fields[..|fields| - 1], dm))
  }

  /** `parseSetting`: a missing setting leaves `dm` as it is. */
  function ParsedSetting(value: Option<string>, dm: (int, int)): (int, int) {
    if value.Some? then ParseFields(Split(value.value, SEPARATOR), dm) else dm
  }

  function NormalDevice(device: int): int {
    if device == DEVICE_OUT_HDMI || device == DEVICE_OUT_SPDIF then device else DEVICE_NONE
  }

  function NormalMode(mode: int): int {
    if mode == MODE_BITSTREAM_AUTO || mode == MODE_BITSTREAM_MANUAL then mode else MODE_DECODE
  }

  lemma DeviceFieldParses(device: int)
    ensures StartsWith(DEVICES_PREF + DeviceName(device), DEVICES_PREF)
    ensures DeviceOf(DEVICES_PREF + DeviceName(device)) == NormalDevice(device)
  {
    var field := DEVICES_PREF + DeviceName(device);
    assert field[..|DEVICES_PREF|] == DEVICES_PREF;
    if device == DEVICE_OUT_HDMI {
      ContainsSuffix(DEVICES_PREF, "HDMI");
    } else if device == DEVICE_OUT_SPDIF {
      MissingCharNotContained(field, "HDMI", 0);
      ContainsSuffix(DEVICES_PREF, "SPDIF");
    } else {
      MissingCharNotContained(field, "HDMI", 0);
      MissingCharNotContained(field, "SPDIF", 0);
    }
  }

  lemma ModeFieldParses(mode: int)
    ensures !StartsWith(MODES_PREF + ModeName(mode), DEVICES_PREF)
    ensures StartsWith(MODES_PREF + ModeName(mode), MODES_PREF)
    ensures ModeOf(MODES_PREF + ModeName(mode)) == NormalMode(mode)
  {
    var field := MODES_PREF + ModeName(mode);
    NotStartsWith(field, DEVICES_PREF, 0);
    assert field[..|MODES_PREF|] == MODES_PREF;
    if mode == MODE_BITSTREAM_AUTO {
      ContainsSuffix(MODES_PREF, "Auto");
    } else if mode == MODE_BITSTREAM_MANUAL {
      MissingCharNotContained(field, "Auto", 0);
      ContainsSuffix(MODES_PREF, "Manual");
    } else {
      MissingCharNotContained(field, "Auto", 0);
      MissingCharNotContained(field, "Manual", 1);
    }
  }

  /**
   * `parseSetting` undoes `translateAudioSettingString`: whatever the state
   * before, it ends with the written device and mode (devices other than HDMI
   * and S/PDIF read back as none, modes other than Auto and Manual as Decode).
   */
  lemma SettingRoundTrip(device: int, mode: int, dm: (int, int))
    ensures ParsedSetting(Some(SettingString(device, mode)), dm) == (NormalDevice(device), NormalMode(mode))
  {
    var fields := Split(SettingString(device, mode), SEPARATOR);
    DeviceFieldParses(device);
    ModeFieldParses(mode);
    assert fields[..1] == [fields[0]];
    assert [fields[0]][..0] == [];
    var afterDevice := ParseFields([fields[0]], dm);
    assert ParseFields([fields[0]][..0], dm) == dm;
    assert afterDevice == ParseStep(fields[0], dm);
    assert afterDevice == (NormalDevice(device), dm.1);
    assert ParseFields(fields, dm) == ParseStep(fields[1], afterDevice);
  }

  // ------------------------------------------------------------ format lists

  /** `translateFormatsString`'s loop over the first `k` entries: the setting names of the enabled formats. */
  function EnabledNames(support: seq<int>, k: nat): (r: seq<string>)
    requires k <= |FORMATS|
    ensures forall n :: 0 <= n < |r| ==> ' ' !in r[n]
  {
    if k == 0 then []
    else EnabledNames(support, k - 1) + (if FORMATS[k - 1] in support then [SETTING_NAMES[k - 1]] else [])
  }

  /** One more key adds its name when the format is enabled. */
  lemma EnabledNamesStep(support: seq<int>, k: nat)
    requires k < |FORMATS|
    ensures EnabledNames(support, k + 1) ==
      EnabledNames(support, k) + (if FORMATS[k] in support then [SETTING_NAMES[k]] else [])
  {
  }

  /** The formats among the first `k` keys that `support` holds, in map order. */
  function EnabledFormats(support: seq<int>, k: nat): (r: seq<int>)
    requires k <= |FORMATS|
    ensures forall f :: f in r <==> f in support && f in FORMATS[..k]
    ensures NoDup(r)
  {
    if k == 0 then []
    else
      var prev := EnabledFormats(support, k - 1);
      FormatsDistinct();
      assert FORMATS[..k] == FORMATS[..k - 1] + [FORMATS[k - 1]];
      prev + (if FORMATS[k - 1] in support then [FORMATS[k - 1]] else [])
  }

  /** `parseFormat`'s inner loop over the first `k` entries: the formats whose setting name is `token`. */
  function Matching(token: string, k: nat): (r: seq<int>)
    requires k <= |FORMATS|
    ensures forall f :: f in r ==> f in FORMATS
  {
    if k == 0 then []
    else Matching(token, k - 1) + (if SETTING_NAMES[k - 1] == token then [FORMATS[k - 1]] else [])
  }

  /** Setting names are distinct, so each one matches exactly its own format. */
  lemma {:induction false} MatchingName(j: nat, k: nat)
    requires j < |FORMATS| && k <= |FORMATS|
    ensures Matching(SETTING_NAMES[j], k) == if j < k then [FORMATS[j]] else []
  {
    if k > 0 {
      MatchingName(j, k - 1);
      SettingNamesDistinct();
    }
  }

  lemma {:induction false} MatchingNone(token: string, k: nat)
    requires k <= |FORMATS|
    requires forall j :: 0 <= j < |SETTING_NAMES| ==> SETTING_NAMES[j] != token
    ensures Matching(token, k) == []
  {
    if k > 0 {
      MatchingNone(token, k - 1);
    }
  }

  /** `parseFormat`'s inner loop: appends, in map order, each format whose setting name is `token`. */
  method AppendMatching(list: seq<int>, token: string) returns (r: seq<int>)
    ensures r == list + Matching(token, |FORMATS|)
  {
    r := list;
    var k := 0;
    while k < |FORMATS|
      invariant 0 <= k <= |FORMATS|
      invariant r == list + Matching(token, k)
    {
      if token == SETTING_NAMES[k] {
        AppendAssoc(list, Matching(token, k), [FORMATS[k]]);
        r := r + [FORMATS[k]];
      }
      k := k + 1;
    }
  }

  /** What `parseFormat`'s outer loop adds for `tokens`: the match of each token, in token order. */
  function TokenFormats(tokens: seq<string>): (r: seq<int>)
    ensures forall f :: f in r ==> f in FORMATS
  {
    if tokens == [] then []
    else TokenFormats(tokens[..|tokens| - 1]) + Matching(tokens[|tokens| - 1], |FORMATS|)
  }

  /** One more token adds its matches at the end. */
  lemma TokenFormatsStep(tokens: seq<string>, i: nat)
    requires i < |tokens|
    ensures TokenFormats(tokens[..i + 1]) == TokenFormats(tokens[..i]) + Matching(tokens[i], |FORMATS|)
  {
    assert tokens[..i + 1][..i] == tokens[..i];
  }

  /** `translateFormatsString`: "Format:" and the enabled setting names, separated by single spaces. */
  function FormatsString(support: seq<int>): string {
    FORMATS_PREF + Join(EnabledNames(support, |FORMATS|), ' ')
  }

  /** What `parseFormat` adds for a value carrying the "Format:" prefix. */
  function ParsedFormats(value: string): seq<int>
    requires StartsWith(value, FORMATS_PREF)
  {
    TokenFormats(Split(value[|FORMATS_PREF|..], ' '))
  }

  lemma {:induction false} NamesToFormats(support: seq<int>, k: nat)
    requires k <= |FORMATS|
    ensures TokenFormats(EnabledNames(support, k)) == EnabledFormats(support, k)
  {
    if k > 0 {
      NamesToFormats(support, k - 1);
      if FORMATS[k - 1] in support {
        var names := EnabledNames(support, k - 1);
        assert EnabledNames(support, k) == names + [SETTING_NAMES[k - 1]];
        assert (names + [SETTING_NAMES[k - 1]])[..|names|] == names;
        MatchingName(k - 1, |FORMATS|);
        assert TokenFormats(names + [SETTING_NAMES[k - 1]]) == TokenFormats(names) + [FORMATS[k - 1]];
      } else {
        assert EnabledNames(support, k) == EnabledNames(support, k - 1);
        assert EnabledFormats(support, k) == EnabledFormats(support, k - 1);
      }
    }
  }

  /** The names `translateFormatsString` writes are the tokens `parseFormat` reads. */
  lemma FormatsStringTokens(support: seq<int>)
    ensures StartsWith(FormatsString(support), FORMATS_PREF)
    ensures ParsedFormats(FormatsString(support)) == TokenFormats(EnabledNames(support, |FORMATS|))
  {
    var names := EnabledNames(support, |FORMATS|);
    var s := FormatsString(support);
    assert s[..|FORMATS_PREF|] == FORMATS_PREF;
    assert s[|FORMATS_PREF|..] == Join(names, ' ');
    if names == [] {
      MatchingNone("", |FORMATS|);
      assert [""][..0] == [];
    } else {
      SplitJoin(names, ' ');
    }
  }

  /**
   * `parseFormat` undoes `translateFormatsString`: the list read back holds the
   * listed formats that were enabled, each once, in map order; for a list of
   * listed formats that is the same set.
   */
  lemma FormatsRoundTrip(support: seq<int>)
    ensures StartsWith(FormatsString(support), FORMATS_PREF)
    ensures ParsedFormats(FormatsString(support)) == EnabledFormats(support, |FORMATS|)
    ensures NoDup(ParsedFormats(FormatsString(support)))
    ensures (forall f :: f in support ==> f in FORMATS) ==>
              forall f :: f in ParsedFormats(FormatsString(support)) <==> f in support
  {
    FormatsStringTokens(support);
    NamesToFormats(support, |FORMATS|);
    assert FORMATS[..|FORMATS|] == FORMATS;
  }

  /** `getSupportBitstream`'s loop over the first `k` entries: the formats whose HAL name occurs in `reply`. */
  function ContainedFormats(reply: string, k: nat): (r: seq<int>)
    requires k <= |FORMATS|
    ensures forall j :: 0 <= j < k ==> (FORMATS[j] in r <==> Contains(reply, HAL_NAMES[j]))
    ensures forall f :: f in r ==> f in FORMATS[..k]
    ensures NoDup(r)
  {
    if k == 0 then []
    else
      var prev := ContainedFormats(reply, k - 1);
      FormatsDistinct();
      assert FORMATS[..k] == FORMATS[..k - 1] + [FORMATS[k - 1]];
      assert FORMATS[k - 1] !in FORMATS[..k - 1];
      prev + (if Contains(reply, HAL_NAMES[k - 1]) then [FORMATS[k - 1]] else [])
  }

  /** One more key adds its format when the reply names it. */
  lemma ContainedFormatsStep(reply: string, k: nat)
    requires k < |FORMATS|
    ensures ContainedFormats(reply, k + 1) ==
      ContainedFormats(reply, k) + (if Contains(reply, HAL_NAMES[k]) then [FORMATS[k]] else [])
  {
  }

  /**
   * Membership is by substring: a reply naming DTS-HD also enables DTS, and
   * one naming E-AC3-JOC also enables E-AC3.
   */
  lemma ReportedPrefixesEnabled(reply: string)
    ensures Contains(reply, "AUDIO_FORMAT_DTS_HD") ==> ENCODING_DTS in ContainedFormats(reply, |FORMATS|)
    ensures Contains(reply, "AUDIO_FORMAT_E_AC3_JOC") ==> ENCODING_E_AC3 in ContainedFormats(reply, |FORMATS|)
  {
    assert HAL_NAMES[4] == "AUDIO_FORMAT_DTS" && HAL_NAMES[5] == "AUDIO_FORMAT_DTS_HD";
    assert HAL_NAMES[3] == "AUDIO_FORMAT_E_AC3" && HAL_NAMES[1] == "AUDIO_FORMAT_E_AC3_JOC";
    assert FORMATS[4] == ENCODING_DTS && FORMATS[3] == ENCODING_E_AC3;
    if Contains(reply, "AUDIO_FORMAT_DTS_HD") {
      assert "AUDIO_FORMAT_DTS_HD"[..16] == "AUDIO_FORMAT_DTS";
      ContainsPrefix(reply, "AUDIO_FORMAT_DTS_HD", "AUDIO_FORMAT_DTS");
    }
    if Contains(reply, "AUDIO_FORMAT_E_AC3_JOC") {
      assert "AUDIO_FORMAT_E_AC3_JOC"[..18] == "AUDIO_FORMAT_E_AC3";
      ContainsPrefix(reply, "AUDIO_FORMAT_E_AC3_JOC", "AUDIO_FORMAT_E_AC3");
    }
  }

  lemma ReportedFormatsValid(reply: string)
    ensures forall f :: f in ContainedFormats(reply, |FORMATS|) ==> f in FORMATS
  {
    assert FORMATS[..|FORMATS|] == FORMATS;
  }

  /** `List.remove(Integer)`: drops the first occurrence of `x`, if there is one. */
  function RemoveFirst(s: seq<int>, x: int): (r: seq<int>)
    ensures multiset(r) == multiset(s) - multiset{x}
    ensures x !in s ==> r == s
  {
    if s == [] then []
    else
      assert s == [s[0]] + s[1..];
      if s[0] == x then s[1..] else [s[0]] + RemoveFirst(s[1..], x)
  }

  /** Removing one occurrence adds nothing and keeps every other value. */
  lemma RemoveFirstMembers(s: seq<int>, x: int)
    ensures forall g :: g in RemoveFirst(s, x) ==> g in s
    ensures forall g :: g != x ==> (g in RemoveFirst(s, x) <==> g in s)
  {
    var r := RemoveFirst(s, x);
    forall g
      ensures g in r ==> g in s
      ensures g != x ==> (g in r <==> g in s)
    {
      assert multiset(r)[g] <= multiset(s)[g];
      if g != x {
        assert multiset(r)[g] == multiset(s)[g];
      }
    }
  }

  /** Without duplicates, removing the first occurrence removes the format altogether. */
  lemma {:induction false} RemoveFirstNoDup(s: seq<int>, x: int)
    requires NoDup(s)
    ensures NoDup(RemoveFirst(s, x)) && x !in RemoveFirst(s, x)
  {
    if s != [] {
      assert s == [s[0]] + s[1..];
      RemoveFirstNoDup(s[1..], x);
      if s[0] != x {
        var rest := RemoveFirst(s[1..], x);
        assert s[0] !in s[1..];
        assert multiset(rest)[s[0]] <= multiset(s[1..])[s[0]];
      }
    }
  }

  /**
   * The list edit of `setFormats`: enabling adds a format that is missing,
   * disabling removes its first occurrence. No other format changes, enabling
   * never duplicates, and on a list without duplicates disabling removes the
   * format altogether.
   */
  function Toggle(support: seq<int>, format: int, enable: bool): (r: seq<int>)
    ensures forall g :: g != format ==> (g in r <==> g in support)
    ensures enable ==> format in r
    ensures !enable && NoDup(support) ==> format !in r
    ensures NoDup(support) ==> NoDup(r)
    ensures format in FORMATS && (forall f :: f in support ==> f in FORMATS) ==> forall f :: f in r ==> f in FORMATS
  {
    if enable then
      if format in support then support else support + [format]
    else
      RemoveFirstMembers(support, format);
      if NoDup(support) then RemoveFirstNoDup(support, format); RemoveFirst(support, format)
      else RemoveFirst(support, format)
  }

  // ------------------------------------------------------------ Settings.Global

  /** The Settings.Global keys the class uses. */
  datatype GlobalKey = RkAudioSettings | RkBitstreamHdmiSupFormats | RkBitstreamSpdifSupFormats

  /** `Settings.Global.getString`: no entry reads as null. */
  function Lookup(store: map<GlobalKey, string>, key: GlobalKey): Option<string> {
    if key in store then Some(store[key]) else None
  }

  /** The Manual format list of `device`: HDMI and S/PDIF keep one each, other devices none. */
  function FormatsSetting(store: map<GlobalKey, string>, device: int): Option<string> {
    if device == DEVICE_OUT_HDMI then Lookup(store, RkBitstreamHdmiSupFormats)
    else if device == DEVICE_OUT_SPDIF then Lookup(store, RkBitstreamSpdifSupFormats)
    else None
  }

  /** `setFormats`' write-back: the list goes to the entry of the current device, if it has one. */
  function StoreFormats(store: map<GlobalKey, string>, device: int, value: string): map<GlobalKey, string> {
    if device == DEVICE_OUT_HDMI then store[RkBitstreamHdmiSupFormats := value]
    else if device == DEVICE_OUT_SPDIF then store[RkBitstreamSpdifSupFormats := value]
    else store
  }

  /** `parserSupportFormat` on a cleared list: a value without the "Format:" prefix, or none, leaves it empty. */
  function StoredFormats(value: Option<string>): seq<int> {
    if value.Some? && StartsWith(value.value, FORMATS_PREF) then ParsedFormats(value.value) else []
  }

  /** `getSupportBitstream` on a cleared list. */
  function ReportedFormats(reply: string): seq<int> {
    if StartsWith(reply, SUPPORT_BITSTREAM_FORMAT) then ContainedFormats(reply, |FORMATS|) else []
  }

  /** The format list `readSetting` leaves for `device` and `mode`. */
  function SupportAfterRead(device: int, mode: int, store: map<GlobalKey, string>, reply: string): seq<int> {
    if mode == MODE_BITSTREAM_AUTO then ReportedFormats(reply)
    else if mode == MODE_BITSTREAM_MANUAL then StoredFormats(FormatsSetting(store, device))
    else []
  }

  /** The choices `setDeviceAndMode` accepts: a known device, a known mode, and Auto only on HDMI. */
  predicate ValidChoice(device: int, mode: int) {
    && (device == DEVICE_OUT_HDMI || device == DEVICE_OUT_SPDIF || device == DEVICE_NONE)
    && (mode == MODE_DECODE || mode == MODE_BITSTREAM_AUTO || mode == MODE_BITSTREAM_MANUAL)
    && (mode == MODE_BITSTREAM_AUTO ==> device == DEVICE_OUT_HDMI)
  }

  /** What `update` writes to the property: the device and mode fields, then the format list. */
  function PropertyString(device: int, mode: int, support: seq<int>): string {
    SettingString(device, mode) + [SEPARATOR] + FormatsString(support)
  }

  /**
   * The setting object. `AudioSystem.getParameters` is the `reply` parameter of
   * the methods that query the HAL (one reply per call); Settings.Global is the
   * `store` field and the system property the `property` field.
   */
  class AudioSetting {
    var device: int
    var mode: int
    /** `mSupport`: the formats that may be passed through, in insertion order. */
    var support: seq<int>
    var store: map<GlobalKey, string>
    /** The value this object last wrote to `persist.system.audio.setting`. */
    var property: Option<string>

    /** Every supported format is a key of the format maps. */
    predicate Valid()
      reads this
    {
      forall f :: f in support ==> f in FORMATS
    }

    constructor(globals: map<GlobalKey, string>)
      ensures Valid()
      ensures device == DEVICE_NONE && mode == MODE_DECODE && support == []
      ensures store == globals && property == None
    {
      device := DEVICE_NONE;
      mode := MODE_DECODE;
      support := [];
      store := globals;
      property := None;
    }

    predicate IsEnable(format: int)
      reads this
    {
      format in support
    }

    /** Replaces the list by the formats the HAL reports, when the reply is a format report. */
    method GetSupportBitstream(reply: string)
      requires Valid()
      modifies this`support
      ensures Valid()
      ensures StartsWith(reply, SUPPORT_BITSTREAM_FORMAT) ==> support == ReportedFormats(reply)
      ensures !StartsWith(reply, SUPPORT_BITSTREAM_FORMAT) ==> support == old(support)
    {
      if !StartsWith(reply, SUPPORT_BITSTREAM_FORMAT) {
        return;
      }
      var list: seq<int> := [];
      var k := 0;
      while k < |FORMATS|
        invariant 0 <= k <= |FORMATS|
        invariant list == ContainedFormats(reply, k)
      {
        ContainedFormatsStep(reply, k);
        if Contains(reply, HAL_NAMES[k]) {
          list := list + [FORMATS[k]];
        }
        k := k + 1;
      }
      ReportedFormatsValid(reply);
      support := list;
    }

    /** The text form of the list, "Format:" and the enabled setting names in map order. */
    method TranslateFormatsString() returns (r: string)
      ensures r == FormatsString(support)
    {
      var first := true;
      r := FORMATS_PREF;
      var k := 0;
      while k < |FORMATS|
        invariant 0 <= k <= |FORMATS|
        invariant first <==> EnabledNames(support, k) == []
        invariant r == FORMATS_PREF + Join(EnabledNames(support, k), ' ')
      {
        ghost var names := EnabledNames(support, k);
        EnabledNamesStep(support, k);
        if FORMATS[k] in support {
          JoinSnoc(names, SETTING_NAMES[k], ' ');
          if first {
            assert FORMATS_PREF + [] == FORMATS_PREF;
            first := false;
            r := r + SETTING_NAMES[k];
          } else {
            AppendAssoc(FORMATS_PREF, Join(names, ' '), [' ']);
            AppendAssoc(FORMATS_PREF, Join(names, ' ') + [' '], SETTING_NAMES[k]);
            r := r + [' '] + SETTING_NAMES[k];
          }
        } else {
          assert names + [] == names;
        }
        k := k + 1;
      }
    }

    /** Enables or disables one format of the maps and stores the list for the current device. */
    method SetFormats(format: int, enable: bool)
      requires Valid()
      modifies this`support, this`store
      ensures Valid()
      ensures format !in FORMATS ==> support == old(support) && store == old(store)
      ensures format in FORMATS ==> support == Toggle(old(support), format, enable)
      ensures format in FORMATS ==> store == StoreFormats(old(store), device, FormatsString(support))
    {
      if format !in FORMATS {
        return;
      }
      if enable {
        if !IsEnable(format) {
          support := support + [format];
        }
      } else {
        if IsEnable(format) {
          support := RemoveFirst(support, format);
        }
      }
      assert support == Toggle(old(support), format, enable);
      var formats := TranslateFormatsString();
      if device == DEVICE_OUT_HDMI {
        store := store[RkBitstreamHdmiSupFormats := formats];
      } else if device == DEVICE_OUT_SPDIF {
        store := store[RkBitstreamSpdifSupFormats := formats];
      }
    }

    /** A "Device:" field sets the device; any other field leaves it. */
    method ParseDevice(field: string)
      modifies this`device
      ensures device == if StartsWith(field, DEVICES_PREF) then DeviceOf(field) else old(device)
    {
      if StartsWith(field, DEVICES_PREF) {
        if Contains(field, "HDMI") {
          device := DEVICE_OUT_HDMI;
        } else if Contains(field, "SPDIF") {
          device := DEVICE_OUT_SPDIF;
        } else {
          device := DEVICE_NONE;
        }
      }
    }

    /** A "Mode:" field sets the mode; any other field leaves it. */
    method ParseMode(field: string)
      modifies this`mode
      ensures mode == if StartsWith(field, MODES_PREF) then ModeOf(field) else old(mode)
    {
      if StartsWith(field, MODES_PREF) {
        if Contains(field, "Auto") {
          mode := MODE_BITSTREAM_AUTO;
        } else if Contains(field, "Manual") {
          mode := MODE_BITSTREAM_MANUAL;
        } else {
          mode := MODE_DECODE;
        }
      }
    }

    /** Reads the device and mode from the ';'-separated fields of a stored setting. */
    method ParseSetting(value: Option<string>)
      modifies this`device, this`mode
      ensures (device, mode) == ParsedSetting(value, (old(device), old(mode)))
    {
      if value.None? {
        return;
      }
      var fields := Split(value.value, SEPARATOR);
      var i := 0;
      while i < |fields|
        invariant 0 <= i <= |fields|
        invariant (device, mode) == ParseFields(fields[..i], (old(device), old(mode)))
      {
        var name := fields[i];
        if StartsWith(name, DEVICES_PREF) {
          ParseDevice(name);
        } else if StartsWith(name, MODES_PREF) {
          ParseMode(name);
        }
        assert fields[..i + 1][..i] == fields[..i];
        i := i + 1;
      }
      assert fields[..|fields|] == fields;
    }

    /** Appends the formats a "Format:" value names, one per matching word. */
    method ParseFormat(formats: string)
      requires Valid()
      modifies this`support
      ensures Valid()
      ensures StartsWith(formats, FORMATS_PREF) ==> support == old(support) + ParsedFormats(formats)
      ensures !StartsWith(formats, FORMATS_PREF) ==> support == old(support)
    {
      if !StartsWith(formats, FORMATS_PREF) {
        return;
      }
      var words := Split(formats[|FORMATS_PREF|..], ' ');
      var start := support;
      var list := start;
      var i := 0;
      while i < |words|
        invariant 0 <= i <= |words|
        invariant list == start + TokenFormats(words[..i])
      {
        list := AppendMatching(list, words[i]);
        TokenFormatsStep(words, i);
        AppendAssoc(start, TokenFormats(words[..i]), Matching(words[i], |FORMATS|));
        i := i + 1;
      }
      assert words[..|words|] == words;
      support := list;
    }

    /** Replaces the list by the formats a "Format:" value names; any other value is ignored. */
    method ParserSupportFormat(value: string)
      requires Valid()
      modifies this`support
      ensures Valid()
      ensures StartsWith(value, FORMATS_PREF) ==> support == ParsedFormats(value)
      ensures !StartsWith(value, FORMATS_PREF) ==> support == old(support)
    {
      if StartsWith(value, FORMATS_PREF) {
        support := [];
        ParseFormat(value);
      }
    }

    /** Rebuilds the list for the current device and mode: empty in Decode mode. */
    method ReadFormats(reply: string)
      requires Valid()
      modifies this`support
      ensures Valid()
      ensures mode == MODE_BITSTREAM_AUTO ==>
                support == if device == DEVICE_OUT_HDMI then ReportedFormats(reply) else []
      ensures mode == MODE_BITSTREAM_MANUAL ==> support == StoredFormats(FormatsSetting(store, device))
      ensures mode != MODE_BITSTREAM_AUTO && mode != MODE_BITSTREAM_MANUAL ==> support == []
    {
      support := [];
      if mode == MODE_BITSTREAM_AUTO {
        if device == DEVICE_OUT_HDMI {
          GetSupportBitstream(reply);
        }
      } else if mode == MODE_BITSTREAM_MANUAL {
        var format := FormatsSetting(store, device);
        if format.Some? {
          ParserSupportFormat(format.value);
        }
      }
    }

    /** Reloads device, mode and format list from Settings.Global (and, in Auto mode, from the HAL). */
    method ReadSetting(reply: string)
      requires Valid()
      modifies this`device, this`mode, this`support
      ensures Valid()
      ensures (device, mode) == ParsedSetting(Lookup(store, RkAudioSettings), (old(device), old(mode)))
      ensures support == SupportAfterRead(device, mode, store, reply)
    {
      var setting := Lookup(store, RkAudioSettings);
      ParseSetting(setting);
      ReadFormats(reply);
      if mode == MODE_BITSTREAM_AUTO {
        GetSupportBitstream(reply);
      }
    }

    /**
     * Stores a new device and mode and reloads from the store. A rejected
     * choice changes nothing; an accepted one reads back exactly as given.
     */
    method SetDeviceAndMode(newDevice: int, newMode: int, reply: string)
      requires Valid()
      modifies this`device, this`mode, this`support, this`store
      ensures Valid()
      ensures !ValidChoice(newDevice, newMode) ==>
                device == old(device) && mode == old(mode) && support == old(support) && store == old(store)
      ensures ValidChoice(newDevice, newMode) ==>
                && store == old(store)[RkAudioSettings := SettingString(newDevice, newMode)]
                && device == newDevice && mode == newMode
                && support == SupportAfterRead(newDevice, newMode, store, reply)
    {
      if newDevice != DEVICE_OUT_HDMI && newDevice != DEVICE_OUT_SPDIF && newDevice != DEVICE_NONE {
        return;
      }
      if newMode != MODE_DECODE && newMode != MODE_BITSTREAM_AUTO && newMode != MODE_BITSTREAM_MANUAL {
        return;
      }
      if newMode == MODE_BITSTREAM_AUTO && newDevice != DEVICE_OUT_HDMI {
        return;
      }
      device := newDevice;
      mode := newMode;
      store := store[RkAudioSettings := SettingString(device, mode)];
      SettingRoundTrip(newDevice, newMode, (newDevice, newMode));
      ReadSetting(reply);
    }

    /** Writes device, mode and format list to the system property. */
    method Update()
      modifies this`property
      ensures property == Some(PropertyString(device, mode, support))
    {
      var deviceFormat := SettingString(device, mode);
      var formats := TranslateFormatsString();
      property := Some(deviceFormat + [SEPARATOR] + formats);
    }

    /** Refreshes the HAL's format report and the property, only for HDMI in Auto mode. */
    method HdmiAutoUpdate(reply: string)
      requires Valid()
      modifies this`support, this`property
      ensures Valid()
      ensures !(device == DEVICE_OUT_HDMI && mode == MODE_BITSTREAM_AUTO) ==>
                support == old(support) && property == old(property)
      ensures device == DEVICE_OUT_HDMI && mode == MODE_BITSTREAM_AUTO ==>
                && support == (if StartsWith(reply, SUPPORT_BITSTREAM_FORMAT) then ReportedFormats(reply) else old(support))
                && property == Some(PropertyString(device, mode, support))
    {
      if device == DEVICE_OUT_HDMI && mode == MODE_BITSTREAM_AUTO {
        GetSupportBitstream(reply);
        Update();
      }
    }
  }
}
