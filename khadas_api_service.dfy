/**
 * `KhadasApiServiceImpl`: the board service behind the Khadas API. It sets
 * the LEDs and the fan through sysfs nodes and mirrors each setting in a
 * persistent system property, reads the settings back from those
 * properties, switches Wake-on-LAN, and puts a locale first in the system
 * locale list.
 *
 * The platform the service drives is state of the model: the system
 * properties (name to value), the contents last written to each node, the
 * set of nodes that open for writing, and the locale list.
 */
module KhadasApiService {
  import opened Wrappers
  import opened Numerals
  import opened Strings

  const PROP_LED_WHITE_TRIGGER: string := "persist.sys.white.led.trigger"
  const PROP_LED_RED_TRIGGER: string := "persist.sys.red.led.mode"
  const SYS_LED_WHITE_TRIGGER: string := "/sys/class/leds/sys_led/trigger"
  const SYS_LED_RED_TRIGGER: string := "/sys/class/redled/mode"
  const LED_WHITE: int := 0
  const LED_RED: int := 1
  /** LED modes: the trigger name the white LED takes, the number the red LED takes. */
  const MODE_LIST: seq<string> := ["heartbeat", "default-on", "off"]
  const INDEX_LED: seq<int> := [0, 1, 2]
  const DEFAULT_LED_MODE: int := 2

  const PROP_FAN_ENABLE: string := "persist.sys.fan.enable"
  const PROP_FAN_MODE: string := "persist.sys.fan.mode"
  const PROP_FAN_LEVEL: string := "persist.sys.fan.level"
  const PROP_FAN_INDEX: string := "persist.sys.fna.index"
  const SYS_FAN_MODE: string := "/sys/class/hwmon/hwmon1/mode"
  const SYS_FAN_LEVEL: string := "/sys/class/thermal/cooling_device0/cur_state"
  const SYS_FAN_ENABLE: string := "/sys/class/hwmon/hwmon1/enable"
  const INDEX_AUTO: int := 0
  const INDEX_LEVEL_5: int := 5
  /** The fan mode that means "off". */
  const FAN_OFF: int := 6

  const WOL_STATE_SYS: string := "/sys/class/wol/enable"

  // ------------------------------------------------------------ system properties

  type Props = map<string, string>

  /** `SystemProperties.get(name, def)`: the default for an unset or empty property. */
  function GetProp(props: Props, name: string, def: string): (r: string)
    ensures name !in props ==> r == def
    ensures name in props && props[name] != "" ==> r == props[name]
  {
    if name in props && props[name] != "" then props[name] else def
  }

  /**
   * The integers `SystemProperties.getInt` accepts: an optional sign and at
   * least one decimal digit, within the range of an `int`.
   */
  function ParseInt(s: string): (r: Option<int>)
    ensures r.Some? ==> IsInt32(r.value)
  {
    var negative := |s| > 0 && s[0] == '-';
    var digits := if |s| > 0 && (s[0] == '-' || s[0] == '+') then s[1..] else s;
    if |digits| == 0 || !AllDigits(digits) then None
    else
      var v := if negative then -(DecValue(digits) as int) else DecValue(digits);
      if IsInt32(v) then Some(v) else None
  }

  /** Every `int` written with `String.valueOf` is read back. */
  lemma ParseIntRoundTrip(v: int)
    requires IsInt32(v)
    ensures ParseInt(IntToDec(v)) == Some(v)
  {
    var n := if v < 0 then -v else v;
    DecDigitsWellFormed(n);
    var s := IntToDec(v);
    if v < 0 {
      assert s[0] == '-' && s[1..] == DecDigits(n);
    } else {
      assert s == DecDigits(n) && IsDigit(s[0]);
    }
  }

  /** A text with a character that is neither sign nor digit is not an integer. */
  lemma ParseIntRejects(s: string, k: nat)
    requires k < |s| && !IsDigit(s[k]) && (k > 0 || (s[0] != '-' && s[0] != '+'))
    ensures ParseInt(s).None?
  {
    if |s| > 0 && (s[0] == '-' || s[0] == '+') {
      assert s[1..][k - 1] == s[k];
    }
  }

  /** `SystemProperties.getInt(name, def)`: the default when unset or not an integer. */
  function GetPropInt(props: Props, name: string, def: int): (r: int)
    ensures name !in props ==> r == def
  {
    if name in props && ParseInt(props[name]).Some? then ParseInt(props[name]).value else def
  }

  /** `SystemProperties.set(name, String.valueOf(value))` followed by `getInt` returns the value. */
  lemma PropIntRoundTrip(props: Props, name: string, value: int, def: int)
    requires IsInt32(value)
    ensures GetPropInt(props[name := IntToDec(value)], name, def) == value
  {
    ParseIntRoundTrip(value);
  }

  /** Setting one property leaves every other where it was. */
  lemma PropIntIndependent(props: Props, name: string, other: string, value: string, def: int)
    requires other != name
    ensures GetPropInt(props[name := value], other, def) == GetPropInt(props, other, def)
  {
  }

  // ------------------------------------------------------------ fan

  /** The properties after `setFanMode(mode)`; an unknown mode changes nothing. */
  function FanProps(props: Props, mode: int): (r: Props)
    ensures !(0 <= mode <= FAN_OFF) ==> r == props
    ensures 0 <= mode <= FAN_OFF ==> r.Keys >= props.Keys
  {
    if mode == INDEX_AUTO then
      props[PROP_FAN_ENABLE := "1"][PROP_FAN_MODE := "1"][PROP_FAN_INDEX := IntToDec(mode)]
    else if 1 <= mode <= INDEX_LEVEL_5 then
      props[PROP_FAN_ENABLE := "1"][PROP_FAN_MODE := "0"][PROP_FAN_LEVEL := IntToDec(mode)][PROP_FAN_INDEX := IntToDec(mode)]
    else if mode == FAN_OFF then
      props[PROP_FAN_ENABLE := "0"]
    else props
  }

  /** `setNode`: `println` of the value, when the node opens. */
  function WriteNode(nodes: map<string, string>, writable: set<string>, name: string, value: int): map<string, string> {
    if name in writable then nodes[name := IntToDec(value) + "\n"] else nodes
  }

  /** The node contents after `setFanMode(mode)`. */
  function FanNodes(nodes: map<string, string>, writable: set<string>, mode: int): (r: map<string, string>)
    ensures !(0 <= mode <= FAN_OFF) ==> r == nodes
  {
    if mode == INDEX_AUTO then
      WriteNode(WriteNode(nodes, writable, SYS_FAN_ENABLE, 1), writable, SYS_FAN_MODE, 1)
    else if 1 <= mode <= INDEX_LEVEL_5 then
      WriteNode(WriteNode(WriteNode(nodes, writable, SYS_FAN_ENABLE, 1), writable, SYS_FAN_MODE, 0), writable, SYS_FAN_LEVEL, mode)
    else if mode == FAN_OFF then
      WriteNode(nodes, writable, SYS_FAN_ENABLE, 0)
    else nodes
  }

  /** A level mode leaves the fan enabled, in manual mode, at that level, on every node that opens. */
  lemma FanLevelNodes(nodes: map<string, string>, writable: set<string>, mode: int)
    requires 1 <= mode <= INDEX_LEVEL_5 && {SYS_FAN_ENABLE, SYS_FAN_MODE, SYS_FAN_LEVEL} <= writable
    ensures var after := FanNodes(nodes, writable, mode);
      after[SYS_FAN_ENABLE] == "1\n" && after[SYS_FAN_MODE] == "0\n" && after[SYS_FAN_LEVEL] == IntToDec(mode) + "\n"
  {
    assert IntToDec(0) == "0" && IntToDec(1) == "1";
  }

  /** `getFanMode`: off (6) unless the fan is enabled (the default is disabled), else the stored index. */
  function FanMode(props: Props): (r: int)
    ensures GetPropInt(props, PROP_FAN_ENABLE, 0) == 0 ==> r == FAN_OFF
    ensures PROP_FAN_ENABLE !in props ==> r == FAN_OFF
  {
    if GetPropInt(props, PROP_FAN_ENABLE, 0) == 0 then FAN_OFF else GetPropInt(props, PROP_FAN_INDEX, 0)
  }

  /** `getFanMode` returns the mode `setFanMode` was given, for each of 0 to 6. */
  lemma FanModeRoundTrip(props: Props, mode: int)
    requires 0 <= mode <= FAN_OFF
    ensures FanMode(FanProps(props, mode)) == mode
  {
    ParseIntRoundTrip(0);
    ParseIntRoundTrip(1);
    ParseIntRoundTrip(mode);
    assert IntToDec(0) == "0" && IntToDec(1) == "1";
  }

  /** Automatic mode selects the hardware's own control, a level mode the fixed level. */
  lemma FanModeSettings(props: Props, mode: int)
    requires 0 <= mode <= INDEX_LEVEL_5
    ensures var after := FanProps(props, mode);
      GetPropInt(after, PROP_FAN_ENABLE, 0) == 1 &&
      GetPropInt(after, PROP_FAN_MODE, 0) == (if mode == INDEX_AUTO then 1 else 0) &&
      (mode != INDEX_AUTO ==> GetPropInt(after, PROP_FAN_LEVEL, 0) == mode)
  {
    ParseIntRoundTrip(0);
    ParseIntRoundTrip(1);
    ParseIntRoundTrip(mode);
    assert IntToDec(0) == "0" && IntToDec(1) == "1";
  }

  // ------------------------------------------------------------ LEDs

  function LedProp(ledType: int): string {
    if ledType == LED_WHITE then PROP_LED_WHITE_TRIGGER else PROP_LED_RED_TRIGGER
  }

  function LedNode(ledType: int): string {
    if ledType == LED_WHITE then SYS_LED_WHITE_TRIGGER else SYS_LED_RED_TRIGGER
  }

  /** What `setLedMode` writes to the LED's node: a trigger name for the white LED, a number for the red. */
  function LedText(ledType: int, mode: int): string
    requires 0 <= mode < |MODE_LIST|
  {
    if ledType == LED_WHITE then MODE_LIST[mode] else IntToDec(INDEX_LED[mode])
  }

  /** `getLedMode`: the stored mode, 2 ("off") by default. */
  function LedMode(props: Props, ledType: int): (r: int)
    ensures LedProp(ledType) !in props ==> r == DEFAULT_LED_MODE
  {
    GetPropInt(props, LedProp(ledType), DEFAULT_LED_MODE)
  }

  /** After a `setLedMode` that stored the mode, `getLedMode` returns it; the other LED is unaffected. */
  lemma LedModeRoundTrip(props: Props, ledType: int, mode: int, other: int)
    requires 0 <= mode < |MODE_LIST|
    requires (ledType == LED_WHITE) != (other == LED_WHITE)
    ensures LedMode(props[LedProp(ledType) := IntToDec(mode)], ledType) == mode
    ensures LedMode(props[LedProp(ledType) := IntToDec(mode)], other) == LedMode(props, other)
  {
    ParseIntRoundTrip(mode);
  }

  /** The three modes write three different texts to either LED. */
  lemma LedTextsDistinct(ledType: int, m1: int, m2: int)
    requires 0 <= m1 < |MODE_LIST| && 0 <= m2 < |MODE_LIST| && m1 != m2
    ensures LedText(ledType, m1) != LedText(ledType, m2)
  {
    if ledType != LED_WHITE {
      ParseIntRoundTrip(INDEX_LED[m1]);
      ParseIntRoundTrip(INDEX_LED[m2]);
    } else {
      assert MODE_LIST[0][0] == 'h' && MODE_LIST[1][0] == 'd' && MODE_LIST[2][0] == 'o';
    }
  }

  // ------------------------------------------------------------ Wake-on-LAN

  /** `RandomAccessFile.writeBytes` at the start of the file: the first character is overwritten. */
  function OverwriteFirst(content: string, c: char): (r: string)
    ensures |r| > 0 && r[0] == c && r[1..] == (if content == [] then [] else content[1..])
  {
    [c] + (if content == [] then [] else content[1..])
  }

  /** What `getWolMode` answers: whether some line the node reads as is exactly "1" (false when it does not open). */
  predicate WolEnabled(file: Option<string>) {
    match file
    case None => false
    case Some(content) => "1" in ReadLines(content)
  }

  /** On a node that holds one flag character and at most one line end, `getWolMode` returns the last `setWolMode`. */
  lemma WolRoundTrip(content: string, enabled: bool)
    requires |content| <= 1 || content[1..] == "\n" || content[1..] == "\r" || content[1..] == "\r\n"
    ensures WolEnabled(Some(OverwriteFirst(content, if enabled then '1' else '0'))) == enabled
  {
    var c := if enabled then '1' else '0';
    var r := OverwriteFirst(content, c);
    var end := if |content| <= 1 then "\n" else content[1..];
    assert IsLine([c]);
    ReadLinesTerminated([[c]], end);
    assert Terminated([[c]], end) == [c] + end;
    if |content| <= 1 {
      assert r == [c];
      assert ReadLines(r) == [[c]] by {
        ReadLinesFromLine(r, [], []);
        assert r + [] == r && [] + r == r;
      }
    } else {
      assert r == [c] + end;
    }
    assert ReadLines(r) == [[c]];
  }

  /** Each of readLine's line ends separates the flag from what follows. */
  lemma WolLineEnds()
    ensures WolEnabled(Some("1\r\n")) && WolEnabled(Some("0\r1")) && WolEnabled(Some("0\n1\n"))
  {
    CrLfEndsLine();
    CrEndsLine();
    LfEndsLine();
  }

  /** "\r\n" ends one line. */
  lemma CrLfEndsLine()
    ensures ReadLines("1\r\n") == ["1"]
  {
    ReadLinesTerminated(["1"], "\r\n");
    assert Terminated(["1"], "\r\n") == "1\r\n";
  }

  /** A lone "\r" ends a line, and the text after it is the next. */
  lemma CrEndsLine()
    ensures ReadLines("0\r1") == ["0", "1"]
  {
    ReadLinesFromLine("0", "\r1", []);
    assert "0" + "\r1" == "0\r1" && [] + "0" == "0" && "\r1"[1..] == "1";
    ReadLinesFromLine("1", [], []);
    assert "1" + [] == "1" && [] + "1" == "1";
  }

  /** "\n" ends each line, and the last one adds no empty line. */
  lemma LfEndsLine()
    ensures ReadLines("0\n1\n") == ["0", "1"]
  {
    ReadLinesTerminated(["0", "1"], "\n");
    assert Terminated(["0", "1"], "\n") == "0\n1\n";
  }

  /** A line holding more than the flag is not the flag, and a node that does not open reads as off. */
  lemma WolLongerLines()
    ensures !WolEnabled(Some("10\n")) && !WolEnabled(Some(" 1")) && !WolEnabled(None)
  {
    assert ReadLines("10\n") == ["10"] by {
      ReadLinesTerminated(["10"], "\n");
      assert Terminated(["10"], "\n") == "10\n";
    }
    assert ReadLines(" 1") == [" 1"] by {
      ReadLinesFromLine(" 1", [], []);
      assert " 1" + [] == " 1" && [] + " 1" == " 1";
    }
  }

  // ------------------------------------------------------------ locales

  /** A locale: language, country, and the variant, script and extensions (empty for a new one). */
  datatype Locale = Locale(language: string, country: string, rest: string)

  /**
   * `switchLanguage` on the locale list: an absent locale is put first, and
   * a present one changes places with the first.
   */
  function Switched<T(==)>(list: seq<T>, x: T): seq<T> {
    match IndexOf(list, x)
    case None => [x] + list
    case Some(i) => list[i := list[0]][0 := x]
  }

  /** An absent locale is prepended: one longer, and the old order after it. */
  lemma SwitchPrepends<T>(list: seq<T>, x: T)
    requires x !in list
    ensures Switched(list, x) == [x] + list
    ensures |Switched(list, x)| == |list| + 1
  {
  }

  /** Exchanging the first element with another keeps the same elements. */
  lemma SwapWithFirstPermutes<T>(s: seq<T>, i: nat)
    requires 0 < i < |s|
    ensures multiset(s[i := s[0]][0 := s[i]]) == multiset(s)
  {
    var r := s[i := s[0]][0 := s[i]];
    assert s == [s[0]] + s[1..i] + [s[i]] + s[i + 1..];
    assert r == [s[i]] + s[1..i] + [s[0]] + s[i + 1..];
  }

  /** A present locale changes places with the first: the same length and the same locales. */
  lemma SwitchSwaps<T>(list: seq<T>, x: T)
    requires x in list
    ensures var r := Switched(list, x);
      |r| == |list| && r[0] == x && multiset(r) == multiset(list)
    ensures var i := IndexOf(list, x).value;
      var r := Switched(list, x);
      r[i] == list[0] && forall k :: 0 < k < |list| && k != i ==> r[k] == list[k]
  {
    var i := IndexOf(list, x).value;
    if i == 0 {
      assert list[i := list[0]][0 := x] == list;
    } else {
      SwapWithFirstPermutes(list, i);
    }
  }

  /** Either way the locale ends up first, and switching to it again changes nothing. */
  lemma SwitchIdempotent<T>(list: seq<T>, x: T)
    ensures Switched(list, x) != [] && Switched(list, x)[0] == x
    ensures Switched(Switched(list, x), x) == Switched(list, x)
  {
    var r := Switched(list, x);
    assert r[0] == x;
    assert IndexOf(r, x) == Some(0);
  }

  // ------------------------------------------------------------ the service

  class Service {
    /** The system properties. */
    var props: Props
    /** The contents last written to each node. */
    var nodes: map<string, string>
    /** The nodes that open for writing. */
    const writable: set<string>
    /** The system locale list (`LocalePicker`). */
    var locales: seq<Locale>

    constructor(props: Props, nodes: map<string, string>, writable: set<string>, locales: seq<Locale>)
      ensures this.props == props && this.nodes == nodes && this.writable == writable && this.locales == locales
    {
      this.props := props;
      this.nodes := nodes;
      this.writable := writable;
      this.locales := locales;
    }

    /** `setNode`: `println` of the value, when the node opens. */
    method SetNode(name: string, value: int)
      modifies this
      ensures nodes == WriteNode(old(nodes), writable, name, value)
      ensures props == old(props) && locales == old(locales)
    {
      if name in writable {
        nodes := nodes[name := IntToDec(value) + "\n"];
      }
    }

    /** `setSystemProperties_int`. */
    method SetPropInt(name: string, value: int)
      modifies this
      ensures props == old(props)[name := IntToDec(value)]
      ensures nodes == old(nodes) && locales == old(locales)
    {
      props := props[name := IntToDec(value)];
    }

    /** `setSystemProperties`. */
    method SetProp(name: string, value: string)
      modifies this
      ensures props == old(props)[name := value]
      ensures nodes == old(nodes) && locales == old(locales)
    {
      props := props[name := value];
    }

    /** `getSystemProperties_int`. */
    function GetPropertyInt(name: string, def: int): int
      reads this
    {
      GetPropInt(props, name, def)
    }

    /** `getSystemProperties`. */
    function GetProperty(name: string, def: string): string
      reads this
    {
      GetProp(props, name, def)
    }

    /**
     * `setLedMode`: the node opens first, emptying it (a failure is logged
     * and nothing else happens); a mode outside 0..2 then throws out of the
     * array lookup, leaving the node empty; else the node gets the mode's
     * text and the property the mode.
     */
    method SetLedMode(ledType: int, mode: int) returns (threw: bool)
      modifies this
      ensures threw <==> LedNode(ledType) in writable && !(0 <= mode < |MODE_LIST|)
      ensures LedNode(ledType) in writable && 0 <= mode < |MODE_LIST| ==>
        nodes == old(nodes)[LedNode(ledType) := LedText(ledType, mode)] &&
        props == old(props)[LedProp(ledType) := IntToDec(mode)]
      ensures threw ==> nodes == old(nodes)[LedNode(ledType) := ""] && props == old(props)
      ensures LedNode(ledType) !in writable ==> nodes == old(nodes) && props == old(props)
      ensures locales == old(locales)
    {
      var node := LedNode(ledType);
      if node !in writable {
        return false;
      }
      nodes := nodes[node := ""];
      if !(0 <= mode < |MODE_LIST|) {
        return true;
      }
      nodes := nodes[node := LedText(ledType, mode)];
      SetPropInt(LedProp(ledType), mode);
      return false;
    }

    /** `getLedMode`. */
    function GetLedMode(ledType: int): int
      reads this
    {
      LedMode(props, ledType)
    }

    /** `setFanMode`: the node and property writes of the mode, in the source's order. */
    method SetFanMode(mode: int)
      modifies this
      ensures props == FanProps(old(props), mode)
      ensures nodes == FanNodes(old(nodes), writable, mode)
      ensures locales == old(locales)
    {
      if mode == INDEX_AUTO {
        SetNode(SYS_FAN_ENABLE, 1);
        SetPropInt(PROP_FAN_ENABLE, 1);
        SetNode(SYS_FAN_MODE, 1);
        SetPropInt(PROP_FAN_MODE, 1);
        SetPropInt(PROP_FAN_INDEX, mode);
      } else if 1 <= mode <= INDEX_LEVEL_5 {
        SetNode(SYS_FAN_ENABLE, 1);
        SetPropInt(PROP_FAN_ENABLE, 1);
        SetNode(SYS_FAN_MODE, 0);
        SetPropInt(PROP_FAN_MODE, 0);
        SetNode(SYS_FAN_LEVEL, mode);
        SetPropInt(PROP_FAN_LEVEL, mode);
        SetPropInt(PROP_FAN_INDEX, mode);
      } else if mode == FAN_OFF {
        SetNode(SYS_FAN_ENABLE, 0);
        SetPropInt(PROP_FAN_ENABLE, 0);
      }
      assert IntToDec(0) == "0" && IntToDec(1) == "1";
    }

    /** `getFanMode`. */
    function GetFanMode(): int
      reads this
    {
      FanMode(props)
    }

    /** `setWolMode`: the flag character written over the start of the node, when it opens. */
    method SetWolMode(enabled: bool)
      modifies this
      ensures nodes == if WOL_STATE_SYS in writable then
          old(nodes)[WOL_STATE_SYS := OverwriteFirst(if WOL_STATE_SYS in old(nodes) then old(nodes)[WOL_STATE_SYS] else "", if enabled then '1' else '0')]
        else old(nodes)
      ensures props == old(props) && locales == old(locales)
    {
      if WOL_STATE_SYS in writable {
        var content := if WOL_STATE_SYS in nodes then nodes[WOL_STATE_SYS] else "";
        nodes := nodes[WOL_STATE_SYS := OverwriteFirst(content, if enabled then '1' else '0')];
      }
    }

    /** `getWolMode`: the node's lines in turn, stopping at the first that is exactly "1". */
    method GetWolMode() returns (enabled: bool)
      ensures enabled == WolEnabled(if WOL_STATE_SYS in nodes then Some(nodes[WOL_STATE_SYS]) else None)
    {
      enabled := false;
      if WOL_STATE_SYS !in nodes {
        return;
      }
      var lines := ReadLines(nodes[WOL_STATE_SYS]);
      var i := 0;
      while i < |lines|
        invariant 0 <= i <= |lines|
        invariant !enabled && forall j :: 0 <= j < i ==> lines[j] != "1"
      {
        if lines[i] == "1" {
          enabled := true;
          break;
        } else {
          enabled := false;
        }
        i := i + 1;
      }
    }

    /** `switchLanguage`. */
    method SwitchLanguage(language: string, country: string)
      modifies this
      ensures locales == Switched(old(locales), Locale(language, country, ""))
      ensures props == old(props) && nodes == old(nodes)
    {
      var arr := NewLocaleArray(locales, Locale(language, country, ""));
      locales := arr[..];
    }
  }

  /** The array `switchLanguage` builds: the search loop, the copy and the swap. */
  method NewLocaleArray<T(==)>(list: seq<T>, locale: T) returns (arr: array<T>)
    ensures fresh(arr) && arr[..] == Switched(list, locale)
  {
    var index := -1;
    var i := 0;
    while i < |list|
      invariant 0 <= i <= |list|
      invariant forall k :: 0 <= k < i ==> list[k] != locale
    {
      if list[i] == locale {
        index := i;
        break;
      }
      i := i + 1;
    }
    assert index >= 0 ==> IndexOf(list, locale) == Some(index) && list[index] == locale;
    assert index < 0 ==> IndexOf(list, locale).None?;
    arr := new T[if index < 0 then |list| + 1 else |list|](_ => locale);
    if index < 0 {
      arr[0] := locale;
      i := 0;
      while i < |list|
        invariant 0 <= i <= |list|
        invariant arr[0] == locale && arr[1..i + 1] == list[..i]
      {
        arr[i + 1] := list[i];
        i := i + 1;
      }
      assert arr[..] == [locale] + list;
    } else {
      i := 0;
      while i < |list|
        invariant 0 <= i <= |list|
        invariant arr[..i] == list[..i]
      {
        arr[i] := list[i];
        i := i + 1;
      }
      assert arr[..] == list;
      arr[index] := arr[0];
      arr[0] := locale;
    }
  }
}
