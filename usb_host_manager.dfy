/**
 * The Rockchip additions to the USB host manager's native code
 * (`com_android_server_UsbHostManager.cpp`): reading a device attribute from
 * sysfs, parsing it as a hex or decimal number, finding a device's sysfs
 * directory from its bus and device number, and refusing to open the NPU's
 * "rockusb" download-mode device.
 *
 * The file system is a parameter: the entries of `/sys/bus/usb/devices`, each
 * with its attribute files and their contents. The unique id libusbhost derives
 * from a device name is a parameter too.
 */
module UsbHostManager {
  import opened Wrappers
  import opened Numerals
  import opened Strings

  const USB_DEV_PID: string := "idProduct"
  const USB_DEV_VID: string := "idVendor"
  const USB_DEV_NUM: string := "devnum"
  const ROCKUSB_VENDOR: int := 0x2207
  const ROCKUSB_PRODUCT: int := 0x180a
  /** The size of the `fgets` buffer: at most one less is read. */
  const ATTR_BUF_SIZE: nat := 100

  // ------------------------------------------------------------ numbers

  /**
   * `str_to_digit`: -1 unless every character is a digit of the base; hex
   * needs at least one digit (`sscanf` matches nothing otherwise), decimal
   * reads the empty text as 0 (`atoi`, which is bionic's `strtol` into a
   * 64-bit `long`, saturating, then cast to `int`).
   */
  function AttrNumber(s: string, hex: bool): (r: int)
    ensures IsInt32(r)
    ensures hex && !(|s| > 0 && AllHexDigits(s)) ==> r == -1
    ensures !hex && !AllDigits(s) ==> r == -1
    ensures !hex && s == [] ==> r == 0
    ensures !hex && AllDigits(s) && DecValue(s) > LONG_MAX ==> r == -1
  {
    if hex then (if |s| > 0 && AllHexDigits(s) then Wrap32(HexStringValue(s)) else -1)
    else (if AllDigits(s) then Wrap32(AtoiLong(DecValue(s))) else -1)
  }

  /** `atoi` reads through `strtol`, which saturates at the largest 64-bit `long`. */
  function AtoiLong(v: nat): int {
    if v > LONG_MAX then LONG_MAX else v
  }

  /** `str_to_digit` with its character-checking loop. */
  method StrToDigit(s: string, hex: bool) returns (value: int)
    ensures value == AttrNumber(s, hex)
  {
    var i := 0;
    if hex {
      while i < |s|
        invariant 0 <= i <= |s| && AllHexDigits(s[..i])
      {
        if !IsHexDigit(s[i]) {
          assert !AllHexDigits(s) by { assert !IsHexDigit(s[i]); }
          return -1;
        }
        assert s[..i + 1] == s[..i] + [s[i]];
        i := i + 1;
      }
      assert s[..i] == s;
      if |s| == 0 {
        return -1;
      }
      value := Wrap32(HexStringValue(s));
    } else {
      while i < |s|
        invariant 0 <= i <= |s| && AllDigits(s[..i])
      {
        if !IsDigit(s[i]) {
          assert !AllDigits(s) by { assert !IsDigit(s[i]); }
          return -1;
        }
        assert s[..i + 1] == s[..i] + [s[i]];
        i := i + 1;
      }
      assert s[..i] == s;
      value := Wrap32(AtoiLong(DecValue(s)));
    }
  }

  /** The hexadecimal text of a non-negative `int` parses back to it, in either case. */
  lemma HexNumberRoundTrip(n: nat, upper: bool)
    requires n <= INT_MAX
    ensures AttrNumber(HexDigits(n, upper), true) == n
  {
    HexDigitsWellFormed(n, upper);
  }

  /** The decimal text of a non-negative `int` parses back to it. */
  lemma DecimalNumberRoundTrip(n: nat)
    requires n <= INT_MAX
    ensures AttrNumber(DecDigits(n), false) == n
  {
    DecDigitsWellFormed(n);
  }

  // ------------------------------------------------------------ attribute files

  /**
   * What one `fgets` into the 100-byte buffer reads from `content`: through
   * the first newline, at most 99 characters, as a C string.
   */
  function FirstLine(content: string): string {
    var end := match FindChar(content, '\n') case None => |content| case Some(k) => k + 1;
    CStr(content[..Min(end, ATTR_BUF_SIZE - 1)])
  }

  /**
   * `usb_device_get_attr_str`: none when the file does not open or is empty;
   * else its first line with one trailing newline removed.
   */
  function AttrString(file: Option<string>): (r: Option<string>)
    ensures r.Some? ==> |r.value| < ATTR_BUF_SIZE
  {
    match file
    case None => None
    case Some(content) =>
      if content == [] then None
      else
        var line := FirstLine(content);
        if |line| > 0 && line[|line| - 1] == '\n' then Some(line[..|line| - 1]) else Some(line)
  }

  /** A value written as one line (up to 98 characters) is read back without its newline. */
  lemma AttrStringRoundTrip(value: string, rest: string)
    requires '\n' !in value && '\0' !in value && |value| < ATTR_BUF_SIZE - 1
    ensures AttrString(Some(value + "\n" + rest)) == Some(value)
  {
    var content := value + "\n" + rest;
    FindCharAfter(value, '\n', rest);
    var chunk := content[..|value| + 1];
    assert chunk == value + "\n";
    assert '\0' !in chunk;
    CLengthOfNulFree(chunk);
    assert FirstLine(content) == value + "\n";
    assert (value + "\n")[..|value|] == value;
  }

  /** `usb_device_get_attr_val`: -1 when the file cannot be read, else the parsed number. */
  function AttrValue(file: Option<string>, hex: bool): (r: int)
    ensures IsInt32(r)
    ensures AttrString(file).None? ==> r == -1
  {
    match AttrString(file)
    case None => -1
    case Some(s) => AttrNumber(s, hex)
  }

  // ------------------------------------------------------------ device directories

  /** An entry of `/sys/bus/usb/devices`: its name and its attribute files with their contents. */
  datatype DirEntry = DirEntry(name: string, files: map<string, string>)

  function AttrFile(entry: DirEntry, attr: string): Option<string> {
    if attr in entry.files then Some(entry.files[attr]) else None
  }

  /** `snprintf` into a buffer of `size` bytes keeps at most `size - 1` characters. */
  function Truncate(s: string, size: nat): (r: string)
    requires size >= 1
    ensures |r| <= size - 1 && |r| <= |s| && r == s[..|r|]
  {
    s[..Min(|s|, size - 1)]
  }

  /** `strncmp(a, b, n) == 0` on NUL-free strings. */
  predicate SamePrefix(a: string, b: string, n: nat) {
    a[..Min(n, |a|)] == b[..Min(n, |b|)]
  }

  /** The device's bus and device number: C division and remainder of its unique id by 1000. */
  function SplitId(id: int): (r: (int, int))
    ensures r.0 * 1000 + r.1 == id
    ensures id >= 0 ==> r.0 >= 0 && 0 <= r.1 < 1000
  {
    (TruncDiv(id, 1000), TruncRem(id, 1000))
  }

  /** libusbhost's `bus * 1000 + devnum` splits back into its parts. */
  lemma SplitIdRoundTrip(bus: nat, devnum: nat)
    requires devnum < 1000
    ensures SplitId(bus * 1000 + devnum) == (bus, devnum)
  {
  }

  /**
   * An entry that may be the device's directory: its name begins like
   * "<bus>-1" (three characters compared) and names no interface (no ':'),
   * or begins like "usb<bus>" (four characters compared); both names are
   * cut to four characters.
   */
  predicate CandidateEntry(name: string, bus: int) {
    var subportName := Truncate(IntToDec(bus) + "-1", 5);
    var portName := Truncate("usb" + IntToDec(bus), 5);
    (SamePrefix(name, subportName, 3) && ':' !in name) || SamePrefix(name, portName, 4)
  }

  /** Whether `entry` is the directory `usb_device_get_attr_str_from_name` settles on. */
  predicate MatchesDevice(entry: DirEntry, id: int) {
    CandidateEntry(entry.name, SplitId(id).0) && SplitId(id).1 == AttrValue(AttrFile(entry, USB_DEV_NUM), false)
  }

  /** The first entry from `i` on that matches the device. */
  function FirstMatching(entries: seq<DirEntry>, id: int, i: nat): (r: Option<nat>)
    requires i <= |entries|
    ensures r.Some? ==> i <= r.value < |entries| && MatchesDevice(entries[r.value], id)
    ensures r.Some? ==> forall k :: i <= k < r.value ==> !MatchesDevice(entries[k], id)
    ensures r.None? ==> forall k :: i <= k < |entries| ==> !MatchesDevice(entries[k], id)
    decreases |entries| - i
  {
    if i == |entries| then None
    else if MatchesDevice(entries[i], id) then Some(i)
    else FirstMatching(entries, id, i + 1)
  }

  /**
   * `usb_device_get_attr_str_from_name` stated directly: none when the
   * directory does not open or no entry matches; else the attribute of the
   * first matching entry.
   */
  function AttrStringFromName(id: int, dir: Option<seq<DirEntry>>, attr: string): Option<string> {
    match dir
    case None => None
    case Some(entries) =>
      match FirstMatching(entries, id, 0)
      case None => None
      case Some(k) => AttrString(AttrFile(entries[k], attr))
  }

  /** `usb_device_get_attr_str_from_name`, with its `readdir` loop. */
  method GetAttrStrFromName(id: int, dir: Option<seq<DirEntry>>, attr: string) returns (r: Option<string>)
    ensures r == AttrStringFromName(id, dir, attr)
  {
    var split := SplitId(id);
    var bus, devnum := split.0, split.1;
    var subportName := Truncate(IntToDec(bus) + "-1", 5);
    var portName := Truncate("usb" + IntToDec(bus), 5);
    if dir.None? {
      return None;
    }
    var entries := dir.value;
    var i := 0;
    while i < |entries|
      invariant 0 <= i <= |entries|
      invariant FirstMatching(entries, id, 0) == FirstMatching(entries, id, i)
    {
      var de := entries[i];
      if (SamePrefix(de.name, subportName, 3) && ':' !in de.name) || SamePrefix(de.name, portName, 4) {
        var num := AttrValue(AttrFile(de, USB_DEV_NUM), false);
        if devnum == num {
          return AttrString(AttrFile(de, attr));
        }
      }
      i := i + 1;
    }
    return None;
  }

  /** `usb_device_get_attr_val_from_name`. */
  function AttrValueFromName(id: int, dir: Option<seq<DirEntry>>, attr: string, hex: bool): (r: int)
    ensures IsInt32(r)
    ensures AttrStringFromName(id, dir, attr).None? ==> r == -1
  {
    match AttrStringFromName(id, dir, attr)
    case None => -1
    case Some(s) => AttrNumber(s, hex)
  }

  // ------------------------------------------------------------ rockusb

  /** The verdict of `usb_device_is_rockusb` on the two ids read (-1: not read). */
  function RockusbVerdict(product: int, vendor: int): (r: int)
    ensures r == 0 || r == 1
    ensures r == 1 <==> vendor == ROCKUSB_VENDOR && product == ROCKUSB_PRODUCT
    ensures vendor < 0 || product < 0 ==> r == 0
  {
    if vendor < 0 || product < 0 then 0
    else if vendor == ROCKUSB_VENDOR && product == ROCKUSB_PRODUCT then 1
    else 0
  }

  /** `usb_device_is_rockusb`. */
  function IsRockusb(id: int, dir: Option<seq<DirEntry>>): (r: int)
    ensures r == 0 || r == 1
  {
    RockusbVerdict(AttrValueFromName(id, dir, USB_DEV_PID, true), AttrValueFromName(id, dir, USB_DEV_VID, true))
  }

  /** Rockusb ids as sysfs writes them (four lower-case hex digits and a newline) are recognised. */
  lemma RockusbIdsRecognised(rest: string)
    ensures AttrValue(Some("2207\n" + rest), true) == ROCKUSB_VENDOR
    ensures AttrValue(Some("180a\n" + rest), true) == ROCKUSB_PRODUCT
  {
    AttrStringRoundTrip("2207", rest);
    AttrStringRoundTrip("180a", rest);
    assert "2207\n" + rest == "2207" + "\n" + rest;
    assert "180a\n" + rest == "180a" + "\n" + rest;
    RockusbDigits();
  }

  lemma RockusbDigits()
    ensures AttrNumber("2207", true) == ROCKUSB_VENDOR
    ensures AttrNumber("180a", true) == ROCKUSB_PRODUCT
  {
    assert AllHexDigits("2207") by { assert forall k :: 0 <= k < 4 ==> IsHexDigit("2207"[k]); }
    assert AllHexDigits("180a") by { assert forall k :: 0 <= k < 4 ==> IsHexDigit("180a"[k]); }
    assert "2207"[..3] == "220" && "220"[..2] == "22" && "22"[..1] == "2" && "2"[..0] == "";
    assert "180a"[..3] == "180" && "180"[..2] == "18" && "18"[..1] == "1" && "1"[..0] == "";
  }

  /**
   * `usb_device_added` up to `usb_device_open`: whether the device is opened.
   * A rockusb device is refused; everything after the open is not modelled.
   */
  function OpensDevice(id: int, dir: Option<seq<DirEntry>>): (opens: bool)
    ensures !opens <==>
      AttrValueFromName(id, dir, USB_DEV_VID, true) == ROCKUSB_VENDOR &&
      AttrValueFromName(id, dir, USB_DEV_PID, true) == ROCKUSB_PRODUCT
  {
    IsRockusb(id, dir) == 0
  }

  /** A device whose directory reads as the rockusb ids is never opened. */
  lemma RockusbNeverOpened(id: int, entries: seq<DirEntry>, k: nat)
    requires FirstMatching(entries, id, 0) == Some(k)
    requires AttrValue(AttrFile(entries[k], USB_DEV_VID), true) == ROCKUSB_VENDOR
    requires AttrValue(AttrFile(entries[k], USB_DEV_PID), true) == ROCKUSB_PRODUCT
    ensures !OpensDevice(id, Some(entries))
  {
  }
}
