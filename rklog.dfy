/**
 * The crash-report watcher of the Rockchip box service (`rklog.cpp`): for each
 * new dropbox entry or tombstone it computes a hash of the file's text and
 * starts a bug report unless the same hash was reported a short while ago.
 *
 * A file is given as the sequence of chunks `fgets` reads from it (each a line,
 * or the first 511 bytes of a longer one), or none when it cannot be opened.
 * Characters are bytes; the C string of a chunk ends at its first NUL.
 * `unsigned int` arithmetic wraps modulo 2^32.
 */
module Rklog {
  import opened Wrappers
  import opened Numerals
  import opened Strings

  const DROPBOX_MIN_REPEAT_DURATION: int := 5 * 60
  const TOMBSTONE_MIN_REPEAT_DURATION: int := 2 * 60
  const HASH_SEED: int := 5381

  /** `dropboxName`, indexed from 0 (the enum counts from 1). */
  const DROPBOX_NAMES: seq<string> := [
    "system_server_crash", "system_server_anr", "system_server_lowmem", "system_server_watchdog",
    "SYSTEM_BOOT", "SYSTEM_RESTART", "system_app_crash", "system_app_anr", "system_server_wtf",
    "system_app_wtf", "data_app_anr", "data_app_crash", "data_app_wtf"]
  /** `DROPBOX_MAX_ENTRY - 1`: the number of names the classification scans. */
  const NUM_DROPBOX_NAMES: int := 13
  /** `DROPBOX_SYSTEM_APP_ANR`, the initial `dropboxLevel`. */
  const DEFAULT_DROPBOX_LEVEL: int := 8
  const TOMBSTONE_REASON: string := "TOMBSTONE"
  /** The line of a tombstone after which the backtrace follows. */
  const BACKTRACE: string := "backtrace:"

  // ------------------------------------------------------------ hashing

  /** One `hash += (hash << 5) + c` on an `unsigned int`: `hash * 33 + c` modulo 2^32. */
  function Step(h: int, c: char): (r: int)
    ensures 0 <= r < TWO_32
  {
    (h * 33 + c as int) % TWO_32
  }

  /** The hash after every character of `s`, starting from `h`. */
  function HashChars(h: int, s: string): (r: int)
    requires 0 <= h < TWO_32
    ensures 0 <= r < TWO_32
  {
    if s == [] then h else Step(HashChars(h, s[..|s| - 1]), s[|s| - 1])
  }

  /** `hash & 0x7FFFFFFF` of an unsigned hash. */
  function Mask31(h: int): (r: int)
    requires 0 <= h < TWO_32
    ensures 0 <= r < 0x8000_0000
  {
    h % 0x8000_0000
  }

  /** The lines `gen_file_hash` skips: their process id and run time differ from crash to crash. */
  predicate Volatile(line: string) {
    Contains(CStr(line), "PID") || Contains(CStr(line), "Process-Runtime")
  }

  /** The hash after the chunks of a file, from `h`. */
  function HashLines(h: int, lines: seq<string>): (r: int)
    requires 0 <= h < TWO_32
    ensures 0 <= r < TWO_32
    decreases |lines|
  {
    if lines == [] then h
    else HashLines(if Volatile(lines[0]) then h else HashChars(h, CStr(lines[0])), lines[1..])
  }

  /** `gen_file_hash`: 0 for a file that does not open, else the 31-bit hash of its non-volatile lines. */
  function FileHash(file: Option<seq<string>>): (r: int)
    ensures 0 <= r < 0x8000_0000
    ensures file.None? ==> r == 0
  {
    match file
    case None => 0
    case Some(lines) => Mask31(HashLines(HASH_SEED, lines))
  }

  lemma {:induction false} HashLinesAppend(h: int, a: seq<string>, b: seq<string>)
    requires 0 <= h < TWO_32
    ensures HashLines(h, a + b) == HashLines(HashLines(h, a), b)
    decreases |a|
  {
    if a == [] {
      assert a + b == b;
    } else {
      TailOfAppend(a, b);
      HashLinesAppend(if Volatile(a[0]) then h else HashChars(h, CStr(a[0])), a[1..], b);
    }
  }

  /** A line with a process id or run time in it does not change the file's hash. */
  lemma VolatileLineIgnored(a: seq<string>, line: string, b: seq<string>)
    requires Volatile(line)
    ensures FileHash(Some(a + [line] + b)) == FileHash(Some(a + b))
  {
    HashLinesAppend(HASH_SEED, a + [line], b);
    HashLinesAppend(HASH_SEED, a, [line]);
    HashLinesAppend(HASH_SEED, a, b);
    assert HashLines(HashLines(HASH_SEED, a), [line]) == HashLines(HashLines(HASH_SEED, a), []);
  }

  /** `hash << 5` is taken modulo 2^32 before the sum; the sum wraps to the same value. */
  lemma ShiftAddIsStep(h: int, c: char)
    ensures (h + (h * 32) % TWO_32 + c as int) % TWO_32 == Step(h, c)
  {
    var q := (h * 32) / TWO_32;
    assert (h * 32) % TWO_32 == h * 32 - TWO_32 * q;
    assert h + (h * 32) % TWO_32 + c as int == (h * 33 + c as int) + TWO_32 * (-q);
  }

  /** Hashes every character of the C string in `buf` into `h` (the `while (*tmp)` loop). */
  method HashBuffer(h: int, buf: string, from: nat) returns (hash: int)
    requires 0 <= h < TWO_32 && from <= CLength(buf)
    ensures hash == HashChars(h, CStr(buf)[from..])
  {
    CLengthIsFirstNul(buf);
    hash := h;
    var j := from;
    while j < |buf| && buf[j] != '\0'
      invariant from <= j <= CLength(buf)
      invariant hash == HashChars(h, buf[from..j])
    {
      assert buf[from..j + 1][..j - from] == buf[from..j];
      var shifted := (hash * 32) % TWO_32;
      ShiftAddIsStep(hash, buf[j]);
      hash := (hash + shifted + buf[j] as int) % TWO_32;
      j := j + 1;
    }
    assert CStr(buf)[from..] == buf[from..j];
  }

  /** `gen_file_hash`. */
  method GenFileHash(file: Option<seq<string>>) returns (hash: int)
    ensures hash == FileHash(file)
  {
    if file.None? {
      return 0;
    }
    var lines := file.value;
    hash := HASH_SEED;
    var i := 0;
    while i < |lines|
      invariant 0 <= i <= |lines| && 0 <= hash < TWO_32
      invariant HashLines(HASH_SEED, lines) == HashLines(hash, lines[i..])
    {
      var buf := lines[i];
      TailOfDrop(lines, i);
      if Contains(CStr(buf), "PID") || Contains(CStr(buf), "Process-Runtime") {
        i := i + 1;
        continue;
      }
      hash := HashBuffer(hash, buf, 0);
      i := i + 1;
    }
    hash := hash % 0x8000_0000;
  }

  // ------------------------------------------------------------ tombstones

  /** The text of a backtrace line that counts: from its first `'/'` (the library path) on. */
  function FromSlash(line: string): string {
    var t := CStr(line);
    match FindChar(t, '/')
    case None => []
    case Some(k) => t[k..]
  }

  /**
   * The scan of `gen_tombstone_hash` over the remaining chunks: until a line
   * holds "backtrace:", nothing is hashed; after it, `budget` more lines are
   * hashed from their `'/'`.
   */
  function TombstoneScan(lines: seq<string>, found: bool, budget: int, h: int): (r: int)
    requires 0 <= h < TWO_32
    ensures 0 <= r < TWO_32
    decreases |lines|
  {
    if lines == [] then h
    else if !found then TombstoneScan(lines[1..], Contains(CStr(lines[0]), BACKTRACE), budget, h)
    else if budget <= 0 then h
    else TombstoneScan(lines[1..], true, budget - 1, HashChars(h, FromSlash(lines[0])))
  }

  /** The hash after the slash texts of all of `lines`. */
  function HashSlashLines(h: int, lines: seq<string>): (r: int)
    requires 0 <= h < TWO_32
    ensures 0 <= r < TWO_32
    decreases |lines|
  {
    if lines == [] then h else HashSlashLines(HashChars(h, FromSlash(lines[0])), lines[1..])
  }

  /** The index of the first chunk whose text holds `marker`. */
  function FirstWith(lines: seq<string>, marker: string): (r: Option<nat>)
    ensures r.Some? ==> r.value < |lines|
  {
    if lines == [] then None
    else if Contains(CStr(lines[0]), marker) then Some(0)
    else
      var rest := FirstWith(lines[1..], marker);
      if rest.Some? then Some(rest.value + 1) else None
  }

  /** `FirstWith` finds the first chunk with the marker, and none only when no chunk has it. */
  lemma {:induction false} FirstWithIsFirst(lines: seq<string>, marker: string)
    ensures FirstWith(lines, marker).Some? ==>
              var b := FirstWith(lines, marker).value;
              Contains(CStr(lines[b]), marker) && forall k :: 0 <= k < b ==> !Contains(CStr(lines[k]), marker)
    ensures FirstWith(lines, marker).None? ==> forall k :: 0 <= k < |lines| ==> !Contains(CStr(lines[k]), marker)
  {
    if lines != [] && !Contains(CStr(lines[0]), marker) {
      FirstWithIsFirst(lines[1..], marker);
    }
  }

  /**
   * `gen_tombstone_hash`, stated directly: 0 for a file that does not open;
   * else the hash of the slash texts of the (at most) five lines after the
   * first "backtrace:" line, or the bare seed without one.
   */
  function TombstoneHash(file: Option<seq<string>>): (r: int)
    ensures 0 <= r < 0x8000_0000
    ensures file.None? ==> r == 0
  {
    match file
    case None => 0
    case Some(lines) =>
      match FirstWith(lines, BACKTRACE)
      case None => Mask31(HASH_SEED)
      case Some(b) => BacktraceHash(lines, b)
  }

  /** The hash of the slash texts of the (at most) five lines after line `b`. */
  function BacktraceHash(lines: seq<string>, b: nat): (r: int)
    requires b < |lines|
    ensures 0 <= r < 0x8000_0000
  {
    Mask31(HashSlashLines(HASH_SEED, lines[b + 1..Min(b + 6, |lines|)]))
  }


  lemma {:induction false} ScanAfterBacktrace(lines: seq<string>, budget: int, h: int)
    requires 0 <= h < TWO_32 && budget >= 0
    decreases |lines|
    ensures TombstoneScan(lines, true, budget, h) == HashSlashLines(h, lines[..Min(budget, |lines|)])
  {
    var n := Min(budget, |lines|);
    if lines == [] || budget == 0 {
      assert lines[..n] == [];
    } else {
      var next := HashChars(h, FromSlash(lines[0]));
      assert TombstoneScan(lines, true, budget, h) == TombstoneScan(lines[1..], true, budget - 1, next);
      ScanAfterBacktrace(lines[1..], budget - 1, next);
      var prefix := lines[..n];
      TailOfTake(lines, n);
      assert HashSlashLines(h, prefix) == HashSlashLines(next, prefix[1..]);
    }
  }

  lemma {:induction false} ScanBeforeBacktrace(lines: seq<string>, h: int)
    requires 0 <= h < TWO_32
    decreases |lines|
    ensures FirstWith(lines, BACKTRACE).None? ==> TombstoneScan(lines, false, 5, h) == h
    ensures FirstWith(lines, BACKTRACE).Some? ==>
              var b := FirstWith(lines, BACKTRACE).value;
              TombstoneScan(lines, false, 5, h) == TombstoneScan(lines[b + 1..], true, 5, h)
  {
    if lines != [] {
      ScanBeforeBacktrace(lines[1..], h);
      if !Contains(CStr(lines[0]), BACKTRACE) {
        var rest := FirstWith(lines[1..], BACKTRACE);
        if rest.Some? {
          DropOfTail(lines, rest.value + 1);
        }
      }
    }
  }

  /** The loop of `gen_tombstone_hash` computes the direct statement. */
  lemma TombstoneScanIsHash(lines: seq<string>)
    ensures Mask31(TombstoneScan(lines, false, 5, HASH_SEED)) == TombstoneHash(Some(lines))
  {
    ScanBeforeBacktrace(lines, HASH_SEED);
    var first := FirstWith(lines, BACKTRACE);
    if first.Some? {
      ScanIsBacktraceHash(lines, first.value);
      assert TombstoneHash(Some(lines)) == BacktraceHash(lines, first.value);
    } else {
      assert TombstoneHash(Some(lines)) == Mask31(HASH_SEED);
    }
  }

  lemma ScanIsBacktraceHash(lines: seq<string>, b: nat)
    requires b < |lines|
    ensures Mask31(TombstoneScan(lines[b + 1..], true, 5, HASH_SEED)) == BacktraceHash(lines, b)
  {
    var n := Min(5, |lines| - b - 1);
    ScanAfterBacktrace(lines[b + 1..], 5, HASH_SEED);
    TakeOfDrop(lines, b + 1, n);
    assert Min(b + 6, |lines|) == b + 1 + n;
  }

  /** Lines after the five hashed ones, or before the backtrace, do not change the hash. */
  lemma TombstoneHashIgnoresLaterLines(lines: seq<string>, more: seq<string>)
    requires FirstWith(lines, BACKTRACE).Some?
    requires FirstWith(lines, BACKTRACE).value + 6 <= |lines|
    ensures TombstoneHash(Some(lines + more)) == TombstoneHash(Some(lines))
  {
    var b := FirstWith(lines, BACKTRACE).value;
    FirstWithPrefix(lines, more, BACKTRACE);
    var all := lines + more;
    assert Min(b + 6, |all|) == b + 6 == Min(b + 6, |lines|);
    SliceOfAppend(lines, more, b + 1, b + 6);
    assert BacktraceHash(all, b) == BacktraceHash(lines, b);
  }

  // Sequence identities, generic so that the solver does not look inside the elements

  lemma TailOfAppend<T>(a: seq<T>, b: seq<T>)
    requires a != []
    ensures (a + b)[0] == a[0] && (a + b)[1..] == a[1..] + b
  {
  }

  lemma TailOfDrop<T>(a: seq<T>, i: nat)
    requires i < |a|
    ensures a[i..][0] == a[i] && a[i..][1..] == a[i + 1..]
  {
  }

  lemma DropOfTail<T>(a: seq<T>, i: nat)
    requires i < |a|
    ensures a[1..][i..] == a[i + 1..]
  {
  }

  lemma TailOfTake<T>(a: seq<T>, n: nat)
    requires 1 <= n <= |a|
    ensures a[..n][0] == a[0] && a[..n][1..] == a[1..][..n - 1]
  {
  }

  lemma TakeOfDrop<T>(a: seq<T>, i: nat, n: nat)
    requires i + n <= |a|
    ensures a[i..][..n] == a[i..i + n]
  {
  }

  /** A slice within the first part of a concatenation is a slice of that part. */
  lemma SliceOfAppend<T>(a: seq<T>, m: seq<T>, i: nat, j: nat)
    requires i <= j <= |a|
    ensures (a + m)[i..j] == a[i..j]
  {
  }

  lemma {:induction false} FirstWithPrefix(lines: seq<string>, more: seq<string>, marker: string)
    requires FirstWith(lines, marker).Some?
    ensures FirstWith(lines + more, marker) == FirstWith(lines, marker)
  {
    if !Contains(CStr(lines[0]), marker) {
      TailOfAppend(lines, more);
      FirstWithPrefix(lines[1..], more, marker);
    }
  }

  /** One step of the scan, on chunk `i`. */
  lemma ScanStep(lines: seq<string>, i: nat, found: bool, budget: int, h: int)
    requires i < |lines| && 0 <= h < TWO_32
    ensures TombstoneScan(lines[i..], found, budget, h) ==
      if !found then TombstoneScan(lines[i + 1..], Contains(CStr(lines[i]), BACKTRACE), budget, h)
      else if budget <= 0 then h
      else TombstoneScan(lines[i + 1..], true, budget - 1, HashChars(h, FromSlash(lines[i])))
  {
    TailOfDrop(lines, i);
  }

  /** `gen_tombstone_hash`. */
  method GenTombstoneHash(file: Option<seq<string>>) returns (hash: int)
    ensures hash == TombstoneHash(file)
  {
    if file.None? {
      return 0;
    }
    var lines := file.value;
    hash := HASH_SEED;
    var btFound := false;
    var maxCheckBt := 5;
    var i := 0;
    while i < |lines|
      invariant 0 <= i <= |lines| && 0 <= hash < TWO_32
      invariant TombstoneScan(lines, false, 5, HASH_SEED) == TombstoneScan(lines[i..], btFound, maxCheckBt, hash)
    {
      var buf := lines[i];
      ScanStep(lines, i, btFound, maxCheckBt, hash);
      if !btFound {
        if Contains(CStr(buf), BACKTRACE) {
          btFound := true;
        }
        i := i + 1;
        continue;
      }
      if maxCheckBt <= 0 {
        maxCheckBt := maxCheckBt - 1;
        break;
      }
      maxCheckBt := maxCheckBt - 1;
      var pos := FindChar(CStr(buf), '/');
      if pos.None? {
        i := i + 1;
        continue;
      }
      hash := HashBuffer(hash, buf, pos.value);
      i := i + 1;
    }
    TombstoneScanIsHash(lines);
    hash := hash % 0x8000_0000;
  }

  // ------------------------------------------------------------ dedup tables

  /**
   * One entry of `dropboxData` or `tombstoneData`; `tag` is the dropbox
   * entry's type index and name (a tombstone entry has none).
   */
  datatype Record<L> = Record(tag: L, hash: int, repeatTimes: int, trigTimes: int, time: int)

  /** The index of the first record with `hash`. */
  function FindHash<L>(table: seq<Record<L>>, hash: int): (r: Option<nat>)
    ensures r.Some? ==> r.value < |table| && table[r.value].hash == hash
    ensures r.Some? ==> forall k :: 0 <= k < r.value ==> table[k].hash != hash
    ensures r.None? ==> forall k :: 0 <= k < |table| ==> table[k].hash != hash
  {
    if table == [] then None
    else if table[0].hash == hash then Some(0)
    else
      var rest := FindHash(table[1..], hash);
      if rest.Some? then Some(rest.value + 1) else None
  }

  /** `dropboxName[k]`: the entry past the 13 names is NULL. */
  function DropboxName(k: nat): (r: Option<string>)
    ensures r.Some? <==> k < NUM_DROPBOX_NAMES
  {
    if k < NUM_DROPBOX_NAMES then Some(DROPBOX_NAMES[k]) else None
  }

  /** The table after a store, and whether a bug report is started. */
  datatype Outcome<L> = Outcome(table: seq<Record<L>>, report: bool)

  /**
   * `store_dropbox_and_trig_bugreport` and `store_tombstone_and_trig_bugreport`
   * on their table: a hash seen at most `window` seconds ago only counts a
   * repeat; one seen earlier counts a repeat and a report and takes the new
   * time; a new hash is appended with one report.
   */
  function Store<L>(table: seq<Record<L>>, info: Record<L>, window: int): (r: Outcome<L>)
  {
    match FindHash(table, info.hash)
    case None => Outcome(table + [info.(trigTimes := 1)], true)
    case Some(i) =>
      var old_ := table[i];
      if info.time - old_.time <= window then Outcome(table[i := old_.(repeatTimes := old_.repeatTimes + 1)], false)
      else Outcome(table[i := old_.(repeatTimes := old_.repeatTimes + 1, trigTimes := old_.trigTimes + 1, time := info.time)], true)
  }

  /** Hashes of a table are distinct, and every record counts 1 <= reports <= occurrences. */
  predicate WellFormed<L>(table: seq<Record<L>>) {
    && (forall a, b :: 0 <= a < b < |table| ==> table[a].hash != table[b].hash)
    && (forall k :: 0 <= k < |table| ==> 1 <= table[k].trigTimes <= table[k].repeatTimes)
  }

  predicate HasHash<L>(table: seq<Record<L>>, h: int) {
    exists k :: 0 <= k < |table| && table[k].hash == h
  }

  /** A store keeps the table well formed and holds exactly the old hashes and the new one. */
  lemma StoreWellFormed<L>(table: seq<Record<L>>, info: Record<L>, window: int)
    requires WellFormed(table) && info.repeatTimes >= 1
    ensures WellFormed(Store(table, info, window).table)
    ensures forall h :: HasHash(Store(table, info, window).table, h) <==> h == info.hash || HasHash(table, h)
  {
    var r := Store(table, info, window).table;
    var f := FindHash(table, info.hash);
    if f.None? {
      assert r == table + [info.(trigTimes := 1)];
      assert r[|table|].hash == info.hash;
      forall h | HasHash(table, h) ensures HasHash(r, h) {
        var k :| 0 <= k < |table| && table[k].hash == h;
        assert r[k].hash == h;
      }
    } else {
      var i := f.value;
      assert |r| == |table| && r[i].hash == info.hash;
      assert forall k :: 0 <= k < |r| ==> r[k].hash == table[k].hash;
      forall h | HasHash(table, h) ensures HasHash(r, h) {
        var k :| 0 <= k < |table| && table[k].hash == h;
        assert r[k].hash == h;
      }
    }
  }

  /** The table's other records are untouched and no record is lost. */
  lemma StoreChangesOneRecord<L>(table: seq<Record<L>>, info: Record<L>, window: int)
    ensures var r := Store(table, info, window).table;
            |table| <= |r| <= |table| + 1 &&
            forall k :: 0 <= k < |table| && table[k].hash != info.hash ==> r[k] == table[k]
  {
  }

  /** Within the window a repeated hash starts no report; after it, it starts one. */
  lemma RepeatWithinWindow<L>(table: seq<Record<L>>, info: Record<L>, later: Record<L>, window: int)
    requires later.hash == info.hash
    ensures var r := Store(Store(table, info, window).table, later, window);
            r.report <==> later.time - StoredTime(table, info, window) > window
  {
    var first := Store(table, info, window).table;
    var f := FindHash(table, info.hash);
    var g := FindHash(first, info.hash);
    if f.None? {
      assert first[|table|].hash == info.hash;
      assert g.Some? && g.value == |table|;
    } else {
      assert first[f.value].hash == info.hash;
      assert g.Some? && g.value == f.value;
    }
  }

  /** The time the record for `info.hash` holds after storing `info`. */
  function StoredTime<L>(table: seq<Record<L>>, info: Record<L>, window: int): int {
    match FindHash(table, info.hash)
    case None => info.time
    case Some(i) => if info.time - table[i].time <= window then table[i].time else info.time
  }

  // ------------------------------------------------------------ events

  /** The first dropbox name that the entry's file name contains, or 13 when none does. */
  function DropboxKind(name: string, from: nat): (k: nat)
    requires from <= NUM_DROPBOX_NAMES
    ensures from <= k <= NUM_DROPBOX_NAMES
    ensures k < NUM_DROPBOX_NAMES ==> Contains(name, DROPBOX_NAMES[k])
    ensures forall j :: from <= j < k ==> !Contains(name, DROPBOX_NAMES[j])
    decreases NUM_DROPBOX_NAMES - from
  {
    if from == NUM_DROPBOX_NAMES then from
    else if Contains(name, DROPBOX_NAMES[from]) then from
    else DropboxKind(name, from + 1)
  }

  /** A dropbox entry is accepted iff one of the first `level` names occurs in its file name. */
  lemma DropboxAccepted(name: string, level: int)
    requires 0 <= level <= NUM_DROPBOX_NAMES
    ensures DropboxKind(name, 0) <= level - 1 <==> exists j :: 0 <= j < level && Contains(name, DROPBOX_NAMES[j])
  {
    var k := DropboxKind(name, 0);
    if k < level {
      assert Contains(name, DROPBOX_NAMES[k]);
    }
  }

  /** With the initial level, a data-app ANR entry is ignored. */
  lemma DataAppAnrIgnoredByDefault()
    ensures DropboxKind("data_app_anr", 0) > DEFAULT_DROPBOX_LEVEL - 1
  {
    var name := "data_app_anr";
    MissingCharNotContained(name, DROPBOX_NAMES[0], 1);
    MissingCharNotContained(name, DROPBOX_NAMES[1], 1);
    MissingCharNotContained(name, DROPBOX_NAMES[2], 1);
    MissingCharNotContained(name, DROPBOX_NAMES[3], 1);
    MissingCharNotContained(name, DROPBOX_NAMES[4], 0);
    MissingCharNotContained(name, DROPBOX_NAMES[5], 0);
    MissingCharNotContained(name, DROPBOX_NAMES[6], 1);
    MissingCharNotContained(name, DROPBOX_NAMES[7], 1);
  }

  /** The watcher's state: the two tables, the level and the bug reports started (reason, time). */
  class Watcher {
    var dropboxData: seq<Record<(int, Option<string>)>>
    var tombstoneData: seq<Record<()>>
    var dropboxLevel: int
    var bugreports: seq<(Option<string>, int)>

    predicate Valid()
      reads this
    {
      WellFormed(dropboxData) && WellFormed(tombstoneData)
    }

    constructor()
      ensures Valid()
      ensures dropboxData == [] && tombstoneData == [] && bugreports == [] && dropboxLevel == DEFAULT_DROPBOX_LEVEL
    {
      dropboxData := [];
      tombstoneData := [];
      dropboxLevel := DEFAULT_DROPBOX_LEVEL;
      bugreports := [];
    }

    /** `store_dropbox_and_trig_bugreport`; returns -1 when no report is started. */
    method StoreDropbox(info: Record<(int, Option<string>)>) returns (r: int)
      requires Valid() && info.repeatTimes >= 1
      modifies this`dropboxData, this`bugreports
      ensures Valid()
      ensures var out := Store(old(dropboxData), info, DROPBOX_MIN_REPEAT_DURATION);
              && dropboxData == out.table
              && (r == 0 <==> out.report) && (r == 0 || r == -1)
              && bugreports == old(bugreports) + (if out.report then [(info.tag.1, info.time)] else [])
    {
      StoreWellFormed(dropboxData, info, DROPBOX_MIN_REPEAT_DURATION);
      var i := 0;
      while i < |dropboxData|
        invariant 0 <= i <= |dropboxData| && dropboxData == old(dropboxData)
        invariant forall k :: 0 <= k < i ==> dropboxData[k].hash != info.hash
      {
        if dropboxData[i].hash == info.hash {
          var entry := dropboxData[i];
          if info.time - entry.time <= DROPBOX_MIN_REPEAT_DURATION {
            dropboxData := dropboxData[i := entry.(repeatTimes := entry.repeatTimes + 1)];
            return -1;
          }
          dropboxData := dropboxData[i := entry.(repeatTimes := entry.repeatTimes + 1,
                                                 trigTimes := entry.trigTimes + 1, time := info.time)];
          bugreports := bugreports + [(info.tag.1, info.time)];
          return 0;
        }
        i := i + 1;
      }
      dropboxData := dropboxData + [info.(trigTimes := 1)];
      bugreports := bugreports + [(info.tag.1, info.time)];
      return 0;
    }

    /** `store_tombstone_and_trig_bugreport`; returns -1 when no report is started. */
    method StoreTombstone(info: Record<()>) returns (r: int)
      requires Valid() && info.repeatTimes >= 1
      modifies this`tombstoneData, this`bugreports
      ensures Valid()
      ensures var out := Store(old(tombstoneData), info, TOMBSTONE_MIN_REPEAT_DURATION);
              && tombstoneData == out.table
              && (r == 0 <==> out.report) && (r == 0 || r == -1)
              && bugreports == old(bugreports) + (if out.report then [(Some(TOMBSTONE_REASON), info.time)] else [])
    {
      StoreWellFormed(tombstoneData, info, TOMBSTONE_MIN_REPEAT_DURATION);
      var i := 0;
      while i < |tombstoneData|
        invariant 0 <= i <= |tombstoneData| && tombstoneData == old(tombstoneData)
        invariant forall k :: 0 <= k < i ==> tombstoneData[k].hash != info.hash
      {
        if tombstoneData[i].hash == info.hash {
          var entry := tombstoneData[i];
          if info.time - entry.time <= TOMBSTONE_MIN_REPEAT_DURATION {
            tombstoneData := tombstoneData[i := entry.(repeatTimes := entry.repeatTimes + 1)];
            return -1;
          }
          tombstoneData := tombstoneData[i := entry.(repeatTimes := entry.repeatTimes + 1,
                                                     trigTimes := entry.trigTimes + 1, time := info.time)];
          bugreports := bugreports + [(Some(TOMBSTONE_REASON), info.time)];
          return 0;
        }
        i := i + 1;
      }
      tombstoneData := tombstoneData + [info.(trigTimes := 1)];
      bugreports := bugreports + [(Some(TOMBSTONE_REASON), info.time)];
      return 0;
    }

    /**
     * `parse_dropbox_event` for an entry named `name` (empty: an event
     * without a name) whose file reads as `file`, at `uptime`: directories,
     * nameless events and entries above the level are ignored (0); a zero
     * hash is an error (-1) and is not stored.
     */
    method ParseDropboxEvent(isDir: bool, name: string, file: Option<seq<string>>, uptime: int) returns (r: int)
      requires Valid()
      modifies this`dropboxData, this`bugreports
      ensures Valid()
      ensures var k := DropboxKind(name, 0);
              var accepted := !isDir && |name| > 0 && k <= dropboxLevel - 1;
              && (r == -1 <==> accepted && FileHash(file) == 0)
              && (r == 0 || r == -1)
              && (accepted && FileHash(file) != 0 ==>
                    var out := Store(old(dropboxData), Record((k, DropboxName(k)), FileHash(file), 1, 0, uptime),
                                     DROPBOX_MIN_REPEAT_DURATION);
                    dropboxData == out.table &&
                    bugreports == old(bugreports) + (if out.report then [(DropboxName(k), uptime)] else []))
              && (!(accepted && FileHash(file) != 0) ==> dropboxData == old(dropboxData) && bugreports == old(bugreports))
    {
      if isDir {
        return 0;
      }
      if |name| > 0 {
        var i := 0;
        while i < NUM_DROPBOX_NAMES
          invariant 0 <= i <= NUM_DROPBOX_NAMES
          invariant DropboxKind(name, 0) == DropboxKind(name, i)
        {
          if Contains(name, DROPBOX_NAMES[i]) {
            break;
          }
          i := i + 1;
        }
        if i > dropboxLevel - 1 {
          return 0;
        }
        var hash := GenFileHash(file);
        if hash == 0 {
          return -1;
        }
        var info := Record((i, DropboxName(i)), hash, 1, 0, uptime);
        var _ := StoreDropbox(info);
      }
      return 0;
    }

    /**
     * `parse_tombstone_event`: directories and protobuf copies (".pb") are
     * ignored, a zero hash is an error (-1) and is not stored.
     */
    method ParseTombstoneEvent(isDir: bool, name: string, file: Option<seq<string>>, uptime: int) returns (r: int)
      requires Valid()
      modifies this`tombstoneData, this`bugreports
      ensures Valid()
      ensures var accepted := !isDir && !Contains(name, ".pb") && |name| > 0;
              && (r == -1 <==> accepted && TombstoneHash(file) == 0)
              && (r == 0 || r == -1)
              && (accepted && TombstoneHash(file) != 0 ==>
                    var out := Store(old(tombstoneData), Record((), TombstoneHash(file), 1, 0, uptime),
                                     TOMBSTONE_MIN_REPEAT_DURATION);
                    tombstoneData == out.table &&
                    bugreports == old(bugreports) + (if out.report then [(Some(TOMBSTONE_REASON), uptime)] else []))
              && (!(accepted && TombstoneHash(file) != 0) ==> tombstoneData == old(tombstoneData) && bugreports == old(bugreports))
    {
      if isDir || Contains(name, ".pb") {
        return 0;
      }
      if |name| > 0 {
        var hash := GenTombstoneHash(file);
        if hash == 0 {
          return -1;
        }
        var info := Record((), hash, 1, 0, uptime);
        var _ := StoreTombstone(info);
      }
      return 0;
    }
  }

}
