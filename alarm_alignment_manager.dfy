/**
 * Screen-off alignment of application alarms (`AlarmAlignmentManager`): the
 * rounding of trigger times to fixed wake-up boundaries, the re-timing of one-shot
 * and repeating alarms, the decision which alarms are aligned at all, and the list
 * of non-wakeup alarms skipped while the screen is off.
 *
 * Times are elapsed-realtime milliseconds. The strategy, alarm-type, flag and
 * window constants belong to `AlarmManager`, which is not part of this model; they
 * are restated here with the values of the Android framework.
 */
module AlarmAlignment {
  import opened Wrappers
  import opened Numerals

  // Alarm types
  const RTC_WAKEUP: int := 0
  const RTC: int := 1
  const ELAPSED_REALTIME_WAKEUP: int := 2
  const ELAPSED_REALTIME: int := 3

  const WINDOW_EXACT: int := 0
  const FLAG_STANDALONE: bv32 := 1
  const FLAG_IDLE_UNTIL: bv32 := 16
  /** `ApplicationInfo.FLAG_SYSTEM`. */
  const FLAG_SYSTEM: bv32 := 1
  /** `UserHandle.PER_USER_RANGE`: uids are allocated in blocks of this size per user. */
  const PER_USER_RANGE: int := 100000

  /** `ScreenOffAlarmStrategy`: only NONE and FIXED2 are acted on here. */
  datatype Strategy = StrategyNone | StrategyFixed2 | StrategyOther(code: int)

  /**
   * `AppAlarmConfig`. A list maps a package to its action pattern; `None` is a
   * null pattern.
   */
  datatype AppAlarmConfig = AppAlarmConfig(
    strategy: Strategy,
    fixedAlignment: int,
    repeatAlignment: int,
    skipShort: int,
    isStrict: bool,
    alignNonWakeup: bool,
    alignSystemAlarm: bool,
    blackList: map<string, Option<string>>,
    whiteList: map<string, Option<string>>)

  /** `AlarmExtraData`: what alignment changed, kept with the alarm. */
  datatype AlarmExtraData = AlarmExtraData(
    orgRepeatInterval: int,
    orgWindowLength: int,
    triggerDelta: int,
    survival: int)

  /** The fields of an `AlarmAlignmentInfo` at one moment. */
  datatype InfoState = InfoState(
    triggerAtTime: int,
    triggerElapsed: int,
    interval: int,
    windowLength: int,
    flags: bv32)

  /** A `PendingIntent`, equal when it denotes the same operation. */
  datatype PendingIntent = PendingIntent(id: int, creatorPackage: Option<string>, creatorUid: int)

  predicate IsWakeupType(alarmType: int) {
    alarmType == ELAPSED_REALTIME_WAKEUP || alarmType == RTC_WAKEUP
  }

  // ------------------------------------------------------------ rounding

  /** The first multiple of `align` after `now`, as `(now / align + 1) * align` with Java division. */
  function FirstBoundary(now: int, align: int): int
    requires align > 0
  {
    (TruncDiv(now, align) + 1) * align
  }

  lemma MulSign(c: int, align: int)
    requires align > 0
    ensures c > 0 ==> c * align >= align
    ensures c <= 0 ==> c * align <= 0
  {
  }

  lemma MultipleMod(k: int, align: int)
    requires align > 0
    ensures (k * align) % align == 0
  {
    var m := (k * align) % align;
    var q := (k * align) / align;
    assert k * align == align * q + m;
    MulSign(k - q, align);
  }

  /** Sums and one-alignment shifts of boundaries are boundaries. */
  lemma BoundaryArith(x: int, y: int, align: int)
    requires align > 0
    ensures x % align == 0 && y % align == 0 ==> (x + y) % align == 0
    ensures x % align == 0 <==> (x + align) % align == 0
  {
    var qx := x / align;
    var qy := y / align;
    assert x == align * qx + x % align;
    assert y == align * qy + y % align;
    if x % align == 0 && y % align == 0 {
      assert x + y == (qx + qy) * align;
      MultipleMod(qx + qy, align);
    }
    var q1 := (x + align) / align;
    assert x + align == align * q1 + (x + align) % align;
    if x % align == 0 {
      assert x + align == (qx + 1) * align;
      MultipleMod(qx + 1, align);
    }
    if (x + align) % align == 0 {
      assert x == (q1 - 1) * align;
      MultipleMod(q1 - 1, align);
    }
  }

  lemma FirstBoundaryIsAfterNow(now: int, align: int)
    requires align > 0
    ensures FirstBoundary(now, align) % align == 0
    ensures FirstBoundary(now, align) > now
    ensures now >= 0 ==> FirstBoundary(now, align) - align <= now
  {
    var q := TruncDiv(now, align);
    MultipleMod(q + 1, align);
    if now >= 0 {
      assert now == align * (now / align) + now % align;
    } else {
      var p := (-now) / align;
      assert -now == align * p + (-now) % align;
    }
  }

  /** The `while (next < trigger) next += align` loop: the first `next + k * align` not below `trigger`. */
  function StepUp(next: int, trigger: int, align: int): (r: int)
    requires align > 0
    ensures r >= trigger && r >= next
    ensures next % align == 0 ==> r % align == 0
    ensures next < trigger ==> next <= r - align < trigger
    decreases trigger - next
  {
    if next >= trigger then next
    else
      BoundaryArith(next, 0, align);
      StepUp(next + align, trigger, align)
  }

  /**
   * `roundToNextWakeup`: `roundType` 0 rounds down, 1 rounds up and anything else
   * to the nearest boundary.
   */
  function Rounded(cfg: AppAlarmConfig, trigger: int, now: int, roundType: int): (r: int)
    ensures cfg.strategy != StrategyFixed2 || cfg.fixedAlignment <= 0 ==> r == trigger
  {
    if cfg.strategy == StrategyNone then trigger
    else
      var align := cfg.fixedAlignment;
      var next0 := if cfg.strategy == StrategyFixed2 && align > 0 then FirstBoundary(now, align) else trigger;
      if trigger <= next0 then next0
      else
        // next0 < trigger only happens with FIXED2 and a positive alignment
        var next := StepUp(next0, trigger, align);
        if next == trigger then next
        else if roundType == 0 then next - align
        else if roundType == 1 then next
        else if next - trigger <= align / 2 then next
        else next - align
  }

  /** With FIXED2 and a positive alignment every result is a boundary after `now`. */
  lemma RoundedIsBoundaryAfterNow(cfg: AppAlarmConfig, trigger: int, now: int, roundType: int)
    requires cfg.strategy == StrategyFixed2 && cfg.fixedAlignment > 0
    ensures Rounded(cfg, trigger, now, roundType) % cfg.fixedAlignment == 0
    ensures Rounded(cfg, trigger, now, roundType) > now
  {
    var align := cfg.fixedAlignment;
    var next0 := FirstBoundary(now, align);
    FirstBoundaryIsAfterNow(now, align);
    if trigger > next0 {
      var next := StepUp(next0, trigger, align);
      BoundaryArith(next - align, 0, align);
    }
  }

  /** Two boundaries less than one alignment apart are equal. */
  lemma BoundaryBetween(lo: int, x: int, hi: int, align: int)
    requires align > 0
    requires x % align == 0 && hi % align == 0
    requires lo < x <= hi && hi - align <= lo
    ensures x == hi
  {
    var qx := x / align;
    var qh := hi / align;
    assert x == align * qx + x % align;
    assert hi == align * qh + hi % align;
    assert hi - x == (qh - qx) * align;
    MulSign(qh - qx, align);
  }

  /**
   * A trigger at or before the first boundary after `now` goes to that boundary,
   * and a trigger on a later boundary stays where it is, whatever the round type.
   */
  lemma RoundedOnBoundaries(cfg: AppAlarmConfig, trigger: int, now: int, roundType: int)
    requires cfg.strategy == StrategyFixed2 && cfg.fixedAlignment > 0
    ensures trigger <= FirstBoundary(now, cfg.fixedAlignment) ==>
              Rounded(cfg, trigger, now, roundType) == FirstBoundary(now, cfg.fixedAlignment)
    ensures trigger > FirstBoundary(now, cfg.fixedAlignment) && trigger % cfg.fixedAlignment == 0 ==>
              Rounded(cfg, trigger, now, roundType) == trigger
    ensures trigger % cfg.fixedAlignment == 0 && now >= 0 && trigger > now ==>
              Rounded(cfg, trigger, now, roundType) == trigger
  {
    var align := cfg.fixedAlignment;
    var next0 := FirstBoundary(now, align);
    FirstBoundaryIsAfterNow(now, align);
    if trigger > next0 && trigger % align == 0 {
      var next := StepUp(next0, trigger, align);
      BoundaryBetween(next - align, trigger, next, align);
    }
    if trigger % align == 0 && now >= 0 && trigger > now && trigger <= next0 {
      BoundaryBetween(now, trigger, next0, align);
    }
  }

  /**
   * A trigger between two boundaries: type 0 takes the one below, type 1 the one
   * above, any other type the nearer one with ties going up.
   */
  lemma RoundTypeMeaning(cfg: AppAlarmConfig, trigger: int, now: int, roundType: int)
    requires cfg.strategy == StrategyFixed2 && cfg.fixedAlignment > 0
    requires trigger > FirstBoundary(now, cfg.fixedAlignment) && trigger % cfg.fixedAlignment != 0
    ensures var r := Rounded(cfg, trigger, now, roundType);
            var align := cfg.fixedAlignment;
            r % align == 0 &&
            (roundType == 0 ==> r < trigger < r + align) &&
            (roundType == 1 ==> r - align < trigger < r) &&
            (roundType != 0 && roundType != 1 ==>
               (r > trigger && r - trigger <= align / 2) ||
               (r < trigger && r + align - trigger > align / 2))
  {
    RoundedIsBoundaryAfterNow(cfg, trigger, now, roundType);
    FirstBoundaryIsAfterNow(now, cfg.fixedAlignment);
  }

  // ------------------------------------------------------------ rounding on `long`

  /**
   * The stepping loop as the source runs it on `long`: `next += align` wraps
   * around past `Long.MAX_VALUE`. `None` means `fuel` steps did not end the loop.
   */
  function StepUpLong(next: int, trigger: int, align: int, fuel: nat): (r: Option<int>)
    requires IsInt64(next)
    ensures r.Some? ==> r.value >= trigger && IsInt64(r.value)
    ensures next >= trigger ==> r == Some(next)
    decreases fuel
  {
    if next >= trigger then Some(next)
    else if fuel == 0 then None
    else StepUpLong(Wrap64(next + align), trigger, align, fuel - 1)
  }

  /**
   * `roundToNextWakeup` with every step in `long` arithmetic; `None` when its
   * stepping loop has not ended within `fuel` steps.
   */
  function RoundedLong(cfg: AppAlarmConfig, trigger: int, now: int, roundType: int, fuel: nat): (r: Option<int>)
    requires IsInt64(trigger) && IsInt64(now) && IsInt64(cfg.fixedAlignment)
    ensures r.Some? ==> IsInt64(r.value)
    ensures cfg.strategy != StrategyFixed2 || cfg.fixedAlignment <= 0 ==> r == Some(trigger)
  {
    if cfg.strategy == StrategyNone then Some(trigger)
    else
      var align := cfg.fixedAlignment;
      var next0 := if cfg.strategy == StrategyFixed2 && align > 0
                   then Wrap64(FirstBoundary(now, align)) else trigger;
      if trigger <= next0 then Some(next0)
      else match StepUpLong(next0, trigger, align, fuel)
        case None => None
        case Some(next) =>
          if next == trigger then Some(next)
          else if roundType == 0 then Some(Wrap64(next - align))
          else if roundType == 1 then Some(next)
          else if Wrap64(next - trigger) <= align / 2 then Some(next)
          else Some(Wrap64(next - align))
  }

  /** Without a boundary past `Long.MAX_VALUE`, the `long` loop steps as the unbounded one does. */
  lemma {:induction false} StepUpLongAgrees(next: int, trigger: int, align: int, fuel: nat)
    requires align > 0 && IsInt64(next)
    requires StepUp(next, trigger, align) <= LONG_MAX && fuel * align >= trigger - next
    ensures StepUpLong(next, trigger, align, fuel) == Some(StepUp(next, trigger, align))
    decreases fuel
  {
    if next < trigger {
      var n1 := next + align;
      assert StepUp(next, trigger, align) == StepUp(n1, trigger, align);
      assert fuel > 0;
      assert (fuel - 1) * align == fuel * align - align;
      StepUpLongAgrees(n1, trigger, align, fuel - 1);
    }
  }

  /**
   * Where the boundary reached stays within `long` and the loop is given enough
   * steps, the source's `long` rounding is the unbounded `Rounded`.
   */
  lemma RoundedLongAgrees(cfg: AppAlarmConfig, trigger: int, now: int, roundType: int, fuel: nat)
    requires IsInt64(trigger) && IsInt64(now) && IsInt64(cfg.fixedAlignment)
    requires cfg.strategy == StrategyFixed2 && cfg.fixedAlignment > 0 ==>
               StepUp(FirstBoundary(now, cfg.fixedAlignment), trigger, cfg.fixedAlignment) <= LONG_MAX
               && fuel * cfg.fixedAlignment >= trigger - now
    ensures RoundedLong(cfg, trigger, now, roundType, fuel) == Some(Rounded(cfg, trigger, now, roundType))
  {
    var align := cfg.fixedAlignment;
    if cfg.strategy == StrategyFixed2 && align > 0 {
      var next0 := FirstBoundary(now, align);
      FirstBoundaryIsAfterNow(now, align);
      assert IsInt64(next0) && Wrap64(next0) == next0;
      if trigger > next0 {
        StepUpLongAgrees(next0, trigger, align, fuel);
        SteppedRoundingAgrees(cfg, trigger, now, roundType, fuel);
      } else {
        assert RoundedLong(cfg, trigger, now, roundType, fuel) == Some(next0);
      }
    } else {
      assert RoundedLong(cfg, trigger, now, roundType, fuel) == Some(trigger);
    }
  }

  /** Once the `long` loop has stepped as the unbounded one, the round-type choice agrees too. */
  lemma SteppedRoundingAgrees(cfg: AppAlarmConfig, trigger: int, now: int, roundType: int, fuel: nat)
    requires IsInt64(trigger) && IsInt64(now) && IsInt64(cfg.fixedAlignment)
    requires cfg.strategy == StrategyFixed2 && cfg.fixedAlignment > 0
    requires IsInt64(FirstBoundary(now, cfg.fixedAlignment)) && trigger > FirstBoundary(now, cfg.fixedAlignment)
    requires StepUp(FirstBoundary(now, cfg.fixedAlignment), trigger, cfg.fixedAlignment) <= LONG_MAX
    requires StepUpLong(FirstBoundary(now, cfg.fixedAlignment), trigger, cfg.fixedAlignment, fuel)
             == Some(StepUp(FirstBoundary(now, cfg.fixedAlignment), trigger, cfg.fixedAlignment))
    ensures RoundedLong(cfg, trigger, now, roundType, fuel) == Some(Rounded(cfg, trigger, now, roundType))
  {
    var align := cfg.fixedAlignment;
    var next0 := FirstBoundary(now, align);
    var next := StepUp(next0, trigger, align);
    var r := Rounded(cfg, trigger, now, roundType);
    assert r == (if next == trigger then next
                 else if roundType == 0 then next - align
                 else if roundType == 1 then next
                 else if next - trigger <= align / 2 then next
                 else next - align);
    assert RoundedLong(cfg, trigger, now, roundType, fuel) == Some(r) by {
      assert Wrap64(next0) == next0;
      assert Wrap64(next - align) == next - align && Wrap64(next - trigger) == next - trigger;
    }
  }

  /** Wrapping to 64 bits keeps a value's parity, 2^64 being even. */
  lemma Wrap64KeepsEven(x: int)
    requires x % 2 == 0
    ensures Wrap64(x) % 2 == 0
  {
    var q := x / TWO_64;
    assert x == TWO_64 * q + x % TWO_64;
  }

  /** An even `next` stepped by an even alignment is never the odd `Long.MAX_VALUE`: the loop never ends. */
  lemma {:induction false} StepUpLongNeverReachesMax(next: int, align: int, fuel: nat)
    requires IsInt64(next) && next % 2 == 0 && align % 2 == 0
    ensures StepUpLong(next, LONG_MAX, align, fuel) == None
    decreases fuel
  {
    if fuel > 0 {
      Wrap64KeepsEven(next + align);
      StepUpLongNeverReachesMax(Wrap64(next + align), align, fuel - 1);
    }
  }

  /**
   * `roundToNextWakeup(Long.MAX_VALUE, 0, 0)` under FIXED2 with a 300000 ms
   * alignment: the source's loop does not end in any number of steps, while
   * the rounding it evidently intends is 9223372036854600000.
   */
  lemma RoundToNextWakeupHangs(cfg: AppAlarmConfig, fuel: nat)
    requires cfg.strategy == StrategyFixed2 && cfg.fixedAlignment == 300000
    ensures RoundedLong(cfg, LONG_MAX, 0, 0, fuel) == None
    ensures Rounded(cfg, LONG_MAX, 0, 0) == 9223372036854600000
  {
    var align := 300000;
    assert FirstBoundary(0, align) == align;
    StepUpLongNeverReachesMax(align, align, fuel);
    var next := StepUp(align, LONG_MAX, align);
    var c := 9223372036854900000;
    MultipleMod(30744573456183, align);
    assert c % align == 0;
    if next <= c {
      BoundaryBetween(c - align, next, c, align);
    } else {
      BoundaryBetween(next - align, c, next, align);
    }
  }

  // ------------------------------------------------------------ alignment

  /** The skip-short rule: an alarm due within `skipShort` of now is left alone. */
  predicate SkipsShort(cfg: AppAlarmConfig, now: int, triggerElapsed: int) {
    cfg.skipShort > 0 && triggerElapsed <= now + cfg.skipShort
  }

  /** The interval after extension: a short positive repeat interval grows to the repeat alignment. */
  function ExtendedInterval(cfg: AppAlarmConfig, interval: int): (r: int)
    ensures interval > 0 ==> r == (if cfg.repeatAlignment > interval then cfg.repeatAlignment else interval)
    ensures interval <= 0 ==> r == interval
  {
    if interval > 0 && cfg.repeatAlignment > 0 && interval < cfg.repeatAlignment then cfg.repeatAlignment
    else interval
  }

  /** Whether a one-shot alarm that was not skipped is moved to a boundary. */
  predicate AlignsTrigger(cfg: AppAlarmConfig, alarmType: int, interval: int) {
    (ExtendedInterval(cfg, interval) <= 0 || cfg.isStrict)
    && (IsWakeupType(alarmType) || cfg.alignNonWakeup)
    && cfg.strategy == StrategyFixed2
  }

  datatype Alignment = Alignment(info: InfoState, extra: Option<AlarmExtraData>)

  /**
   * The FIXED2 branch of `alignAppAlarm`: the elapsed trigger goes to the boundary
   * at or below it, the RTC or elapsed trigger time follows, the window becomes
   * exact and the alarm standalone. The second component is the trigger delta.
   */
  function MoveToBoundary(cfg: AppAlarmConfig, alarmType: int, now: int, nominal: int, minTrigger: int,
                          i: InfoState): (r: (InfoState, int))
  {
    var rounded := Rounded(cfg, i.triggerElapsed, now, 0);
    var delta := rounded - i.triggerElapsed;
    var at :=
      if delta == 0 then i.triggerAtTime
      else if alarmType == RTC_WAKEUP || alarmType == RTC then
        i.triggerAtTime + delta + (if nominal < minTrigger then minTrigger - nominal else 0)
      else rounded;
    (i.(triggerAtTime := at, triggerElapsed := rounded, windowLength := WINDOW_EXACT,
        flags := i.flags | FLAG_STANDALONE),
     delta)
  }

  /** `alignAppAlarm` on the fields of a non-null `info`. */
  function AlignApp(cfg: AppAlarmConfig, alarmType: int, now: int, nominal: int, minTrigger: int,
                    i: InfoState): (r: Alignment)
    ensures r.extra.None? <==> SkipsShort(cfg, now, i.triggerElapsed)
    ensures r.extra.None? ==> r.info == i
    ensures r.extra.Some? ==> r.extra.value.orgRepeatInterval == i.interval
                              && r.extra.value.orgWindowLength == i.windowLength
                              && r.extra.value.survival == 0
  {
    if SkipsShort(cfg, now, i.triggerElapsed) then Alignment(i, None)
    else
      var extra := AlarmExtraData(i.interval, i.windowLength, 0, 0);
      var i1 := i.(interval := ExtendedInterval(cfg, i.interval));
      if AlignsTrigger(cfg, alarmType, i.interval) then
        var m := MoveToBoundary(cfg, alarmType, now, nominal, minTrigger, i1);
        Alignment(m.0, Some(extra.(triggerDelta := m.1)))
      else Alignment(i1, Some(extra))
  }

  /**
   * What an aligned one-shot alarm looks like: its elapsed trigger moved by exactly
   * the recorded delta onto a boundary after now, an RTC trigger moved by the same
   * delta (plus the minimum-trigger correction), an elapsed trigger time set to the
   * boundary, an exact window and the standalone flag added to the others.
   */
  lemma AlignAppMovesToBoundary(cfg: AppAlarmConfig, alarmType: int, now: int, nominal: int, minTrigger: int,
                                i: InfoState)
    requires !SkipsShort(cfg, now, i.triggerElapsed) && AlignsTrigger(cfg, alarmType, i.interval)
    requires cfg.fixedAlignment > 0
    ensures var r := AlignApp(cfg, alarmType, now, nominal, minTrigger, i);
            r.extra.Some? &&
            r.info.triggerElapsed == i.triggerElapsed + r.extra.value.triggerDelta &&
            r.info.triggerElapsed % cfg.fixedAlignment == 0 && r.info.triggerElapsed > now &&
            (r.extra.value.triggerDelta != 0 && (alarmType == RTC_WAKEUP || alarmType == RTC) ==>
               r.info.triggerAtTime == i.triggerAtTime + r.extra.value.triggerDelta
                                       + (if nominal < minTrigger then minTrigger - nominal else 0)) &&
            (r.extra.value.triggerDelta != 0 && alarmType != RTC_WAKEUP && alarmType != RTC ==>
               r.info.triggerAtTime == r.info.triggerElapsed) &&
            r.info.windowLength == WINDOW_EXACT &&
            r.info.flags & FLAG_STANDALONE != 0 &&
            r.info.flags & i.flags == i.flags &&
            r.info.interval == ExtendedInterval(cfg, i.interval)
  {
    RoundedIsBoundaryAfterNow(cfg, i.triggerElapsed, now, 0);
  }

  /** An alarm that is not moved keeps its trigger, window and flags; only its interval may grow. */
  lemma AlignAppKeepsUnalignedTrigger(cfg: AppAlarmConfig, alarmType: int, now: int, nominal: int,
                                      minTrigger: int, i: InfoState)
    requires !AlignsTrigger(cfg, alarmType, i.interval)
    ensures var r := AlignApp(cfg, alarmType, now, nominal, minTrigger, i);
            r.info == i.(interval := r.info.interval) &&
            (r.extra.Some? ==> r.info.interval == ExtendedInterval(cfg, i.interval) && r.extra.value.triggerDelta == 0)
  {
  }

  /** `Alarm.ensureExtra`: keeps an existing extra, otherwise installs `created`. */
  function EnsureExtra(extra: Option<AlarmExtraData>, created: AlarmExtraData): (r: AlarmExtraData)
    ensures extra.Some? ==> r == extra.value
  {
    if extra.Some? then extra.value else created
  }

  /** `alignRepeatAppAlarmLocked` on the alarm's extra and the fields of a non-null `info`. */
  function AlignRepeat(cfg: AppAlarmConfig, extra: Option<AlarmExtraData>, created: AlarmExtraData,
                       nextElapsed: int, now: int, i: InfoState): (r: (Option<AlarmExtraData>, InfoState))
    ensures cfg.strategy != StrategyFixed2 || SkipsShort(cfg, now, i.triggerElapsed) ==> r == (extra, i)
    ensures cfg.strategy == StrategyFixed2 && !SkipsShort(cfg, now, i.triggerElapsed) ==> r.0.Some?
  {
    if cfg.strategy != StrategyFixed2 || SkipsShort(cfg, now, i.triggerElapsed) then (extra, i)
    else
      var delta := Rounded(cfg, nextElapsed, now, 0) - nextElapsed;
      var e := EnsureExtra(extra, created);
      var e1 := if delta != 0 then e.(triggerDelta := delta) else e;
      (Some(e1), i.(triggerAtTime := i.triggerAtTime + delta, triggerElapsed := i.triggerElapsed + delta,
                    windowLength := WINDOW_EXACT, flags := i.flags | FLAG_STANDALONE))
  }

  /**
   * A repeating alarm that is aligned moves both trigger times by the distance from
   * `nextElapsed` to its boundary, which lies after now; a non-zero distance is
   * recorded in the extra, whose other fields are those it already had.
   */
  lemma AlignRepeatShiftsBothTriggers(cfg: AppAlarmConfig, extra: Option<AlarmExtraData>,
                                      created: AlarmExtraData, nextElapsed: int, now: int, i: InfoState)
    requires cfg.strategy == StrategyFixed2 && cfg.fixedAlignment > 0
    requires !SkipsShort(cfg, now, i.triggerElapsed)
    ensures var r := AlignRepeat(cfg, extra, created, nextElapsed, now, i);
            var delta := r.1.triggerElapsed - i.triggerElapsed;
            r.1.triggerAtTime - i.triggerAtTime == delta &&
            (nextElapsed + delta) % cfg.fixedAlignment == 0 && nextElapsed + delta > now &&
            r.0.Some? &&
            (delta != 0 ==> r.0.value == EnsureExtra(extra, created).(triggerDelta := delta)) &&
            (delta == 0 ==> r.0.value == EnsureExtra(extra, created)) &&
            r.1.interval == i.interval && r.1.windowLength == WINDOW_EXACT &&
            r.1.flags & FLAG_STANDALONE != 0 && r.1.flags & i.flags == i.flags
  {
    RoundedIsBoundaryAfterNow(cfg, nextElapsed, now, 0);
  }

  // ------------------------------------------------------------ filtering

  /** A list entry whose pattern is null or empty applies to every action. */
  predicate ListHit(list: map<string, Option<string>>, pkg: string, action: Option<string>,
                    matches: (string, string) -> bool)
  {
    pkg in list &&
    (list[pkg].None? || |list[pkg].value| == 0 ||
     (action.Some? && matches(list[pkg].value, action.value)))
  }

  /** The package names tried when the package manager cannot be reached. */
  predicate IsPlatformPackageName(pkg: string) {
    pkg == "android"
    || (|pkg| >= 12 && pkg[..12] == "com.android.")
    || (|pkg| >= 10 && pkg[..10] == "com.intel.")
    || (|pkg| >= 11 && pkg[..11] == "com.google.")
  }

  /**
   * `isFilteredAppAlarm`. `pkg` is `None` for a system alarm, `action` is the
   * intent's action, `appFlags` is the package manager's `ApplicationInfo.flags`
   * (`None` when it gives none) and `matches` is `Pattern.matches`.
   */
  function IsFilteredAppAlarm(cfg: AppAlarmConfig, pkg: Option<string>, action: Option<string>,
                              hasAlarmClock: bool, flags: bv32, appFlags: Option<bv32>,
                              matches: (string, string) -> bool): (r: bool)
    ensures flags & FLAG_IDLE_UNTIL != 0 || hasAlarmClock ==> !r
    ensures flags & FLAG_IDLE_UNTIL == 0 && !hasAlarmClock && pkg.None? ==> r == cfg.alignSystemAlarm
  {
    if flags & FLAG_IDLE_UNTIL != 0 then false
    else if hasAlarmClock then false
    else if pkg.None? then cfg.alignSystemAlarm
    else if ListHit(cfg.blackList, pkg.value, action, matches) then true
    else if ListHit(cfg.whiteList, pkg.value, action, matches) then false
    else if !cfg.alignSystemAlarm then
      if appFlags.Some? then appFlags.value & FLAG_SYSTEM == 0
      else !IsPlatformPackageName(pkg.value)
    else true
  }

  /** The blacklist is consulted first: a blacklisted alarm is filtered even when it is also whitelisted. */
  lemma BlackListBeforeWhiteList(cfg: AppAlarmConfig, pkg: string, action: Option<string>, flags: bv32,
                                 appFlags: Option<bv32>, matches: (string, string) -> bool)
    requires flags & FLAG_IDLE_UNTIL == 0
    ensures ListHit(cfg.blackList, pkg, action, matches) ==>
              IsFilteredAppAlarm(cfg, Some(pkg), action, false, flags, appFlags, matches)
    ensures !ListHit(cfg.blackList, pkg, action, matches) && ListHit(cfg.whiteList, pkg, action, matches) ==>
              !IsFilteredAppAlarm(cfg, Some(pkg), action, false, flags, appFlags, matches)
  {
  }

  /**
   * A package on neither list is aligned when system alarms are, and otherwise
   * exactly when it is not a system application (by its package-manager flags, or
   * failing those by its name).
   */
  lemma UnlistedPackageDecision(cfg: AppAlarmConfig, pkg: string, action: Option<string>, flags: bv32,
                                appFlags: Option<bv32>, matches: (string, string) -> bool)
    requires flags & FLAG_IDLE_UNTIL == 0
    requires !ListHit(cfg.blackList, pkg, action, matches) && !ListHit(cfg.whiteList, pkg, action, matches)
    ensures IsFilteredAppAlarm(cfg, Some(pkg), action, false, flags, appFlags, matches) <==>
              cfg.alignSystemAlarm ||
              (appFlags.Some? && appFlags.value & FLAG_SYSTEM == 0) ||
              (appFlags.None? && !IsPlatformPackageName(pkg))
  {
  }

  /** `decreaseSurvivalLocked` on a present extra. */
  function DecreasedSurvival(e: AlarmExtraData): (r: AlarmExtraData)
    ensures r == e.(survival := r.survival)
    ensures r.survival <= e.survival && r.survival >= e.survival - 1
    ensures r.survival < e.survival <==> e.survival > 0
  {
    if e.survival > 0 then e.(survival := e.survival - 1) else e
  }

  function DecreasedTimes(e: AlarmExtraData, n: nat): AlarmExtraData
    decreases n
  {
    if n == 0 then e else DecreasedTimes(DecreasedSurvival(e), n - 1)
  }

  /**
   * Survival never goes below zero from a non-negative start, and after at least
   * `survival` decreases it is spent, so the alarm becomes filtered again.
   */
  lemma {:induction false} SurvivalRunsOut(e: AlarmExtraData, n: nat)
    requires e.survival >= 0
    decreases n
    ensures DecreasedTimes(e, n).survival >= 0
    ensures n >= e.survival ==> DecreasedTimes(e, n).survival == 0
    ensures DecreasedTimes(e, n) == e.(survival := DecreasedTimes(e, n).survival)
  {
    if n > 0 {
      SurvivalRunsOut(DecreasedSurvival(e), n - 1);
    }
  }

  /** `UserHandle.getUserId`. */
  function UserId(uid: int): int {
    TruncDiv(uid, PER_USER_RANGE)
  }

  /** How a skipped alarm is selected for removal (the three overloads). */
  datatype Selector = ByOperation(operation: PendingIntent) | ByPackage(packageName: string) | ByUser(userHandle: int)

  /** An `AlarmManagerService.Alarm`: the parts alignment reads, with its mutable extra. */
  class Alarm {
    const operation: Option<PendingIntent>
    const hasAlarmClock: bool
    const flags: bv32
    var extra: Option<AlarmExtraData>

    constructor (operation: Option<PendingIntent>, hasAlarmClock: bool, flags: bv32, extra: Option<AlarmExtraData>)
      ensures this.operation == operation && this.hasAlarmClock == hasAlarmClock && this.flags == flags
      ensures this.extra == extra
    {
      this.operation := operation;
      this.hasAlarmClock := hasAlarmClock;
      this.flags := flags;
      this.extra := extra;
    }
  }

  predicate Selects(s: Selector, a: Alarm?) {
    a != null && a.operation.Some? &&
    match s
    case ByOperation(op) => a.operation.value == op
    case ByPackage(pkg) => a.operation.value.creatorPackage == Some(pkg)
    case ByUser(u) => UserId(a.operation.value.creatorUid) == u
  }

  /** The list without the selected alarms. */
  function Without(alarms: seq<Alarm?>, s: Selector): seq<Alarm?> {
    if alarms == [] then []
    else if Selects(s, alarms[0]) then Without(alarms[1..], s)
    else [alarms[0]] + Without(alarms[1..], s)
  }

  /** `Without` from position `i`: the alarm there, unless selected, then the rest. */
  lemma WithoutStep(alarms: seq<Alarm?>, i: nat, s: Selector)
    requires i < |alarms|
    ensures Without(alarms[i..], s) ==
      (if Selects(s, alarms[i]) then [] else [alarms[i]]) + Without(alarms[i + 1..], s)
  {
    assert alarms[i..][0] == alarms[i] && alarms[i..][1..] == alarms[i + 1..];
  }

  /** Removing element `i` from a prefix-then-rest sequence. */
  lemma DropAt<T>(a: seq<T>, w: seq<T>, i: nat)
    requires i < |a|
    ensures (a[..i + 1] + w)[i] == a[i]
    ensures (a[..i + 1] + w)[..i] + (a[..i + 1] + w)[i + 1..] == a[..i] + ([] + w)
  {
    assert (a[..i + 1] + w)[..i] == a[..i];
    assert (a[..i + 1] + w)[i + 1..] == w;
  }

  /** Keeping element `i`: it moves from the prefix to the front of the rest. */
  lemma KeepAt<T>(a: seq<T>, w: seq<T>, i: nat)
    requires i < |a|
    ensures (a[..i + 1] + w)[i] == a[i]
    ensures a[..i + 1] + w == a[..i] + ([a[i]] + w)
  {
    assert a[..i + 1] == a[..i] + [a[i]];
  }

  lemma {:induction false} WithoutAppend(a: seq<Alarm?>, b: seq<Alarm?>, s: Selector)
    ensures Without(a + b, s) == Without(a, s) + Without(b, s)
  {
    if a != [] {
      assert (a + b)[0] == a[0];
      assert (a + b)[1..] == a[1..] + b;
      WithoutAppend(a[1..], b, s);
    } else {
      assert a + b == b;
    }
  }

  /** Removal leaves no selected alarm and keeps every other one, in order. */
  lemma {:induction false} WithoutMeaning(alarms: seq<Alarm?>, s: Selector)
    ensures forall a :: a in Without(alarms, s) ==> !Selects(s, a) && a in alarms
    ensures (forall k :: 0 <= k < |alarms| ==> !Selects(s, alarms[k])) ==> Without(alarms, s) == alarms
    ensures forall a :: a in alarms && !Selects(s, a) ==> a in Without(alarms, s)
  {
    if alarms != [] {
      WithoutMeaning(alarms[1..], s);
      assert alarms == [alarms[0]] + alarms[1..];
      if forall k :: 0 <= k < |alarms| ==> !Selects(s, alarms[k]) {
        assert forall k :: 0 <= k < |alarms[1..]| ==> !Selects(s, alarms[1..][k]) by {
          forall k | 0 <= k < |alarms[1..]| ensures !Selects(s, alarms[1..][k]) {
            assert alarms[1..][k] == alarms[k + 1];
          }
        }
      }
    }
  }

  /** `AlarmAlignmentManager`: the loaded configuration and the skipped non-wakeup alarms. */
  class AlarmAlignmentManager {
    var config: AppAlarmConfig
    var skipped: seq<Alarm?>

    constructor (config: AppAlarmConfig)
      ensures this.config == config && skipped == []
    {
      this.config := config;
      skipped := [];
    }

    /** `roundToNextWakeup`, with its stepping loop. */
    method RoundToNextWakeup(trigger: int, now: int, roundType: int) returns (rounded: int)
      ensures rounded == Rounded(config, trigger, now, roundType)
    {
      var align := config.fixedAlignment;
      rounded := trigger;
      if config.strategy != StrategyNone {
        var next := trigger;
        if config.strategy == StrategyFixed2 && align > 0 {
          next := FirstBoundary(now, align);
        }
        if trigger <= next {
          rounded := next;
        } else {
          ghost var next0 := next;
          while next < trigger
            invariant config.strategy == StrategyFixed2 && align > 0
            invariant StepUp(next, trigger, align) == StepUp(next0, trigger, align)
            decreases trigger - next
          {
            if config.strategy == StrategyFixed2 {
              next := next + align;
            }
          }
          if next == trigger {
            rounded := next;
          } else if roundType == 0 {
            if config.strategy == StrategyFixed2 {
              rounded := next - align;
            }
          } else if roundType == 1 {
            rounded := next;
          } else if config.strategy == StrategyFixed2 {
            if next - trigger <= align / 2 {
              rounded := next;
            } else {
              rounded := next - align;
            }
          }
        }
      }
    }

    /** `alignAppAlarm`: `None` is a null result; a null `info` is left as it is. */
    method AlignAppAlarm(alarmType: int, now: int, nominal: int, minTrigger: int, info: AlarmAlignmentInfo?)
      returns (extra: Option<AlarmExtraData>)
      modifies info
      ensures info == null ==> extra.None?
      ensures info != null ==>
                info.State() == AlignApp(config, alarmType, now, nominal, minTrigger, old(info.State())).info
                && extra == AlignApp(config, alarmType, now, nominal, minTrigger, old(info.State())).extra
    {
      extra := None;
      if info != null {
        if config.skipShort > 0 && info.triggerElapsed <= now + config.skipShort {
        } else {
          var e := AlarmExtraData(info.interval, info.windowLength, 0, 0);
          if info.interval > 0 {
            if config.repeatAlignment > 0 && info.interval < config.repeatAlignment {
              info.interval := config.repeatAlignment;
            }
          }
          if (info.interval <= 0 || config.isStrict) && (IsWakeupType(alarmType) || config.alignNonWakeup) {
            if config.strategy == StrategyFixed2 {
              var delta := MoveAlarmToBoundary(alarmType, now, nominal, minTrigger, info);
              e := e.(triggerDelta := delta);
            }
          }
          extra := Some(e);
        }
      }
    }

    /** Lines 123-149 of `alignAppAlarm`, on a non-null `info`. */
    method MoveAlarmToBoundary(alarmType: int, now: int, nominal: int, minTrigger: int, info: AlarmAlignmentInfo)
      returns (delta: int)
      modifies info
      ensures (info.State(), delta) == MoveToBoundary(config, alarmType, now, nominal, minTrigger, old(info.State()))
    {
      ghost var m := MoveToBoundary(config, alarmType, now, nominal, minTrigger, info.State());
      var rounded := RoundToNextWakeup(info.triggerElapsed, now, 0);
      delta := rounded - info.triggerElapsed;
      assert delta == m.1;
      if delta != 0 {
        if RTC_WAKEUP == alarmType || RTC == alarmType {
          info.triggerAtTime := info.triggerAtTime + delta;
          if nominal < minTrigger {
            info.triggerAtTime := info.triggerAtTime + (minTrigger - nominal);
          }
        } else {
          info.triggerAtTime := rounded;
        }
        info.triggerElapsed := rounded;
      }
      info.windowLength := WINDOW_EXACT;
      info.flags := info.flags | FLAG_STANDALONE;
      assert info.triggerAtTime == m.0.triggerAtTime;
      assert info.State() == m.0;
    }

    /** `alignRepeatAppAlarmLocked`; `created` is the extra `alarm.ensureExtra()` would create. */
    method AlignRepeatAppAlarm(alarm: Alarm, nextElapsed: int, now: int, info: AlarmAlignmentInfo?,
                               created: AlarmExtraData)
      modifies alarm, info
      ensures info == null ==> alarm.extra == old(alarm.extra)
      ensures info != null ==>
                (alarm.extra, info.State())
                == AlignRepeat(config, old(alarm.extra), created, nextElapsed, now, old(info.State()))
    {
      if info != null && config.strategy == StrategyFixed2 {
        if config.skipShort > 0 && info.triggerElapsed <= now + config.skipShort {
        } else {
          var rounded := RoundToNextWakeup(nextElapsed, now, 0);
          var delta := rounded - nextElapsed;
          if delta != 0 {
            alarm.extra := Some(EnsureExtra(alarm.extra, created));
            alarm.extra := Some(alarm.extra.value.(triggerDelta := delta));
            info.triggerAtTime := info.triggerAtTime + delta;
            info.triggerElapsed := info.triggerElapsed + delta;
          }
          alarm.extra := Some(EnsureExtra(alarm.extra, created));
          info.windowLength := WINDOW_EXACT;
          info.flags := info.flags | FLAG_STANDALONE;
        }
      }
    }

    /** `addSkippedNonWakeupAlarmLocked`. */
    method AddSkippedNonWakeupAlarm(a: Alarm?)
      modifies this`skipped
      ensures skipped == old(skipped) + [a]
    {
      skipped := skipped + [a];
    }

    /** `lookForSkippedNonWakeupAlarmLocked`: some skipped alarm was created by `packageName`. */
    method LookForSkippedNonWakeupAlarm(packageName: string) returns (found: bool)
      ensures found <==> exists k :: 0 <= k < |skipped| && Selects(ByPackage(packageName), skipped[k])
    {
      found := false;
      var i := 0;
      while i < |skipped|
        invariant 0 <= i <= |skipped|
        invariant !found
        invariant forall k :: 0 <= k < i ==> !Selects(ByPackage(packageName), skipped[k])
      {
        var a := skipped[i];
        if a != null && a.operation.Some? {
          var pkg := a.operation.value.creatorPackage;
          if pkg.Some? && pkg.value == packageName {
            found := true;
            return;
          }
        }
        i := i + 1;
      }
    }

    /** The reverse-index removal loop the three overloads share. */
    method RemoveSkipped(s: Selector)
      modifies this`skipped
      ensures skipped == Without(old(skipped), s)
    {
      ghost var s0 := skipped;
      var i := |skipped| - 1;
      while i >= 0
        invariant -1 <= i < |s0|
        invariant skipped == s0[..i + 1] + Without(s0[i + 1..], s)
        decreases i
      {
        var a := skipped[i];
        WithoutStep(s0, i, s);
        if Selects(s, a) {
          DropAt(s0, Without(s0[i + 1..], s), i);
          skipped := skipped[..i] + skipped[i + 1..];
        } else {
          KeepAt(s0, Without(s0[i + 1..], s), i);
        }
        i := i - 1;
      }
      assert s0[0..] == s0;
    }

    /** `removeSkippedNonWakeupAlarmLocked(PendingIntent)`. */
    method RemoveSkippedByOperation(operation: PendingIntent)
      modifies this`skipped
      ensures skipped == Without(old(skipped), ByOperation(operation))
    {
      RemoveSkipped(ByOperation(operation));
    }

    /** `removeSkippedNonWakeupAlarmLocked(String)`. */
    method RemoveSkippedByPackage(packageName: string)
      modifies this`skipped
      ensures skipped == Without(old(skipped), ByPackage(packageName))
    {
      RemoveSkipped(ByPackage(packageName));
    }

    /** `removeSkippedNonWakeupAlarmLocked(int)`. */
    method RemoveSkippedByUser(userHandle: int)
      modifies this`skipped
      ensures skipped == Without(old(skipped), ByUser(userHandle))
    {
      RemoveSkipped(ByUser(userHandle));
    }

    /** `decreaseSurvivalLocked`. */
    method DecreaseSurvival(alarm: Alarm?)
      modifies alarm
      ensures alarm != null ==> alarm.extra == (if old(alarm.extra).Some? then Some(DecreasedSurvival(old(alarm.extra).value)) else None)
    {
      if alarm != null && alarm.extra.Some? && alarm.extra.value.survival > 0 {
        alarm.extra := Some(alarm.extra.value.(survival := alarm.extra.value.survival - 1));
      }
    }
  }

  /** `AlarmAlignmentInfo`. */
  class AlarmAlignmentInfo {
    var triggerAtTime: int
    var triggerElapsed: int
    var interval: int
    var windowLength: int
    var flags: bv32

    constructor (triggerAtTime: int, triggerElapsed: int, interval: int, windowLength: int, flags: bv32)
      ensures State() == InfoState(triggerAtTime, triggerElapsed, interval, windowLength, flags)
    {
      this.triggerAtTime := triggerAtTime;
      this.triggerElapsed := triggerElapsed;
      this.interval := interval;
      this.windowLength := windowLength;
      this.flags := flags;
    }

    function State(): InfoState
      reads this
    {
      InfoState(triggerAtTime, triggerElapsed, interval, windowLength, flags)
    }
  }

  /**
   * `isFilteredAppAlarmLocked` on the parts of an alarm: a pending-intent alarm
   * without alarm-clock info and not idle-until, whose extra has no survival
   * left (its alignment is due again).
   */
  predicate FilteredLocked(operation: Option<PendingIntent>, hasAlarmClock: bool, flags: bv32, extra: Option<AlarmExtraData>) {
    operation.Some? && !hasAlarmClock && flags & FLAG_IDLE_UNTIL == 0
    && extra.Some? && extra.value.survival <= 0
  }

  /** `isFilteredAppAlarmLocked`. */
  predicate IsFilteredAppAlarmLocked(alarm: Alarm?)
    reads alarm
  {
    alarm != null && FilteredLocked(alarm.operation, alarm.hasAlarmClock, alarm.flags, alarm.extra)
  }

  /** From a non-negative start, `n` decreases leave what survival remains, never below zero. */
  lemma {:induction false} DecreasedTimesSurvival(e: AlarmExtraData, n: nat)
    requires e.survival >= 0
    ensures DecreasedTimes(e, n).survival == if n >= e.survival then 0 else e.survival - n
    decreases n
  {
    if n > 0 {
      DecreasedTimesSurvival(DecreasedSurvival(e), n - 1);
    }
  }

  /**
   * An alarm given an extra with survival `s >= 0` stays unfiltered through
   * fewer than `s` calls of `decreaseSurvivalLocked` and is filtered from the
   * `s`-th on, provided it can be filtered at all.
   */
  lemma FilteredAfterDecreases(operation: Option<PendingIntent>, hasAlarmClock: bool, flags: bv32,
                               e: AlarmExtraData, n: nat)
    requires e.survival >= 0
    ensures FilteredLocked(operation, hasAlarmClock, flags, Some(DecreasedTimes(e, n))) <==>
              operation.Some? && !hasAlarmClock && flags & FLAG_IDLE_UNTIL == 0 && n >= e.survival
  {
    DecreasedTimesSurvival(e, n);
  }

  /** A positive survival keeps an alarm unfiltered, whatever else holds of it. */
  lemma SurvivalKeepsUnfiltered(alarm: Alarm)
    requires alarm.extra.Some? && alarm.extra.value.survival > 0
    ensures !IsFilteredAppAlarmLocked(alarm)
  {
  }
}
