/**
 * Alarms as the scheduler stores them, and the pure arithmetic of the
 * alarm manager: clock conversion, the deferral heuristic, the kernel
 * time split and the similarity-based merge rules.
 */
module Alarms {
  import opened Wrappers
  import opened Similarity

  // Alarm types; the low bit set means "does not wake the device".
  const RTC_WAKEUP: int := 0
  const RTC: int := 1
  const ELAPSED_REALTIME_WAKEUP: int := 2
  const ELAPSED_REALTIME: int := 3

  /** Minimum recurrence period or futurity, in ms, for an alarm to be deferred. */
  const MIN_FUZZABLE_INTERVAL: int := 10000
  const INTERVAL_HOUR: int := 3600000
  const INTERVAL_HALF_DAY: int := 43200000
  const WINDOW_EXACT: int := 0
  const LONG_MAX: int := 0x7fff_ffff_ffff_ffff

  /**
   * A pending intent: its identity, the package it targets, the user that
   * created it and the component it is delivered to.
   */
  datatype Operation = Operation(id: int, package: int, user: int, component: int)

  /** What a removal request matches: one operation, a whole package, or a whole user. */
  datatype Matcher = ByOperation(op: Operation) | ByPackage(package: int) | ByUser(user: int)

  /**
   * A registered alarm. `hardware` is the usage vector recorded for its
   * previous delivery (None when there is none), and `intervalSlack` the
   * rounded 0.96 share of its registration-to-trigger time; both are
   * inputs to this model.
   */
  datatype Alarm = Alarm(
    kind: int,
    when: int,
    windowLength: int,
    whenElapsed: int,
    maxWhen: int,
    repeatInterval: int,
    operation: Operation,
    standalone: bool,
    hardware: Option<Usage>,
    intervalSlack: int)

  /** Every registered alarm has a well-formed usage history and a non-empty window. */
  predicate AlarmOk(a: Alarm)
  {
    WellFormedOpt(a.hardware) && a.whenElapsed <= a.maxWhen
  }

  function Max(x: int, y: int): int
  {
    if x > y then x else y
  }

  function Min(x: int, y: int): int
  {
    if x < y then x else y
  }

  predicate Matches(a: Alarm, m: Matcher)
  {
    match m
    case ByOperation(op) => a.operation == op
    case ByPackage(p) => a.operation.package == p
    case ByUser(u) => a.operation.user == u
  }

  predicate IsRtc(kind: int)
  {
    kind == RTC || kind == RTC_WAKEUP
  }

  /** Wakeup alarms are the ones whose type has the low bit clear. */
  predicate IsWakeupKind(kind: int)
  {
    kind % 2 == 0
  }

  /** The delivery window [whenElapsed, maxWhen]. */
  function Window(a: Alarm): Span
  {
    Span(a.whenElapsed, a.maxWhen)
  }

  /** The wider interval used by the similarity policy; it always contains the window's end. */
  function Interval(a: Alarm): (s: Span)
    ensures s.lo == a.whenElapsed && s.hi >= a.maxWhen
  {
    Span(a.whenElapsed, if a.whenElapsed + a.intervalSlack > a.maxWhen then a.whenElapsed + a.intervalSlack else a.maxWhen)
  }

  /** An alarm is perceivable when its last recorded delivery used perceivable hardware. */
  predicate Perceivable(a: Alarm)
  {
    a.hardware.Some? && WellFormed(a.hardware.value) && IsPerceivable(a.hardware.value)
  }

  /** Convert a trigger time to the elapsed-time base; `skew` is wall time minus elapsed time. */
  function ConvertToElapsed(when: int, kind: int, skew: int): (r: int)
    ensures IsRtc(kind) ==> r + skew == when
    ensures !IsRtc(kind) ==> r == when
  {
    if IsRtc(kind) then when - skew else when
  }

  /** The alarm's futurity as the deferral heuristic measures it. */
  function Futurity(now: int, triggerAtTime: int, interval: int): int
  {
    if interval == 0 then triggerAtTime - now else interval
  }

  /**
   * The end of the nominal delivery window: 75% of the futurity after the
   * trigger time, rounded down, or no deferral at all when the futurity is
   * under ten seconds.
   */
  function MaxTriggerTime(now: int, triggerAtTime: int, interval: int): (r: int)
    ensures r >= triggerAtTime
    ensures Futurity(now, triggerAtTime, interval) < MIN_FUZZABLE_INTERVAL ==> r == triggerAtTime
    ensures Futurity(now, triggerAtTime, interval) >= MIN_FUZZABLE_INTERVAL ==>
      r > triggerAtTime
      && 4 * (r - triggerAtTime) <= 3 * Futurity(now, triggerAtTime, interval)
      < 4 * (r - triggerAtTime) + 4
  {
    var futurity := if interval == 0 then triggerAtTime - now else interval;
    var deferrable := if futurity < MIN_FUZZABLE_INTERVAL then 0 else futurity;
    triggerAtTime + 3 * deferrable / 4
  }

  /**
   * The alarm a `set` call registers, or None when `kind` is not one of
   * the four alarm types. Otherwise it carries the caller's operation,
   * type, period and flags; a trigger time that is never negative and is
   * the caller's when that is not; a window of at most half a day (a
   * longer one is taken to be one hour); and a window end that is the
   * trigger for an exact alarm, the trigger plus the window for an
   * explicit one, and the deferral heuristic's for an unspecified
   * (negative) one.
   */
  function Requested(kind: int, triggerAtTime: int, windowLength: int, interval: int, op: Operation,
                     standalone: bool, hardware: Option<Usage>, slack: int, now: int, skew: int): (r: Option<Alarm>)
    ensures r.None? <==> !(RTC_WAKEUP <= kind <= ELAPSED_REALTIME)
    ensures r.Some? && WellFormedOpt(hardware) ==> AlarmOk(r.value)
    ensures r.Some? ==>
      && r.value.operation == op && r.value.kind == kind && r.value.repeatInterval == interval
      && r.value.standalone == standalone && r.value.hardware == hardware && r.value.intervalSlack == slack
      && r.value.when >= 0 && (triggerAtTime >= 0 ==> r.value.when == triggerAtTime)
      && r.value.windowLength <= INTERVAL_HALF_DAY
      && (windowLength <= INTERVAL_HALF_DAY ==> r.value.windowLength == windowLength)
      && (IsRtc(kind) ==> r.value.whenElapsed + skew == r.value.when)
      && (!IsRtc(kind) ==> r.value.whenElapsed == r.value.when)
      && (windowLength == WINDOW_EXACT ==> r.value.maxWhen == r.value.whenElapsed)
      && (r.value.windowLength > 0 ==> r.value.maxWhen - r.value.whenElapsed == r.value.windowLength)
      && (windowLength < 0 ==> r.value.maxWhen == MaxTriggerTime(now, r.value.whenElapsed, interval))
  {
    if kind < RTC_WAKEUP || kind > ELAPSED_REALTIME then None
    else
      var window := if windowLength > INTERVAL_HALF_DAY then INTERVAL_HOUR else windowLength;
      var when := if triggerAtTime < 0 then 0 else triggerAtTime;
      var triggerElapsed := ConvertToElapsed(when, kind, skew);
      var maxElapsed :=
        if window == WINDOW_EXACT then triggerElapsed
        else if window < 0 then MaxTriggerTime(now, triggerElapsed, interval)
        else triggerElapsed + window;
      Some(Alarm(kind, when, window, triggerElapsed, maxElapsed, interval, op, standalone, hardware, slack))
  }

  /**
   * The seconds and nanoseconds handed to the kernel timer for an
   * elapsed time in ms; negative times become zero.
   */
  function SplitTime(when: int): (r: (int, int))
    ensures when < 0 ==> r == (0, 0)
    ensures when >= 0 ==> r.0 * 1000 + r.1 / 1000000 == when
    ensures 0 <= r.1 < 1000000000 && r.1 % 1000000 == 0
  {
    if when < 0 then (0, 0)
    else (when / 1000, (when % 1000) * 1000 * 1000)
  }

  /** The zero usage vector. */
  function NoUsage(): (u: Usage)
    ensures WellFormed(u) && forall i :: 0 <= i < |u| ==> u[i] == 0
  {
    [0, 0, 0, 0, 0, 0, 0]
  }

  /** Java's `/` on longs: the quotient is truncated toward zero. */
  function JavaDiv(a: int, b: int): int
    requires b > 0
  {
    if a >= 0 then a / b else -((-a) / b)
  }

  /** Truncation toward zero leaves a remainder with the dividend's sign, smaller than the divisor. */
  lemma JavaDivBounds(a: int, b: int)
    requires b > 0
    ensures a >= 0 ==> 0 <= a - JavaDiv(a, b) * b < b
    ensures a < 0 ==> -b < a - JavaDiv(a, b) * b <= 0
  {
  }

  /** Java's `%`: the remainder takes the sign of the dividend. */
  function JavaRem(a: int, b: int): (r: int)
    requires b > 0
    ensures a == JavaDiv(a, b) * b + r
    ensures a >= 0 ==> 0 <= r < b
    ensures a < 0 ==> -b < r <= 0
  {
    JavaDivBounds(a, b);
    a - JavaDiv(a, b) * b
  }

  /**
   * The hardware profile of the experiment application, keyed by its
   * numeric action: 1 to 35 name a slot directly (five actions per slot),
   * other actions are classified by their last two decimal digits.
   */
  function ExpAppHardware(action: int): (u: Usage)
    ensures WellFormed(u)
    ensures 1 <= action <= 35 ==> u == NoUsage()[(action - 1) / 5 := 1]
    ensures forall i :: 0 <= i < |u| ==> 0 <= u[i] <= 1
  {
    var none := NoUsage();
    if 1 <= action <= 35 then none[(action - 1) / 5 := 1]
    else
      var mod := JavaRem(action, 100);
      if mod in {2, 4, 6, 7, 8, 9, 10, 11, 12, 13, 14, 15, 17, 18, 20, 21} then none[HARDWARE_NETWORK := 1]
      else if mod in {22, 23, 24} then none[HARDWARE_AGPS := 1]
      else if mod == 25 then none[HARDWARE_SOUND := 1][HARDWARE_VIBRATION := 1]
      else if mod == 26 then none[HARDWARE_VIBRATION := 1]
      else if mod == 27 then none[HARDWARE_SCREEN := 1]
      else if mod == 28 then none[HARDWARE_GPS := 1]
      else if mod == 29 then none[HARDWARE_SENSOR_ACC := 1]
      else none
  }

  /** A non-positive action outside 1..35 uses no hardware: its Java remainder is never positive. */
  lemma NonPositiveActionUsesNothing(action: int)
    requires action <= 0
    ensures ExpAppHardware(action) == NoUsage()
  {
    assert JavaRem(action, 100) <= 0;
  }

  /** Only the perceivable sound/vibration actions (x25, x26, x27 and slots 2 to 4) are perceivable. */
  lemma ExpAppPerceivable(action: int)
    ensures IsPerceivable(ExpAppHardware(action)) <==>
      (6 <= action <= 20) || (!(1 <= action <= 35) && JavaRem(action, 100) in {25, 26, 27})
  {
  }

  /**
   * Two batches may merge when their windows overlap, whatever their
   * hardware; or when only their intervals overlap and neither is
   * perceivable to the user.
   */
  function IsMergeable(aPerceivable: bool, bPerceivable: bool, time: Level, hardware: Level): (r: bool)
    ensures r <==> time == High || (time == Mid && !aPerceivable && !bPerceivable)
  {
    if time == High && hardware == High then true
    else if time == High && hardware == Mid then true
    else if time == High && hardware == Low then true
    else if !aPerceivable && !bPerceivable then
      if time == Mid && hardware == High then true
      else if time == Mid && hardware == Mid then true
      else time == Mid && hardware == Low
    else false
  }

  /**
   * Whether a candidate graded (t, h) beats the best so far, graded
   * (time, hardware): it must improve hardware similarity without falling
   * to Low time similarity (unless the best is Low too), or improve time
   * similarity at equal hardware similarity.
   */
  function IsHigherSimilarity(time: Level, hardware: Level, t: Level, h: Level): (r: bool)
    ensures r <==> (Higher(h, hardware) && (t != Low || time == Low)) || (Higher(t, time) && h == hardware)
    ensures r ==> Rank(h) >= Rank(hardware) && (t, h) != (time, hardware)
  {
    if t != Low && Higher(h, hardware) then true
    else if Higher(t, time) && Higher(h, hardware) then true
    else if t == time && Higher(h, hardware) then true
    else Higher(t, time) && h == hardware
  }

  /**
   * The rule is not lexicographic: a candidate with lower time similarity
   * but higher hardware similarity replaces the best so far.
   */
  lemma HigherSimilarityNotLexicographic()
    ensures IsHigherSimilarity(High, Low, Mid, Mid)
    ensures Higher(High, Mid)
  {
  }

  /**
   * The place of a grade whose time similarity is not Low in the order the
   * search ranks candidates by: hardware similarity first, then time.
   */
  function MergeRank(t: Level, h: Level): nat
  {
    3 * Rank(h) + Rank(t)
  }

  /**
   * Every mergeable grade has a time similarity above Low, and on such
   * grades beating is exactly a higher MergeRank; distinct grades have
   * distinct ranks. So on mergeable grades the rule is a strict total order.
   */
  lemma HigherSimilarityIsRankOrder(time: Level, hardware: Level, t: Level, h: Level)
    requires time != Low && t != Low
    ensures IsHigherSimilarity(time, hardware, t, h) <==> MergeRank(t, h) > MergeRank(time, hardware)
    ensures MergeRank(t, h) == MergeRank(time, hardware) <==> (t, h) == (time, hardware)
  {
  }

  /** A mergeable grade never has Low time similarity. */
  lemma MergeableTimeNotLow(aPerceivable: bool, bPerceivable: bool, time: Level, hardware: Level)
    requires IsMergeable(aPerceivable, bPerceivable, time, hardware)
    ensures time != Low
  {
  }

  /**
   * Transitivity on grades above Low time similarity: a grade that does not
   * beat the best so far does not beat anything that beats it, and differs
   * from it.
   */
  lemma {:induction false} HigherSimilarityTransitive(t1: Level, h1: Level, t2: Level, h2: Level, t3: Level, h3: Level)
    requires t1 != Low && t2 != Low && t3 != Low
    requires !IsHigherSimilarity(t2, h2, t1, h1) && IsHigherSimilarity(t2, h2, t3, h3)
    ensures !IsHigherSimilarity(t3, h3, t1, h1) && (t1, h1) != (t3, h3)
  {
    HigherSimilarityIsRankOrder(t2, h2, t1, h1);
    HigherSimilarityIsRankOrder(t2, h2, t3, h3);
    HigherSimilarityIsRankOrder(t3, h3, t1, h1);
  }

  /** Nothing beats the perfect grade (High, High). */
  lemma NothingBeatsTop(t: Level, h: Level)
    ensures !IsHigherSimilarity(High, High, t, h)
  {
  }

  /** From the starting grade (Low, Low) every candidate except (Low, Low) wins. */
  lemma AnyCandidateBeatsLowLow(t: Level, h: Level)
    ensures IsHigherSimilarity(Low, Low, t, h) <==> (t, h) != (Low, Low)
  {
  }
}
