/**
 * A batch: alarms delivered together, with the bounds that every member
 * accepts. The baseline policy narrows the delivery window on each
 * addition; the similarity policy also tracks the merged interval, the
 * accumulated hardware usage and whether any member is perceivable.
 */
module Batches {
  import opened Wrappers
  import opened Similarity
  import opened Alarms

  predicate Sorted(keys: seq<int>)
  {
    forall i, j :: 0 <= i < j < |keys| ==> keys[i] <= keys[j]
  }

  /** Alarms inside a batch are kept in increasing order of their requested time. */
  predicate SortedByWhen(s: seq<Alarm>)
  {
    forall i, j :: 0 <= i < j < |s| ==> s[i].when <= s[j].when
  }

  function WhenKeys(s: seq<Alarm>): (keys: seq<int>)
    ensures |keys| == |s|
    ensures forall i :: 0 <= i < |s| ==> keys[i] == s[i].when
  {
    seq(|s|, i requires 0 <= i < |s| => s[i].when)
  }

  /** Every key before `p` is at most `key`, every key from `p` on at least `key`. */
  predicate Splits(keys: seq<int>, p: int, key: int)
  {
    0 <= p <= |keys|
    && (forall i :: 0 <= i < p ==> keys[i] <= key)
    && (forall i :: p <= i < |keys| ==> key <= keys[i])
  }

  /**
   * The library binary search on a sorted key list, between `low` and
   * `high`: the index of a probed equal key, otherwise the first index
   * whose key is larger.
   */
  function Probe(keys: seq<int>, key: int, low: int, high: int): (p: int)
    requires Sorted(keys) && 0 <= low <= high + 1 <= |keys|
    requires forall i :: 0 <= i < low ==> keys[i] < key
    requires forall i :: high < i < |keys| ==> key < keys[i]
    ensures Splits(keys, p, key)
    decreases high - low
  {
    if low > high then low
    else
      var mid := (low + high) / 2;
      if keys[mid] < key then Probe(keys, key, mid + 1, high)
      else if keys[mid] > key then Probe(keys, key, low, mid - 1)
      else mid
  }

  /** Where the library binary search places `key` in a sorted list. */
  function SearchPoint(keys: seq<int>, key: int): (p: int)
    requires Sorted(keys)
    ensures Splits(keys, p, key)
  {
    Probe(keys, key, 0, |keys| - 1)
  }

  /** The binary search loop itself. */
  method InsertionPoint(keys: seq<int>, key: int) returns (p: int)
    requires Sorted(keys)
    ensures p == SearchPoint(keys, key)
    ensures Splits(keys, p, key)
  {
    var low, high := 0, |keys| - 1;
    while low <= high
      invariant 0 <= low <= high + 1 <= |keys|
      invariant forall i :: 0 <= i < low ==> keys[i] < key
      invariant forall i :: high < i < |keys| ==> key < keys[i]
      invariant Probe(keys, key, low, high) == SearchPoint(keys, key)
    {
      var mid := (low + high) / 2;
      if keys[mid] < key {
        RaiseLow(keys, key, mid);
        low := mid + 1;
      } else if keys[mid] > key {
        DropHigh(keys, key, mid);
        high := mid - 1;
      } else {
        return mid;
      }
    }
    return low;
  }

  lemma RaiseLow(keys: seq<int>, key: int, mid: int)
    requires Sorted(keys) && 0 <= mid < |keys| && keys[mid] < key
    ensures forall i :: 0 <= i <= mid ==> keys[i] < key
  {
  }

  lemma DropHigh(keys: seq<int>, key: int, mid: int)
    requires Sorted(keys) && 0 <= mid < |keys| && key < keys[mid]
    ensures forall i :: mid <= i < |keys| ==> key < keys[i]
  {
  }

  /** Inserting at such an index keeps the keys sorted. */
  lemma InsertKeepsSorted(keys: seq<int>, p: int, key: int)
    requires Sorted(keys) && Splits(keys, p, key)
    ensures Sorted(keys[..p] + [key] + keys[p..])
  {
  }

  /** The alarms a removal request leaves in place, in their original order. */
  function Keep(s: seq<Alarm>, m: Matcher): (r: seq<Alarm>)
    ensures |r| <= |s|
  {
    if |s| == 0 then []
    else Keep(s[..|s| - 1], m) + (if Matches(s[|s| - 1], m) then [] else [s[|s| - 1]])
  }

  lemma {:induction false} KeepMembers(s: seq<Alarm>, m: Matcher)
    ensures forall x :: x in Keep(s, m) <==> x in s && !Matches(x, m)
    ensures multiset(Keep(s, m)) <= multiset(s)
  {
    if |s| > 0 {
      KeepMembers(s[..|s| - 1], m);
      assert s == s[..|s| - 1] + [s[|s| - 1]];
    }
  }

  lemma {:induction false} KeepSorted(s: seq<Alarm>, m: Matcher)
    requires SortedByWhen(s)
    ensures SortedByWhen(Keep(s, m))
  {
    if |s| > 0 {
      var init := s[..|s| - 1];
      KeepSorted(init, m);
      KeepMembers(init, m);
      var k := Keep(init, m);
      forall i | 0 <= i < |k|
        ensures k[i].when <= s[|s| - 1].when
      {
        assert k[i] in init;
      }
    }
  }

  /** Nothing is removed exactly when nothing matches. */
  lemma KeepUnchanged(s: seq<Alarm>, m: Matcher)
    ensures Keep(s, m) == s <==> forall i :: 0 <= i < |s| ==> !Matches(s[i], m)
  {
    if forall i :: 0 <= i < |s| ==> !Matches(s[i], m) {
      KeepNoMatch(s, m);
    } else {
      KeepShorter(s, m);
    }
  }

  /** The survivors are fewer exactly when something matches. */
  lemma KeepShrinks(s: seq<Alarm>, m: Matcher)
    ensures |Keep(s, m)| < |s| <==> exists i :: 0 <= i < |s| && Matches(s[i], m)
  {
    if exists i :: 0 <= i < |s| && Matches(s[i], m) {
      KeepShorter(s, m);
    } else {
      KeepNoMatch(s, m);
    }
  }

  lemma {:induction false} KeepNoMatch(s: seq<Alarm>, m: Matcher)
    requires forall i :: 0 <= i < |s| ==> !Matches(s[i], m)
    ensures Keep(s, m) == s
  {
    if |s| > 0 {
      var init := s[..|s| - 1];
      assert forall i :: 0 <= i < |init| ==> init[i] == s[i];
      KeepNoMatch(init, m);
      assert s == init + [s[|s| - 1]];
    }
  }

  /** A matching alarm makes the survivors strictly fewer. */
  lemma {:induction false} KeepShorter(s: seq<Alarm>, m: Matcher)
    requires exists i :: 0 <= i < |s| && Matches(s[i], m)
    ensures |Keep(s, m)| < |s|
  {
    var init := s[..|s| - 1];
    if !Matches(s[|s| - 1], m) {
      var i :| 0 <= i < |s| && Matches(s[i], m);
      assert init[i] == s[i];
      KeepShorter(init, m);
    } else {
      assert |Keep(init, m)| <= |init|;
    }
  }

  /** The latest requested time among the survivors, seeded with 0. */
  function LatestStart(s: seq<Alarm>): (r: int)
    ensures r >= 0
  {
    if |s| == 0 then 0 else Max(LatestStart(s[..|s| - 1]), s[|s| - 1].whenElapsed)
  }

  /** The earliest window end among the survivors, seeded with the largest long. */
  function EarliestEnd(s: seq<Alarm>): (r: int)
    ensures r <= LONG_MAX
  {
    if |s| == 0 then LONG_MAX else Min(EarliestEnd(s[..|s| - 1]), s[|s| - 1].maxWhen)
  }

  /** The seeded maximum is an upper bound attained by a member unless it is the seed. */
  lemma {:induction false} LatestStartIsMax(s: seq<Alarm>)
    ensures forall i :: 0 <= i < |s| ==> s[i].whenElapsed <= LatestStart(s)
    ensures LatestStart(s) == 0 || exists i :: 0 <= i < |s| && s[i].whenElapsed == LatestStart(s)
  {
    if |s| > 0 {
      var init := s[..|s| - 1];
      LatestStartIsMax(init);
      assert forall i :: 0 <= i < |init| ==> init[i] == s[i];
    }
  }

  /** The seeded minimum is a lower bound attained by a member unless it is the seed. */
  lemma {:induction false} EarliestEndIsMin(s: seq<Alarm>)
    ensures forall i :: 0 <= i < |s| ==> EarliestEnd(s) <= s[i].maxWhen
    ensures EarliestEnd(s) == LONG_MAX || exists i :: 0 <= i < |s| && s[i].maxWhen == EarliestEnd(s)
  {
    if |s| > 0 {
      var init := s[..|s| - 1];
      EarliestEndIsMin(init);
      assert forall i :: 0 <= i < |init| ==> init[i] == s[i];
    }
  }

  /** An alarm's recorded use of hardware slot `k` (0 when it has no record). */
  function SlotUse(a: Alarm, k: nat): int
  {
    if a.hardware.Some? && k < |a.hardware.value| then a.hardware.value[k] else 0
  }

  /** The accumulated use of hardware slot `k` over a list of alarms. */
  function SlotTotal(s: seq<Alarm>, k: nat): int
  {
    if |s| == 0 then 0 else SlotTotal(s[..|s| - 1], k) + SlotUse(s[|s| - 1], k)
  }

  lemma {:induction false} SlotTotalAppend(x: seq<Alarm>, y: seq<Alarm>, k: nat)
    ensures SlotTotal(x + y, k) == SlotTotal(x, k) + SlotTotal(y, k)
  {
    if |y| > 0 {
      assert (x + y)[..|x + y| - 1] == x + y[..|y| - 1];
      SlotTotalAppend(x, y[..|y| - 1], k);
    } else {
      assert x + y == x;
    }
  }

  lemma {:induction false} SlotTotalNone(s: seq<Alarm>, k: nat)
    requires forall i :: 0 <= i < |s| ==> s[i].hardware.None?
    ensures SlotTotal(s, k) == 0
  {
    if |s| > 0 {
      assert forall i :: 0 <= i < |s| - 1 ==> s[..|s| - 1][i] == s[i];
      SlotTotalNone(s[..|s| - 1], k);
    }
  }

  /**
   * Accumulate a usage vector into a batch's total: a missing vector adds
   * nothing, and a batch with no total starts from zero.
   */
  function AddUsage(total: Option<Usage>, usage: Option<Usage>): (r: Option<Usage>)
    requires WellFormedOpt(total) && WellFormedOpt(usage)
    ensures WellFormedOpt(r)
    ensures r.None? <==> total.None? && usage.None?
    ensures usage.Some? ==> forall k :: 0 <= k < NUM_HARDWARE ==>
      r.value[k] == (if total.Some? then total.value[k] else 0) + usage.value[k]
    ensures total.None? ==> r == usage
  {
    if usage.None? then total
    else
      var sum := seq(NUM_HARDWARE, k requires 0 <= k < NUM_HARDWARE =>
        (if total.Some? then total.value[k] else 0) + usage.value[k]);
      assert total.None? ==> sum == usage.value;
      Some(sum)
  }


  // ---------------------------------------------------------------------
  // A batch's fields as one value, and what each operation does to them

  datatype BatchState = BatchState(
    start: int,
    end: int,
    intervalStart: int,
    intervalEnd: int,
    when: int,
    deadline: int,
    hardware: Option<Usage>,
    perceivable: bool,
    alarms: seq<Alarm>)

  /** The window [start, end] lies inside every member's window. */
  predicate CoversAll(b: BatchState)
  {
    forall a :: a in b.alarms ==> a.whenElapsed <= b.start && b.end <= a.maxWhen
  }

  /** The similarity policy's marker for members whose windows do not all overlap. */
  predicate Collapsed(b: BatchState)
  {
    b.start == -1 && b.end == -1
  }

  /** The similarity policy's bookkeeping agrees with the members. */
  predicate Tracks(b: BatchState)
  {
    (forall a :: a in b.alarms ==> Interval(a).lo <= b.intervalStart && b.intervalEnd <= Interval(a).hi)
    && (b.perceivable <==> exists a :: a in b.alarms && Perceivable(a))
    && (|b.alarms| > 0 ==>
          b.when == (if b.perceivable then b.start else b.intervalStart)
          && b.deadline == (if b.perceivable then b.end else b.intervalEnd))
    && (b.hardware.None? <==> forall a :: a in b.alarms ==> a.hardware.None?)
    && (b.hardware.Some? ==> forall k :: 0 <= k < |b.hardware.value| ==> b.hardware.value[k] == SlotTotal(b.alarms, k))
  }

  /** The invariant of a batch under either policy. */
  predicate Coherent(b: BatchState, howard: bool)
  {
    WellFormedOpt(b.hardware)
    && (forall a :: a in b.alarms ==> AlarmOk(a))
    && SortedByWhen(b.alarms)
    && (if howard then (Collapsed(b) || CoversAll(b)) && Tracks(b) else CoversAll(b))
  }

  function Insert(s: seq<Alarm>, p: int, a: Alarm): (r: seq<Alarm>)
    requires 0 <= p <= |s|
    ensures |r| == |s| + 1 && r[p] == a
    ensures multiset(r) == multiset(s) + multiset{a}
  {
    assert s == s[..p] + s[p..];
    s[..p] + [a] + s[p..]
  }

  /** Where an alarm goes in a batch's time-ordered list. */
  function Slot(s: seq<Alarm>, a: Alarm): (p: int)
    requires SortedByWhen(s)
    ensures Splits(WhenKeys(s), p, a.when)
  {
    SearchPoint(WhenKeys(s), a.when)
  }

  /**
   * The baseline policy's addition: the window shrinks to its
   * intersection with the alarm's window.
   */
  function OverlapAdd(b: BatchState, a: Alarm): (r: BatchState)
    requires SortedByWhen(b.alarms)
    ensures b.start <= r.start && r.end <= b.end
    ensures a.whenElapsed <= r.start && r.end <= a.maxWhen
    ensures Overlaps(Span(a.whenElapsed, a.maxWhen), Span(b.start, b.end)) && b.start <= b.end && a.whenElapsed <= a.maxWhen
      ==> r.start <= r.end
    ensures multiset(r.alarms) == multiset(b.alarms) + multiset{a}
  {
    b.(start := Max(b.start, a.whenElapsed), end := Min(b.end, a.maxWhen), alarms := Insert(b.alarms, Slot(b.alarms, a), a))
  }

  /**
   * The similarity policy's addition. When the batch can hold the alarm,
   * or neither is perceivable, its delivery time is no earlier than the
   * alarm's.
   */
  function HowardAdd(b: BatchState, a: Alarm): (r: BatchState)
    requires SortedByWhen(b.alarms) && WellFormedOpt(b.hardware) && WellFormedOpt(a.hardware)
    ensures r.perceivable == (b.perceivable || Perceivable(a))
    ensures r.intervalStart >= Interval(a).lo && r.intervalEnd <= Interval(a).hi
    ensures Overlaps(Span(a.whenElapsed, a.maxWhen), Span(b.start, b.end)) || (!b.perceivable && !Perceivable(a))
      ==> r.when >= a.whenElapsed
    ensures !Overlaps(Span(a.whenElapsed, a.maxWhen), Span(b.start, b.end)) ==> Collapsed(r)
    ensures multiset(r.alarms) == multiset(b.alarms) + multiset{a}
  {
    var hold := b.end >= a.whenElapsed && b.start <= a.maxWhen;
    var perc := b.perceivable || Perceivable(a);
    var start := if hold then Max(b.start, a.whenElapsed) else -1;
    var end := if hold then Min(b.end, a.maxWhen) else -1;
    var intervalStart := Max(b.intervalStart, Interval(a).lo);
    var intervalEnd := Min(b.intervalEnd, Interval(a).hi);
    BatchState(start, end, intervalStart, intervalEnd,
      if perc then start else intervalStart,
      if perc then end else intervalEnd,
      AddUsage(b.hardware, a.hardware), perc, Insert(b.alarms, Slot(b.alarms, a), a))
  }

  lemma InsertedSorted(s: seq<Alarm>, a: Alarm)
    requires SortedByWhen(s)
    ensures SortedByWhen(Insert(s, Slot(s, a), a))
  {
    var p := Slot(s, a);
    assert forall i :: 0 <= i < p ==> s[i].when <= a.when by {
      assert forall i :: 0 <= i < p ==> WhenKeys(s)[i] <= a.when;
    }
    assert forall i :: p <= i < |s| ==> a.when <= s[i].when by {
      assert forall i :: p <= i < |s| ==> a.when <= WhenKeys(s)[i];
    }
  }

  /** The baseline addition keeps the batch invariant. */
  lemma OverlapAddCoherent(b: BatchState, a: Alarm)
    requires Coherent(b, false) && AlarmOk(a)
    ensures Coherent(OverlapAdd(b, a), false)
  {
    InsertedSorted(b.alarms, a);
    var r := OverlapAdd(b, a);
    forall x | x in r.alarms
      ensures AlarmOk(x) && x.whenElapsed <= r.start && r.end <= x.maxWhen
    {
      assert x in multiset(r.alarms);
    }
  }

  lemma InsertSlotTotals(s: seq<Alarm>, p: int, a: Alarm)
    requires 0 <= p <= |s|
    ensures forall k: nat :: SlotTotal(Insert(s, p, a), k) == SlotTotal(s, k) + SlotUse(a, k)
  {
    assert s == s[..p] + s[p..];
    forall k: nat
      ensures SlotTotal(Insert(s, p, a), k) == SlotTotal(s, k) + SlotUse(a, k)
    {
      SlotTotalAppend(s[..p] + [a], s[p..], k);
      SlotTotalAppend(s[..p], [a], k);
      SlotTotalAppend(s[..p], s[p..], k);
      assert SlotTotal([a], k) == SlotTotal([], k) + SlotUse(a, k);
    }
  }

  /** The accumulated usage stays the per-slot total of the members after an insertion. */
  lemma HowardAddHardware(b: BatchState, a: Alarm)
    requires Coherent(b, true) && AlarmOk(a)
    ensures var r := HowardAdd(b, a);
      (r.hardware.None? <==> forall x :: x in r.alarms ==> x.hardware.None?)
      && (r.hardware.Some? ==> forall k :: 0 <= k < |r.hardware.value| ==> r.hardware.value[k] == SlotTotal(r.alarms, k))
  {
    var r := HowardAdd(b, a);
    InsertSlotTotals(b.alarms, Slot(b.alarms, a), a);
    if b.hardware.None? {
      forall k: nat
        ensures SlotTotal(b.alarms, k) == 0
      {
        SlotTotalNone(b.alarms, k);
      }
    }
    assert forall x :: x in r.alarms <==> x in b.alarms || x == a by {
      assert forall x :: x in r.alarms <==> x in multiset(r.alarms);
    }
  }

  lemma HowardAddMembers(b: BatchState, a: Alarm)
    requires SortedByWhen(b.alarms) && WellFormedOpt(b.hardware) && WellFormedOpt(a.hardware)
    ensures forall x :: x in HowardAdd(b, a).alarms <==> x in b.alarms || x == a
  {
    var r := HowardAdd(b, a);
    assert forall x :: x in r.alarms <==> x in multiset(r.alarms);
  }

  lemma HowardAddWindow(b: BatchState, a: Alarm)
    requires Coherent(b, true) && AlarmOk(a)
    ensures var r := HowardAdd(b, a); Collapsed(r) || CoversAll(r)
  {
    HowardAddMembers(b, a);
  }

  lemma HowardAddIntervals(b: BatchState, a: Alarm)
    requires Coherent(b, true) && AlarmOk(a)
    ensures var r := HowardAdd(b, a);
      (forall x :: x in r.alarms ==> Interval(x).lo <= r.intervalStart && r.intervalEnd <= Interval(x).hi)
      && (r.perceivable <==> exists x :: x in r.alarms && Perceivable(x))
  {
    HowardAddMembers(b, a);
  }

  /** The similarity addition keeps the batch invariant. */
  lemma HowardAddCoherent(b: BatchState, a: Alarm)
    requires Coherent(b, true) && AlarmOk(a)
    ensures Coherent(HowardAdd(b, a), true)
  {
    InsertedSorted(b.alarms, a);
    HowardAddHardware(b, a);
    HowardAddWindow(b, a);
    HowardAddIntervals(b, a);
    HowardAddMembers(b, a);
  }

  /** A batch made of one alarm. */
  function Seed(a: Alarm): (r: BatchState)
    ensures r.alarms == [a] && r.start == a.whenElapsed && r.end == a.maxWhen
  {
    var interval := Interval(a);
    var perc := Perceivable(a);
    BatchState(a.whenElapsed, a.maxWhen, interval.lo, interval.hi,
      if perc then a.whenElapsed else interval.lo,
      if perc then a.maxWhen else interval.hi,
      a.hardware, perc, [a])
  }

  /** A one-alarm batch satisfies the invariant of either policy, and is due at the alarm's time. */
  lemma SeedCoherent(a: Alarm, howard: bool)
    requires AlarmOk(a)
    ensures Coherent(Seed(a), howard)
    ensures Seed(a).when == a.whenElapsed
  {
    assert forall k: nat :: SlotTotal([a], k) == SlotTotal([], k) + SlotUse(a, k);
  }

  /** A batch emptied by `reset`. */
  function ResetState(): (r: BatchState)
    ensures r.alarms == [] && r.hardware.None? && !r.perceivable
  {
    BatchState(0, LONG_MAX, 0, LONG_MAX, 0, 0, None, false, [])
  }

  /**
   * The baseline policy's removal: the survivors stay in order and the
   * window is recomputed from them, seeded with 0 and the largest long.
   */
  function OverlapRemove(b: BatchState, m: Matcher): (r: BatchState)
    ensures r.alarms == Keep(b.alarms, m)
    ensures r.start >= 0 && r.end <= LONG_MAX
    ensures forall i :: 0 <= i < |r.alarms| ==> r.alarms[i].whenElapsed <= r.start && r.end <= r.alarms[i].maxWhen
  {
    var kept := Keep(b.alarms, m);
    LatestStartIsMax(kept);
    EarliestEndIsMin(kept);
    b.(start := LatestStart(kept), end := EarliestEnd(kept), alarms := kept)
  }

  lemma OverlapRemoveCoherent(b: BatchState, m: Matcher)
    requires Coherent(b, false)
    ensures Coherent(OverlapRemove(b, m), false)
  {
    KeepMembers(b.alarms, m);
    KeepSorted(b.alarms, m);
    var r := OverlapRemove(b, m);
    forall x | x in r.alarms
      ensures x.whenElapsed <= r.start && r.end <= x.maxWhen
    {
      var i :| 0 <= i < |r.alarms| && r.alarms[i] == x;
    }
  }

  /** Re-add alarms one by one under the similarity policy. */
  function Refill(b: BatchState, s: seq<Alarm>): (r: BatchState)
    requires Coherent(b, true) && forall x :: x in s ==> AlarmOk(x)
    ensures Coherent(r, true)
    ensures multiset(r.alarms) == multiset(b.alarms) + multiset(s)
    decreases |s|
  {
    if |s| == 0 then b
    else
      HowardAddCoherent(b, s[0]);
      assert s == [s[0]] + s[1..];
      Refill(HowardAdd(b, s[0]), s[1..])
  }

  /** The similarity policy's removal: reset, then re-add the survivors in order. */
  function HowardRemove(b: BatchState, m: Matcher): (r: BatchState)
    requires forall x :: x in b.alarms ==> AlarmOk(x)
    ensures Coherent(r, true)
    ensures multiset(r.alarms) == multiset(Keep(b.alarms, m))
  {
    KeepMembers(b.alarms, m);
    Refill(ResetState(), Keep(b.alarms, m))
  }

  // ---------------------------------------------------------------------
  // The batch object

  class Batch {
    /** Whether the similarity policy is in force (fixed when the service starts). */
    const howard: bool
    // The delivery window, in the elapsed time base.
    var start: int
    var end: int
    // The merged interval of the similarity policy.
    var intervalStart: int
    var intervalEnd: int
    /** When the similarity policy delivers the batch, and its latest acceptable time. */
    var when: int
    var deadline: int
    var hardware: Option<Usage>
    var perceivable: bool
    /** Standalone batches never take other alarms. */
    var standalone: bool
    var alarms: seq<Alarm>

    ghost function State(): BatchState
      reads this
    {
      BatchState(start, end, intervalStart, intervalEnd, when, deadline, hardware, perceivable, alarms)
    }

    ghost predicate Valid()
      reads this
    {
      Coherent(State(), howard)
    }

    /** The key batches are ordered by: `when` under the similarity policy, else `start`. */
    function Key(): int
      reads this
    {
      if howard then when else start
    }

    constructor (seed: Alarm, howard: bool)
      requires AlarmOk(seed)
      ensures Valid() && State() == Seed(seed)
      ensures this.howard == howard && !standalone
      ensures Key() == seed.whenElapsed
    {
      this.howard := howard;
      start := seed.whenElapsed;
      end := seed.maxWhen;
      var interval := Interval(seed);
      intervalStart := interval.lo;
      intervalEnd := interval.hi;
      var perc := Perceivable(seed);
      perceivable := perc;
      deadline := if perc then seed.maxWhen else interval.hi;
      when := if perc then seed.whenElapsed else interval.lo;
      hardware := None;
      standalone := false;
      alarms := [];
      new;
      AddHardwareUsage(seed.hardware);
      alarms := alarms + [seed];
      SeedCoherent(seed, howard);
    }

    /** The batch's window overlaps [whenElapsed, maxWhen]. */
    predicate CanHold(whenElapsed: int, maxWhen: int)
      reads this
    {
      end >= whenElapsed && start <= maxWhen
    }

    /** The overlap test is the shared-instant test on non-empty windows. */
    lemma CanHoldMeaning(whenElapsed: int, maxWhen: int)
      requires start <= end && whenElapsed <= maxWhen
      ensures CanHold(whenElapsed, maxWhen) <==> Meet(Span(start, end), Span(whenElapsed, maxWhen))
    {
      OverlapsIsMeet(Span(whenElapsed, maxWhen), Span(start, end));
      assert Meet(Span(start, end), Span(whenElapsed, maxWhen)) <==> Meet(Span(whenElapsed, maxWhen), Span(start, end));
    }

    /** The similarity policy delivers the batch once `when` has passed. */
    predicate CanTrigger(now: int)
      reads this
    {
      when <= now
    }

    /** Accumulate an alarm's recorded hardware usage into the batch total. */
    method AddHardwareUsage(usage: Option<Usage>)
      requires WellFormedOpt(hardware) && WellFormedOpt(usage)
      modifies this
      ensures hardware == AddUsage(old(hardware), usage)
      ensures alarms == old(alarms) && start == old(start) && end == old(end)
      ensures intervalStart == old(intervalStart) && intervalEnd == old(intervalEnd)
      ensures when == old(when) && deadline == old(deadline)
      ensures perceivable == old(perceivable) && standalone == old(standalone)
    {
      if usage.None? {
        return;
      }
      var total: seq<int> := if hardware.None? then seq(NUM_HARDWARE, _ => 0) else hardware.value;
      ghost var base := total;
      var i := 0;
      while i < NUM_HARDWARE
        invariant 0 <= i <= NUM_HARDWARE && |total| == NUM_HARDWARE
        invariant forall k :: 0 <= k < i ==> total[k] == base[k] + usage.value[k]
        invariant forall k :: i <= k < NUM_HARDWARE ==> total[k] == base[k]
      {
        total := total[i := total[i] + usage.value[i]];
        i := i + 1;
      }
      assert total == AddUsage(old(hardware), usage).value;
      hardware := Some(total);
    }

    /**
     * Insert an alarm in time order and update the bounds by the
     * policy's rule; the result says whether the batch's key moved.
     */
    method Add(alarm: Alarm) returns (newStart: bool)
      requires Valid() && AlarmOk(alarm)
      modifies this
      ensures State() == (if howard then HowardAdd(old(State()), alarm) else OverlapAdd(old(State()), alarm))
      ensures newStart <==> Key() != old(Key())
      ensures Valid() && standalone == old(standalone)
    {
      var p := InsertionPoint(WhenKeys(alarms), alarm.when);
      alarms := alarms[..p] + [alarm] + alarms[p..];
      if howard {
        newStart := AddHoward(alarm, old(State()));
        HowardAddCoherent(old(State()), alarm);
      } else {
        newStart := AddOverlap(alarm, old(State()));
        OverlapAddCoherent(old(State()), alarm);
      }
    }

    /** The similarity policy's part of `Add`, once the alarm is in the list. */
    method AddHoward(alarm: Alarm, ghost before: BatchState) returns (newStart: bool)
      requires SortedByWhen(before.alarms) && WellFormedOpt(before.hardware) && WellFormedOpt(alarm.hardware)
      requires State() == before.(alarms := Insert(before.alarms, Slot(before.alarms, alarm), alarm))
      modifies this
      ensures State() == HowardAdd(before, alarm)
      ensures newStart <==> when != before.when
      ensures standalone == old(standalone)
    {
      perceivable := perceivable || Perceivable(alarm);
      AddHardwareUsage(alarm.hardware);
      FitWindow(alarm.whenElapsed, alarm.maxWhen);
      FitInterval(Interval(alarm));
      deadline := if perceivable then end else intervalEnd;
      var originalWhen := when;
      when := if perceivable then start else intervalStart;
      newStart := when != originalWhen;
    }

    /** Narrow the window to the alarm's, or collapse it when they do not overlap. */
    method FitWindow(whenElapsed: int, maxWhen: int)
      modifies this
      ensures var hold := old(CanHold(whenElapsed, maxWhen));
        State() == old(State()).(
          start := if hold then Max(old(start), whenElapsed) else -1,
          end := if hold then Min(old(end), maxWhen) else -1)
      ensures standalone == old(standalone)
    {
      if CanHold(whenElapsed, maxWhen) {
        if whenElapsed > start {
          start := whenElapsed;
        }
        if maxWhen < end {
          end := maxWhen;
        }
      } else {
        start := -1;
        end := -1;
      }
    }

    /** Narrow the merged interval to the alarm's interval. */
    method FitInterval(interval: Span)
      modifies this
      ensures State() == old(State()).(
        intervalStart := Max(old(intervalStart), interval.lo),
        intervalEnd := Min(old(intervalEnd), interval.hi))
      ensures standalone == old(standalone)
    {
      if interval.lo > intervalStart {
        intervalStart := interval.lo;
      }
      if interval.hi < intervalEnd {
        intervalEnd := interval.hi;
      }
    }

    /** The baseline policy's part of `Add`, once the alarm is in the list. */
    method AddOverlap(alarm: Alarm, ghost before: BatchState) returns (newStart: bool)
      requires SortedByWhen(before.alarms)
      requires State() == before.(alarms := Insert(before.alarms, Slot(before.alarms, alarm), alarm))
      modifies this
      ensures State() == OverlapAdd(before, alarm)
      ensures newStart <==> start != before.start
      ensures standalone == old(standalone)
    {
      newStart := false;
      if alarm.whenElapsed > start {
        start := alarm.whenElapsed;
        newStart := true;
      }
      if alarm.maxWhen < end {
        end := alarm.maxWhen;
      }
    }

    /** Empty the batch and restore the initial bounds. */
    method Reset()
      modifies this
      ensures State() == ResetState() && Valid()
      ensures standalone == old(standalone)
    {
      start := 0;
      end := LONG_MAX;
      intervalStart := 0;
      intervalEnd := LONG_MAX;
      when := 0;
      deadline := 0;
      hardware := None;
      perceivable := false;
      alarms := [];
    }

    /**
     * Delete every alarm the request matches, keeping the others in order.
     * When something went, the baseline policy recomputes the window from
     * the survivors and the similarity policy resets the batch and adds
     * the survivors back one by one.
     */
    method RemoveMatching(m: Matcher) returns (didRemove: bool)
      requires Valid()
      modifies this
      ensures didRemove <==> exists i :: 0 <= i < |old(alarms)| && Matches(old(alarms)[i], m)
      ensures !didRemove ==> unchanged(this)
      ensures didRemove ==> State() == (if howard then HowardRemove(old(State()), m) else OverlapRemove(old(State()), m))
      ensures multiset(alarms) == multiset(Keep(old(alarms), m))
      ensures Valid() && standalone == old(standalone)
    {
      var list, newStart, newEnd;
      list, newStart, newEnd, didRemove := Sweep(alarms, m);
      if !didRemove {
        KeepNoMatch(alarms, m);
        return;
      }
      if howard {
        KeepMembers(alarms, m);
        Reset();
        AddAll(list);
      } else {
        Commit(list, newStart, newEnd);
        OverlapRemoveCoherent(old(State()), m);
      }
    }

    /** Install the survivors and commit the recomputed window. */
    method Commit(list: seq<Alarm>, newStart: int, newEnd: int)
      modifies this
      ensures State() == old(State()).(alarms := list, start := newStart, end := newEnd)
      ensures standalone == old(standalone)
    {
      alarms := list;
      start := newStart;
      end := newEnd;
    }

    /** Add the alarms one after the other under the similarity policy. */
    method AddAll(s: seq<Alarm>)
      requires Valid() && howard
      requires forall x :: x in s ==> AlarmOk(x)
      modifies this
      ensures State() == Refill(old(State()), s)
      ensures Valid() && standalone == old(standalone)
    {
      var j := 0;
      while j < |s|
        invariant 0 <= j <= |s|
        invariant Valid() && standalone == old(standalone)
        invariant Refill(State(), s[j..]) == Refill(old(State()), s)
      {
        assert s[j..][0] == s[j] && s[j..][1..] == s[j + 1..];
        var _ := Add(s[j]);
        j := j + 1;
      }
    }

    /** Whether some member wakes the device. */
    method HasWakeups() returns (r: bool)
      ensures r <==> exists a :: a in alarms && IsWakeupKind(a.kind)
    {
      var i := 0;
      while i < |alarms|
        invariant 0 <= i <= |alarms|
        invariant forall j :: 0 <= j < i ==> !IsWakeupKind(alarms[j].kind)
      {
        if IsWakeupKind(alarms[i].kind) {
          return true;
        }
        i := i + 1;
      }
      return false;
    }

    /** Whether some member targets the package. */
    method HasPackage(package: int) returns (r: bool)
      ensures r <==> exists a :: a in alarms && a.operation.package == package
    {
      var i := 0;
      while i < |alarms|
        invariant 0 <= i <= |alarms|
        invariant forall j :: 0 <= j < i ==> alarms[j].operation.package != package
      {
        if alarms[i].operation.package == package {
          return true;
        }
        i := i + 1;
      }
      return false;
    }
  }

  /**
   * One pass over the members: drop those the request matches, and track
   * the latest start and earliest end among the survivors.
   */
  method Sweep(s: seq<Alarm>, m: Matcher) returns (list: seq<Alarm>, newStart: int, newEnd: int, didRemove: bool)
    ensures list == Keep(s, m)
    ensures newStart == LatestStart(list) && newEnd == EarliestEnd(list)
    ensures didRemove <==> exists i :: 0 <= i < |s| && Matches(s[i], m)
  {
    list := s;
    var i := 0;
    ghost var c := 0;
    newStart, newEnd := 0, LONG_MAX;
    didRemove := false;
    while i < |list|
      invariant 0 <= c <= |s|
      invariant list == Keep(s[..c], m) + s[c..]
      invariant i == |Keep(s[..c], m)|
      invariant newStart == LatestStart(Keep(s[..c], m))
      invariant newEnd == EarliestEnd(Keep(s[..c], m))
      invariant didRemove <==> i < c
      decreases |list| - i
    {
      var removed;
      list, i, newStart, newEnd, removed := SweepOne(s, m, c, list, i, newStart, newEnd);
      didRemove := didRemove || removed;
      c := c + 1;
    }
    assert s[..c] == s;
    KeepShrinks(s, m);
  }

  /** The body of the sweep: look at the alarm under the cursor. */
  method SweepOne(s: seq<Alarm>, m: Matcher, ghost c: int, list: seq<Alarm>, i: int, newStart: int, newEnd: int)
    returns (list': seq<Alarm>, i': int, newStart': int, newEnd': int, removed: bool)
    requires 0 <= c < |s|
    requires list == Keep(s[..c], m) + s[c..] && i == |Keep(s[..c], m)|
    requires newStart == LatestStart(Keep(s[..c], m)) && newEnd == EarliestEnd(Keep(s[..c], m))
    ensures list' == Keep(s[..c + 1], m) + s[c + 1..] && i' == |Keep(s[..c + 1], m)|
    ensures newStart' == LatestStart(Keep(s[..c + 1], m)) && newEnd' == EarliestEnd(Keep(s[..c + 1], m))
    ensures removed <==> Matches(s[c], m)
    ensures i' == if removed then i else i + 1
    ensures |list'| - i' < |list| - i
  {
    list', i', newStart', newEnd' := list, i, newStart, newEnd;
    assert list[i] == s[c];
    removed := Matches(list[i], m);
    if removed {
      SweepDrop(s, c, m, list, i);
      list' := list[..i] + list[i + 1..];
    } else {
      SweepKeep(s, c, m, list, i);
      if list[i].whenElapsed > newStart {
        newStart' := list[i].whenElapsed;
      }
      if list[i].maxWhen < newEnd {
        newEnd' := list[i].maxWhen;
      }
      i' := i + 1;
    }
  }

  /** A step of the sweep that drops the alarm under the cursor. */
  lemma SweepDrop(s: seq<Alarm>, c: int, m: Matcher, list: seq<Alarm>, i: int)
    requires 0 <= c < |s| && Matches(s[c], m)
    requires list == Keep(s[..c], m) + s[c..] && i == |Keep(s[..c], m)|
    ensures list[..i] + list[i + 1..] == Keep(s[..c + 1], m) + s[c + 1..]
    ensures Keep(s[..c + 1], m) == Keep(s[..c], m)
  {
    KeepStep(s, c, m);
    assert list[..i] == Keep(s[..c], m) && list[i + 1..] == s[c + 1..];
  }

  /** A step of the sweep that keeps the alarm under the cursor. */
  lemma SweepKeep(s: seq<Alarm>, c: int, m: Matcher, list: seq<Alarm>, i: int)
    requires 0 <= c < |s| && !Matches(s[c], m)
    requires list == Keep(s[..c], m) + s[c..] && i == |Keep(s[..c], m)|
    ensures list == Keep(s[..c + 1], m) + s[c + 1..]
    ensures |Keep(s[..c + 1], m)| == i + 1
    ensures LatestStart(Keep(s[..c + 1], m)) == Max(LatestStart(Keep(s[..c], m)), s[c].whenElapsed)
    ensures EarliestEnd(Keep(s[..c + 1], m)) == Min(EarliestEnd(Keep(s[..c], m)), s[c].maxWhen)
  {
    KeepStep(s, c, m);
    var kept := Keep(s[..c], m);
    assert list == (kept + [s[c]]) + s[c + 1..];
    LatestStep(kept, s[c]);
  }

  lemma KeepStep(s: seq<Alarm>, c: int, m: Matcher)
    requires 0 <= c < |s|
    ensures Keep(s[..c + 1], m) == Keep(s[..c], m) + (if Matches(s[c], m) then [] else [s[c]])
  {
    assert s[..c + 1][..c] == s[..c];
  }

  lemma LatestStep(s: seq<Alarm>, a: Alarm)
    ensures LatestStart(s + [a]) == Max(LatestStart(s), a.whenElapsed)
    ensures EarliestEnd(s + [a]) == Min(EarliestEnd(s), a.maxWhen)
  {
    assert (s + [a])[..|s|] == s;
  }
}
