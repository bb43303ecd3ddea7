/**
 * Similarity scoring of the multi-resource manager: which hardware an
 * alarm uses, whether that use is perceivable by the user, and how
 * similar two alarms are in time and in hardware.
 */
module Similarity {
  import opened Wrappers

  /** The three similarity grades; ordered High > Mid > Low. */
  datatype Level = High | Mid | Low

  function Rank(l: Level): nat
  {
    match l
    case Low => 0
    case Mid => 1
    case High => 2
  }

  /** `x` is strictly more similar than `y`. */
  predicate Higher(x: Level, y: Level)
  {
    Rank(x) > Rank(y)
  }

  // Hardware slot indices of a usage vector.
  const HARDWARE_DEFAULT: int := -1
  const HARDWARE_NETWORK: nat := 0
  const HARDWARE_VIBRATION: nat := 1
  const HARDWARE_SOUND: nat := 2
  const HARDWARE_SCREEN: nat := 3
  const HARDWARE_AGPS: nat := 4
  const HARDWARE_GPS: nat := 5
  const HARDWARE_SENSOR_ACC: nat := 6
  const NUM_HARDWARE: nat := 7

  /** A hardware-usage vector: one usage counter per hardware slot. */
  type Usage = seq<int>

  predicate WellFormed(u: Usage)
  {
    |u| == NUM_HARDWARE
  }

  predicate WellFormedOpt(u: Option<Usage>)
  {
    u.Some? ==> WellFormed(u.value)
  }

  /** Slots whose use the user notices: vibration, sound and the screen. */
  predicate PerceivableSlot(i: int)
  {
    i == HARDWARE_VIBRATION || i == HARDWARE_SOUND || i == HARDWARE_SCREEN
  }

  /** A usage vector is perceivable when some user-noticeable slot is in use. */
  function IsPerceivable(u: Usage): (r: bool)
    requires WellFormed(u)
    ensures r <==> exists i :: 0 <= i < NUM_HARDWARE && PerceivableSlot(i) && u[i] > 0
  {
    if u[HARDWARE_VIBRATION] > 0 then true
    else if u[HARDWARE_SOUND] > 0 then true
    else u[HARDWARE_SCREEN] > 0
  }

  // ---------------------------------------------------------------------
  // Time similarity

  /** A closed time range [lo, hi]. */
  datatype Span = Span(lo: int, hi: int)

  predicate Within(t: int, s: Span)
  {
    s.lo <= t <= s.hi
  }

  /** Two closed ranges share at least one instant. */
  ghost predicate Meet(x: Span, y: Span)
  {
    exists t :: Within(t, x) && Within(t, y)
  }

  /** The end-point test the scheduler uses for "these ranges overlap". */
  predicate Overlaps(x: Span, y: Span)
  {
    y.hi >= x.lo && y.lo <= x.hi
  }

  /** For non-empty ranges the end-point test is exactly "share an instant". */
  lemma OverlapsIsMeet(x: Span, y: Span)
    requires x.lo <= x.hi && y.lo <= y.hi
    ensures Overlaps(x, y) <==> Meet(x, y)
  {
    if Overlaps(x, y) {
      var t := if x.lo < y.lo then y.lo else x.lo;
      assert Within(t, x) && Within(t, y);
    }
  }

  /**
   * High when the windows overlap, Mid when only the wider intervals do,
   * Low otherwise.
   */
  function TimeSimilarity(aWindow: Span, aInterval: Span, bWindow: Span, bInterval: Span): (r: Level)
    ensures r == High <==> Overlaps(aWindow, bWindow)
    ensures r == Mid <==> !Overlaps(aWindow, bWindow) && Overlaps(aInterval, bInterval)
    ensures r == Low <==> !Overlaps(aWindow, bWindow) && !Overlaps(aInterval, bInterval)
  {
    if bWindow.hi >= aWindow.lo && bWindow.lo <= aWindow.hi then High
    else if bInterval.hi >= aInterval.lo && bInterval.lo <= aInterval.hi then Mid
    else Low
  }

  /** Swapping the two alarms does not change their time similarity. */
  lemma TimeSimilaritySymmetric(aWindow: Span, aInterval: Span, bWindow: Span, bInterval: Span)
    ensures TimeSimilarity(aWindow, aInterval, bWindow, bInterval)
         == TimeSimilarity(bWindow, bInterval, aWindow, aInterval)
  {
  }

  // ---------------------------------------------------------------------
  // Hardware similarity, as the code computes it

  /**
   * The code a used slot `i` contributes: the Java expression `2^i`,
   * which is bitwise exclusive or, not a power of two.
   */
  function XorCode(i: nat): (c: nat)
    requires i < NUM_HARDWARE
    ensures c == [2, 3, 0, 1, 6, 7, 4][i]
  {
    ((2 as bv8) ^ (i as bv8)) as nat
  }

  /** Sum of the codes of the used slots among the first `n`. */
  function Code(u: Usage, n: nat): (c: nat)
    requires n <= NUM_HARDWARE && n <= |u|
    ensures c <= 7 * n
  {
    if n == 0 then 0
    else Code(u, n - 1) + (if u[n - 1] > 0 then XorCode(n - 1) else 0)
  }

  /**
   * The classification applied to two accumulated codes: both non-zero
   * gives High when one code absorbs the other under bitwise or, Mid when
   * they share a bit, Low otherwise; both zero gives High; exactly one
   * zero gives Low.
   */
  function Classify(x: bv8, y: bv8): Level
  {
    if x != 0 && y != 0 then
      if x == x | y || y == x | y then High
      else if x & y != 0 then Mid
      else Low
    else if x == 0 && y == 0 then High
    else Low
  }

  /** Hardware similarity of two usage vectors, either of which may be missing. */
  function HardwareSimilarity(a: Option<Usage>, b: Option<Usage>): (r: Level)
    requires WellFormedOpt(a) && WellFormedOpt(b)
    ensures a.None? || b.None? ==> r == Low
  {
    match (a, b)
    case (Some(ua), Some(ub)) => Classify(Code(ua, |ua|) as bv8, Code(ub, |ub|) as bv8)
    case _ => Low
  }

  /**
   * The scoring loop: accumulate both codes slot by slot, then classify.
   */
  method GetHardwareSimilarity(a: Option<Usage>, b: Option<Usage>) returns (r: Level)
    requires WellFormedOpt(a) && WellFormedOpt(b)
    ensures r == HardwareSimilarity(a, b)
  {
    if a.None? || b.None? {
      return Low;
    }
    var ua, ub := a.value, b.value;
    var aHardware, bHardware := 0, 0;
    var i := 0;
    while i < NUM_HARDWARE
      invariant 0 <= i <= NUM_HARDWARE
      invariant aHardware == Code(ua, i) && bHardware == Code(ub, i)
    {
      if ua[i] > 0 {
        aHardware := aHardware + XorCode(i);
      }
      if ub[i] > 0 {
        bHardware := bHardware + XorCode(i);
      }
      i := i + 1;
    }
    r := Classify(aHardware as bv8, bHardware as bv8);
  }

  lemma ClassifySymmetric(x: bv8, y: bv8)
    ensures Classify(x, y) == Classify(y, x)
  {
    assert x | y == y | x;
    assert x & y == y & x;
  }

  /** Every present vector is fully similar to itself. */
  lemma HardwareSimilarityReflexive(u: Usage)
    requires WellFormed(u)
    ensures HardwareSimilarity(Some(u), Some(u)) == High
  {
    var c := Code(u, NUM_HARDWARE) as bv8;
    assert c | c == c;
  }

  /** Swapping the two vectors does not change their hardware similarity. */
  lemma HardwareSimilaritySymmetric(a: Option<Usage>, b: Option<Usage>)
    requires WellFormedOpt(a) && WellFormedOpt(b)
    ensures HardwareSimilarity(a, b) == HardwareSimilarity(b, a)
  {
    if a.Some? && b.Some? {
      var x, y := Code(a.value, |a.value|) as bv8, Code(b.value, |b.value|) as bv8;
      calc {
        HardwareSimilarity(a, b);
        Classify(x, y);
        { ClassifySymmetric(x, y); }
        Classify(y, x);
        HardwareSimilarity(b, a);
      }
    }
  }

  /** When exactly one side accumulates the code 0 the result is Low. */
  lemma OneZeroCodeIsLow(a: Usage, b: Usage)
    requires WellFormed(a) && WellFormed(b)
    requires (Code(a, NUM_HARDWARE) == 0) != (Code(b, NUM_HARDWARE) == 0)
    ensures HardwareSimilarity(Some(a), Some(b)) == Low
  {
  }

  /** A vector that uses the sound slot and nothing else accumulates the code 0. */
  lemma {:induction false} SoundOnlyCodeIsZero(u: Usage)
    requires WellFormed(u)
    requires forall i :: 0 <= i < NUM_HARDWARE && i != HARDWARE_SOUND ==> u[i] <= 0
    ensures Code(u, NUM_HARDWARE) == 0
  {
    assert XorCode(HARDWARE_SOUND) == 0;
    assert Code(u, 1) == 0;
    assert Code(u, 2) == 0;
    assert Code(u, 3) == 0;
    assert Code(u, 4) == 0;
    assert Code(u, 5) == 0;
    assert Code(u, 6) == 0;
  }

  // ---------------------------------------------------------------------
  // Hardware similarity with one bit per slot
  //
  // The comments of the scoring code name its three outcomes "subset",
  // "share at least one hardware" and "both only use CPU"; these read the
  // accumulated codes as bit sets, which they are when slot `i`
  // contributes the bit `1 << i`.

  /** The single-bit masks of bit positions 0 to 7. */
  const Bits: seq<bv8> := [1, 2, 4, 8, 16, 32, 64, 128]

  predicate HasBit(m: bv8, k: nat)
    requires k < 8
  {
    m & Bits[k] != 0
  }

  /** The bit a used slot contributes: `1 << i`. */
  function SlotBit(i: nat): (b: bv8)
    requires i < NUM_HARDWARE
    ensures b == Bits[i]
  {
    (1 as bv8) << i
  }

  /** The set of used slots among the first `n`, one bit per slot. */
  function Mask(u: Usage, n: nat): bv8
    requires n <= NUM_HARDWARE && n <= |u|
  {
    if n == 0 then 0
    else Mask(u, n - 1) | (if u[n - 1] > 0 then SlotBit(n - 1) else 0)
  }

  lemma {:induction false} MaskHasBit(u: Usage, n: nat, k: nat)
    requires n <= NUM_HARDWARE && n <= |u| && k < 8
    ensures HasBit(Mask(u, n), k) <==> k < n && u[k] > 0
  {
    if n > 0 {
      MaskHasBit(u, n - 1, k);
    }
  }

  function UsedSlots(u: Usage): set<nat>
    requires WellFormed(u)
  {
    set i: nat | i < NUM_HARDWARE && u[i] > 0
  }

  lemma MaskBits(u: Usage, k: nat)
    requires WellFormed(u) && k < 8
    ensures HasBit(Mask(u, NUM_HARDWARE), k) <==> k in UsedSlots(u)
  {
    MaskHasBit(u, NUM_HARDWARE, k);
  }

  /** `m` holds exactly the bit positions in `A`. */
  ghost predicate Holds(m: bv8, A: set<nat>)
  {
    (forall k :: k in A ==> k < 8)
    && forall k: nat :: k < 8 ==> (HasBit(m, k) <==> k in A)
  }

  lemma ZeroIffEmpty(x: bv8, A: set<nat>)
    requires Holds(x, A)
    ensures x == 0 <==> A == {}
  {
    if A != {} {
      var k :| k in A;
      assert HasBit(x, k);
    } else {
      assert !HasBit(x, 0) && !HasBit(x, 1) && !HasBit(x, 2) && !HasBit(x, 3);
      assert !HasBit(x, 4) && !HasBit(x, 5) && !HasBit(x, 6) && !HasBit(x, 7);
    }
  }

  lemma AbsorbIffSubset(x: bv8, y: bv8, A: set<nat>, B: set<nat>)
    requires Holds(x, A) && Holds(y, B)
    ensures x == x | y <==> B <= A
  {
    if B <= A {
      assert HasBit(y, 0) ==> HasBit(x, 0);
      assert HasBit(y, 1) ==> HasBit(x, 1);
      assert HasBit(y, 2) ==> HasBit(x, 2);
      assert HasBit(y, 3) ==> HasBit(x, 3);
      assert HasBit(y, 4) ==> HasBit(x, 4);
      assert HasBit(y, 5) ==> HasBit(x, 5);
      assert HasBit(y, 6) ==> HasBit(x, 6);
      assert HasBit(y, 7) ==> HasBit(x, 7);
    } else {
      var k :| k in B && k !in A;
      assert HasBit(y, k) && !HasBit(x, k);
      assert HasBit(x | y, k);
    }
  }

  lemma ShareIffMeet(x: bv8, y: bv8, A: set<nat>, B: set<nat>)
    requires Holds(x, A) && Holds(y, B)
    ensures x & y != 0 <==> A * B != {}
  {
    var z := x & y;
    if A * B != {} {
      var k :| k in A * B;
      assert HasBit(x, k) && HasBit(y, k);
      assert HasBit(z, k);
    } else {
      forall k: nat | k < 8
        ensures !HasBit(z, k)
      {
        assert k !in A * B;
      }
      ZeroIffEmpty(z, {});
    }
  }

  lemma MaskHolds(u: Usage)
    requires WellFormed(u)
    ensures Holds(Mask(u, NUM_HARDWARE), UsedSlots(u))
  {
    forall k: nat | k < 8
      ensures HasBit(Mask(u, NUM_HARDWARE), k) <==> k in UsedSlots(u)
    {
      MaskBits(u, k);
    }
  }

  /** Hardware similarity computed on one-bit-per-slot masks. */
  function MaskSimilarity(a: Option<Usage>, b: Option<Usage>): (r: Level)
    requires WellFormedOpt(a) && WellFormedOpt(b)
    ensures a.None? || b.None? ==> r == Low
  {
    match (a, b)
    case (Some(ua), Some(ub)) => Classify(Mask(ua, |ua|), Mask(ub, |ub|))
    case _ => Low
  }

  /**
   * On masks the classification means what the scoring code's comments
   * say: no hardware on either side is High, hardware on one side only
   * is Low, and otherwise High when one used set contains the other, Mid
   * when they merely share a slot, Low when they are disjoint.
   */
  lemma MaskSimilarityMeaning(a: Usage, b: Usage)
    requires WellFormed(a) && WellFormed(b)
    ensures UsedSlots(a) == {} && UsedSlots(b) == {} ==> MaskSimilarity(Some(a), Some(b)) == High
    ensures (UsedSlots(a) == {}) != (UsedSlots(b) == {}) ==> MaskSimilarity(Some(a), Some(b)) == Low
    ensures UsedSlots(a) != {} && UsedSlots(b) != {} ==>
      (MaskSimilarity(Some(a), Some(b)) == High <==> UsedSlots(a) <= UsedSlots(b) || UsedSlots(b) <= UsedSlots(a))
    ensures UsedSlots(a) != {} && UsedSlots(b) != {} ==>
      (MaskSimilarity(Some(a), Some(b)) == Mid <==>
        !(UsedSlots(a) <= UsedSlots(b)) && !(UsedSlots(b) <= UsedSlots(a)) && UsedSlots(a) * UsedSlots(b) != {})
  {
    MaskHolds(a);
    MaskHolds(b);
    ClassifyMeaning(Mask(a, NUM_HARDWARE), Mask(b, NUM_HARDWARE), UsedSlots(a), UsedSlots(b));
  }

  lemma ClassifyMeaning(x: bv8, y: bv8, A: set<nat>, B: set<nat>)
    requires Holds(x, A) && Holds(y, B)
    ensures A == {} && B == {} ==> Classify(x, y) == High
    ensures (A == {}) != (B == {}) ==> Classify(x, y) == Low
    ensures A != {} && B != {} ==> (Classify(x, y) == High <==> A <= B || B <= A)
    ensures A != {} && B != {} ==> (Classify(x, y) == Mid <==> !(A <= B) && !(B <= A) && A * B != {})
  {
    ZeroIffEmpty(x, A);
    ZeroIffEmpty(y, B);
    AbsorbIffSubset(x, y, A, B);
    AbsorbIffSubset(y, x, B, A);
    assert y | x == x | y;
    ShareIffMeet(x, y, A, B);
  }

  /**
   * The XOR codes break that meaning: network alone (code 2) and
   * vibration alone (code 3) share no slot, yet 2 | 3 == 3, so the pair
   * is graded High as if one set contained the other.
   */
  lemma XorCodesGradeDisjointAsHigh()
    ensures UsedSlots([1, 0, 0, 0, 0, 0, 0]) * UsedSlots([0, 1, 0, 0, 0, 0, 0]) == {}
    ensures HardwareSimilarity(Some([1, 0, 0, 0, 0, 0, 0]), Some([0, 1, 0, 0, 0, 0, 0])) == High
    ensures MaskSimilarity(Some([1, 0, 0, 0, 0, 0, 0]), Some([0, 1, 0, 0, 0, 0, 0])) == Low
  {
    var a: Usage := [1, 0, 0, 0, 0, 0, 0];
    var b: Usage := [0, 1, 0, 0, 0, 0, 0];
    assert 0 in UsedSlots(a);
    assert UsedSlots(a) == {0};
    assert 1 in UsedSlots(b);
    assert UsedSlots(b) == {1};
    MaskSimilarityMeaning(a, b);
  }
}
