/**
 * The alarm manager: the time-ordered list of batches, the coalescing
 * searches that decide where a new alarm goes, registration and removal,
 * rebatching, delivery of due batches and the programming of the kernel
 * timer. Under the similarity policy it also keeps every registered alarm
 * in a list ordered by how far its delivery may be delayed.
 */
module Registry {
  import opened Wrappers
  import opened Similarity
  import opened Alarms
  import opened Batches

  // ---------------------------------------------------------------------
  // Pure helpers over the registry's contents

  /** All registered alarms, batch after batch. */
  function Flatten(c: seq<seq<Alarm>>): seq<Alarm>
  {
    if |c| == 0 then [] else Flatten(c[..|c| - 1]) + c[|c| - 1]
  }

  /** The multiset of alarms the batches hold. */
  function Held(c: seq<seq<Alarm>>): multiset<Alarm>
  {
    multiset(Flatten(c))
  }

  /** At most one registered alarm per operation. */
  ghost predicate UniqueOps(m: multiset<Alarm>)
  {
    forall x, y :: x in m && y in m && x.operation == y.operation ==> x == y && m[x] == 1
  }

  /** No registered alarm carries the operation. */
  predicate OpAbsent(m: multiset<Alarm>, op: Operation)
  {
    forall x :: x in m ==> x.operation != op
  }

  /** How many keys are at most `t`: the batches due by time `t`. */
  function CountAtMost(keys: seq<int>, t: int): (n: nat)
    ensures n <= |keys|
  {
    if |keys| == 0 then 0
    else CountAtMost(keys[..|keys| - 1], t) + (if keys[|keys| - 1] <= t then 1 else 0)
  }

  /** Whether an alarm list holds a wakeup alarm. */
  predicate AnyWakeup(s: seq<Alarm>)
  {
    exists a :: a in s && IsWakeupKind(a.kind)
  }

  /** The index of the first batch holding a wakeup alarm, or -1. */
  function FirstWakeup(c: seq<seq<Alarm>>): (r: int)
    ensures -1 <= r < |c|
    ensures r == -1 <==> forall j :: 0 <= j < |c| ==> !AnyWakeup(c[j])
    ensures r >= 0 ==> AnyWakeup(c[r]) && forall j :: 0 <= j < r ==> !AnyWakeup(c[j])
  {
    if |c| == 0 then -1
    else if AnyWakeup(c[0]) then 0
    else
      var r := FirstWakeup(c[1..]);
      assert forall j :: 1 <= j < |c| ==> c[1..][j - 1] == c[j];
      if r == -1 then -1 else r + 1
  }

  /**
   * How long the alarm's delivery may be delayed: its window for a
   * perceivable alarm, its wider interval otherwise.
   */
  function DelaySize(a: Alarm): (d: int)
    ensures Perceivable(a) ==> d == a.maxWhen - a.whenElapsed
    ensures !Perceivable(a) ==> d == Interval(a).hi - Interval(a).lo
  {
    if Perceivable(a) then a.maxWhen - a.whenElapsed else Interval(a).hi - Interval(a).lo
  }

  function DelayKeys(s: seq<Alarm>): (keys: seq<int>)
    ensures |keys| == |s|
    ensures forall i :: 0 <= i < |s| ==> keys[i] == DelaySize(s[i])
  {
    seq(|s|, i requires 0 <= i < |s| => DelaySize(s[i]))
  }

  /**
   * The end of an alarm's window when it is registered again after a
   * clock change: exact alarms stay exact, an explicit window is kept,
   * and otherwise the deferral heuristic is applied to the new futurity.
   */
  function Recompute(a: Alarm, now: int, skew: int): (r: Alarm)
    ensures r.operation == a.operation && r.kind == a.kind && r.when == a.when
    ensures r.repeatInterval == a.repeatInterval && r.windowLength == a.windowLength && r.standalone == a.standalone
    ensures r.hardware == a.hardware && r.intervalSlack == a.intervalSlack
    ensures r.whenElapsed == ConvertToElapsed(a.when, a.kind, skew)
    ensures a.whenElapsed == a.maxWhen ==> r.maxWhen == r.whenElapsed
    ensures a.whenElapsed != a.maxWhen && a.windowLength > 0 ==> r.maxWhen == r.whenElapsed + a.windowLength
    ensures a.whenElapsed != a.maxWhen && a.windowLength <= 0 ==> r.maxWhen == MaxTriggerTime(now, r.whenElapsed, a.repeatInterval)
    ensures AlarmOk(a) ==> AlarmOk(r)
  {
    var whenElapsed := ConvertToElapsed(a.when, a.kind, skew);
    var maxElapsed :=
      if a.whenElapsed == a.maxWhen then whenElapsed
      else if a.windowLength > 0 then whenElapsed + a.windowLength
      else MaxTriggerTime(now, whenElapsed, a.repeatInterval);
    a.(whenElapsed := whenElapsed, maxWhen := maxElapsed)
  }

  function RecomputeAll(s: seq<Alarm>, now: int, skew: int): (r: seq<Alarm>)
    ensures |r| == |s|
    ensures forall i :: 0 <= i < |s| ==> r[i] == Recompute(s[i], now, skew)
  {
    seq(|s|, i requires 0 <= i < |s| => Recompute(s[i], now, skew))
  }

  /**
   * The delivery count of an alarm fired at `now`: one, plus the whole
   * periods that went by since its requested time for a recurring alarm.
   */
  function DeliveryCount(a: Alarm, now: int): int
  {
    if a.repeatInterval > 0 then 1 + JavaDiv(now - a.whenElapsed, a.repeatInterval) else 1
  }

  /**
   * The next occurrence of a recurring alarm: shifted by whole periods,
   * so it never drifts, and strictly after `now`.
   */
  function NextOccurrence(a: Alarm, now: int, standalone: bool): (r: Alarm)
    requires a.repeatInterval > 0
    ensures r.operation == a.operation && r.repeatInterval == a.repeatInterval
    ensures r.kind == a.kind && r.windowLength == a.windowLength && r.standalone == standalone
    ensures r.hardware == a.hardware && r.intervalSlack == a.intervalSlack
    ensures r.whenElapsed > now
    ensures r.maxWhen == MaxTriggerTime(now, r.whenElapsed, a.repeatInterval)
    ensures WellFormedOpt(a.hardware) ==> AlarmOk(r)
  {
    var delta := DeliveryCount(a, now) * a.repeatInterval;
    var nextElapsed := a.whenElapsed + delta;
    var r := a.(when := a.when + delta, whenElapsed := nextElapsed,
      maxWhen := MaxTriggerTime(now, nextElapsed, a.repeatInterval), standalone := standalone);
    assert r.whenElapsed > now by {
      var q := JavaDiv(now - a.whenElapsed, a.repeatInterval);
      JavaDivBounds(now - a.whenElapsed, a.repeatInterval);
      assert now - a.whenElapsed - q * a.repeatInterval < a.repeatInterval;
      assert nextElapsed == a.whenElapsed + a.repeatInterval + q * a.repeatInterval;
    }
    r
  }

  /**
   * The next occurrence moves both clocks by the same whole number of
   * periods; for an alarm delivered late it is the first occurrence after
   * `now`, so it lies within one period of it.
   */
  lemma NextOccurrenceShift(a: Alarm, now: int, standalone: bool)
    requires a.repeatInterval > 0
    ensures var r := NextOccurrence(a, now, standalone);
      r.whenElapsed - a.whenElapsed == DeliveryCount(a, now) * a.repeatInterval
      && r.when - a.when == DeliveryCount(a, now) * a.repeatInterval
    ensures now >= a.whenElapsed ==> now < NextOccurrence(a, now, standalone).whenElapsed <= now + a.repeatInterval
  {
    JavaDivBounds(now - a.whenElapsed, a.repeatInterval);
  }

  /** The kernel timer setting for one alarm type, split as the driver expects. */
  datatype TimerSet = TimerSet(kind: int, seconds: int, nanos: int)

  function Arm(kind: int, when: int): TimerSet
  {
    TimerSet(kind, SplitTime(when).0, SplitTime(when).1)
  }

  // ---------------------------------------------------------------------
  // Lemmas about the helpers

  lemma {:induction false} FlattenAppend(c: seq<seq<Alarm>>, d: seq<seq<Alarm>>)
    ensures Flatten(c + d) == Flatten(c) + Flatten(d)
    decreases |d|
  {
    if |d| == 0 {
      assert c + d == c;
    } else {
      var last := d[|d| - 1];
      assert (c + d)[..|c + d| - 1] == c + d[..|d| - 1];
      FlattenAppend(c, d[..|d| - 1]);
    }
  }

  lemma FlattenOne(x: seq<Alarm>)
    ensures Flatten([x]) == x
  {
    assert [x][..0] == [];
  }

  /** Putting a batch at index p adds its alarms to what the registry holds. */
  lemma HeldInsert(c: seq<seq<Alarm>>, p: int, x: seq<Alarm>)
    requires 0 <= p <= |c|
    ensures Held(c[..p] + [x] + c[p..]) == Held(c) + multiset(x)
  {
    FlattenAppend(c[..p] + [x], c[p..]);
    FlattenAppend(c[..p], [x]);
    FlattenOne(x);
    FlattenAppend(c[..p], c[p..]);
    assert c[..p] + c[p..] == c;
  }

  /** Taking out the batch at index i removes its alarms. */
  lemma HeldRemove(c: seq<seq<Alarm>>, i: int)
    requires 0 <= i < |c|
    ensures Held(c[..i] + c[i + 1..]) == Held(c) - multiset(c[i])
    ensures Held(c) == Held(c[..i] + c[i + 1..]) + multiset(c[i])
  {
    var rest := c[..i] + c[i + 1..];
    assert c == rest[..i] + [c[i]] + rest[i..];
    HeldInsert(rest, i, c[i]);
  }

  /** Replacing one batch's alarms. */
  lemma HeldUpdate(c: seq<seq<Alarm>>, i: int, x: seq<Alarm>)
    requires 0 <= i < |c|
    ensures Held(c[i := x]) == Held(c) - multiset(c[i]) + multiset(x)
    ensures multiset(c[i]) <= Held(c)
  {
    HeldRemove(c, i);
    HeldRemove(c[i := x], i);
    assert c[i := x][..i] + c[i := x][i + 1..] == c[..i] + c[i + 1..];
  }

  lemma UniqueAdd(m: multiset<Alarm>, a: Alarm)
    requires UniqueOps(m) && OpAbsent(m, a.operation)
    ensures UniqueOps(m + multiset{a})
  {
  }

  lemma UniqueSub(m: multiset<Alarm>, n: multiset<Alarm>)
    requires UniqueOps(m) && n <= m
    ensures UniqueOps(n)
  {
  }

  /** In a list with unique operations, an element's operation is absent from what precedes it. */
  lemma UniqueAbsentBefore(s: seq<Alarm>, k: int)
    requires UniqueOps(multiset(s)) && 0 <= k < |s|
    ensures OpAbsent(multiset(s[..k]), s[k].operation)
  {
    assert s == s[..k] + [s[k]] + s[k + 1..];
    assert multiset(s) == multiset(s[..k]) + multiset{s[k]} + multiset(s[k + 1..]);
    forall x | x in multiset(s[..k])
      ensures x.operation != s[k].operation
    {
      assert multiset(s)[x] >= multiset(s[..k])[x] + multiset{s[k]}[x];
    }
  }

  /** Recomputing windows keeps every operation. */
  lemma RecomputeOps(s: seq<Alarm>, now: int, skew: int, op: Operation)
    requires OpAbsent(multiset(s), op)
    ensures OpAbsent(multiset(RecomputeAll(s, now, skew)), op)
  {
    forall x | x in multiset(RecomputeAll(s, now, skew))
      ensures x.operation != op
    {
      var i :| 0 <= i < |s| && RecomputeAll(s, now, skew)[i] == x;
      assert s[i] in multiset(s);
    }
  }

  lemma RecomputeStep(s: seq<Alarm>, k: int, now: int, skew: int)
    requires 0 <= k < |s|
    ensures RecomputeAll(s[..k + 1], now, skew) == RecomputeAll(s[..k], now, skew) + [Recompute(s[k], now, skew)]
  {
  }

  /** Surviving alarms keep the multiplicity they had; matching ones are gone. */
  lemma {:induction false} KeepCount(s: seq<Alarm>, m: Matcher, x: Alarm)
    ensures multiset(Keep(s, m))[x] == if Matches(x, m) then 0 else multiset(s)[x]
  {
    if |s| > 0 {
      KeepCount(s[..|s| - 1], m, x);
      assert s == s[..|s| - 1] + [s[|s| - 1]];
    }
  }

  /** Keeping survivors depends only on the multiset of alarms. */
  lemma KeepSameMultiset(s: seq<Alarm>, t: seq<Alarm>, m: Matcher)
    requires multiset(s) == multiset(t)
    ensures multiset(Keep(s, m)) == multiset(Keep(t, m))
  {
    forall x
      ensures multiset(Keep(s, m))[x] == multiset(Keep(t, m))[x]
    {
      KeepCount(s, m, x);
      KeepCount(t, m, x);
    }
  }

  lemma {:induction false} CountInsert(keys: seq<int>, p: int, k: int, t: int)
    requires 0 <= p <= |keys|
    ensures CountAtMost(keys[..p] + [k] + keys[p..], t) == CountAtMost(keys, t) + (if k <= t then 1 else 0)
    decreases |keys| - p
  {
    if p == |keys| {
      assert keys[..p] + [k] + keys[p..] == keys + [k];
      assert (keys + [k])[..|keys|] == keys;
    } else {
      var s := keys[..p] + [k] + keys[p..];
      var init := keys[..|keys| - 1];
      CountInsert(init, p, k, t);
      assert s[..|s| - 1] == init[..p] + [k] + init[p..];
      assert s[|s| - 1] == keys[|keys| - 1];
    }
  }

  lemma CountRemove(keys: seq<int>, i: int, t: int)
    requires 0 <= i < |keys|
    ensures CountAtMost(keys[..i] + keys[i + 1..], t) == CountAtMost(keys, t) - (if keys[i] <= t then 1 else 0)
  {
    var rest := keys[..i] + keys[i + 1..];
    assert keys == rest[..i] + [keys[i]] + rest[i..];
    CountInsert(rest, i, keys[i], t);
  }

  /** Pushing one key past `t` cannot make more keys due by `t`. */
  lemma CountPushLater(keys: seq<int>, i: int, k: int, t: int)
    requires 0 <= i < |keys| && k > t
    ensures CountAtMost(keys[i := k], t) <= CountAtMost(keys, t)
  {
    CountRemove(keys, i, t);
    CountRemove(keys[i := k], i, t);
    assert keys[i := k][..i] + keys[i := k][i + 1..] == keys[..i] + keys[i + 1..];
  }

  /** No time before `lo` has more keys due by it in `after` than in `before`. */
  ghost predicate NoMoreDue(after: seq<int>, before: seq<int>, lo: int)
  {
    forall t :: t < lo ==> CountAtMost(after, t) <= CountAtMost(before, t)
  }

  lemma NoMoreDueAt(after: seq<int>, before: seq<int>, lo: int, t: int)
    requires NoMoreDue(after, before, lo) && t < lo
    ensures CountAtMost(after, t) <= CountAtMost(before, t)
  {
  }

  lemma CountInsertAbove(keys: seq<int>, p: int, k: int, lo: int)
    requires 0 <= p <= |keys| && k >= lo
    ensures NoMoreDue(keys[..p] + [k] + keys[p..], keys, lo)
  {
    forall t | t < lo
      ensures CountAtMost(keys[..p] + [k] + keys[p..], t) == CountAtMost(keys, t)
    {
      CountInsert(keys, p, k, t);
    }
  }

  /** The alarms of the batches whose keys are later than t: the ones not yet due by t. */
  ghost function Undue(c: seq<seq<Alarm>>, keys: seq<int>, t: int): multiset<Alarm>
    requires |c| == |keys|
  {
    if |c| == 0 then multiset{}
    else Undue(c[..|c| - 1], keys[..|keys| - 1], t) + (if keys[|keys| - 1] > t then multiset(c[|c| - 1]) else multiset{})
  }

  /** Every alarm not yet due is held by the batches. */
  lemma {:induction false} UndueHeld(c: seq<seq<Alarm>>, keys: seq<int>, t: int)
    requires |c| == |keys|
    ensures Undue(c, keys, t) <= Held(c)
  {
    if |c| > 0 {
      var init := c[..|c| - 1];
      UndueHeld(init, keys[..|keys| - 1], t);
      HeldInsert(init, |init|, c[|c| - 1]);
      assert init[..|init|] + [c[|c| - 1]] + init[|init|..] == c;
    }
  }

  /** Dropping the last element of a concatenation drops it from the second part. */
  lemma AppendInit<T>(a: seq<T>, b: seq<T>)
    requires |b| > 0
    ensures (a + b)[..|a + b| - 1] == a + b[..|b| - 1] && (a + b)[|a + b| - 1] == b[|b| - 1]
  {
    assert (a + b)[..|a + b| - 1] == a + b[..|b| - 1];
  }

  lemma {:induction false} UndueAppend(c1: seq<seq<Alarm>>, k1: seq<int>, c2: seq<seq<Alarm>>, k2: seq<int>, t: int)
    requires |c1| == |k1| && |c2| == |k2|
    ensures Undue(c1 + c2, k1 + k2, t) == Undue(c1, k1, t) + Undue(c2, k2, t)
    decreases |c2|
  {
    var c, ks := c1 + c2, k1 + k2;
    if |c2| == 0 {
      assert c == c1 && ks == k1;
    } else {
      var init, kinit := c2[..|c2| - 1], k2[..|k2| - 1];
      UndueAppend(c1, k1, init, kinit, t);
      AppendInit(c1, c2);
      AppendInit(k1, k2);
    }
  }

  lemma UndueInsert(c: seq<seq<Alarm>>, keys: seq<int>, p: int, x: seq<Alarm>, k: int, t: int)
    requires |c| == |keys| && 0 <= p <= |c|
    ensures Undue(c[..p] + [x] + c[p..], keys[..p] + [k] + keys[p..], t) == Undue(c, keys, t) + (if k > t then multiset(x) else multiset{})
  {
    var u1, u2 := Undue(c[..p], keys[..p], t), Undue(c[p..], keys[p..], t);
    UndueAppend(c[..p] + [x], keys[..p] + [k], c[p..], keys[p..], t);
    UndueAppend(c[..p], keys[..p], [x], [k], t);
    UndueOne(x, k, t);
    UndueAppend(c[..p], keys[..p], c[p..], keys[p..], t);
    assert c[..p] + c[p..] == c && keys[..p] + keys[p..] == keys;
    assert Undue(c, keys, t) == u1 + u2;
  }

  lemma UndueOne(x: seq<Alarm>, k: int, t: int)
    ensures Undue([x], [k], t) == if k > t then multiset(x) else multiset{}
  {
    assert [x][..0] == [] && [k][..0] == [];
  }

  lemma UndueRemove(c: seq<seq<Alarm>>, keys: seq<int>, i: int, t: int)
    requires |c| == |keys| && 0 <= i < |c|
    ensures Undue(c[..i] + c[i + 1..], keys[..i] + keys[i + 1..], t) + (if keys[i] > t then multiset(c[i]) else multiset{})
      == Undue(c, keys, t)
  {
    var rest, krest := c[..i] + c[i + 1..], keys[..i] + keys[i + 1..];
    assert c == rest[..i] + [c[i]] + rest[i..];
    assert keys == krest[..i] + [keys[i]] + krest[i..];
    UndueInsert(rest, krest, i, c[i], keys[i], t);
  }

  /** No alarm not yet due by a time before `lo` in `before` is due by it in `after`. */
  ghost predicate KeepsUndue(after: seq<seq<Alarm>>, afterKeys: seq<int>, before: seq<seq<Alarm>>, beforeKeys: seq<int>, lo: int)
  {
    |after| == |afterKeys| && |before| == |beforeKeys|
    && forall t :: t < lo ==> Undue(before, beforeKeys, t) <= Undue(after, afterKeys, t)
  }

  lemma UndueInsertAbove(c: seq<seq<Alarm>>, keys: seq<int>, p: int, x: seq<Alarm>, k: int, lo: int)
    requires |c| == |keys| && 0 <= p <= |c| && k >= lo
    ensures KeepsUndue(c[..p] + [x] + c[p..], keys[..p] + [k] + keys[p..], c, keys, lo)
  {
    forall t | t < lo
      ensures Undue(c, keys, t) <= Undue(c[..p] + [x] + c[p..], keys[..p] + [k] + keys[p..], t)
    {
      UndueInsert(c, keys, p, x, k, t);
    }
  }

  /**
   * Moving one batch that gained alarms, to a key at least `lo` or to the
   * key it had, keeps every batch not due before `lo` not due.
   */
  lemma UndueMoved(c: seq<seq<Alarm>>, keys: seq<int>, i: int, p: int, grown: seq<Alarm>, k: int, lo: int)
    requires |c| == |keys| && 0 <= i < |c| && 0 <= p <= |c| - 1
    requires multiset(c[i]) <= multiset(grown) && (k >= lo || k == keys[i])
    ensures KeepsUndue((c[..i] + c[i + 1..])[..p] + [grown] + (c[..i] + c[i + 1..])[p..],
                       (keys[..i] + keys[i + 1..])[..p] + [k] + (keys[..i] + keys[i + 1..])[p..], c, keys, lo)
  {
    var rest, krest := c[..i] + c[i + 1..], keys[..i] + keys[i + 1..];
    forall t | t < lo
      ensures Undue(c, keys, t) <= Undue(rest[..p] + [grown] + rest[p..], krest[..p] + [k] + krest[p..], t)
    {
      UndueRemove(c, keys, i, t);
      UndueInsert(rest, krest, p, grown, k, t);
    }
  }

  /** Taking a due batch off the head leaves the alarms not yet due where they were. */
  lemma UndueDrop(c: seq<seq<Alarm>>, keys: seq<int>, t: int)
    requires |c| == |keys| && |c| > 0 && keys[0] <= t
    ensures Undue(c[1..], keys[1..], t) == Undue(c, keys, t)
  {
    UndueRemove(c, keys, 0, t);
    assert c[..0] + c[1..] == c[1..] && keys[..0] + keys[1..] == keys[1..];
  }

  /** A sorted list whose head is not due has nothing due. */
  lemma {:induction false} CountNoneDue(keys: seq<int>, t: int)
    requires forall i :: 0 <= i < |keys| ==> keys[i] > t
    ensures CountAtMost(keys, t) == 0
  {
    if |keys| > 0 {
      CountNoneDue(keys[..|keys| - 1], t);
    }
  }

  /** In a sorted key list whose head is not due, nothing is. */
  lemma HeadNotDue(keys: seq<int>, t: int)
    requires Sorted(keys) && (|keys| == 0 || keys[0] > t)
    ensures CountAtMost(keys, t) == 0
  {
    assert forall i :: 0 <= i < |keys| ==> keys[i] >= keys[0];
    CountNoneDue(keys, t);
  }

  // ---------------------------------------------------------------------
  // The alarm manager

  /** The alarm lists of a sequence of batches. */
  ghost function AlarmsOf(bs: seq<Batch>): seq<seq<Alarm>>
    reads bs
  {
    seq(|bs|, i reads bs requires 0 <= i < |bs| => bs[i].alarms)
  }

  /** The ordering keys of a sequence of batches. */
  function KeysOf(bs: seq<Batch>): seq<int>
    reads bs
  {
    seq(|bs|, i reads bs requires 0 <= i < |bs| => bs[i].Key())
  }

  /** No batch object occurs twice. */
  predicate Distinct(bs: seq<Batch>)
  {
    forall i, j :: 0 <= i < j < |bs| ==> bs[i] != bs[j]
  }

  lemma DistinctInsert(bs: seq<Batch>, i: int, b: Batch)
    requires 0 <= i <= |bs| && Distinct(bs) && b !in bs
    ensures Distinct(bs[..i] + [b] + bs[i..])
  {
    var n := bs[..i] + [b] + bs[i..];
    assert forall j :: 0 <= j < |n| ==> n[j] == if j < i then bs[j] else if j == i then b else bs[j - 1];
  }

  lemma DistinctDelete(bs: seq<Batch>, i: int)
    requires 0 <= i < |bs| && Distinct(bs)
    ensures Distinct(bs[..i] + bs[i + 1..]) && bs[i] !in bs[..i] + bs[i + 1..]
  {
    var n := bs[..i] + bs[i + 1..];
    assert forall j :: 0 <= j < |n| ==> n[j] == if j < i then bs[j] else bs[j + 1];
  }

  lemma AlarmsOfInsert(bs: seq<Batch>, i: int, b: Batch)
    requires 0 <= i <= |bs|
    ensures AlarmsOf(bs[..i] + [b] + bs[i..]) == AlarmsOf(bs)[..i] + [b.alarms] + AlarmsOf(bs)[i..]
    ensures KeysOf(bs[..i] + [b] + bs[i..]) == KeysOf(bs)[..i] + [b.Key()] + KeysOf(bs)[i..]
  {
    var n := bs[..i] + [b] + bs[i..];
    assert forall j :: 0 <= j < |n| ==> n[j] == if j < i then bs[j] else if j == i then b else bs[j - 1];
  }

  lemma AlarmsOfDelete(bs: seq<Batch>, i: int)
    requires 0 <= i < |bs|
    ensures AlarmsOf(bs[..i] + bs[i + 1..]) == AlarmsOf(bs)[..i] + AlarmsOf(bs)[i + 1..]
    ensures KeysOf(bs[..i] + bs[i + 1..]) == KeysOf(bs)[..i] + KeysOf(bs)[i + 1..]
  {
    var n := bs[..i] + bs[i + 1..];
    assert forall j :: 0 <= j < |n| ==> n[j] == if j < i then bs[j] else bs[j + 1];
  }

  /**
   * `reg` is `r0` with the alarms the matcher selects counted only as the
   * first k batches of `c0` hold them.
   */
  ghost predicate SweptBelow(reg: multiset<Alarm>, r0: multiset<Alarm>, c0: seq<seq<Alarm>>, k: int, m: Matcher)
    requires 0 <= k <= |c0|
  {
    forall x :: reg[x] == if Matches(x, m) then Held(c0[..k])[x] else r0[x]
  }

  /** Sweeping batch i moves the boundary down by one. */
  lemma SweptStep(before: multiset<Alarm>, after: multiset<Alarm>, r0: multiset<Alarm>, c0: seq<seq<Alarm>>, i: int, m: Matcher)
    requires 0 <= i < |c0| && SweptBelow(before, r0, c0, i + 1, m)
    requires after + multiset(c0[i]) == before + multiset(Keep(c0[i], m))
    ensures SweptBelow(after, r0, c0, i, m)
  {
    HeldPrefix(c0, i);
    forall x
      ensures after[x] == if Matches(x, m) then Held(c0[..i])[x] else r0[x]
    {
      KeepCount(c0[i], m, x);
      assert (after + multiset(c0[i]))[x] == (before + multiset(Keep(c0[i], m)))[x];
    }
  }

  /** Every batch of `bs` is in `bs0`. */
  predicate Among(bs: seq<Batch>, bs0: seq<Batch>)
  {
    forall b :: b in bs ==> b in bs0
  }

  /**
   * The baseline removal's progress over a batch list `bs` holding `c`
   * with keys `keys`: batches from index k on are swept, those below are
   * untouched, and `d` says whether anything went.
   */
  ghost predicate SweptTo(k: int, m: Matcher, bs: seq<Batch>, c: seq<seq<Alarm>>, keys: seq<int>, reg: multiset<Alarm>,
                          bs0: seq<Batch>, c0: seq<seq<Alarm>>, k0: seq<int>, r0: multiset<Alarm>, d: bool)
  {
    0 <= k <= |bs| && k <= |c0| == |bs0| && k <= |c|
    && bs[..k] == bs0[..k] && c[..k] == c0[..k]
    && Among(bs, bs0) && SweptBelow(reg, r0, c0, k, m) && d == Dirty(c0, k, m)
    && (!d ==> bs == bs0 && c == c0 && keys == k0)
  }

  /** Sweeping batch i, as the removal step reports it, moves the progress boundary down to i. */
  lemma SweptAt(i: int, m: Matcher, bs: seq<Batch>, c: seq<seq<Alarm>>, keys: seq<int>, reg: multiset<Alarm>,
                bs0: seq<Batch>, c0: seq<seq<Alarm>>, k0: seq<int>, r0: multiset<Alarm>, d: bool,
                removed: bool, kept: bool, x: seq<Alarm>,
                bs': seq<Batch>, c': seq<seq<Alarm>>, keys': seq<int>, reg': multiset<Alarm>)
    requires 0 <= i && SweptTo(i + 1, m, bs, c, keys, reg, bs0, c0, k0, r0, d)
    requires Among(bs', bs) && (removed <==> !Clean(c[i], m))
    requires reg' + multiset(c[i]) == reg + multiset(Keep(c[i], m))
    requires Scrubbed(bs, bs', i, bs[i], kept) && Scrubbed(c, c', i, x, kept)
    requires !removed ==> kept && x == c[i] && keys' == keys
    ensures SweptTo(i, m, bs', c', keys', reg', bs0, c0, k0, r0, d || removed)
  {
    assert c[i] == c0[i];
    ScrubbedPrefix(bs, bs', i, bs[i], kept);
    ScrubbedPrefix(c, c', i, x, kept);
    SweptStep(reg, reg', r0, c0, i, m);
    PrefixOfPrefix(bs, bs0, i);
    PrefixOfPrefix(c, c0, i);
    DirtyStep(c0, i, m);
  }

  /** Some batch from index lo on holds an alarm the matcher selects. */
  ghost predicate Dirty(c: seq<seq<Alarm>>, lo: int, m: Matcher)
  {
    exists j :: 0 <= j < |c| && lo <= j && !Clean(c[j], m)
  }

  lemma DirtyStep(c: seq<seq<Alarm>>, i: int, m: Matcher)
    requires 0 <= i < |c|
    ensures Dirty(c, i, m) <==> Dirty(c, i + 1, m) || !Clean(c[i], m)
  {
  }

  /** `reg` has lost only alarms the matcher selects, relative to `r0`. */
  ghost predicate Trimmed(reg: multiset<Alarm>, r0: multiset<Alarm>, m: Matcher)
  {
    forall x :: reg[x] <= r0[x] && (!Matches(x, m) ==> reg[x] == r0[x])
  }

  /** Taking the matching alarms out of one batch's list trims the registry further. */
  lemma TrimStep(before: multiset<Alarm>, after: multiset<Alarm>, r0: multiset<Alarm>, s: seq<Alarm>, m: Matcher)
    requires Trimmed(before, r0, m)
    requires after + multiset(s) == before + multiset(Keep(s, m))
    ensures Trimmed(after, r0, m)
    ensures Clean(s, m) ==> after == before
    ensures !Clean(s, m) ==> after != r0 && |after| < |before|
  {
    forall x
      ensures after[x] <= before[x] && (!Matches(x, m) ==> after[x] == before[x])
      ensures Clean(s, m) ==> after[x] == before[x]
    {
      KeepCount(s, m, x);
      assert (after + multiset(s))[x] == (before + multiset(Keep(s, m)))[x];
    }
    if !Clean(s, m) {
      TrimShrinks(before, after, s, m);
    }
  }

  lemma TrimShrinks(before: multiset<Alarm>, after: multiset<Alarm>, s: seq<Alarm>, m: Matcher)
    requires after + multiset(s) == before + multiset(Keep(s, m))
    requires !Clean(s, m)
    ensures after[Witness(s, m)] < before[Witness(s, m)] && |after| < |before|
  {
    var x := Witness(s, m);
    KeepCount(s, m, x);
    assert (after + multiset(s))[x] == (before + multiset(Keep(s, m)))[x];
    KeepShrinks(s, m);
    assert |after + multiset(s)| == |before + multiset(Keep(s, m))|;
  }

  /** An alarm of the list that the matcher selects. */
  ghost function Witness(s: seq<Alarm>, m: Matcher): (x: Alarm)
    requires !Clean(s, m)
    ensures x in s && Matches(x, m)
  {
    var x :| x in s && Matches(x, m); x
  }

  /** With every matching alarm gone, something went exactly when something matched. */
  lemma TrimmedAll(reg: multiset<Alarm>, r0: multiset<Alarm>, m: Matcher)
    requires Trimmed(reg, r0, m) && forall x :: Matches(x, m) ==> reg[x] == 0
    ensures Filtered(reg, r0, m)
    ensures reg != r0 <==> exists x :: x in r0 && Matches(x, m)
  {
    if reg != r0 {
      var x :| reg[x] != r0[x];
    }
  }

  /** One step of filtering a list from the back. */
  lemma FilterStep(o: seq<Alarm>, i: int, m: Matcher)
    requires 0 <= i < |o|
    ensures var cur := o[..i + 1] + Keep(o[i + 1..], m);
      cur[i] == o[i]
      && (Matches(o[i], m) ==> cur[..i] + cur[i + 1..] == o[..i] + Keep(o[i..], m))
      && (!Matches(o[i], m) ==> cur == o[..i] + Keep(o[i..], m))
  {
    KeepAppend([o[i]], o[i + 1..], m);
    assert [o[i]] + o[i + 1..] == o[i..];
    assert [o[i]][..0] == [];
    assert o[..i + 1] == o[..i] + [o[i]];
  }

  /** Filtering the delay-ordered list the way the registry was filtered keeps them in step. */
  lemma KeptIsFiltered(order: seq<Alarm>, r0: multiset<Alarm>, reg: multiset<Alarm>, m: Matcher)
    requires multiset(order) == r0 && Filtered(reg, r0, m)
    ensures multiset(Keep(order, m)) == reg
  {
    forall x
      ensures multiset(Keep(order, m))[x] == reg[x]
    {
      KeepCount(order, m, x);
    }
  }

  /** Taking alarms out keeps operations unique. */
  lemma FilteredUnique(reg: multiset<Alarm>, r0: multiset<Alarm>, m: Matcher)
    requires Filtered(reg, r0, m) && UniqueOps(r0)
    ensures UniqueOps(reg)
  {
    assert reg <= r0 by {
      forall x
        ensures reg[x] <= r0[x]
      {
      }
    }
    UniqueSub(r0, reg);
  }

  /** Once every batch is swept, the matching alarms are gone, and something went exactly when some batch held a match. */
  lemma SweptAll(reg: multiset<Alarm>, c0: seq<seq<Alarm>>, m: Matcher)
    requires SweptBelow(reg, Held(c0), c0, 0, m)
    ensures Filtered(reg, Held(c0), m)
    ensures Dirty(c0, 0, m) <==> exists x :: x in Held(c0) && Matches(x, m)
  {
    assert c0[..0] == [];
    forall x | x in Held(c0) && Matches(x, m)
      ensures exists j :: 0 <= j < |c0| && !Clean(c0[j], m)
    {
      HeldMember(c0, x);
    }
    if j :| 0 <= j < |c0| && !Clean(c0[j], m) {
      var x :| x in c0[j] && Matches(x, m);
      HeldMember(c0, x);
    }
  }

  /** Equal prefixes of length i + 1 have equal prefixes of length i. */
  lemma PrefixOfPrefix<T>(s: seq<T>, t: seq<T>, i: int)
    requires 0 <= i < |s| && 0 <= i < |t| && s[..i + 1] == t[..i + 1]
    ensures s[..i] == t[..i]
  {
    assert s[..i] == s[..i + 1][..i];
    assert t[..i] == t[..i + 1][..i];
  }

  /** Taking out element i leaves the elements before it in place. */
  lemma DeletePrefix<T>(s: seq<T>, i: int)
    requires 0 <= i < |s|
    ensures (s[..i] + s[i + 1..])[..i] == s[..i]
    ensures forall x :: x in s[..i] + s[i + 1..] ==> x in s
  {
    assert forall x :: x in s[..i] ==> x in s;
    assert forall x :: x in s[i + 1..] ==> x in s;
  }

  /** Taking out element i and putting x where it was replaces it. */
  lemma ReplaceAt<T>(s: seq<T>, i: int, x: T)
    requires 0 <= i < |s|
    ensures var r := s[..i] + s[i + 1..]; r[..i] + [x] + r[i..] == s[i := x]
    ensures s[i := x][..i] == s[..i]
    ensures x == s[i] ==> s[i := x] == s
  {
    var r := s[..i] + s[i + 1..];
    assert r[..i] == s[..i] && r[i..] == s[i + 1..];
  }

  /** Adding k to what is left after taking c out of h gives h with c swapped for k. */
  lemma Rebalance(rest: multiset<Alarm>, after: multiset<Alarm>, h: multiset<Alarm>, c: multiset<Alarm>, k: multiset<Alarm>)
    requires rest + c == h && after == rest + k
    ensures after + c == h + k
  {
    forall x
      ensures (after + c)[x] == (h + k)[x]
    {
    }
  }

  /** Element i replaced by x when kept, taken out otherwise. */
  ghost predicate Scrubbed<T>(s: seq<T>, s': seq<T>, i: int, x: T, kept: bool)
    requires 0 <= i < |s|
  {
    (kept ==> s' == s[i := x]) && (!kept ==> s' == s[..i] + s[i + 1..])
  }

  /** Replacing or taking out element i leaves the elements before it in place. */
  lemma ScrubbedPrefix<T>(s: seq<T>, s': seq<T>, i: int, x: T, kept: bool)
    requires 0 <= i < |s| && Scrubbed(s, s', i, x, kept)
    ensures i <= |s'| && s'[..i] == s[..i]
  {
    if !kept {
      DeletePrefix(s, i);
    }
  }

  /** Moving one element of a sequence to another place brings in nothing new. */
  lemma MovedMembers<T>(s: seq<T>, i: int, p: int)
    requires 0 <= i < |s| && 0 <= p <= |s| - 1
    ensures forall x :: x in (s[..i] + s[i + 1..])[..p] + [s[i]] + (s[..i] + s[i + 1..])[p..] ==> x in s
  {
    var r := s[..i] + s[i + 1..];
    assert forall x :: x in r ==> x in s;
    assert forall x :: x in r[..p] || x in r[p..] ==> x in r;
  }

  /** A key taken out of a sorted list still fits where it was. */
  lemma SplitsWhereRemoved(keys: seq<int>, i: int)
    requires Sorted(keys) && 0 <= i < |keys|
    ensures Splits(keys[..i] + keys[i + 1..], i, keys[i])
  {
  }

  /** Moving one batch after adding an alarm to it registers just that alarm more. */
  lemma HeldMoved(c: seq<seq<Alarm>>, i: int, p: int, grown: seq<Alarm>, a: Alarm)
    requires 0 <= i < |c| && 0 <= p <= |c| - 1
    requires multiset(grown) == multiset(c[i]) + multiset{a}
    ensures Held((c[..i] + c[i + 1..])[..p] + [grown] + (c[..i] + c[i + 1..])[p..]) == Held(c) + multiset{a}
  {
    HeldRemove(c, i);
    HeldInsert(c[..i] + c[i + 1..], p, grown);
  }

  /** Re-keying one batch to a key past `t`, or not at all, cannot make more batches due by `t`. */
  lemma CountMoved(keys: seq<int>, i: int, p: int, k: int, lo: int)
    requires 0 <= i < |keys| && 0 <= p <= |keys| - 1
    requires k >= lo || k == keys[i]
    ensures NoMoreDue((keys[..i] + keys[i + 1..])[..p] + [k] + (keys[..i] + keys[i + 1..])[p..], keys, lo)
  {
    forall t | t < lo
      ensures CountAtMost((keys[..i] + keys[i + 1..])[..p] + [k] + (keys[..i] + keys[i + 1..])[p..], t) <= CountAtMost(keys, t)
    {
      CountRemove(keys, i, t);
      CountInsert(keys[..i] + keys[i + 1..], p, k, t);
    }
  }

  /** The similarity of an alarm to a batch: by time, then by hardware. */
  function GradeOf(a: Alarm, b: Batch): (Level, Level)
    reads b
    requires WellFormedOpt(a.hardware) && WellFormedOpt(b.hardware)
  {
    (TimeSimilarity(Window(a), Interval(a), Span(b.start, b.end), Span(b.intervalStart, b.intervalEnd)),
     HardwareSimilarity(a.hardware, b.hardware))
  }

  /** A batch the similarity policy may put the alarm into. */
  predicate Eligible(a: Alarm, b: Batch)
    reads b
  {
    !b.standalone && WellFormedOpt(a.hardware) && WellFormedOpt(b.hardware)
    && IsMergeable(Perceivable(a), b.perceivable, GradeOf(a, b).0, GradeOf(a, b).1)
  }

  /** An eligible batch whose grade beats (t, h). */
  predicate Beats(a: Alarm, b: Batch, t: Level, h: Level)
    reads b
  {
    Eligible(a, b) && IsHigherSimilarity(t, h, GradeOf(a, b).0, GradeOf(a, b).1)
  }

  /** An eligible batch of the best possible grade. */
  predicate TopGrade(a: Alarm, b: Batch)
    reads b
  {
    Eligible(a, b) && GradeOf(a, b) == (High, High)
  }

  /** A new batch holding one alarm, standalone when the alarm is. */
  method Seeded(a: Alarm, howard: bool) returns (b: Batch)
    requires AlarmOk(a)
    ensures fresh(b) && b.Valid() && b.howard == howard
    ensures b.alarms == [a] && b.standalone == a.standalone && b.Key() == a.whenElapsed
  {
    b := new Batch(a, howard);
    b.standalone := a.standalone;
  }

  /** One step of the similarity search: whether batch b replaces the best grade (t, h). */
  method Consider(a: Alarm, b: Batch, t: Level, h: Level) returns (take: bool)
    requires WellFormedOpt(a.hardware) && WellFormedOpt(b.hardware)
    ensures take <==> Beats(a, b, t, h)
  {
    if b.standalone {
      return false;
    }
    var g := GradeOf(a, b);
    take := IsMergeable(Perceivable(a), b.perceivable, g.0, g.1) && IsHigherSimilarity(t, h, g.0, g.1);
  }

  /** An eligible batch's window meets the alarm's, or neither is perceivable. */
  lemma EligibleMeaning(a: Alarm, b: Batch)
    requires Eligible(a, b)
    ensures Overlaps(Window(a), Span(b.start, b.end)) || (!b.perceivable && !Perceivable(a))
  {
  }

  /** The batch times the kernel is programmed with: `when` or `start`. */
  function TimesOf(bs: seq<Batch>, useWhen: bool): seq<int>
    reads bs
  {
    seq(|bs|, i reads bs requires 0 <= i < |bs| => if useWhen then bs[i].when else bs[i].start)
  }

  /** The two programmed kernel times and the timer settings issued so far. */
  datatype Kernel = Kernel(nextWakeup: int, nextNonWakeup: int, armed: seq<TimerSet>)

  /**
   * What rescheduling does to the kernel timers, given the batch times and
   * the index of the first batch holding a wakeup alarm (or -1): the
   * wakeup timer follows that batch, and the non-wakeup timer follows the
   * head batch when the head is not that batch; a timer is set only when
   * its time changes.
   */
  function Plan(times: seq<int>, fw: int, k: Kernel): Kernel
    requires -1 <= fw < |times|
  {
    if |times| == 0 then k
    else
      var k1 := if fw >= 0 && k.nextWakeup != times[fw]
        then k.(nextWakeup := times[fw], armed := k.armed + [Arm(ELAPSED_REALTIME_WAKEUP, times[fw])])
        else k;
      if fw != 0 && k1.nextNonWakeup != times[0]
      then k1.(nextNonWakeup := times[0], armed := k1.armed + [Arm(ELAPSED_REALTIME, times[0])])
      else k1
  }

  /** After rescheduling the timers point at the right batches, and only changes were issued. */
  lemma PlanTargets(times: seq<int>, fw: int, k: Kernel)
    requires -1 <= fw < |times|
    ensures var r := Plan(times, fw, k);
      && (|times| == 0 ==> r == k)
      && (|times| > 0 && fw >= 0 ==> r.nextWakeup == times[fw])
      && (|times| > 0 && fw != 0 ==> r.nextNonWakeup == times[0])
      && (fw < 0 ==> r.nextWakeup == k.nextWakeup)
      && (fw == 0 ==> r.nextNonWakeup == k.nextNonWakeup)
      && |r.armed| == |k.armed| + (if r.nextWakeup != k.nextWakeup then 1 else 0) + (if r.nextNonWakeup != k.nextNonWakeup then 1 else 0)
      && r.armed[..|k.armed|] == k.armed
      && (r.nextWakeup != k.nextWakeup ==> r.armed[|k.armed|] == Arm(ELAPSED_REALTIME_WAKEUP, r.nextWakeup))
      && (r.nextNonWakeup != k.nextNonWakeup ==> r.armed[|r.armed| - 1] == Arm(ELAPSED_REALTIME, r.nextNonWakeup))
  {
  }

  /** Rescheduling a second time with nothing changed sets no timer. */
  lemma PlanIdempotent(times: seq<int>, fw: int, k: Kernel)
    requires -1 <= fw < |times|
    ensures Plan(times, fw, Plan(times, fw, k)) == Plan(times, fw, k)
  {
  }

  /** The kernel timers point at the first batch holding a wakeup alarm and, unless that is the head, at the head batch. */
  predicate Aimed(times: seq<int>, fw: int, k: Kernel)
  {
    (0 <= fw < |times| ==> k.nextWakeup == times[fw])
    && (0 < |times| && fw != 0 ==> k.nextNonWakeup == times[0])
  }

  // ---------------------------------------------------------------------
  // Removal, rebatching and delivery bookkeeping

  /** An alarm is registered exactly when some batch holds it. */
  lemma {:induction false} HeldMember(c: seq<seq<Alarm>>, x: Alarm)
    ensures x in Held(c) <==> exists j :: 0 <= j < |c| && x in c[j]
    decreases |c|
  {
    if |c| > 0 {
      var init := c[..|c| - 1];
      HeldMember(init, x);
      assert forall j :: 0 <= j < |init| ==> init[j] == c[j];
      if x in c[|c| - 1] {
        assert x in Flatten(c);
      }
      if x in Flatten(init) {
        assert x in Flatten(c);
      }
    }
  }

  /** The alarms of the first i + 1 batches: those of the first i, and batch i's. */
  lemma HeldPrefix(c: seq<seq<Alarm>>, i: int)
    requires 0 <= i < |c|
    ensures Held(c[..i + 1]) == Held(c[..i]) + multiset(c[i])
  {
    assert c[..i + 1][..i] == c[..i];
  }

  /** `after` is `before` with every alarm the matcher selects taken out. */
  ghost predicate Filtered(after: multiset<Alarm>, before: multiset<Alarm>, m: Matcher)
  {
    forall x :: after[x] == if Matches(x, m) then 0 else before[x]
  }

  /** No alarm of the list matches. */
  predicate Clean(s: seq<Alarm>, m: Matcher)
  {
    forall x :: x in s ==> !Matches(x, m)
  }

  lemma KeepClean(s: seq<Alarm>, m: Matcher)
    ensures Clean(Keep(s, m), m)
  {
    KeepMembers(s, m);
  }

  /** Every batch above index i is clean. */
  predicate CleanAbove(c: seq<seq<Alarm>>, i: int, m: Matcher)
  {
    forall j :: 0 <= j < |c| && i < j ==> Clean(c[j], m)
  }

  /** Moving batch i to index p after cleaning it keeps every batch above i clean. */
  lemma CleanAfterMove(c: seq<seq<Alarm>>, i: int, p: int, x: seq<Alarm>, m: Matcher)
    requires 0 <= i < |c| && 0 <= p <= |c| - 1
    requires CleanAbove(c, i, m) && Clean(x, m)
    ensures var r := c[..i] + c[i + 1..]; CleanAbove(r[..p] + [x] + r[p..], i, m)
  {
    var r := c[..i] + c[i + 1..];
    var n := r[..p] + [x] + r[p..];
    forall j | 0 <= j < |n| && i < j
      ensures Clean(n[j], m)
    {
      if j < p {
        assert n[j] == c[j + 1];
      } else if j > p {
        assert n[j] == r[j - 1];
        assert j - 1 >= i ==> r[j - 1] == c[j];
      }
    }
  }

  /** Dropping batch i keeps every batch from i on clean. */
  lemma CleanAfterDelete(c: seq<seq<Alarm>>, i: int, m: Matcher)
    requires 0 <= i < |c| && CleanAbove(c, i, m)
    ensures CleanAbove(c[..i] + c[i + 1..], i - 1, m)
  {
    var r := c[..i] + c[i + 1..];
    assert forall j :: i <= j < |r| ==> r[j] == c[j + 1];
  }

  lemma CleanAboveStep(c: seq<seq<Alarm>>, i: int, m: Matcher)
    requires 0 <= i < |c| && CleanAbove(c, i, m) && Clean(c[i], m)
    ensures CleanAbove(c, i - 1, m)
  {
  }

  /**
   * How one step of the similarity policy's removal reshapes the batch
   * contents: untouched, batch i cleaned to x and moved to p, or batch i
   * dropped.
   */
  ghost predicate Reshaped(c: seq<seq<Alarm>>, c': seq<seq<Alarm>>, i: int, p: int, x: seq<Alarm>, removed: bool, kept: bool)
    requires 0 <= i < |c|
  {
    (!removed ==> c' == c)
    && (removed && kept ==> 0 <= p <= |c| - 1 && c' == (c[..i] + c[i + 1..])[..p] + [x] + (c[..i] + c[i + 1..])[p..])
    && (removed && !kept ==> c' == c[..i] + c[i + 1..])
  }

  /** After one step at index i, every batch above the next index is clean. */
  lemma PruneClean(c: seq<seq<Alarm>>, c': seq<seq<Alarm>>, i: int, p: int, x: seq<Alarm>, removed: bool, kept: bool, m: Matcher)
    requires 0 <= i < |c| && CleanAbove(c, i, m) && Reshaped(c, c', i, p, x, removed, kept)
    requires (removed <==> !Clean(c[i], m)) && (kept ==> Clean(x, m))
    ensures var next := if removed && kept then i else i - 1; -1 <= next < |c'| && CleanAbove(c', next, m)
  {
    if !removed {
      CleanAboveStep(c, i, m);
    } else if kept {
      CleanAfterMove(c, i, p, x, m);
    } else {
      CleanAfterDelete(c, i, m);
    }
  }

  /** When every batch is clean, nothing registered matches. */
  lemma CleanHeld(c: seq<seq<Alarm>>, m: Matcher)
    requires forall j :: 0 <= j < |c| ==> Clean(c[j], m)
    ensures forall x :: Matches(x, m) ==> Held(c)[x] == 0
  {
    forall x | Matches(x, m)
      ensures Held(c)[x] == 0
    {
      HeldMember(c, x);
    }
  }

  /** Deleting one key keeps a list sorted. */
  lemma SortedDelete(keys: seq<int>, i: int)
    requires Sorted(keys) && 0 <= i < |keys|
    ensures Sorted(keys[..i] + keys[i + 1..])
  {
    var r := keys[..i] + keys[i + 1..];
    assert forall j :: 0 <= j < |r| ==> r[j] == if j < i then keys[j] else keys[j + 1];
  }

  /** The delay keys of a list with one alarm deleted. */
  lemma DelayKeysDelete(s: seq<Alarm>, i: int)
    requires 0 <= i < |s|
    ensures DelayKeys(s[..i] + s[i + 1..]) == DelayKeys(s)[..i] + DelayKeys(s)[i + 1..]
  {
  }

  /** Keeping survivors distributes over concatenation. */
  lemma {:induction false} KeepAppend(s: seq<Alarm>, t: seq<Alarm>, m: Matcher)
    ensures Keep(s + t, m) == Keep(s, m) + Keep(t, m)
    decreases |t|
  {
    if |t| == 0 {
      assert s + t == s;
    } else {
      assert (s + t)[..|s + t| - 1] == s + t[..|t| - 1];
      KeepAppend(s, t[..|t| - 1], m);
    }
  }

  /** The alarms just taken out are absent from everything else, when operations are unique. */
  lemma UniqueAbsentElsewhere(r: seq<Alarm>, k: int)
    requires UniqueOps(multiset(r)) && 0 <= k < |r|
    ensures OpAbsent(multiset(r[..k]) + multiset(r[k + 1..]), r[k].operation)
  {
    assert r == r[..k] + [r[k]] + r[k + 1..];
    assert multiset(r) == multiset(r[..k]) + multiset{r[k]} + multiset(r[k + 1..]);
    forall x | x in multiset(r[..k]) + multiset(r[k + 1..])
      ensures x.operation != r[k].operation
    {
      assert multiset(r)[x] >= (multiset(r[..k]) + multiset(r[k + 1..]))[x] + multiset{r[k]}[x];
    }
  }

  /** No two positions of the list carry the same operation. */
  predicate OpsDistinct(s: seq<Alarm>)
  {
    forall i, j :: 0 <= i < j < |s| ==> s[i].operation != s[j].operation
  }

  lemma UniqueToDistinct(s: seq<Alarm>)
    requires UniqueOps(multiset(s))
    ensures OpsDistinct(s)
  {
    forall i, j | 0 <= i < j < |s|
      ensures s[i].operation != s[j].operation
    {
      assert s == s[..j] + [s[j]] + s[j + 1..];
      assert s[i] in multiset(s[..j]);
    }
  }

  lemma {:induction false} DistinctToUnique(s: seq<Alarm>)
    requires OpsDistinct(s)
    ensures UniqueOps(multiset(s))
    decreases |s|
  {
    if |s| > 0 {
      var init := s[..|s| - 1];
      assert OpsDistinct(init);
      DistinctToUnique(init);
      forall x: Alarm | x in multiset(init)
        ensures x.operation != s[|s| - 1].operation
      {
        var k :| 0 <= k < |init| && init[k] == x;
      }
      UniqueAdd(multiset(init), s[|s| - 1]);
      assert s == init + [s[|s| - 1]];
    }
  }

  /** Recomputing windows keeps operations unique. */
  lemma RecomputeUnique(s: seq<Alarm>, now: int, skew: int)
    requires UniqueOps(multiset(s))
    ensures UniqueOps(multiset(RecomputeAll(s, now, skew)))
  {
    UniqueToDistinct(s);
    DistinctToUnique(RecomputeAll(s, now, skew));
  }

  /**
   * `after` is `before` registered again with recomputed windows: every
   * alarm comes back recomputed, nothing else comes back, and nothing is
   * lost or duplicated.
   */
  ghost predicate RecomputedFrom(after: multiset<Alarm>, before: multiset<Alarm>, now: int, skew: int)
  {
    |after| == |before|
    && (forall x {:trigger Recompute(x, now, skew)} :: x in before ==> Recompute(x, now, skew) in after)
    && (forall y :: y in after ==> exists x :: x in before && y == Recompute(x, now, skew))
  }

  /**
   * A freshly requested alarm is what a rebatch at the same clock would
   * make of it: its window end is recomputed to the same value.
   */
  lemma RequestedStable(kind: int, triggerAtTime: int, windowLength: int, interval: int, op: Operation,
                        standalone: bool, hardware: Option<Usage>, slack: int, now: int, skew: int)
    requires RTC_WAKEUP <= kind <= ELAPSED_REALTIME
    ensures var r := Requested(kind, triggerAtTime, windowLength, interval, op, standalone, hardware, slack, now, skew).value;
      Recompute(r, now, skew) == r
  {
    var r := Requested(kind, triggerAtTime, windowLength, interval, op, standalone, hardware, slack, now, skew).value;
    var q := Recompute(r, now, skew);
    assert q.whenElapsed == r.whenElapsed;
    if r.whenElapsed != r.maxWhen {
      assert r.windowLength != WINDOW_EXACT;
      if r.windowLength <= 0 {
        assert windowLength < 0;
      }
    }
  }

  /** Once an operation's alarms are filtered out, the operation is absent. */
  lemma FilteredOpAbsent(kept: multiset<Alarm>, before: multiset<Alarm>, op: Operation)
    requires Filtered(kept, before, ByOperation(op))
    ensures OpAbsent(kept, op)
  {
    forall x | x in kept
      ensures x.operation != op
    {
      assert kept[x] > 0;
    }
  }

  /** A filter that selects nothing keeps everything. */
  lemma FilteredNone(kept: multiset<Alarm>, before: multiset<Alarm>, m: Matcher)
    requires Filtered(kept, before, m) && forall x :: x in before ==> !Matches(x, m)
    ensures kept == before
  {
    forall x
      ensures kept[x] == before[x]
    {
      if Matches(x, m) {
        assert x !in before;
      }
    }
  }

  /** Recomputing windows keeps every operation, so an absent one stays absent. */
  lemma RecomputedOpAbsent(after: multiset<Alarm>, before: multiset<Alarm>, now: int, skew: int, op: Operation)
    requires RecomputedFrom(after, before, now, skew) && OpAbsent(before, op)
    ensures OpAbsent(after, op)
  {
    forall y | y in after
      ensures y.operation != op
    {
      var x :| x in before && y == Recompute(x, now, skew);
    }
  }

  /** Re-registering a list alarm by alarm recomputes each one's window. */
  lemma RecomputeAllFrom(s: seq<Alarm>, now: int, skew: int)
    ensures RecomputedFrom(multiset(RecomputeAll(s, now, skew)), multiset(s), now, skew)
  {
    var r := RecomputeAll(s, now, skew);
    forall x | x in multiset(s)
      ensures Recompute(x, now, skew) in multiset(r)
    {
      var i :| 0 <= i < |s| && s[i] == x;
      assert r[i] in r;
    }
    forall y | y in multiset(r)
      ensures exists x :: x in multiset(s) && y == Recompute(x, now, skew)
    {
      var i :| 0 <= i < |r| && r[i] == y;
      assert s[i] in multiset(s);
    }
  }

  /** Recomputed windows keep operations, so re-registered survivors of a removal still match nothing it selected. */
  lemma RecomputedClean(after: multiset<Alarm>, kept: seq<Alarm>, m: Matcher, now: int, skew: int)
    requires Clean(kept, m) && RecomputedFrom(after, multiset(kept), now, skew)
    ensures forall y :: y in after ==> !Matches(y, m)
  {
    forall y | y in after
      ensures !Matches(y, m)
    {
      var x :| x in multiset(kept) && y == Recompute(x, now, skew);
      assert x in kept;
    }
  }

  /** Every alarm of the list is well formed. */
  ghost predicate AllOk(s: seq<Alarm>)
  {
    forall a :: a in s ==> AlarmOk(a)
  }

  /** The recomputed list is well formed, keeps operations unique, and holds exactly the recomputed alarms. */
  lemma RecomputeReady(s: seq<Alarm>, now: int, skew: int)
    requires AllOk(s) && UniqueOps(multiset(s))
    ensures AllOk(RecomputeAll(s, now, skew)) && UniqueOps(multiset(RecomputeAll(s, now, skew)))
    ensures RecomputedFrom(multiset(RecomputeAll(s, now, skew)), multiset(s), now, skew)
  {
    RecomputeUnique(s, now, skew);
    RecomputeAllFrom(s, now, skew);
    RecomputeAllOk(s, now, skew);
  }

  lemma RecomputeAllOk(s: seq<Alarm>, now: int, skew: int)
    requires AllOk(s)
    ensures AllOk(RecomputeAll(s, now, skew))
  {
    var r := RecomputeAll(s, now, skew);
    forall a | a in r
      ensures AlarmOk(a)
    {
      var i :| 0 <= i < |r| && r[i] == a;
      assert s[i] in s;
    }
  }

  /** An empty manager with the whole list pending satisfies the invariant. */
  lemma ReenterStart(howard: bool, r: seq<Alarm>)
    requires UniqueOps(multiset(r))
    ensures Settled(howard, [], [], multiset(r), multiset{}) && Held(AlarmsOf([])) == multiset{}
  {
    assert AlarmsOf([]) == [];
    assert Held(AlarmsOf([])) + multiset(r) == multiset(r);
  }

  /** Putting back one pending alarm: its operation is free, and the rest stay pending. */
  lemma SettledShed(howard: bool, bs: seq<Batch>, order: seq<Alarm>, p: multiset<Alarm>, a: Alarm)
    requires Settled(howard, bs, order, p + multiset{a}, multiset{})
    ensures Settled(howard, bs, order, p, multiset{})
    ensures OpAbsent(Held(AlarmsOf(bs)) + p, a.operation)
  {
    var h := Held(AlarmsOf(bs));
    assert h + (p + multiset{a}) == (h + p) + multiset{a};
    UniqueSub(h + (p + multiset{a}), h + p);
    forall x | x in h + p
      ensures x.operation != a.operation
    {
      assert (h + (p + multiset{a}))[x] >= (h + p)[x] + multiset{a}[x];
    }
  }

  /** A batch fit to sit in the list: coherent, non-empty, and of one standalone kind. */
  ghost predicate Fit(howard: bool, b: Batch)
    reads b
  {
    b.Valid() && b.howard == howard && |b.alarms| > 0
    && forall a :: a in b.alarms ==> a.standalone == b.standalone
  }

  /** A list of distinct batches, each fit to sit in it. */
  ghost predicate LooseList(howard: bool, bs: seq<Batch>)
    reads bs
  {
    (forall b :: b in bs ==> Fit(howard, b)) && Distinct(bs)
  }

  /**
   * The manager's invariant, with `pending` alarms taken out of the
   * batches and not yet put back (their operations still count as taken)
   * and, of those, `queued` ones still in the delay-ordered list: the batch
   * list is in key order, no operation is registered twice, and under the
   * similarity policy the delay-ordered list holds exactly the registered
   * alarms, sorted by delay size.
   */
  ghost predicate Settled(howard: bool, bs: seq<Batch>, order: seq<Alarm>, pending: multiset<Alarm>, queued: multiset<Alarm>)
    reads bs
  {
    LooseList(howard, bs) && Sorted(KeysOf(bs))
    && UniqueOps(Held(AlarmsOf(bs)) + pending)
    && (howard ==> multiset(order) == Held(AlarmsOf(bs)) + queued && Sorted(DelayKeys(order)))
    && (!howard ==> order == [])
  }

  /** Delete every alarm the matcher selects from the delay-ordered list, last to first. */
  method FilterOrder(order: seq<Alarm>, m: Matcher) returns (kept: seq<Alarm>)
    requires Sorted(DelayKeys(order))
    ensures kept == Keep(order, m) && Sorted(DelayKeys(kept))
  {
    kept := order;
    var i := |order| - 1;
    assert order[i + 1..] == [] && order[..i + 1] == order;
    while i >= 0
      invariant -1 <= i < |order| && kept == order[..i + 1] + Keep(order[i + 1..], m)
      invariant Sorted(DelayKeys(kept))
    {
      FilterStep(order, i, m);
      if Matches(kept[i], m) {
        SortedDelete(DelayKeys(kept), i);
        DelayKeysDelete(kept, i);
        kept := kept[..i] + kept[i + 1..];
      }
      i := i - 1;
    }
    assert order[..0] + Keep(order[0..], m) == Keep(order, m);
  }

  /** The invariant with nothing taken out. */
  lemma SettledAgain(howard: bool, bs: seq<Batch>, order: seq<Alarm>)
    requires LooseList(howard, bs) && Sorted(KeysOf(bs)) && UniqueOps(Held(AlarmsOf(bs)))
    requires howard ==> multiset(order) == Held(AlarmsOf(bs)) && Sorted(DelayKeys(order))
    requires !howard ==> order == []
    ensures Settled(howard, bs, order, multiset{}, multiset{})
  {
    assert Held(AlarmsOf(bs)) + multiset{} == Held(AlarmsOf(bs));
  }

  /** Registering one more alarm with an unused operation keeps the invariant. */
  lemma AddedSettled(howard: bool, bs: seq<Batch>, order: seq<Alarm>, pending: multiset<Alarm>, queued: multiset<Alarm>,
                     before: multiset<Alarm>, a: Alarm)
    requires LooseList(howard, bs) && Sorted(KeysOf(bs))
    requires Held(AlarmsOf(bs)) == before + multiset{a}
    requires UniqueOps(before + pending) && OpAbsent(before + pending, a.operation)
    requires howard ==> multiset(order) == before + queued + multiset{a} && Sorted(DelayKeys(order))
    requires !howard ==> order == []
    ensures Settled(howard, bs, order, pending, queued)
  {
    UniqueAdd(before + pending, a);
    assert before + pending + multiset{a} == Held(AlarmsOf(bs)) + pending;
    assert howard ==> before + queued + multiset{a} == Held(AlarmsOf(bs)) + queued;
  }

  /** Take the alarms the matcher selects out of a batch. */
  method Cleanse(b: Batch, howard: bool, m: Matcher) returns (removed: bool)
    requires Fit(howard, b)
    modifies b
    ensures removed <==> !Clean(old(b.alarms), m)
    ensures !removed ==> b.alarms == old(b.alarms) && b.Key() == old(b.Key()) && unchanged(b)
    ensures multiset(b.alarms) == multiset(Keep(old(b.alarms), m))
    ensures |b.alarms| > 0 ==> Fit(howard, b)
  {
    ghost var alarms0, key0 := b.alarms, b.Key();
    removed := b.RemoveMatching(m);
    assert removed <==> !Clean(alarms0, m);
    assert !removed ==> b.alarms == alarms0 && b.Key() == key0;
    KeptAlike(alarms0, b.alarms, b.standalone, m);
  }

  /** Alarms kept from a list that agree on being standalone still agree. */
  lemma KeptAlike(s: seq<Alarm>, kept: seq<Alarm>, standalone: bool, m: Matcher)
    requires multiset(kept) == multiset(Keep(s, m))
    requires forall a :: a in s ==> a.standalone == standalone
    ensures forall a :: a in kept ==> a.standalone == standalone
  {
    KeepMembers(s, m);
    forall a | a in kept
      ensures a in s
    {
      assert a in multiset(kept);
    }
  }

  // ---------------------------------------------------------------------
  // Delivery

  /**
   * The delivery count of an alarm fired at `now`: one, and for a
   * recurring alarm the whole periods it is late by on top.
   */
  method CountOf(a: Alarm, now: int) returns (count: int)
    ensures count == DeliveryCount(a, now)
    ensures a.repeatInterval > 0 && now >= a.whenElapsed ==>
      count >= 1 && a.whenElapsed + (count - 1) * a.repeatInterval <= now < a.whenElapsed + count * a.repeatInterval
    ensures a.repeatInterval <= 0 ==> count == 1
  {
    count := 1;
    if a.repeatInterval > 0 {
      count := count + JavaDiv(now - a.whenElapsed, a.repeatInterval);
      JavaDivBounds(now - a.whenElapsed, a.repeatInterval);
    }
  }

  /** An alarm handed to its operation, with the number of deliveries it stands for. */
  datatype Delivery = Delivery(alarm: Alarm, count: int)

  /** The alarms of a delivery list, in delivery order. */
  function FiredAlarms(d: seq<Delivery>): (r: seq<Alarm>)
    ensures |r| == |d| && forall i :: 0 <= i < |d| ==> r[i] == d[i].alarm
  {
    seq(|d|, i requires 0 <= i < |d| => d[i].alarm)
  }

  /** What one delivery registers again: the next occurrence of a recurring alarm, else nothing. */
  function Successor(d: Delivery, now: int): (r: seq<Alarm>)
    ensures |r| <= 1
    ensures d.alarm.repeatInterval > 0 <==> |r| == 1
    ensures forall x :: x in r ==> x.operation == d.alarm.operation && x.whenElapsed > now
  {
    if d.alarm.repeatInterval > 0 then [NextOccurrence(d.alarm, now, d.alarm.standalone)] else []
  }

  /** The alarms a delivery list registers again, in delivery order. */
  function Rearmed(d: seq<Delivery>, now: int): seq<Alarm>
  {
    if |d| == 0 then [] else Rearmed(d[..|d| - 1], now) + Successor(d[|d| - 1], now)
  }

  lemma RearmedAppend(d: seq<Delivery>, x: Delivery, now: int)
    ensures Rearmed(d + [x], now) == Rearmed(d, now) + Successor(x, now)
    ensures FiredAlarms(d + [x]) == FiredAlarms(d) + [x.alarm]
  {
    assert (d + [x])[..|d|] == d;
  }

  /**
   * Every alarm a delivery list registers again is the next occurrence of
   * a delivered recurring alarm, with the same operation, strictly in the
   * future; there is at most one per delivery.
   */
  lemma {:induction false} RearmedLater(d: seq<Delivery>, now: int)
    ensures |Rearmed(d, now)| <= |d|
    ensures forall x :: x in Rearmed(d, now) ==> x.whenElapsed > now
    ensures forall x :: x in Rearmed(d, now) ==> exists i :: 0 <= i < |d| && d[i].alarm.operation == x.operation
  {
    if |d| > 0 {
      var init := d[..|d| - 1];
      RearmedLater(init, now);
      forall x | x in Rearmed(d, now)
        ensures exists i :: 0 <= i < |d| && d[i].alarm.operation == x.operation
      {
        if x in Rearmed(init, now) {
          var i :| 0 <= i < |init| && init[i].alarm.operation == x.operation;
          assert d[i] == init[i];
        } else {
          assert d[|d| - 1].alarm.operation == x.operation;
        }
      }
    }
  }

  /**
   * Delivery so far loses nothing: what is registered, plus what still
   * waits to be delivered, plus what was delivered, is what was registered
   * at the start plus what was registered again.
   */
  ghost predicate Accounted(reg: multiset<Alarm>, waiting: multiset<Alarm>, d: seq<Delivery>, r0: multiset<Alarm>, now: int)
  {
    reg + waiting + multiset(FiredAlarms(d)) == r0 + multiset(Rearmed(d, now))
  }

  /** With nothing left waiting, the account is the registry's before-and-after balance. */
  lemma AccountedDone(reg: multiset<Alarm>, d: seq<Delivery>, r0: multiset<Alarm>, now: int)
    requires Accounted(reg, multiset{}, d, r0, now)
    ensures reg + multiset(FiredAlarms(d)) == r0 + multiset(Rearmed(d, now))
  {
    assert reg + multiset{} == reg;
  }

  /** Each delivery carries its alarm's delivery count. */
  ghost predicate Counted(d: seq<Delivery>, now: int)
  {
    forall i :: 0 <= i < |d| ==> d[i].count == DeliveryCount(d[i].alarm, now)
  }

  /** Delivering one more waiting alarm keeps the account balanced. */
  lemma AccountStep(reg: multiset<Alarm>, reg': multiset<Alarm>, a: Alarm, rest: multiset<Alarm>, d: seq<Delivery>, x: Delivery,
                    r0: multiset<Alarm>, now: int)
    requires Accounted(reg, rest + multiset{a}, d, r0, now) && x.alarm == a
    requires reg' == reg + multiset(Successor(x, now))
    ensures Accounted(reg', rest, d + [x], r0, now)
  {
    RearmedAppend(d, x, now);
    Recount(reg, rest, a, multiset(FiredAlarms(d)), multiset(Successor(x, now)), r0, multiset(Rearmed(d, now)));
  }

  lemma Recount(reg: multiset<Alarm>, rest: multiset<Alarm>, a: Alarm, f: multiset<Alarm>, s: multiset<Alarm>,
                r0: multiset<Alarm>, r: multiset<Alarm>)
    requires reg + (rest + multiset{a}) + f == r0 + r
    ensures (reg + s) + rest + (f + multiset{a}) == r0 + (r + s)
  {
    forall x
      ensures ((reg + s) + rest + (f + multiset{a}))[x] == (r0 + (r + s))[x]
    {
      assert (reg + (rest + multiset{a}) + f)[x] == (r0 + r)[x];
    }
  }

  /**
   * Delivering one alarm of a batch taken off the list: it stops being
   * pending and, under the similarity policy, leaves the delay-ordered
   * list; its operation is then free.
   */
  lemma SettledDeliver(howard: bool, bs: seq<Batch>, order: seq<Alarm>, order': seq<Alarm>, p: multiset<Alarm>, a: Alarm)
    requires Settled(howard, bs, order, p + multiset{a}, if howard then p + multiset{a} else multiset{})
    requires howard ==> multiset(order') == multiset(order) - multiset{a} && Sorted(DelayKeys(order'))
    requires !howard ==> order' == order
    ensures Settled(howard, bs, order', p, if howard then p else multiset{})
    ensures OpAbsent(Held(AlarmsOf(bs)) + p, a.operation)
  {
    var h := Held(AlarmsOf(bs));
    assert h + (p + multiset{a}) == (h + p) + multiset{a};
    UniqueSub(h + (p + multiset{a}), h + p);
    forall x | x in h + p
      ensures x.operation != a.operation
    {
      assert (h + (p + multiset{a}))[a] >= (h + p)[a] + 1;
    }
  }

  /** Under the similarity policy a queued pending alarm is in the delay-ordered list. */
  lemma SettledQueued(bs: seq<Batch>, order: seq<Alarm>, p: multiset<Alarm>, a: Alarm)
    requires Settled(true, bs, order, p + multiset{a}, p + multiset{a})
    ensures a in order
  {
    assert a in multiset(order);
  }

  /** The position of the first occurrence of an alarm, or -1. */
  function FirstIndex(s: seq<Alarm>, a: Alarm): (i: int)
    ensures -1 <= i < |s|
    ensures i < 0 <==> a !in s
    ensures i >= 0 ==> s[i] == a && a !in s[..i]
  {
    if |s| == 0 then -1
    else if s[0] == a then 0
    else
      var j := FirstIndex(s[1..], a);
      assert j >= 0 ==> s[..j + 1] == [s[0]] + s[1..][..j];
      assert j < 0 ==> s == [s[0]] + s[1..];
      if j < 0 then -1 else j + 1
  }

  /** The delay-ordered list with the first occurrence of an alarm deleted, when there is one. */
  function DeleteFirst(order: seq<Alarm>, a: Alarm): (r: seq<Alarm>)
    ensures multiset(r) == multiset(order) - multiset{a}
    ensures Sorted(DelayKeys(order)) ==> Sorted(DelayKeys(r))
  {
    var i := FirstIndex(order, a);
    if i < 0 then order
    else
      DeleteAt(order, i);
      order[..i] + order[i + 1..]
  }

  /** Deleting element i takes one copy of it out and keeps a delay-ordered list sorted. */
  lemma DeleteAt(order: seq<Alarm>, i: int)
    requires 0 <= i < |order|
    ensures multiset(order[..i] + order[i + 1..]) == multiset(order) - multiset{order[i]}
    ensures Sorted(DelayKeys(order)) ==> Sorted(DelayKeys(order[..i] + order[i + 1..]))
  {
    assert order == order[..i] + [order[i]] + order[i + 1..];
    if Sorted(DelayKeys(order)) {
      SortedDelete(DelayKeys(order), i);
      DelayKeysDelete(order, i);
    }
  }

  /**
   * Value-level progress of delivering a batch's alarms: the first i are
   * delivered, in order, after the earlier deliveries `fired`, and the
   * registry accounts for everything.
   */
  ghost predicate Progress(reg: multiset<Alarm>, alarms: seq<Alarm>, i: int, fired: seq<Delivery>, out: seq<Delivery>,
                           r0: multiset<Alarm>, now: int)
  {
    0 <= i <= |alarms|
    && Accounted(reg, multiset(alarms[i..]), out, r0, now) && Counted(out, now)
    && |out| == |fired| + i && out[..|fired|] == fired
    && forall k :: 0 <= k < i ==> out[|fired| + k].alarm == alarms[k]
  }

  /** Taking a due batch off the head of the list leaves fewer due. */
  lemma DueDrop(keys: seq<int>, rest: seq<int>, t: int)
    requires |keys| > 0 && keys[0] <= t && rest == keys[1..]
    ensures CountAtMost(rest, t) < CountAtMost(keys, t)
  {
    assert keys[..0] + keys[1..] == rest;
    CountRemove(keys, 0, t);
  }

  /** Taking the head batch off a settled list leaves its alarms pending. */
  lemma SettledTail(howard: bool, bs: seq<Batch>, order: seq<Alarm>)
    requires Settled(howard, bs, order, multiset{}, multiset{}) && |bs| > 0
    ensures var p := multiset(bs[0].alarms);
      Settled(howard, bs[1..], order, p, if howard then p else multiset{})
      && Held(AlarmsOf(bs[1..])) + p == Held(AlarmsOf(bs))
    ensures KeysOf(bs[1..]) == KeysOf(bs)[1..]
    ensures forall a :: a in bs[0].alarms ==> AlarmOk(a) && a.standalone == bs[0].standalone
  {
    var p := multiset(bs[0].alarms);
    assert bs[..0] + bs[1..] == bs[1..];
    AlarmsOfDelete(bs, 0);
    DistinctDelete(bs, 0);
    HeldRemove(AlarmsOf(bs), 0);
    SortedDelete(KeysOf(bs), 0);
    assert AlarmsOf(bs)[..0] + AlarmsOf(bs)[1..] == AlarmsOf(bs)[1..];
    assert KeysOf(bs)[..0] + KeysOf(bs)[1..] == KeysOf(bs)[1..];
    assert bs[0] in bs;
    assert Held(AlarmsOf(bs)) + multiset{} == Held(AlarmsOf(bs[1..])) + p;
  }

  /** A batch taken off an accounted registry starts its delivery with nothing delivered. */
  lemma ProgressStart(reg: multiset<Alarm>, reg0: multiset<Alarm>, alarms: seq<Alarm>, fired: seq<Delivery>,
                      r0: multiset<Alarm>, now: int)
    requires reg + multiset(alarms) == reg0
    requires Accounted(reg0, multiset{}, fired, r0, now) && Counted(fired, now)
    ensures Progress(reg, alarms, 0, fired, fired, r0, now)
  {
    assert alarms[0..] == alarms;
  }

  /** Once every alarm of the batch is delivered, nothing waits. */
  lemma ProgressDone(reg: multiset<Alarm>, alarms: seq<Alarm>, fired: seq<Delivery>, out: seq<Delivery>,
                     r0: multiset<Alarm>, now: int)
    requires Progress(reg, alarms, |alarms|, fired, out, r0, now)
    ensures Accounted(reg, multiset{}, out, r0, now) && Counted(out, now)
  {
    assert multiset(alarms[|alarms|..]) == multiset{};
  }

  lemma PendingSplit(alarms: seq<Alarm>, i: int)
    requires 0 <= i < |alarms|
    ensures multiset(alarms[i..]) == multiset(alarms[i + 1..]) + multiset{alarms[i]}
    ensures multiset(alarms[..i + 1]) == multiset(alarms[..i]) + multiset{alarms[i]}
  {
    assert alarms[i..] == [alarms[i]] + alarms[i + 1..];
    assert alarms[..i + 1] == alarms[..i] + [alarms[i]];
  }

  /** Delivering alarm i and registering its successor advances the progress by one. */
  lemma ProgressStep(reg: multiset<Alarm>, reg': multiset<Alarm>, alarms: seq<Alarm>, i: int, fired: seq<Delivery>,
                     out: seq<Delivery>, d: Delivery, r0: multiset<Alarm>, now: int)
    requires i < |alarms| && Progress(reg, alarms, i, fired, out, r0, now)
    requires d == Delivery(alarms[i], DeliveryCount(alarms[i], now)) && reg' == reg + multiset(Successor(d, now))
    ensures Progress(reg', alarms, i + 1, fired, out + [d], r0, now)
  {
    PendingSplit(alarms, i);
    AccountStep(reg, reg', alarms[i], multiset(alarms[i + 1..]), out, d, r0, now);
    assert (out + [d])[..|fired|] == out[..|fired|];
  }

  /**
   * The kernel alarm driver: the two times it was last programmed with
   * and every timer setting made so far, oldest first.
   */
  class Driver {
    var nextWakeup: int
    var nextNonWakeup: int
    var armed: seq<TimerSet>

    function State(): Kernel
      reads this
    {
      Kernel(nextWakeup, nextNonWakeup, armed)
    }

    constructor ()
      ensures State() == Kernel(0, 0, [])
    {
      nextWakeup, nextNonWakeup, armed := 0, 0, [];
    }

    /** Set each timer whose time changed. */
    method Apply(times: seq<int>, fw: int)
      requires 0 < |times| && -1 <= fw < |times|
      modifies this
      ensures State() == Plan(times, fw, old(State()))
    {
      if fw >= 0 && nextWakeup != times[fw] {
        nextWakeup := times[fw];
        armed := armed + [Arm(ELAPSED_REALTIME_WAKEUP, times[fw])];
      }
      if fw != 0 && nextNonWakeup != times[0] {
        nextNonWakeup := times[0];
        armed := armed + [Arm(ELAPSED_REALTIME, times[0])];
      }
    }
  }

  class AlarmManager {
    /** The similarity policy, chosen on days 1 to 9 of the month. */
    const howard: bool
    /** Removal re-sorts only the touched batches (days 1 to 4). */
    const rebatchControl: bool
    /** Every alarm gets a batch of its own (days 21 and later). */
    const fixedInterval: bool

    var batches: seq<Batch>
    var inOrder: seq<Alarm>
    /** The kernel alarm driver the batches are programmed into. */
    const driver: Driver

    ghost function Contents(): seq<seq<Alarm>>
      reads this`batches, batches
    {
      AlarmsOf(batches)
    }

    function Keys(): seq<int>
      reads this`batches, batches
    {
      KeysOf(batches)
    }

    ghost function Registered(): multiset<Alarm>
      reads this`batches, batches
    {
      Held(Contents())
    }

    /** A batch fit to sit in this manager's list. */
    ghost predicate BatchOk(b: Batch)
      reads b
    {
      Fit(howard, b)
    }

    /** The batch list: distinct, well-formed batches. */
    ghost predicate Loose()
      reads this`batches, batches
    {
      LooseList(howard, batches)
    }

    /** Every batch in the list was in `before` or is new. */
    twostate predicate Owned(before: seq<Batch>)
      reads this`batches
    {
      forall b :: b in batches ==> b in before || fresh(b)
    }

    /** The batch list in key order. */
    ghost predicate Listed()
      reads this`batches, batches
    {
      LooseList(howard, batches) && Sorted(KeysOf(batches))
    }

    /**
     * The manager's invariant, with `pending` alarms taken out of the
     * batches and not yet put back, and of those `queued` ones still in the
     * delay-ordered list.
     */
    ghost predicate Consistent(pending: multiset<Alarm>, queued: multiset<Alarm>)
      reads this, batches
    {
      Settled(howard, batches, inOrder, pending, queued)
    }

    ghost predicate Valid()
      reads this, batches
    {
      Consistent(multiset{}, multiset{})
    }

    /** The policies are picked from the day of the month at start-up. */
    constructor (dayOfMonth: int)
      ensures Valid()
      ensures howard == (dayOfMonth < 10) && rebatchControl == (dayOfMonth < 5) && fixedInterval == (dayOfMonth > 20)
      ensures batches == [] && inOrder == [] && fresh(driver) && driver.State() == Kernel(0, 0, [])
    {
      howard := dayOfMonth < 10;
      rebatchControl := dayOfMonth < 5;
      fixedInterval := dayOfMonth > 20;
      batches := [];
      inOrder := [];
      driver := new Driver();
      new;
      assert Contents() == [];
    }

    /** The parts of the invariant, with nothing taken out. */
    lemma Unpack()
      requires Valid()
      ensures Listed() && UniqueOps(Registered())
      ensures howard ==> multiset(inOrder) == Registered() && Sorted(DelayKeys(inOrder))
      ensures !howard ==> inOrder == []
    {
      assert Registered() + multiset{} == Registered();
    }

    /** Put a batch at index i, where its key fits. */
    method InsertAt(i: int, b: Batch)
      requires Listed() && BatchOk(b) && b !in batches
      requires Splits(Keys(), i, b.Key())
      modifies this`batches
      ensures Listed()
      ensures batches == old(batches)[..i] + [b] + old(batches)[i..]
      ensures Contents() == old(Contents())[..i] + [b.alarms] + old(Contents())[i..]
      ensures Keys() == old(Keys())[..i] + [b.Key()] + old(Keys())[i..]
      ensures inOrder == old(inOrder)
    {
      InsertKeepsSorted(Keys(), i, b.Key());
      AlarmsOfInsert(batches, i, b);
      DistinctInsert(batches, i, b);
      batches := batches[..i] + [b] + batches[i..];
    }

    /**
     * Insert a batch at its binary-search position among the batch keys;
     * report whether it went to the head of the list.
     */
    method AddBatch(b: Batch) returns (atHead: bool, ghost p: int)
      requires Listed() && BatchOk(b) && b !in batches
      modifies this`batches
      ensures Listed()
      ensures 0 <= p <= |old(batches)| && batches == old(batches)[..p] + [b] + old(batches)[p..]
      ensures Splits(old(Keys()), p, b.Key()) && (atHead <==> p == 0)
      ensures Contents() == old(Contents())[..p] + [b.alarms] + old(Contents())[p..]
      ensures Keys() == old(Keys())[..p] + [b.Key()] + old(Keys())[p..]
      ensures inOrder == old(inOrder)
    {
      var index := InsertionPoint(Keys(), b.Key());
      p := index;
      InsertAt(index, b);
      atHead := index == 0;
    }

    /** Take the batch at index i out of the list. */
    method RemoveBatchAt(i: int)
      requires Loose() && 0 <= i < |batches|
      modifies this`batches
      ensures Loose()
      ensures Sorted(old(Keys())) ==> Sorted(Keys())
      ensures batches == old(batches)[..i] + old(batches)[i + 1..] && old(batches)[i] !in batches
      ensures Contents() == old(Contents())[..i] + old(Contents())[i + 1..]
      ensures Keys() == old(Keys())[..i] + old(Keys())[i + 1..]
      ensures inOrder == old(inOrder)
    {
      AlarmsOfDelete(batches, i);
      DistinctDelete(batches, i);
      batches := batches[..i] + batches[i + 1..];
    }

    /**
     * The baseline search: the first batch that is not standalone and whose
     * window meets [whenElapsed, maxWhen], or -1.
     */
    method AttemptCoalesce(whenElapsed: int, maxWhen: int) returns (r: int)
      ensures -1 <= r < |batches|
      ensures r >= 0 ==> !batches[r].standalone && batches[r].CanHold(whenElapsed, maxWhen)
      ensures forall j :: 0 <= j < |batches| && (r < 0 || j < r) ==>
        batches[j].standalone || !batches[j].CanHold(whenElapsed, maxWhen)
    {
      var i := 0;
      while i < |batches|
        invariant 0 <= i <= |batches|
        invariant forall j :: 0 <= j < i ==> batches[j].standalone || !batches[j].CanHold(whenElapsed, maxWhen)
      {
        var b := batches[i];
        if !b.standalone && b.CanHold(whenElapsed, maxWhen) {
          return i;
        }
        i := i + 1;
      }
      return -1;
    }

    /**
     * Add an alarm to the batch at index i and, when that moves the
     * batch's key, re-insert the batch where it now belongs.
     */
    method Merge(i: int, a: Alarm)
      requires Listed() && 0 <= i < |batches| && AlarmOk(a)
      requires a.standalone == batches[i].standalone
      requires howard ==> Overlaps(Window(a), Span(batches[i].start, batches[i].end)) || (!batches[i].perceivable && !Perceivable(a))
      modifies this`batches, batches[i]
      ensures Listed()
      ensures Registered() == old(Registered()) + multiset{a}
      ensures NoMoreDue(Keys(), old(Keys()), a.whenElapsed)
      ensures KeepsUndue(Contents(), Keys(), old(Contents()), old(Keys()), a.whenElapsed)
      ensures inOrder == old(inOrder)
      ensures forall x :: x in batches ==> x in old(batches)
    {
      var b := batches[i];
      assert b in batches;
      ghost var c, keys := Contents(), Keys();
      assert c[i] == b.alarms && keys[i] == b.Key();
      RemoveBatchAt(i);
      SplitsWhereRemoved(keys, i);
      ghost var p := Regrow(b, i, a);
      HeldMoved(c, i, p, b.alarms, a);
      MovedMembers(old(batches), i, p);
      CountMoved(keys, i, p, b.Key(), a.whenElapsed);
      UndueMoved(c, keys, i, p, b.alarms, b.Key(), a.whenElapsed);
    }

    /** Add an alarm to a batch just taken out of index i, and put the batch back where its key now fits. */
    method Regrow(b: Batch, i: int, a: Alarm) returns (ghost p: int)
      requires Listed() && BatchOk(b) && b !in batches && AlarmOk(a)
      requires Splits(Keys(), i, b.Key())
      requires a.standalone == b.standalone
      requires howard ==> Overlaps(Window(a), Span(b.start, b.end)) || (!b.perceivable && !Perceivable(a))
      modifies this`batches, b
      ensures Listed() && 0 <= p <= |old(batches)|
      ensures batches == old(batches)[..p] + [b] + old(batches)[p..]
      ensures Contents() == old(Contents())[..p] + [b.alarms] + old(Contents())[p..]
      ensures Keys() == old(Keys())[..p] + [b.Key()] + old(Keys())[p..]
      ensures multiset(b.alarms) == multiset(old(b.alarms)) + multiset{a}
      ensures b.Key() >= a.whenElapsed || b.Key() == old(b.Key())
      ensures inOrder == old(inOrder)
    {
      ghost var rest, restKeys := Contents(), Keys();
      var moved := Grow(b, a);
      assert Listed() && Contents() == rest && Keys() == restKeys;
      p := i;
      if moved {
        var _, q := AddBatch(b);
        p := q;
      } else {
        InsertAt(i, b);
      }
    }

    /**
     * Add an alarm to a batch that is out of the list; under the
     * similarity policy the caller has checked that they may merge.
     */
    method Grow(b: Batch, a: Alarm) returns (moved: bool)
      requires BatchOk(b) && AlarmOk(a)
      requires a.standalone == b.standalone
      requires howard ==> Overlaps(Window(a), Span(b.start, b.end)) || (!b.perceivable && !Perceivable(a))
      modifies b
      ensures BatchOk(b)
      ensures multiset(b.alarms) == multiset(old(b.alarms)) + multiset{a}
      ensures moved <==> b.Key() != old(b.Key())
      ensures moved ==> b.Key() >= a.whenElapsed
    {
      moved := b.Add(a);
      assert forall x :: x in b.alarms ==> x in old(b.alarms) || x == a by {
        assert forall x :: x in b.alarms ==> x in multiset(b.alarms);
      }
    }

    /**
     * Insert an alarm into the delay-ordered list at the library binary
     * search's position for its delay size.
     */
    method InsertInOrder(a: Alarm) returns (p: int)
      requires Sorted(DelayKeys(inOrder))
      modifies this`inOrder
      ensures Splits(DelayKeys(old(inOrder)), p, DelaySize(a)) && p == SearchPoint(DelayKeys(old(inOrder)), DelaySize(a))
      ensures inOrder == old(inOrder)[..p] + [a] + old(inOrder)[p..]
      ensures multiset(inOrder) == multiset(old(inOrder)) + multiset{a}
      ensures Sorted(DelayKeys(inOrder))
      ensures batches == old(batches)
    {
      var keys := DelayKeys(inOrder);
      p := InsertionPoint(keys, DelaySize(a));
      InsertKeepsSorted(keys, p, DelaySize(a));
      assert inOrder == inOrder[..p] + inOrder[p..];
      inOrder := inOrder[..p] + [a] + inOrder[p..];
      assert DelayKeys(inOrder) == keys[..p] + [DelaySize(a)] + keys[p..];
    }

    /**
     * The similarity policy's search. Batches are scanned in order until
     * one is due after the alarm's deadline; among the eligible ones the
     * first to beat the best grade so far is taken, and a (High, High)
     * grade ends the search at once.
     */
    method AttemptCoalesceHoward(a: Alarm) returns (r: int)
      requires AlarmOk(a) && Sorted(TimesOf(batches, true))
      requires forall j :: 0 <= j < |batches| ==> WellFormedOpt(batches[j].hardware)
      ensures -1 <= r < |batches|
      ensures r >= 0 ==> Eligible(a, batches[r]) && batches[r].when <= Seed(a).deadline
      ensures r < 0 ==> forall j :: 0 <= j < |batches| && batches[j].when <= Seed(a).deadline ==> !Eligible(a, batches[j])
      ensures r >= 0 ==> forall j :: 0 <= j < r ==> !TopGrade(a, batches[j])
      ensures r >= 0 && !TopGrade(a, batches[r]) ==>
        forall j :: r < j < |batches| && batches[j].when <= Seed(a).deadline ==>
          !Beats(a, batches[j], GradeOf(a, batches[r]).0, GradeOf(a, batches[r]).1)
      ensures r >= 0 ==>
        forall j :: 0 <= j < |batches| && batches[j].when <= Seed(a).deadline ==>
          !Beats(a, batches[j], GradeOf(a, batches[r]).0, GradeOf(a, batches[r]).1)
      ensures r >= 0 ==> forall j :: 0 <= j < r && Eligible(a, batches[j]) ==> GradeOf(a, batches[j]) != GradeOf(a, batches[r])
    {
      var deadline := Seed(a).deadline;
      var n;
      r, n := ScanHoward(a, deadline);
      if r < 0 {
        NothingBeatsLowLow(a, n);
      } else {
        SearchOutcome(a, r, n, deadline);
      }
    }

    /**
     * The loop of the similarity search: returns the choice and how far
     * the scan got; every batch from there on is due after the deadline.
     */
    method ScanHoward(a: Alarm, deadline: int) returns (r: int, n: int)
      requires AlarmOk(a)
      requires forall j :: 0 <= j < |batches| ==> WellFormedOpt(batches[j].hardware)
      requires Sorted(TimesOf(batches, true))
      ensures -1 <= r < n <= |batches|
      ensures forall j :: n <= j < |batches| ==> deadline < batches[j].when
      ensures r >= 0 ==> Eligible(a, batches[r]) && batches[r].when <= deadline
      ensures r >= 0 ==> forall j :: 0 <= j < r ==> !TopGrade(a, batches[j])
      ensures r < 0 ==> Unbeaten(a, n, Low, Low)
      ensures r >= 0 ==> Unbeaten(a, n, GradeOf(a, batches[r]).0, GradeOf(a, batches[r]).1)
      ensures r >= 0 ==> FirstOfGrade(a, r, GradeOf(a, batches[r]).0, GradeOf(a, batches[r]).1)
    {
      var t, h := Low, Low;
      r := -1;
      var i := 0;
      while i < |batches|
        invariant 0 <= i <= |batches| && -1 <= r < i
        invariant r >= 0 ==> Eligible(a, batches[r]) && GradeOf(a, batches[r]) == (t, h) && batches[r].when <= deadline
        invariant r < 0 ==> (t, h) == (Low, Low)
        invariant (t, h) != (High, High)
        invariant Unbeaten(a, i, t, h) && FirstOfGrade(a, r, t, h)
      {
        var b := batches[i];
        if deadline < b.when {
          break;
        }
        var take := Consider(a, b, t, h);
        if take {
          NoTopBelow(a, i, t, h);
          BestSoFar(a, i, r, t, h);
          r, t, h := i, GradeOf(a, b).0, GradeOf(a, b).1;
          if t == High && h == High {
            TopUnbeaten(a);
            return r, |batches|;
          }
        }
        i := i + 1;
      }
      ScanStops(a, i, deadline);
      NoTopBelow(a, i, t, h);
      n := i;
    }

    /** Below a scan point where nothing beats a grade other than (High, High), no batch is a perfect match. */
    lemma NoTopBelow(a: Alarm, i: int, t: Level, h: Level)
      requires Unbeaten(a, i, t, h) && (t, h) != (High, High)
      ensures forall j :: 0 <= j < i && j < |batches| ==> !TopGrade(a, batches[j])
    {
      AnyCandidateBeatsLowLow(High, High);
      assert IsHigherSimilarity(t, h, High, High);
    }

    /** No batch before index n beats the grade (t, h). */
    ghost predicate Unbeaten(a: Alarm, n: int, t: Level, h: Level)
      reads this`batches, batches
    {
      forall j :: 0 <= j < n && j < |batches| ==> !Beats(a, batches[j], t, h)
    }

    /** No eligible batch before index r has the grade (t, h). */
    ghost predicate FirstOfGrade(a: Alarm, r: int, t: Level, h: Level)
      reads this`batches, batches
    {
      forall j :: 0 <= j < r && j < |batches| && Eligible(a, batches[j]) ==> GradeOf(a, batches[j]) != (t, h)
    }

    /** What the similarity search promises once it has scanned up to index n and chosen r. */
    lemma SearchOutcome(a: Alarm, r: int, n: int, deadline: int)
      requires 0 <= r < n <= |batches| && Eligible(a, batches[r])
      requires Unbeaten(a, n, GradeOf(a, batches[r]).0, GradeOf(a, batches[r]).1)
      requires FirstOfGrade(a, r, GradeOf(a, batches[r]).0, GradeOf(a, batches[r]).1)
      requires forall j :: n <= j < |batches| ==> deadline < batches[j].when
      ensures forall j :: 0 <= j < |batches| && batches[j].when <= deadline ==>
        !Beats(a, batches[j], GradeOf(a, batches[r]).0, GradeOf(a, batches[r]).1)
      ensures forall j :: 0 <= j < r && Eligible(a, batches[j]) ==> GradeOf(a, batches[j]) != GradeOf(a, batches[r])
    {
    }

    /** Under the similarity policy the batches are in order of `when`, and every batch's usage is well formed. */
    lemma ListedForSearch()
      requires Listed() && howard
      ensures Sorted(TimesOf(batches, true))
      ensures forall j :: 0 <= j < |batches| ==> WellFormedOpt(batches[j].hardware)
    {
      forall j | 0 <= j < |batches|
        ensures WellFormedOpt(batches[j].hardware) && Keys()[j] == TimesOf(batches, true)[j]
      {
        assert batches[j] in batches;
      }
    }

    /**
     * A candidate that beats the best grade so far beats every batch
     * scanned before it, and no earlier eligible batch shares its grade.
     */
    lemma BestSoFar(a: Alarm, i: int, r: int, t: Level, h: Level)
      requires 0 <= i < |batches| && -1 <= r < i
      requires r < 0 ==> (t, h) == (Low, Low)
      requires r >= 0 ==> Eligible(a, batches[r]) && GradeOf(a, batches[r]) == (t, h)
      requires Unbeaten(a, i, t, h)
      requires Beats(a, batches[i], t, h)
      ensures Unbeaten(a, i + 1, GradeOf(a, batches[i]).0, GradeOf(a, batches[i]).1)
      ensures FirstOfGrade(a, i, GradeOf(a, batches[i]).0, GradeOf(a, batches[i]).1)
    {
      var g := GradeOf(a, batches[i]);
      MergeableTimeNotLow(Perceivable(a), batches[i].perceivable, g.0, g.1);
      forall j | 0 <= j < i && Eligible(a, batches[j])
        ensures !IsHigherSimilarity(g.0, g.1, GradeOf(a, batches[j]).0, GradeOf(a, batches[j]).1)
        ensures GradeOf(a, batches[j]) != g
      {
        var e := GradeOf(a, batches[j]);
        MergeableTimeNotLow(Perceivable(a), batches[j].perceivable, e.0, e.1);
        if r < 0 {
          AnyCandidateBeatsLowLow(e.0, e.1);
        } else {
          MergeableTimeNotLow(Perceivable(a), batches[r].perceivable, t, h);
          HigherSimilarityTransitive(e.0, e.1, t, h, g.0, g.1);
        }
      }
    }

    /** No batch beats a perfect match. */
    lemma TopUnbeaten(a: Alarm)
      ensures Unbeaten(a, |batches|, High, High)
    {
      forall j | 0 <= j < |batches|
        ensures !Beats(a, batches[j], High, High)
      {
        if Eligible(a, batches[j]) {
          NothingBeatsTop(GradeOf(a, batches[j]).0, GradeOf(a, batches[j]).1);
        }
      }
    }

    /** Nothing beats the starting grade only when nothing is eligible. */
    lemma NothingBeatsLowLow(a: Alarm, i: int)
      requires 0 <= i <= |batches|
      requires forall j :: 0 <= j < i ==> !Beats(a, batches[j], Low, Low)
      ensures forall j :: 0 <= j < i ==> !Eligible(a, batches[j])
    {
      forall j | 0 <= j < i
        ensures !Eligible(a, batches[j])
      {
        if Eligible(a, batches[j]) {
          AnyCandidateBeatsLowLow(GradeOf(a, batches[j]).0, GradeOf(a, batches[j]).1);
        }
      }
    }

    /** Batches past the scan's stopping point are due after the deadline. */
    lemma ScanStops(a: Alarm, i: int, deadline: int)
      requires Sorted(TimesOf(batches, true)) && 0 <= i <= |batches|
      requires i < |batches| ==> deadline < batches[i].when
      ensures forall j :: i <= j < |batches| ==> deadline < batches[j].when
    {
      assert forall j :: 0 <= j < |batches| ==> TimesOf(batches, true)[j] == batches[j].when;
    }

    /** The index of the first batch holding a wakeup alarm, or -1. */
    method FindFirstWakeup() returns (r: int)
      ensures r == FirstWakeup(Contents())
    {
      var i := 0;
      while i < |batches|
        invariant 0 <= i <= |batches|
        invariant forall j :: 0 <= j < i ==> !AnyWakeup(Contents()[j])
      {
        assert Contents()[i] == batches[i].alarms;
        var has := batches[i].HasWakeups();
        if has {
          return i;
        }
        i := i + 1;
      }
      return -1;
    }

    /**
     * Program the kernel timers for the head batch and the first batch
     * holding a wakeup alarm, by their `when` or their `start`.
     */
    method Reschedule(useWhen: bool)
      modifies driver
      ensures driver.State() == Plan(TimesOf(batches, useWhen), FirstWakeup(Contents()), old(driver.State()))
      ensures Contents() == old(Contents()) && Registered() == old(Registered()) && Keys() == old(Keys())
      ensures Valid() == old(Valid()) && Listed() == old(Listed())
    {
      assert forall b: Batch :: b in batches ==> b as object != driver as object;
      if |batches| > 0 {
        var fw := FindFirstWakeup();
        var times := TimesOf(batches, useWhen);
        driver.Apply(times, fw);
      }
    }

    /**
     * Register an alarm whose operation is not registered: choose a batch
     * by the policy in force, add the alarm there or to a new batch, and
     * reprogram the kernel timers. Under the similarity policy the alarm
     * also joins the delay-ordered list.
     */
    method Place(a: Alarm, ghost pending: multiset<Alarm>, ghost queued: multiset<Alarm>)
      requires Consistent(pending, queued) && AlarmOk(a) && OpAbsent(Registered() + pending, a.operation)
      modifies this, batches, driver
      ensures Consistent(pending, queued) && Owned(old(batches))
      ensures Registered() == old(Registered()) + multiset{a}
      ensures howard ==> multiset(inOrder) == old(multiset(inOrder)) + multiset{a}
      ensures NoMoreDue(Keys(), old(Keys()), a.whenElapsed)
      ensures KeepsUndue(Contents(), Keys(), old(Contents()), old(Keys()), a.whenElapsed)
      ensures driver.State() == Plan(TimesOf(batches, howard), FirstWakeup(Contents()), old(driver.State()))
    {
      Enter(a, pending, queued);
      Reschedule(howard);
    }

    /** Put an alarm into the batch the policy chooses, or into a new batch. */
    method Enter(a: Alarm, ghost pending: multiset<Alarm>, ghost queued: multiset<Alarm>)
      requires Consistent(pending, queued) && AlarmOk(a) && OpAbsent(Registered() + pending, a.operation)
      modifies this, batches
      ensures Consistent(pending, queued) && Owned(old(batches))
      ensures Registered() == old(Registered()) + multiset{a}
      ensures howard ==> multiset(inOrder) == old(multiset(inOrder)) + multiset{a}
      ensures NoMoreDue(Keys(), old(Keys()), a.whenElapsed)
      ensures KeepsUndue(Contents(), Keys(), old(Contents()), old(Keys()), a.whenElapsed)
    {
      var which := ChooseBatch(a);
      assert Listed() && Keys() == old(Keys()) && Contents() == old(Contents()) && Registered() == old(Registered());
      if which < 0 {
        NewBatch(a);
      } else {
        Merge(which, a);
      }
      AddedSettled(howard, batches, inOrder, pending, queued, old(Registered()), a);
    }

    /**
     * The batch an alarm joins, or -1 for a new batch: none for a
     * standalone alarm or when every alarm gets a batch of its own, else
     * the policy's search. Under the similarity policy the alarm also
     * joins the delay-ordered list.
     */
    method ChooseBatch(a: Alarm) returns (which: int)
      requires Listed() && AlarmOk(a) && Sorted(DelayKeys(inOrder))
      modifies this
      ensures -1 <= which < |batches|
      ensures which >= 0 ==> a.standalone == batches[which].standalone
      ensures which >= 0 && howard ==>
        Overlaps(Window(a), Span(batches[which].start, batches[which].end)) || (!batches[which].perceivable && !Perceivable(a))
      ensures a.standalone || (!howard && fixedInterval) ==> which == -1
      ensures howard ==>
        inOrder == old(inOrder)[..SearchPoint(DelayKeys(old(inOrder)), DelaySize(a))] + [a]
          + old(inOrder)[SearchPoint(DelayKeys(old(inOrder)), DelaySize(a))..]
      ensures howard ==> Sorted(DelayKeys(inOrder)) && multiset(inOrder) == multiset(old(inOrder)) + multiset{a}
      ensures !howard ==> inOrder == old(inOrder)
      ensures batches == old(batches)
    {
      which := -1;
      if howard {
        if !a.standalone {
          ListedForSearch();
          which := AttemptCoalesceHoward(a);
          if which >= 0 {
            EligibleMeaning(a, batches[which]);
          }
        }
        var _ := InsertInOrder(a);
      } else if !fixedInterval && !a.standalone {
        which := AttemptCoalesce(a.whenElapsed, a.maxWhen);
      }
    }

    /** Give an alarm a batch of its own. */
    method NewBatch(a: Alarm)
      requires Listed() && AlarmOk(a)
      modifies this`batches
      ensures Listed() && Owned(old(batches))
      ensures Registered() == old(Registered()) + multiset{a}
      ensures NoMoreDue(Keys(), old(Keys()), a.whenElapsed)
      ensures KeepsUndue(Contents(), Keys(), old(Contents()), old(Keys()), a.whenElapsed)
      ensures inOrder == old(inOrder)
    {
      var b := Seeded(a, howard);
      assert BatchOk(b);
      ghost var c, keys := Contents(), Keys();
      var _, p := AddBatch(b);
      HeldInsert(c, p, b.alarms);
      CountInsertAbove(keys, p, b.Key(), a.whenElapsed);
      UndueInsertAbove(c, keys, p, b.alarms, b.Key(), a.whenElapsed);
    }

    /** Every registered alarm is well formed, and of its batch's standalone kind. */
    lemma RegisteredOk()
      requires Loose()
      ensures forall x :: x in Registered() ==> AlarmOk(x)
    {
      forall x | x in Registered()
        ensures AlarmOk(x)
      {
        HeldMember(Contents(), x);
        var j :| 0 <= j < |batches| && x in Contents()[j];
        assert batches[j] in batches;
      }
    }

    /**
     * Take every alarm the matcher selects out of batch i, dropping the
     * batch when it empties; the other batches stay where they are.
     */
    method SweepAt(i: int, m: Matcher) returns (removed: bool, ghost kept: bool, ghost x: seq<Alarm>)
      requires Loose() && 0 <= i < |batches|
      modifies this`batches, batches[i]
      ensures Loose() && Among(batches, old(batches))
      ensures removed <==> !Clean(old(Contents())[i], m)
      ensures Registered() + multiset(old(Contents())[i]) == old(Registered()) + multiset(Keep(old(Contents())[i], m))
      ensures Scrubbed(old(batches), batches, i, old(batches)[i], kept)
      ensures Scrubbed(old(Contents()), Contents(), i, x, kept)
      ensures !removed ==> kept && x == old(Contents())[i] && Keys() == old(Keys())
    {
      var b := batches[i];
      assert b in batches;
      ghost var bs, c, keys := batches, Contents(), Keys();
      assert c[i] == b.alarms && keys[i] == b.Key();
      RemoveBatchAt(i);
      HeldRemove(c, i);
      DeletePrefix(bs, i);
      ghost var rest := Registered();
      assert rest + multiset(c[i]) == Held(c) && b.alarms == c[i];
      removed := Scrub(b, i, m);
      Rebalance(rest, Registered(), Held(c), multiset(c[i]), multiset(Keep(c[i], m)));
      kept, x := |b.alarms| > 0, b.alarms;
      if kept {
        ReplaceAt(bs, i, b);
        ReplaceAt(c, i, b.alarms);
        ReplaceAt(keys, i, b.Key());
      }
    }

    /**
     * Take the alarms the matcher selects out of a batch just taken out of
     * index i, and put it back there unless it is empty.
     */
    method Scrub(b: Batch, i: int, m: Matcher) returns (removed: bool)
      requires Loose() && BatchOk(b) && b !in batches && 0 <= i <= |batches|
      modifies this`batches, b
      ensures Loose() && inOrder == old(inOrder)
      ensures removed <==> !Clean(old(b.alarms), m)
      ensures !removed ==> b.alarms == old(b.alarms) && b.Key() == old(b.Key()) && unchanged(b)
      ensures |b.alarms| > 0 ==> batches == old(batches)[..i] + [b] + old(batches)[i..]
      ensures |b.alarms| > 0 ==> Contents() == old(Contents())[..i] + [b.alarms] + old(Contents())[i..]
      ensures |b.alarms| > 0 ==> Keys() == old(Keys())[..i] + [b.Key()] + old(Keys())[i..]
      ensures |b.alarms| == 0 ==> batches == old(batches) && Contents() == old(Contents())
      ensures Registered() == old(Registered()) + multiset(Keep(old(b.alarms), m))
    {
      ghost var rest, restKeys := Contents(), Keys();
      removed := Cleanse(b, howard, m);
      assert Loose() && Contents() == rest && Keys() == restKeys;
      if |b.alarms| > 0 {
        PutAt(i, b);
        HeldInsert(rest, i, b.alarms);
      }
    }

    /** Put a batch back at index i of a list that need not be in order. */
    method PutAt(i: int, b: Batch)
      requires Loose() && BatchOk(b) && b !in batches && 0 <= i <= |batches|
      modifies this`batches
      ensures Loose() && inOrder == old(inOrder)
      ensures batches == old(batches)[..i] + [b] + old(batches)[i..]
      ensures Contents() == old(Contents())[..i] + [b.alarms] + old(Contents())[i..]
      ensures Keys() == old(Keys())[..i] + [b.Key()] + old(Keys())[i..]
    {
      AlarmsOfInsert(batches, i, b);
      DistinctInsert(batches, i, b);
      batches := batches[..i] + [b] + batches[i..];
    }

    /**
     * The baseline removal: every batch, last to first, loses the alarms
     * the matcher selects; emptied batches are dropped.
     */
    method SweepBatches(m: Matcher) returns (didRemove: bool)
      requires Loose()
      modifies this`batches, batches
      ensures Loose() && inOrder == old(inOrder)
      ensures Among(batches, old(batches))
      ensures Filtered(Registered(), old(Registered()), m)
      ensures didRemove <==> exists x :: x in old(Registered()) && Matches(x, m)
      ensures !didRemove ==> batches == old(batches) && Contents() == old(Contents()) && Keys() == old(Keys())
    {
      ghost var c0 := Contents();
      assert c0[..|c0|] == c0 && batches[..|batches|] == batches;
      didRemove := SweepDown(m, batches, c0, Keys(), Registered());
      SweptAll(Registered(), c0, m);
    }

    /** The baseline removal's loop, from the last batch down to the first. */
    method SweepDown(m: Matcher, ghost bs0: seq<Batch>, ghost c0: seq<seq<Alarm>>, ghost k0: seq<int>,
                     ghost r0: multiset<Alarm>) returns (d: bool)
      requires Sweeping(|batches|, m, bs0, c0, k0, r0, false)
      modifies this`batches, batches
      ensures Sweeping(0, m, bs0, c0, k0, r0, d) && inOrder == old(inOrder)
    {
      d := false;
      var k := |batches|;
      while k > 0
        invariant 0 <= k && Sweeping(k, m, bs0, c0, k0, r0, d) && inOrder == old(inOrder)
      {
        d, k := SweepNext(k - 1, m, bs0, c0, k0, r0, d);
      }
    }

    /**
     * The baseline removal's progress: batches from index k on are swept,
     * those below are untouched, and `d` says whether anything went.
     */
    ghost predicate Sweeping(k: int, m: Matcher, bs0: seq<Batch>, c0: seq<seq<Alarm>>, k0: seq<int>, r0: multiset<Alarm>, d: bool)
      reads this`batches, batches
    {
      Loose() && SweptTo(k, m, batches, Contents(), Keys(), Registered(), bs0, c0, k0, r0, d)
    }

    /** One step of the baseline removal, from batch i down. */
    method SweepNext(i: int, m: Matcher, ghost bs0: seq<Batch>, ghost c0: seq<seq<Alarm>>, ghost k0: seq<int>,
                     ghost r0: multiset<Alarm>, d: bool) returns (d': bool, next: int)
      requires 0 <= i && Sweeping(i + 1, m, bs0, c0, k0, r0, d)
      modifies this`batches, batches[i]
      ensures next == i && Sweeping(next, m, bs0, c0, k0, r0, d') && inOrder == old(inOrder)
    {
      next := i;
      ghost var bs, cur, keys, before := batches, Contents(), Keys(), Registered();
      var removed, kept, x := SweepAt(i, m);
      SweptAt(i, m, bs, cur, keys, before, bs0, c0, k0, r0, d, removed, kept, x, batches, Contents(), Keys(), Registered());
      d' := d || removed;
    }

    /**
     * Take the alarms the matcher selects out of a batch just taken out of
     * index i of the ordered list: an untouched batch goes back where it
     * was, a changed one that still holds alarms is re-inserted where its
     * key now fits, and an emptied one is dropped.
     */
    method Reinsert(b: Batch, i: int, m: Matcher) returns (removed: bool, kept: bool, ghost p: int)
      requires Listed() && BatchOk(b) && b !in batches && Splits(Keys(), i, b.Key())
      modifies this`batches, b
      ensures Listed() && inOrder == old(inOrder)
      ensures removed <==> !Clean(old(b.alarms), m)
      ensures kept <==> |b.alarms| > 0
      ensures Clean(b.alarms, m)
      ensures !removed ==> kept && p == i && b.alarms == old(b.alarms) && b.Key() == old(b.Key()) && unchanged(b)
      ensures kept ==> 0 <= p <= |old(batches)| && batches == old(batches)[..p] + [b] + old(batches)[p..]
      ensures kept ==> Contents() == old(Contents())[..p] + [b.alarms] + old(Contents())[p..]
      ensures kept && !removed ==> Keys() == old(Keys())[..p] + [b.Key()] + old(Keys())[p..]
      ensures !kept ==> batches == old(batches) && Contents() == old(Contents())
      ensures Registered() == old(Registered()) + multiset(Keep(old(b.alarms), m))
    {
      ghost var rest, restKeys, alarms0 := Contents(), Keys(), b.alarms;
      removed := Cleanse(b, howard, m);
      assert Listed() && Contents() == rest && Keys() == restKeys;
      KeepClean(alarms0, m);
      assert Clean(b.alarms, m) by {
        assert forall x :: x in b.alarms ==> x in multiset(Keep(alarms0, m));
      }
      kept := |b.alarms| > 0;
      p := i;
      if !removed {
        InsertAt(i, b);
      } else if kept {
        var _, q := AddBatch(b);
        p := q;
      }
      if kept {
        HeldInsert(rest, p, b.alarms);
      }
    }

    /**
     * The similarity policy's removal progress from index i down: batches
     * above i are clean, only matching alarms have gone, and `d` says
     * whether any did.
     */
    ghost predicate Pruning(i: int, m: Matcher, bs0: seq<Batch>, c0: seq<seq<Alarm>>, k0: seq<int>, r0: multiset<Alarm>, d: bool)
      reads this`batches, batches
    {
      -1 <= i < |batches| && Listed() && CleanAbove(Contents(), i, m) && Among(batches, bs0)
      && Trimmed(Registered(), r0, m) && (d <==> Registered() != r0)
      && (!d ==> batches == bs0 && Contents() == c0 && Keys() == k0)
    }

    /**
     * The similarity policy's removal at index i: the batch there loses
     * the alarms the matcher selects and, when it lost any, is re-inserted
     * where its key now fits or dropped when empty.
     */
    method PruneAt(i: int, m: Matcher) returns (removed: bool, kept: bool, ghost p: int, ghost x: seq<Alarm>)
      requires Listed() && 0 <= i < |batches|
      modifies this`batches, batches[i]
      ensures Listed() && inOrder == old(inOrder)
      ensures Among(batches, old(batches))
      ensures removed <==> !Clean(old(Contents())[i], m)
      ensures kept ==> Clean(x, m)
      ensures Reshaped(old(Contents()), Contents(), i, p, x, removed, kept)
      ensures !removed ==> batches == old(batches) && Keys() == old(Keys())
      ensures !removed ==> unchanged(old(batches)[i])
      ensures Registered() + multiset(old(Contents())[i]) == old(Registered()) + multiset(Keep(old(Contents())[i], m))
    {
      var b := batches[i];
      assert b in batches;
      ghost var bs, c, keys, before := batches, Contents(), Keys(), Registered();
      assert c[i] == b.alarms && keys[i] == b.Key();
      RemoveBatchAt(i);
      SplitsWhereRemoved(keys, i);
      HeldRemove(c, i);
      DeletePrefix(bs, i);
      ghost var rest := Registered();
      assert rest + multiset(c[i]) == before && b.alarms == c[i];
      removed, kept, p := Reinsert(b, i, m);
      x := b.alarms;
      Rebalance(rest, Registered(), before, multiset(c[i]), multiset(Keep(c[i], m)));
      if !removed {
        ReplaceAt(bs, i, b);
        ReplaceAt(c, i, b.alarms);
        ReplaceAt(keys, i, b.Key());
      } else if kept {
        MovedMembers(bs, i, p);
      }
    }

    /** One step of the similarity policy's removal, at index i. */
    method PruneNext(i: int, m: Matcher, ghost bs0: seq<Batch>, ghost c0: seq<seq<Alarm>>, ghost k0: seq<int>,
                     ghost r0: multiset<Alarm>, d: bool) returns (i': int, d': bool)
      requires 0 <= i && Pruning(i, m, bs0, c0, k0, r0, d)
      modifies this`batches, batches[i]
      ensures Pruning(i', m, bs0, c0, k0, r0, d') && inOrder == old(inOrder)
      ensures |Registered()| < |old(Registered())| || (Registered() == old(Registered()) && i' < i)
    {
      ghost var cur, before := Contents(), Registered();
      var removed, kept, p, x := PruneAt(i, m);
      TrimStep(before, Registered(), r0, cur[i], m);
      PruneClean(cur, Contents(), i, p, x, removed, kept, m);
      i', d' := if removed && kept then i else i - 1, d || removed;
    }

    /**
     * The similarity policy's removal of one operation: every batch
     * holding it loses it and is re-inserted where its key now fits;
     * then the alarm leaves the delay-ordered list and the kernel timers
     * are reprogrammed by batch start.
     */
    method RemoveHoward(m: Matcher) returns (didRemove: bool)
      requires Valid() && howard
      modifies this`batches, this`inOrder, batches, driver
      ensures Valid() && Among(batches, old(batches))
      ensures Filtered(Registered(), old(Registered()), m)
      ensures didRemove <==> exists x :: x in old(Registered()) && Matches(x, m)
      ensures !didRemove ==> batches == old(batches) && Contents() == old(Contents()) && inOrder == old(inOrder)
      ensures !didRemove ==> Keys() == old(Keys()) && unchanged(driver)
      ensures didRemove ==> inOrder == Keep(old(inOrder), m)
      ensures didRemove ==> driver.State() == Plan(TimesOf(batches, false), FirstWakeup(Contents()), old(driver.State()))
    {
      Unpack();
      ghost var r0, k0 := Registered(), driver.State();
      assert forall b: Batch :: b in batches ==> b as object != driver as object;
      didRemove := PruneAll(m);
      assert driver.State() == k0;
      if didRemove {
        Resettle(m, r0);
      } else {
        SettledAgain(howard, batches, inOrder);
      }
    }

    /** Replace the delay-ordered list; the batches are untouched. */
    method SetOrder(order: seq<Alarm>, ghost pending: multiset<Alarm>, ghost queued: multiset<Alarm>)
      modifies this`inOrder
      ensures inOrder == order
      ensures Listed() == old(Listed()) && Contents() == old(Contents()) && Keys() == old(Keys())
      ensures Consistent(pending, queued) == old(Settled(howard, batches, order, pending, queued))
    {
      assert forall b: Batch :: b in batches ==> b as object != this as object;
      inOrder := order;
    }

    /**
     * The tail of the similarity policy's removal, once the batches have
     * lost the selected alarms: they leave the delay-ordered list too, and
     * the kernel timers are reprogrammed by batch start.
     */
    method Resettle(m: Matcher, ghost r0: multiset<Alarm>)
      requires Listed() && howard && UniqueOps(r0) && Filtered(Registered(), r0, m)
      requires multiset(inOrder) == r0 && Sorted(DelayKeys(inOrder))
      modifies this`inOrder, driver
      ensures Valid() && batches == old(batches) && Contents() == old(Contents()) && Registered() == old(Registered())
      ensures inOrder == Keep(old(inOrder), m)
      ensures driver.State() == Plan(TimesOf(batches, false), FirstWakeup(Contents()), old(driver.State()))
    {
      ghost var c1 := Contents();
      FilteredUnique(Registered(), r0, m);
      var kept := FilterOrder(inOrder, m);
      KeptIsFiltered(inOrder, r0, Held(c1), m);
      SetOrder(kept, multiset{}, multiset{});
      Reschedule(false);
      SettledAgain(howard, batches, inOrder);
    }

    /**
     * The similarity policy's pass over the batches, last to first: every
     * batch holding a selected alarm loses it and moves to where its key
     * now fits.
     */
    method PruneAll(m: Matcher) returns (didRemove: bool)
      requires Listed()
      modifies this`batches, batches
      ensures Listed() && inOrder == old(inOrder)
      ensures Among(batches, old(batches))
      ensures Filtered(Registered(), old(Registered()), m)
      ensures didRemove <==> exists x :: x in old(Registered()) && Matches(x, m)
      ensures !didRemove ==> batches == old(batches) && Contents() == old(Contents()) && Keys() == old(Keys())
    {
      ghost var r0 := Registered();
      didRemove := false;
      var i := |batches| - 1;
      while i >= 0
        invariant Pruning(i, m, old(batches), old(Contents()), old(Keys()), r0, didRemove) && inOrder == old(inOrder)
        decreases |Registered()|, i + 1
      {
        assert batches[i] in batches;
        i, didRemove := PruneNext(i, m, old(batches), old(Contents()), old(Keys()), r0, didRemove);
      }
      CleanHeld(Contents(), m);
      TrimmedAll(Registered(), r0, m);
    }

    /**
     * Deliver every due batch: while the head batch is due by `now`, take
     * it off the list and deliver its alarms. Afterwards nothing is due,
     * every delivery carries its count, and each delivered alarm left the
     * registry while the next occurrence of each recurring one joined it.
     */
    method Trigger(now: int) returns (fired: seq<Delivery>)
      requires Valid()
      modifies this, batches, driver
      ensures Valid() && Owned(old(batches))
      ensures |batches| == 0 || batches[0].Key() > now
      ensures CountAtMost(Keys(), now) == 0
      ensures Registered() + multiset(FiredAlarms(fired)) == old(Registered()) + multiset(Rearmed(fired, now))
      ensures Counted(fired, now)
      ensures Undue(old(Contents()), old(Keys()), now) <= Registered()
      ensures multiset(FiredAlarms(fired)) + Undue(old(Contents()), old(Keys()), now) <= old(Registered()) + multiset(Rearmed(fired, now))
    {
      fired := [];
      ghost var r0, u0 := Registered(), Undue(Contents(), Keys(), now);
      assert Accounted(Registered(), multiset{}, fired, r0, now);
      while |batches| > 0 && batches[0].Key() <= now
        invariant Valid() && Owned(old(batches))
        invariant Accounted(Registered(), multiset{}, fired, r0, now) && Counted(fired, now)
        invariant u0 <= Undue(Contents(), Keys(), now)
        decreases CountAtMost(Keys(), now)
      {
        assert fresh((set b | b in batches) - (set b | b in old(batches)));
        fired := DeliverHead(now, r0, fired);
      }
      Unpack();
      assert |batches| > 0 ==> Keys()[0] == batches[0].Key();
      HeadNotDue(Keys(), now);
      AccountedDone(Registered(), fired, r0, now);
      UndueHeld(Contents(), Keys(), now);
    }

    /** Take the due head batch off the list and deliver its alarms. */
    method DeliverHead(now: int, ghost r0: multiset<Alarm>, fired: seq<Delivery>) returns (out: seq<Delivery>)
      requires Valid() && |batches| > 0 && batches[0].Key() <= now
      requires Accounted(Registered(), multiset{}, fired, r0, now) && Counted(fired, now)
      modifies this, batches, driver
      ensures Valid() && Owned(old(batches))
      ensures Accounted(Registered(), multiset{}, out, r0, now) && Counted(out, now)
      ensures CountAtMost(Keys(), now) < old(CountAtMost(Keys(), now))
      ensures old(Undue(Contents(), Keys(), now)) <= Undue(Contents(), Keys(), now)
    {
      ghost var keys, reg, c := Keys(), Registered(), Contents();
      assert keys[0] <= now;
      var alarms, standalone := TakeHead();
      UndueDrop(c, keys, now);
      assert alarms[0..] == alarms;
      DueDrop(keys, Keys(), now);
      ProgressStart(Registered(), reg, alarms, fired, r0, now);
      ghost var due := CountAtMost(Keys(), now);
      out := DeliverAll(alarms, standalone, now, r0, fired);
      assert CountAtMost(Keys(), now) <= due;
    }

    /** Take the head batch off the list: its alarms become pending. */
    method TakeHead() returns (alarms: seq<Alarm>, standalone: bool)
      requires Valid() && |batches| > 0
      modifies this`batches
      ensures alarms == old(batches[0].alarms) && standalone == old(batches[0].standalone)
      ensures forall a :: a in alarms ==> AlarmOk(a) && a.standalone == standalone
      ensures batches == old(batches)[1..] && Keys() == old(Keys())[1..] && Contents() == old(Contents())[1..]
      ensures Registered() + multiset(alarms) == old(Registered())
      ensures Consistent(multiset(alarms), if howard then multiset(alarms) else multiset{})
    {
      SettledTail(howard, batches, inOrder);
      alarms, standalone := batches[0].alarms, batches[0].standalone;
      batches := batches[1..];
    }

    /** Deliver, in order, the alarms of a batch just taken off the list. */
    method DeliverAll(alarms: seq<Alarm>, standalone: bool, now: int, ghost r0: multiset<Alarm>, fired: seq<Delivery>)
      returns (out: seq<Delivery>)
      requires forall a :: a in alarms ==> AlarmOk(a) && a.standalone == standalone
      requires Delivering(alarms, 0, fired, fired, r0, now)
      modifies this, batches, driver
      ensures Valid() && Owned(old(batches))
      ensures Progress(Registered(), alarms, |alarms|, fired, out, r0, now)
      ensures Accounted(Registered(), multiset{}, out, r0, now) && Counted(out, now)
      ensures CountAtMost(Keys(), now) <= old(CountAtMost(Keys(), now))
      ensures old(Undue(Contents(), Keys(), now)) <= Undue(Contents(), Keys(), now)
    {
      out := fired;
      ghost var due, undue := CountAtMost(Keys(), now), Undue(Contents(), Keys(), now);
      var i := 0;
      while i < |alarms|
        invariant fresh((set b | b in batches) - (set b | b in old(batches)))
        invariant i <= |alarms| && Delivering(alarms, i, fired, out, r0, now)
        invariant CountAtMost(Keys(), now) <= due && undue <= Undue(Contents(), Keys(), now)
      {
        out, i := DeliverNext(alarms, i, standalone, now, r0, fired, out, due, undue);
      }
      Delivered(alarms, fired, out, r0, now);
    }

    /** Once every alarm of the batch is delivered, none is pending. */
    lemma Delivered(alarms: seq<Alarm>, fired: seq<Delivery>, out: seq<Delivery>, r0: multiset<Alarm>, now: int)
      requires Delivering(alarms, |alarms|, fired, out, r0, now)
      ensures Valid() && Accounted(Registered(), multiset{}, out, r0, now) && Counted(out, now)
    {
      assert multiset(alarms[|alarms|..]) == multiset{};
      ProgressDone(Registered(), alarms, fired, out, r0, now);
    }

    /**
     * Delivery of a batch's alarms in progress: the first i are delivered,
     * in order, after the earlier deliveries; the rest are pending.
     */
    ghost predicate Delivering(alarms: seq<Alarm>, i: int, fired: seq<Delivery>, out: seq<Delivery>, r0: multiset<Alarm>, now: int)
      reads this, batches
    {
      0 <= i <= |alarms|
      && Consistent(multiset(alarms[i..]), if howard then multiset(alarms[i..]) else multiset{})
      && Progress(Registered(), alarms, i, fired, out, r0, now)
    }

    /** Deliver alarm i of a batch taken off the list. */
    method DeliverNext(alarms: seq<Alarm>, i: int, standalone: bool, now: int, ghost r0: multiset<Alarm>,
                       ghost fired: seq<Delivery>, out: seq<Delivery>, ghost due: int, ghost undue: multiset<Alarm>)
      returns (out': seq<Delivery>, next: int)
      requires i < |alarms| && Delivering(alarms, i, fired, out, r0, now)
      requires AlarmOk(alarms[i]) && alarms[i].standalone == standalone
      requires CountAtMost(Keys(), now) <= due && undue <= Undue(Contents(), Keys(), now)
      modifies this, batches, driver
      ensures next == i + 1 && Delivering(alarms, next, fired, out', r0, now) && Owned(old(batches))
      ensures CountAtMost(Keys(), now) <= due && undue <= Undue(Contents(), Keys(), now)
    {
      var a := alarms[i];
      ghost var rest := multiset(alarms[i + 1..]);
      PendingSplit(alarms, i);
      ghost var before := Registered();
      var d := Deliver(a, standalone, now, rest);
      out', next := out + [d], i + 1;
      ProgressStep(before, Registered(), alarms, i, fired, out, d, r0, now);
    }

    /**
     * Deliver one alarm of a batch taken off the list: its delivery count
     * is one plus the whole periods it is late by; under the similarity
     * policy it leaves the delay-ordered list; a recurring alarm registers
     * its next occurrence.
     */
    method Deliver(a: Alarm, standalone: bool, now: int, ghost rest: multiset<Alarm>) returns (d: Delivery)
      requires Consistent(rest + multiset{a}, if howard then rest + multiset{a} else multiset{})
      requires AlarmOk(a) && a.standalone == standalone
      modifies this, batches, driver
      ensures Consistent(rest, if howard then rest else multiset{}) && Owned(old(batches))
      ensures d == Delivery(a, DeliveryCount(a, now))
      ensures Registered() == old(Registered()) + multiset(Successor(d, now))
      ensures CountAtMost(Keys(), now) <= old(CountAtMost(Keys(), now))
      ensures old(Undue(Contents(), Keys(), now)) <= Undue(Contents(), Keys(), now)
    {
      var count := CountOf(a, now);
      d := Delivery(a, count);
      ghost var k0, c0 := Keys(), Contents();
      Forget(a, rest);
      assert Contents() == c0;
      if a.repeatInterval > 0 {
        var next := NextOccurrence(a, now, standalone);
        Place(next, rest, if howard then rest else multiset{});
        NoMoreDueAt(Keys(), k0, next.whenElapsed, now);
        assert Undue(c0, k0, now) <= Undue(Contents(), Keys(), now);
        assert Successor(d, now) == [next];
      } else {
        assert Successor(d, now) == [];
      }
    }

    /**
     * A delivered alarm stops being pending; under the similarity policy
     * its first occurrence leaves the delay-ordered list.
     */
    method Forget(a: Alarm, ghost rest: multiset<Alarm>)
      requires Consistent(rest + multiset{a}, if howard then rest + multiset{a} else multiset{})
      modifies this`inOrder
      ensures Consistent(rest, if howard then rest else multiset{})
      ensures OpAbsent(Registered() + rest, a.operation)
      ensures howard ==> inOrder == old(inOrder)[..FirstIndex(old(inOrder), a)] + old(inOrder)[FirstIndex(old(inOrder), a) + 1..]
      ensures !howard ==> inOrder == old(inOrder)
      ensures batches == old(batches) && Keys() == old(Keys()) && Registered() == old(Registered())
    {
      if howard {
        Unqueue(a, rest);
      } else {
        SettledDeliver(howard, batches, inOrder, inOrder, rest, a);
      }
    }

    /** Under the similarity policy, a delivered alarm's first occurrence leaves the delay-ordered list. */
    method Unqueue(a: Alarm, ghost rest: multiset<Alarm>)
      requires howard && Consistent(rest + multiset{a}, rest + multiset{a})
      modifies this`inOrder
      ensures Consistent(rest, rest) && OpAbsent(Registered() + rest, a.operation)
      ensures inOrder == old(inOrder)[..FirstIndex(old(inOrder), a)] + old(inOrder)[FirstIndex(old(inOrder), a) + 1..]
      ensures Contents() == old(Contents()) && Keys() == old(Keys())
    {
      SettledQueued(batches, inOrder, rest, a);
      var kept := DeleteFirst(inOrder, a);
      SettledDeliver(howard, batches, inOrder, kept, rest, a);
      SetOrder(kept, rest, rest);
    }

    // -------------------------------------------------------------------
    // Rebatching, removal and registration

    /** The registered alarms, batch by batch, in list order. */
    method Gather() returns (s: seq<Alarm>)
      ensures s == Flatten(Contents())
    {
      s := [];
      var i := 0;
      while i < |batches|
        invariant 0 <= i <= |batches| && s == Flatten(Contents()[..i])
      {
        assert Contents()[..i + 1][..i] == Contents()[..i];
        s := s + batches[i].alarms;
        i := i + 1;
      }
      assert Contents()[..i] == Contents();
    }

    /**
     * Registration of the list `r` is at index i: its first i alarms are
     * registered and the rest are pending.
     */
    ghost predicate Reentering(r: seq<Alarm>, i: int)
      reads this, batches
    {
      0 <= i <= |r| && Consistent(multiset(r[i..]), multiset{}) && Registered() == multiset(r[..i])
    }

    /** The kernel is aimed at the batches' plan. */
    ghost predicate Ready()
      reads this, batches, driver
    {
      Aimed(TimesOf(batches, howard), FirstWakeup(Contents()), driver.State())
    }

    /** Register alarm i of `r`. */
    method ReenterNext(r: seq<Alarm>, i: int) returns (next: int)
      requires 0 <= i < |r| && Reentering(r, i) && AllOk(r)
      modifies this, batches, driver
      ensures next == i + 1 && Reentering(r, next) && Owned(old(batches)) && Ready()
    {
      next := i + 1;
      var a := r[i];
      ghost var rest := multiset(r[i + 1..]);
      PendingSplit(r, i);
      SettledShed(howard, batches, inOrder, rest, a);
      Place(a, rest, multiset{});
      PlanTargets(TimesOf(batches, howard), FirstWakeup(Contents()), old(driver.State()));
    }

    /** Register, in order, the alarms of `r` in an emptied manager. */
    method Reenter(r: seq<Alarm>)
      requires batches == [] && inOrder == []
      requires AllOk(r) && UniqueOps(multiset(r))
      modifies this, driver
      ensures Valid() && Owned(old(batches))
      ensures Registered() == multiset(r)
      ensures |r| > 0 ==> Ready()
    {
      ReenterStart(howard, r);
      assert r[0..] == r && r[..0] == [] && batches == [];
      var i := 0;
      while i < |r|
        invariant Reentering(r, i) && fresh(set b | b in batches) && (i > 0 ==> Ready())
      {
        i := ReenterNext(r, i);
      }
      assert r[..i] == r && r[i..] == [];
    }

    /**
     * Empty the manager and hand back what it held: the delay-ordered list
     * under the similarity policy, every batch's alarms in list order
     * otherwise.
     */
    method Collect() returns (s: seq<Alarm>)
      requires Loose() && UniqueOps(Registered())
      requires howard ==> multiset(inOrder) == Registered()
      modifies this`batches, this`inOrder
      ensures multiset(s) == old(Registered()) && AllOk(s) && UniqueOps(multiset(s))
      ensures howard ==> s == old(inOrder)
      ensures !howard ==> s == Flatten(old(Contents()))
      ensures batches == [] && inOrder == []
    {
      RegisteredOk();
      if howard {
        s := inOrder;
      } else {
        s := Gather();
      }
      assert forall x :: x in s ==> x in multiset(s);
      inOrder := [];
      batches := [];
    }

    /** Register, in order, the alarms of `s` with their windows recomputed, in an emptied manager. */
    method Reload(s: seq<Alarm>, now: int, skew: int, ghost before: multiset<Alarm>)
      requires batches == [] && inOrder == []
      requires AllOk(s) && UniqueOps(multiset(s)) && multiset(s) == before
      modifies this, batches, driver
      ensures Valid() && Owned(old(batches))
      ensures Registered() == multiset(RecomputeAll(s, now, skew))
      ensures RecomputedFrom(Registered(), before, now, skew)
      ensures |s| > 0 ==> Aimed(TimesOf(batches, howard), FirstWakeup(Contents()), driver.State())
    {
      RecomputeReady(s, now, skew);
      Reenter(RecomputeAll(s, now, skew));
    }

    /**
     * Rebatch everything: empty the manager and register every alarm
     * again with its window recomputed for the current clocks, in
     * delay order under the similarity policy and in batch order
     * otherwise.
     */
    method RebatchAll(now: int, skew: int)
      requires Loose() && UniqueOps(Registered())
      requires howard ==> multiset(inOrder) == Registered()
      requires !howard ==> inOrder == []
      modifies this, batches, driver
      ensures Valid() && Owned(old(batches))
      ensures RecomputedFrom(Registered(), old(Registered()), now, skew)
      ensures howard ==> Registered() == multiset(RecomputeAll(old(inOrder), now, skew))
      ensures !howard ==> Registered() == multiset(RecomputeAll(Flatten(old(Contents())), now, skew))
      ensures old(Registered()) != multiset{} ==> Aimed(TimesOf(batches, howard), FirstWakeup(Contents()), driver.State())
    {
      ghost var before := Registered();
      ghost var order := if howard then inOrder else Flatten(Contents());
      var s := Collect();
      assert s == order;
      Reload(s, now, skew, before);
    }

    /**
     * Remove every alarm the matcher selects. Under the similarity policy
     * with rebatch control, a removal by operation takes the similarity
     * policy's own path; every other removal drops the alarms from the
     * batches last to first and, when something went, from the
     * delay-ordered list too, then rebatches everything at the clock
     * `now` (with wall clock `skew` ahead of the elapsed one) and
     * reprograms the kernel timers by batch start. `kept` is what the
     * registry holds once the selected alarms are gone, before any
     * rebatch.
     */
    method Remove(m: Matcher, now: int, skew: int) returns (didRemove: bool, ghost kept: multiset<Alarm>)
      requires Valid()
      modifies this, batches, driver
      ensures Valid() && Owned(old(batches))
      ensures Filtered(kept, old(Registered()), m)
      ensures didRemove <==> exists x :: x in old(Registered()) && Matches(x, m)
      ensures !didRemove ==> Registered() == old(Registered()) && Contents() == old(Contents())
      ensures !didRemove ==> batches == old(batches) && Keys() == old(Keys()) && inOrder == old(inOrder) && unchanged(driver)
      ensures howard && rebatchControl && m.ByOperation? ==> Registered() == kept
      ensures !(howard && rebatchControl && m.ByOperation?) && didRemove ==> RecomputedFrom(Registered(), kept, now, skew)
      ensures didRemove ==> Aimed(TimesOf(batches, false), FirstWakeup(Contents()), driver.State())
    {
      if howard && rebatchControl && m.ByOperation? {
        didRemove := RemoveHoward(m);
        kept := Registered();
        if didRemove {
          PlanTargets(TimesOf(batches, false), FirstWakeup(Contents()), old(driver.State()));
        }
      } else {
        didRemove, kept := SweepRemove(m, now, skew);
      }
    }

    /**
     * Register an alarm for `op`, replacing any alarm it already has. A
     * type outside the four alarm types is refused before anything
     * changes. Otherwise the request is worked out at the clock `now`
     * (see Requested), the operation's earlier alarm is removed, which
     * may rebatch the rest (`others` is what is left), and the new alarm
     * is placed. `hardware` and `slack` are the usage vector and slack the
     * wakeup records give the operation.
     */
    method Set(kind: int, triggerAtTime: int, windowLength: int, interval: int, op: Operation, standalone: bool,
               hardware: Option<Usage>, slack: int, now: int, skew: int)
      returns (ok: bool, ghost kept: multiset<Alarm>, ghost others: multiset<Alarm>)
      requires Valid() && WellFormedOpt(hardware)
      modifies this, batches, driver
      ensures Valid() && Owned(old(batches))
      ensures ok <==> RTC_WAKEUP <= kind <= ELAPSED_REALTIME
      ensures !ok ==> batches == old(batches) && Contents() == old(Contents()) && inOrder == old(inOrder) && unchanged(driver)
      ensures ok ==> Filtered(kept, old(Registered()), ByOperation(op))
      ensures ok ==> Registered() == others + multiset{Requested(kind, triggerAtTime, windowLength, interval, op, standalone, hardware, slack, now, skew).value}
      ensures ok && ((howard && rebatchControl) || OpAbsent(old(Registered()), op)) ==> others == kept
      ensures ok && !(howard && rebatchControl) && !OpAbsent(old(Registered()), op) ==> RecomputedFrom(others, kept, now, skew)
      ensures ok ==> Aimed(TimesOf(batches, howard), FirstWakeup(Contents()), driver.State())
    {
      kept, others := Registered(), Registered();
      var request := Requested(kind, triggerAtTime, windowLength, interval, op, standalone, hardware, slack, now, skew);
      if request.None? {
        return false, kept, others;
      }
      ok := true;
      var a := request.value;
      kept, others := Vacate(op, now, skew);
      assert forall i :: 0 <= i < |batches| ==> batches[i] in old(batches) || fresh(batches[i]);
      ghost var k := driver.State();
      Place(a, multiset{}, multiset{});
      PlanTargets(TimesOf(batches, howard), FirstWakeup(Contents()), k);
    }

    /**
     * The removal step of Set: the operation's alarms go, and what is
     * left (`others`, rebatched or not) no longer holds the operation.
     */
    method Vacate(op: Operation, now: int, skew: int) returns (ghost kept: multiset<Alarm>, ghost others: multiset<Alarm>)
      requires Valid()
      modifies this, batches, driver
      ensures Valid() && Owned(old(batches))
      ensures others == Registered() && OpAbsent(Registered() + multiset{}, op)
      ensures Filtered(kept, old(Registered()), ByOperation(op))
      ensures (howard && rebatchControl) || OpAbsent(old(Registered()), op) ==> others == kept
      ensures !(howard && rebatchControl) && !OpAbsent(old(Registered()), op) ==> RecomputedFrom(others, kept, now, skew)
    {
      var didRemove;
      didRemove, kept := Remove(ByOperation(op), now, skew);
      others := Registered();
      FilteredOpAbsent(kept, old(Registered()), op);
      if !didRemove {
        FilteredNone(kept, old(Registered()), ByOperation(op));
      } else if !(howard && rebatchControl) {
        RecomputedOpAbsent(others, kept, now, skew, op);
      }
      assert Registered() + multiset{} == Registered();
    }

    /** The baseline removal path, followed by a full rebatch when anything went. */
    method SweepRemove(m: Matcher, now: int, skew: int) returns (didRemove: bool, ghost kept: multiset<Alarm>)
      requires Valid()
      modifies this, batches, driver
      ensures Valid() && Owned(old(batches))
      ensures Filtered(kept, old(Registered()), m)
      ensures didRemove <==> exists x :: x in old(Registered()) && Matches(x, m)
      ensures !didRemove ==> Registered() == old(Registered()) && Contents() == old(Contents())
      ensures !didRemove ==> batches == old(batches) && Keys() == old(Keys()) && inOrder == old(inOrder) && unchanged(driver)
      ensures didRemove ==> RecomputedFrom(Registered(), kept, now, skew)
      ensures didRemove ==> Aimed(TimesOf(batches, false), FirstWakeup(Contents()), driver.State())
    {
      didRemove, kept := Drop(m);
      if didRemove {
        assert forall i :: 0 <= i < |batches| ==> batches[i] in old(batches);
        Refresh(now, skew);
      }
    }

    /** After a baseline removal: rebatch everything, then reprogram the kernel timers by batch start. */
    method Refresh(now: int, skew: int)
      requires Loose() && UniqueOps(Registered())
      requires howard ==> multiset(inOrder) == Registered()
      requires !howard ==> inOrder == []
      modifies this, batches, driver
      ensures Valid() && Owned(old(batches))
      ensures RecomputedFrom(Registered(), old(Registered()), now, skew)
      ensures Aimed(TimesOf(batches, false), FirstWakeup(Contents()), driver.State())
    {
      RebatchAll(now, skew);
      ghost var k := driver.State();
      Reschedule(false);
      PlanTargets(TimesOf(batches, false), FirstWakeup(Contents()), k);
    }

    /**
     * Drop the selected alarms from the batches, last to first, and when
     * something went, from the delay-ordered list too.
     */
    method Drop(m: Matcher) returns (didRemove: bool, ghost kept: multiset<Alarm>)
      requires Valid()
      modifies this`batches, this`inOrder, batches
      ensures Loose() && UniqueOps(Registered()) && Among(batches, old(batches))
      ensures howard ==> multiset(inOrder) == Registered()
      ensures !howard ==> inOrder == []
      ensures kept == Registered() && Filtered(kept, old(Registered()), m)
      ensures didRemove <==> exists x :: x in old(Registered()) && Matches(x, m)
      ensures !didRemove ==> Valid() && Contents() == old(Contents())
      ensures !didRemove ==> batches == old(batches) && Keys() == old(Keys()) && inOrder == old(inOrder)
    {
      Unpack();
      ghost var r0 := Registered();
      didRemove := SweepBatches(m);
      kept := Registered();
      FilteredUnique(kept, r0, m);
      if !didRemove {
        SettledAgain(howard, batches, inOrder);
      } else if howard {
        DropFromOrder(m, r0);
      }
    }

    /** The selected alarms leave the delay-ordered list; the batches are untouched. */
    method DropFromOrder(m: Matcher, ghost r0: multiset<Alarm>)
      requires Loose() && multiset(inOrder) == r0 && Sorted(DelayKeys(inOrder))
      requires Filtered(Registered(), r0, m)
      modifies this`inOrder
      ensures Loose() && batches == old(batches) && Registered() == old(Registered())
      ensures multiset(inOrder) == Registered()
    {
      var order := FilterOrder(inOrder, m);
      KeptIsFiltered(inOrder, r0, Registered(), m);
      SetOrder(order, multiset{}, multiset{});
    }
  }
}
