/**
 * The wake lock the alarm manager holds while alarm broadcasts are in
 * flight: a count of outstanding broadcasts, the in-flight records in send
 * order, the per-package and per-target nesting statistics, and the log of
 * recent wakeups that the completion side keeps half an hour deep.
 */
module WakeHold {
  import opened Wrappers
  import opened Alarms

  /** How long a finished wakeup stays in the recent log: half an hour, in ms. */
  const RECENT_WAKEUP_PERIOD: int := 1000 * 60 * 30

  /** Where a broadcast goes, for the statistics: its package and its intent target. */
  datatype Target = Target(package: int, filter: int)

  /** One broadcast sent and not yet finished. */
  datatype InFlight = InFlight(op: Operation, target: Target)

  /**
   * Delivery statistics of a package or a target: deliveries, wakeups,
   * how many of its broadcasts are in flight, when the outermost of those
   * started, and the total time spent with one in flight.
   */
  datatype Stats = Stats(count: int, numWakeup: int, nesting: int, startTime: int, aggregateTime: int)

  /** A finished wakeup as the resource manager reports it. */
  datatype WakeupEvent = WakeupEvent(id: int, uid: int, when: int)

  const NoStats: Stats := Stats(0, 0, 0, 0, 0)

  /**
   * The wakeup records: the recent log, oldest first, and the similarity
   * policy's last and second-to-last wakeup per id and last per uid.
   */
  datatype Records = Records(recent: seq<WakeupEvent>, last: map<int, WakeupEvent>, second: map<int, WakeupEvent>,
                             byUid: map<int, WakeupEvent>)

  /**
   * The records once a target's last broadcast has finished with the
   * wakeup `event` reported at wall-clock time nowRtc: the log loses its
   * entries of more than half an hour ago from the head and takes the
   * event at its tail; when records are kept the event becomes the last
   * one for its id and its uid, and the one it replaces for its id the
   * second-to-last.
   */
  function Logging(r: Records, nowRtc: int, event: Option<WakeupEvent>, keep: bool): (r': Records)
    ensures forall e :: e in r'.recent ==> e in r.recent || event == Some(e)
    ensures event.Some? ==> |r'.recent| > 0 && r'.recent[|r'.recent| - 1] == event.value
    ensures StaleCount(r.recent, nowRtc - RECENT_WAKEUP_PERIOD) < |r.recent| ==> |r'.recent| > 0 && r'.recent[0].when > nowRtc - RECENT_WAKEUP_PERIOD
    ensures !keep || event.None? ==> r'.last == r.last && r'.second == r.second && r'.byUid == r.byUid
    ensures keep && event.Some? ==> var e := event.value;
      e.id in r'.last && r'.last[e.id] == e && e.uid in r'.byUid && r'.byUid[e.uid] == e
      && (forall k :: k in r.last && k != e.id ==> k in r'.last && r'.last[k] == r.last[k])
      && (e.id in r.last ==> var prev := r.last[e.id]; prev.id in r'.second && r'.second[prev.id] == prev)
  {
    var n := StaleCount(r.recent, nowRtc - RECENT_WAKEUP_PERIOD);
    assert forall e :: e in r.recent[n..] ==> e in r.recent;
    var recent := r.recent[n..] + (if event.Some? then [event.value] else []);
    if keep && event.Some? then
      var e := event.value;
      var second := if e.id in r.last then r.second[r.last[e.id].id := r.last[e.id]] else r.second;
      Records(recent, r.last[e.id := e], second, r.byUid[e.uid := e])
    else
      Records(recent, r.last, r.second, r.byUid)
  }

  /** The statistics kept under a key, created empty on first use. */
  function StatsOf<K>(m: map<K, Stats>, k: K): Stats
  {
    if k in m then m[k] else NoStats
  }

  /** A broadcast starts: one more delivery, one level deeper, the clock starts at the outermost. */
  function Opened(s: Stats, now: int, wakeup: bool): (r: Stats)
    ensures r.count == s.count + 1
    ensures r.numWakeup == s.numWakeup + (if wakeup then 1 else 0)
    ensures r.nesting == (if s.nesting == 0 then 1 else s.nesting + 1)
    ensures r.startTime == (if s.nesting == 0 then now else s.startTime)
    ensures r.aggregateTime == s.aggregateTime
  {
    var base := s.(count := s.count + 1, numWakeup := s.numWakeup + (if wakeup then 1 else 0));
    if s.nesting == 0 then base.(nesting := 1, startTime := now) else base.(nesting := s.nesting + 1)
  }

  /** A broadcast finishes: one level shallower; leaving the outermost level adds the time spent. */
  function Closed(s: Stats, now: int): (r: Stats)
    ensures r.count == s.count && r.numWakeup == s.numWakeup && r.startTime == s.startTime
    ensures s.nesting > 1 ==> r.nesting == s.nesting - 1 && r.aggregateTime == s.aggregateTime
    ensures s.nesting <= 1 ==> r.nesting == 0 && r.aggregateTime == s.aggregateTime + now - s.startTime
  {
    if s.nesting - 1 <= 0 then s.(nesting := 0, aggregateTime := s.aggregateTime + now - s.startTime)
    else s.(nesting := s.nesting - 1)
  }

  /** A broadcast that opens and closes a quiet key adds exactly its own duration. */
  lemma OpenCloseQuiet(s: Stats, t0: int, t1: int, wakeup: bool)
    requires s.nesting == 0
    ensures Closed(Opened(s, t0, wakeup), t1).nesting == 0
    ensures Closed(Opened(s, t0, wakeup), t1).aggregateTime == s.aggregateTime + (t1 - t0)
  {
  }

  /** Closing after opening restores the nesting depth of a key already in flight. */
  lemma OpenCloseNested(s: Stats, t0: int, t1: int, wakeup: bool)
    requires s.nesting > 0
    ensures Closed(Opened(s, t0, wakeup), t1).nesting == s.nesting
    ensures Closed(Opened(s, t0, wakeup), t1).aggregateTime == s.aggregateTime
    ensures Closed(Opened(s, t0, wakeup), t1).startTime == s.startTime
  {
  }

  /** How many entries at the head of the log are no later than `earliest`. */
  function StaleCount(log: seq<WakeupEvent>, earliest: int): (n: nat)
    ensures n <= |log|
    ensures forall i :: 0 <= i < n ==> log[i].when <= earliest
    ensures n < |log| ==> log[n].when > earliest
  {
    if |log| == 0 || log[0].when > earliest then 0 else 1 + StaleCount(log[1..], earliest)
  }

  /** The first in-flight record for an operation, or -1. */
  function FirstFor(s: seq<InFlight>, op: Operation): (i: int)
    ensures -1 <= i < |s|
    ensures i == -1 <==> forall j :: 0 <= j < |s| ==> s[j].op != op
    ensures i >= 0 ==> s[i].op == op && forall j :: 0 <= j < i ==> s[j].op != op
  {
    if |s| == 0 then -1
    else if s[0].op == op then 0
    else
      var i := FirstFor(s[1..], op);
      assert forall j :: 1 <= j < |s| ==> s[1..][j - 1] == s[j];
      if i == -1 then -1 else i + 1
  }

  class Tracker {
    /**
     * Whether the last wakeup per id and uid is kept: under the similarity
     * policy and under the overhead experiment.
     */
    const keepRecords: bool
    /** Broadcasts sent whose completion has not come back. */
    var refCount: int
    /** Whether the wake lock is held. */
    var held: bool
    /** The operation the wake lock's work is attributed to. */
    var attributed: Option<Operation>
    var inFlight: seq<InFlight>
    var packageStats: map<int, Stats>
    var filterStats: map<Target, Stats>
    /** Finished wakeups of the last half hour, oldest first. */
    var recent: seq<WakeupEvent>
    /** The similarity policy's last and second-to-last wakeup per id, and the last per uid. */
    var records: map<int, WakeupEvent>
    var secondRecords: map<int, WakeupEvent>
    var recordsByUid: map<int, WakeupEvent>

    /** The wakeup log and records as one value. */
    function Logs(): Records
      reads this`recent, this`records, this`secondRecords, this`recordsByUid
    {
      Records(recent, records, secondRecords, recordsByUid)
    }

    /** The lock is held exactly while a broadcast is out, and no record outlives the last one. */
    ghost predicate Valid()
      reads this`refCount, this`held, this`inFlight
    {
      refCount >= 0 && (held <==> refCount > 0) && (refCount == 0 ==> inFlight == [])
    }

    /** The policies are picked from the day of the month at start-up. */
    constructor (dayOfMonth: int)
      ensures Valid() && keepRecords == (dayOfMonth < 10 || 15 < dayOfMonth < 20)
      ensures refCount == 0 && !held && attributed == None && inFlight == [] && recent == []
      ensures packageStats == map[] && filterStats == map[]
      ensures records == map[] && secondRecords == map[] && recordsByUid == map[]
    {
      keepRecords := dayOfMonth < 10 || (dayOfMonth > 15 && dayOfMonth < 20);
      refCount, held, attributed, inFlight, recent := 0, false, None, [], [];
      packageStats, filterStats := map[], map[];
      records, secondRecords, recordsByUid := map[], map[], map[];
    }

    /**
     * An alarm's broadcast is handed to its operation. When the send fails
     * (`sent` is false: the operation was cancelled, or the send threw)
     * nothing is recorded. Otherwise the first outstanding broadcast takes
     * the wake lock for its operation, and every one is recorded in flight
     * and opens a level in its package's and its target's statistics.
     */
    method Dispatch(op: Operation, target: Target, now: int, wakeup: bool, sent: bool)
      requires Valid()
      modifies this`refCount, this`held, this`attributed, this`inFlight, this`packageStats, this`filterStats
      ensures Valid()
      ensures !sent ==> refCount == old(refCount) && held == old(held) && attributed == old(attributed)
      ensures !sent ==> inFlight == old(inFlight) && packageStats == old(packageStats) && filterStats == old(filterStats)
      ensures sent ==> refCount == old(refCount) + 1 && held
      ensures sent && old(refCount) == 0 ==> attributed == Some(op)
      ensures sent && old(refCount) != 0 ==> attributed == old(attributed)
      ensures sent ==> inFlight == old(inFlight) + [InFlight(op, target)]
      ensures sent ==> packageStats == old(packageStats)[target.package := Opened(StatsOf(old(packageStats), target.package), now, wakeup)]
      ensures sent ==> filterStats == old(filterStats)[target := Opened(StatsOf(old(filterStats), target), now, wakeup)]
    {
      if !sent {
        return;
      }
      if refCount == 0 {
        attributed := Some(op);
        held := true;
      }
      inFlight := inFlight + [InFlight(op, target)];
      refCount := refCount + 1;
      packageStats := packageStats[target.package := Opened(StatsOf(packageStats, target.package), now, wakeup)];
      filterStats := filterStats[target := Opened(StatsOf(filterStats, target), now, wakeup)];
    }

    /**
     * A broadcast for `op` has finished. Its in-flight record, if any, goes
     * and closes a level of its statistics; when its target's statistics
     * leave the outermost level the finished wakeup the resource manager
     * reports (`event`) is logged and the log is pruned to the last half
     * hour. The count drops by one: at zero the wake lock is released and
     * stray records are cleared, otherwise the work moves to the oldest
     * record still in flight.
     */
    method Finish(op: Operation, now: int, nowRtc: int, event: Option<WakeupEvent>) returns (found: bool)
      modifies this`refCount, this`held, this`attributed, this`inFlight, this`packageStats, this`filterStats
      modifies this`records, this`secondRecords, this`recordsByUid, this`recent
      ensures found <==> exists j :: 0 <= j < |old(inFlight)| && old(inFlight)[j].op == op
      ensures refCount == old(refCount) - 1
      ensures held == (old(held) && refCount != 0)
      ensures var rest := if found then Without(old(inFlight), FirstFor(old(inFlight), op)) else old(inFlight);
        inFlight == (if refCount == 0 then [] else rest)
      ensures refCount != 0 ==> attributed == (if |inFlight| > 0 then Some(inFlight[0].op) else None)
      ensures refCount == 0 ==> attributed == old(attributed)
      ensures !found ==> packageStats == old(packageStats) && filterStats == old(filterStats) && recent == old(recent)
      ensures !found ==> Logs() == old(Logs())
      ensures found ==> var t := old(inFlight)[FirstFor(old(inFlight), op)].target;
        packageStats == old(packageStats)[t.package := Closed(StatsOf(old(packageStats), t.package), now)]
        && filterStats == old(filterStats)[t := Closed(StatsOf(old(filterStats), t), now)]
      ensures found ==> var t := old(inFlight)[FirstFor(old(inFlight), op)].target;
        Logs() == if Closed(StatsOf(old(filterStats), t), now).nesting <= 0
                  then Logging(old(Logs()), nowRtc, event, keepRecords) else old(Logs())
      ensures old(Valid()) && old(refCount) > 0 ==> Valid()
    {
      var i := FindInFlight(op);
      if i >= 0 {
        found := true;
        Retire(i, now, nowRtc, event);
      } else {
        found := false;
      }
      Release();
    }

    /** The in-flight record at index i goes and closes a level of its statistics. */
    method Retire(i: int, now: int, nowRtc: int, event: Option<WakeupEvent>)
      requires 0 <= i < |inFlight|
      modifies this`inFlight, this`packageStats, this`filterStats, this`records, this`secondRecords, this`recordsByUid, this`recent
      ensures inFlight == Without(old(inFlight), i)
      ensures var t := old(inFlight)[i].target;
        packageStats == old(packageStats)[t.package := Closed(StatsOf(old(packageStats), t.package), now)]
        && filterStats == old(filterStats)[t := Closed(StatsOf(old(filterStats), t), now)]
      ensures var t := old(inFlight)[i].target;
        Logs() == if Closed(StatsOf(old(filterStats), t), now).nesting <= 0
                  then Logging(old(Logs()), nowRtc, event, keepRecords) else old(Logs())
    {
      var record := inFlight[i];
      inFlight := inFlight[..i] + inFlight[i + 1..];
      var bs := Closed(StatsOf(packageStats, record.target.package), now);
      packageStats := packageStats[record.target.package := bs];
      var fs := Closed(StatsOf(filterStats, record.target), now);
      filterStats := filterStats[record.target := fs];
      if fs.nesting <= 0 {
        Logged(nowRtc, event);
      }
    }

    /**
     * One broadcast fewer is out: at zero the wake lock is released and
     * stray records are cleared, otherwise the work moves to the oldest
     * record still in flight.
     */
    method Release()
      modifies this`refCount, this`held, this`inFlight, this`attributed
      ensures refCount == old(refCount) - 1
      ensures held == (old(held) && refCount != 0)
      ensures inFlight == (if refCount == 0 then [] else old(inFlight))
      ensures refCount != 0 ==> attributed == (if |inFlight| > 0 then Some(inFlight[0].op) else None)
      ensures refCount == 0 ==> attributed == old(attributed)
    {
      refCount := refCount - 1;
      if refCount == 0 {
        held := false;
        if |inFlight| > 0 {
          inFlight := [];
        }
      } else {
        attributed := if |inFlight| > 0 then Some(inFlight[0].op) else None;
      }
    }

    /** The index of the first in-flight record for an operation, or -1. */
    method FindInFlight(op: Operation) returns (i: int)
      ensures i == FirstFor(inFlight, op)
    {
      i := 0;
      while i < |inFlight|
        invariant 0 <= i <= |inFlight|
        invariant forall j :: 0 <= j < i ==> inFlight[j].op != op
      {
        if inFlight[i].op == op {
          return;
        }
        i := i + 1;
      }
      i := -1;
    }

    /**
     * A target's last broadcast finished: when records are kept the
     * reported wakeup becomes the last one for its id (the previous one
     * becoming the second-to-last) and for its uid; the recent log drops
     * entries older than half an hour and takes the new one at its tail.
     */
    method Logged(nowRtc: int, event: Option<WakeupEvent>)
      modifies this`records, this`secondRecords, this`recordsByUid, this`recent
      ensures var kept := old(recent)[StaleCount(old(recent), nowRtc - RECENT_WAKEUP_PERIOD)..];
        recent == kept + (if event.Some? then [event.value] else [])
      ensures event.None? || !keepRecords ==>
        records == old(records) && secondRecords == old(secondRecords) && recordsByUid == old(recordsByUid)
      ensures event.Some? && keepRecords ==> var e := event.value;
        records == old(records)[e.id := e]
        && secondRecords == (if e.id in old(records) then old(secondRecords)[old(records)[e.id].id := old(records)[e.id]] else old(secondRecords))
        && recordsByUid == old(recordsByUid)[e.uid := e]
      ensures Logs() == Logging(old(Logs()), nowRtc, event, keepRecords)
    {
      if keepRecords && event.Some? {
        var e := event.value;
        if e.id in records {
          var e2 := records[e.id];
          secondRecords := secondRecords[e2.id := e2];
        }
        records := records[e.id := e];
        recordsByUid := recordsByUid[e.uid := e];
      }
      var log := PruneRecent(recent, nowRtc - RECENT_WAKEUP_PERIOD);
      recent := log + (if event.Some? then [event.value] else []);
    }
  }

  /** The list with the entry at index i deleted. */
  function Without<T>(s: seq<T>, i: int): (r: seq<T>)
    requires 0 <= i < |s|
    ensures |r| == |s| - 1
    ensures forall j :: 0 <= j < i ==> r[j] == s[j]
    ensures forall j :: i <= j < |r| ==> r[j] == s[j + 1]
  {
    s[..i] + s[i + 1..]
  }

  /**
   * Drop the head entries of the log no later than `earliest`: count them
   * from the head until the first later one, then remove that many.
   */
  method PruneRecent(log: seq<WakeupEvent>, earliest: int) returns (kept: seq<WakeupEvent>)
    ensures kept == log[StaleCount(log, earliest)..]
    ensures forall e :: e in kept ==> e in log
    ensures |kept| > 0 ==> kept[0].when > earliest
  {
    var n := 0;
    while n < |log| && log[n].when <= earliest
      invariant 0 <= n <= |log|
      invariant forall i :: 0 <= i < n ==> log[i].when <= earliest
      invariant StaleCount(log, earliest) == n + StaleCount(log[n..], earliest)
    {
      assert log[n..][1..] == log[n + 1..];
      n := n + 1;
    }
    kept := log;
    var i := 0;
    while i < n
      invariant 0 <= i <= n && kept == log[i..]
    {
      kept := kept[1..];
      i := i + 1;
    }
  }
}
