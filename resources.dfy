/**
 * Resource-usage bookkeeping of the multi-resource manager service:
 * when each (uid, hardware) pair was last granted, the recently focused
 * apps, bounded event histories and the screen-on time accumulator.
 * Wall-clock readings are passed in as `now`.
 */
module Resources {
  import opened Similarity

  const SCREEN_ON_DEFAULT: int := -1
  const SCREEN_ON_USER: int := 0
  const SCREEN_ON_WAKELOCK: int := 1
  const SCREEN_ON_WINDOW_MANAGER: int := 2

  /** Length of the most-recently-focused list. */
  const RECENT_LENGTH: nat := 5
  /** Cap on every event history. */
  const HISTORY_LENGTH: nat := 500
  /** Tolerance, in milliseconds, of the grant-time check. */
  const GRANT_ERROR: int := 10000
  /** The first uid given to an application; lower uids are system ones. */
  const FIRST_APPLICATION_UID: int := 10000

  /** The key "uid hardware" of the grant-time map. */
  datatype GrantKey = GrantKey(uid: int, hardware: int)

  datatype NotificationEvent = NotificationEvent(uid: int, time: int, hardware: int)
  datatype FocusEvent = FocusEvent(uid: int, time: int)
  datatype ScreenEvent = ScreenEvent(reason: int, startTime: int, endTime: int)

  /** The newest `HISTORY_LENGTH` entries of a history. */
  function Newest<T>(s: seq<T>): (r: seq<T>)
    ensures |r| <= HISTORY_LENGTH
    ensures |s| <= HISTORY_LENGTH ==> r == s
    ensures |s| > HISTORY_LENGTH ==> |r| == HISTORY_LENGTH
  {
    if |s| <= HISTORY_LENGTH then s else s[|s| - HISTORY_LENGTH..]
  }

  /** The history trimming loop: drop the oldest entry while over the cap. */
  method TrimOldest<T>(s: seq<T>) returns (r: seq<T>)
    ensures r == Newest(s)
  {
    r := s;
    while |r| > HISTORY_LENGTH
      invariant |s| > HISTORY_LENGTH ==> |r| >= HISTORY_LENGTH
      invariant |s| <= HISTORY_LENGTH ==> r == s
      invariant r == s[|s| - |r|..]
      decreases |r|
    {
      r := r[1..];
    }
  }

  /** What survives the trimming is a suffix of the history: the newest entries, in order. */
  lemma NewestSuffix<T>(s: seq<T>)
    ensures Newest(s) == s[|s| - |Newest(s)|..]
  {
  }

  /** The entry just appended survives the trimming, as the newest one. */
  lemma NewestLast<T>(s: seq<T>, x: T)
    ensures var r := Newest(s + [x]); |r| > 0 && r[|r| - 1] == x
  {
  }

  predicate NoDuplicates(s: seq<int>)
  {
    forall i, j :: 0 <= i < j < |s| ==> s[i] != s[j]
  }

  /** `s` without the occurrence of `x` at index `i`. */
  function RemoveAt(s: seq<int>, i: nat): seq<int>
    requires i < |s|
  {
    s[..i] + s[i + 1..]
  }

  /** Index of the first occurrence of `x` in `s`, or -1. */
  method IndexOf(s: seq<int>, x: int) returns (k: int)
    ensures -1 <= k < |s|
    ensures k == -1 <==> x !in s
    ensures k >= 0 ==> s[k] == x && x !in s[..k]
  {
    k := 0;
    while k < |s|
      invariant 0 <= k <= |s|
      invariant x !in s[..k]
    {
      if s[k] == x {
        return;
      }
      k := k + 1;
    }
    assert s[..k] == s;
    k := -1;
  }

  /** The first `RECENT_LENGTH` entries of `s`. */
  function Recent(s: seq<int>): (r: seq<int>)
    ensures |r| == if |s| <= RECENT_LENGTH then |s| else RECENT_LENGTH
    ensures r == s[..|r|]
  {
    if |s| <= RECENT_LENGTH then s else s[..RECENT_LENGTH]
  }

  /** `s` with every occurrence of `x` dropped, order kept. */
  function Without(s: seq<int>, x: int): (r: seq<int>)
    ensures |r| <= |s|
  {
    if s == [] then []
    else (if s[0] == x then [] else [s[0]]) + Without(s[1..], x)
  }

  lemma {:induction false} WithoutMembers(s: seq<int>, x: int)
    ensures forall y :: y in Without(s, x) <==> y in s && y != x
    ensures NoDuplicates(s) ==> NoDuplicates(Without(s, x))
  {
    if s != [] {
      WithoutMembers(s[1..], x);
      if NoDuplicates(s) {
        assert NoDuplicates(s[1..]);
        assert s[0] !in s[1..];
        var r := Without(s, x);
        var tail := Without(s[1..], x);
        if s[0] != x {
          assert r == [s[0]] + tail;
          forall i, j | 0 <= i < j < |r|
            ensures r[i] != r[j]
          {
            if i == 0 {
              assert r[j] == tail[j - 1];
              assert tail[j - 1] in tail;
            } else {
              assert r[i] == tail[i - 1] && r[j] == tail[j - 1];
            }
          }
        }
      }
    }
  }

  /** Removing the only occurrence of `x`, found at `k`, is dropping `x`. */
  lemma {:induction false} RemoveAtIsWithout(s: seq<int>, k: nat, x: int)
    requires NoDuplicates(s) && k < |s| && s[k] == x
    ensures RemoveAt(s, k) == Without(s, x)
  {
    if k == 0 {
      assert s[0] !in s[1..] by {
        forall j | 1 <= j < |s| ensures s[j] != s[0] { }
      }
      WithoutAbsent(s[1..], x);
    } else {
      assert NoDuplicates(s[1..]);
      RemoveAtIsWithout(s[1..], k - 1, x);
      assert s[0] != x;
      assert RemoveAt(s, k) == [s[0]] + RemoveAt(s[1..], k - 1);
    }
  }

  lemma RemoveAtLength(s: seq<int>, x: int)
    requires NoDuplicates(s) && x in s
    ensures |Without(s, x)| == |s| - 1
  {
    var k :| 0 <= k < |s| && s[k] == x;
    RemoveAtIsWithout(s, k, x);
  }

  lemma {:induction false} WithoutAbsent(s: seq<int>, x: int)
    requires x !in s
    ensures Without(s, x) == s
  {
    if s != [] {
      WithoutAbsent(s[1..], x);
    }
  }

  /**
   * Promoting `uid` to the front of a list of distinct uids keeps the
   * entries distinct and within the recent-list length.
   */
  lemma PromoteKeepsDistinct(was: seq<int>, uid: int)
    requires NoDuplicates(was)
    ensures NoDuplicates(Recent([uid] + Without(was, uid)))
    ensures forall y :: y in Recent([uid] + Without(was, uid)) ==> y == uid || y in was
  {
    WithoutMembers(was, uid);
    var full := [uid] + Without(was, uid);
    var r := Recent(full);
    forall i, j | 0 <= i < j < |r| ensures r[i] != r[j] {
      assert r[i] == full[i] && r[j] == full[j];
      if i == 0 {
        assert full[j] in Without(was, uid);
      } else {
        assert full[i] == Without(was, uid)[i - 1] && full[j] == Without(was, uid)[j - 1];
      }
    }
    forall y | y in r ensures y == uid || y in was {
      var i :| 0 <= i < |r| && r[i] == y;
      assert full[i] == y;
      if i > 0 {
        assert Without(was, uid)[i - 1] in Without(was, uid);
      }
    }
  }

  /** The usage map after crediting the focused app of `fe` up to `time`. */
  function Credit(usage: map<int, int>, screenOn: bool, screenOnTime: int, time: int, fe: FocusEvent): map<int, int>
  {
    if !screenOn then usage
    else
      var before := if fe.uid in usage then usage[fe.uid] else 0;
      var since := if fe.time > screenOnTime then fe.time else screenOnTime;
      usage[fe.uid := before + (time - since)]
  }

  /**
   * Crediting changes nothing while the screen is off; otherwise it adds
   * to the focused app's usage the time from the later of its focus and
   * the screen turning on, and leaves every other app's usage alone.
   */
  lemma CreditEffect(usage: map<int, int>, screenOn: bool, screenOnTime: int, time: int, fe: FocusEvent)
    ensures var r := Credit(usage, screenOn, screenOnTime, time, fe);
      && (!screenOn ==> r == usage)
      && (screenOn ==> fe.uid in r)
      && (screenOn ==> r[fe.uid] - (if fe.uid in usage then usage[fe.uid] else 0)
                       == time - (if fe.time > screenOnTime then fe.time else screenOnTime))
      && (forall u :: u != fe.uid ==> (u in r <==> u in usage))
      && (forall u :: u != fe.uid && u in r ==> r[u] == usage[u])
  {
  }

  class ResourceService {
    var lastGrantTime: map<GrantKey, int>
    var notificationEvents: seq<NotificationEvent>
    var lastNotificationUid: int
    var screenEvents: seq<ScreenEvent>
    var screenOnReason: int
    var screenOnTime: int
    var isScreenOn: bool
    var focusUids: seq<int>
    var focusEvents: seq<FocusEvent>
    var lastFocusTime: map<int, int>
    var accumulatedScreenOnTime: int
    var appUsage: map<int, int>

    /**
     * Histories stay within their caps; the recent-focus list holds at
     * most five distinct application uids, each with a recorded focus time.
     */
    ghost predicate Valid()
      reads this`notificationEvents, this`screenEvents, this`focusEvents, this`focusUids, this`lastFocusTime
    {
      && |notificationEvents| <= HISTORY_LENGTH
      && |screenEvents| <= HISTORY_LENGTH
      && |focusEvents| <= HISTORY_LENGTH
      && FocusOk()
    }

    /** The recent-focus list: at most five distinct application uids, each with a focus time. */
    ghost predicate FocusOk()
      reads this`focusUids, this`lastFocusTime
    {
      && |focusUids| <= RECENT_LENGTH
      && NoDuplicates(focusUids)
      && (forall i :: 0 <= i < |focusUids| ==> focusUids[i] >= FIRST_APPLICATION_UID && focusUids[i] in lastFocusTime)
    }

    constructor ()
      ensures Valid()
      ensures lastGrantTime == map[] && lastFocusTime == map[] && appUsage == map[]
      ensures notificationEvents == [] && screenEvents == [] && focusUids == [] && focusEvents == []
      ensures screenOnReason == SCREEN_ON_DEFAULT && screenOnTime == -1 && !isScreenOn
      ensures accumulatedScreenOnTime == 0 && lastNotificationUid == 0
    {
      lastGrantTime := map[];
      notificationEvents := [];
      lastNotificationUid := 0;
      screenEvents := [];
      screenOnReason := SCREEN_ON_DEFAULT;
      screenOnTime := -1;
      isScreenOn := false;
      focusUids := [];
      focusEvents := [];
      lastFocusTime := map[];
      accumulatedScreenOnTime := 0;
      appUsage := map[];
    }

    /** The last time `hardware` was granted to `uid`, or 0 if it never was. */
    function GetLastGrantTime(uid: int, hardware: int): (t: int)
      reads this`lastGrantTime
      ensures GrantKey(uid, hardware) !in lastGrantTime ==> t == 0
      ensures GrantKey(uid, hardware) in lastGrantTime ==> t == lastGrantTime[GrantKey(uid, hardware)]
    {
      if GrantKey(uid, hardware) in lastGrantTime then lastGrantTime[GrantKey(uid, hardware)] else 0
    }

    /**
     * Whether `hardware` was granted to `uid` during [startRtc, stopRtc],
     * allowing ten seconds of slack on each side.
     */
    function GetIsGrant(uid: int, startRtc: int, stopRtc: int, hardware: int): (r: bool)
      reads this`lastGrantTime
      ensures r ==> GrantKey(uid, hardware) in lastGrantTime
      ensures r <==> GetLastGrantTime(uid, hardware) > 0
                     && startRtc - GRANT_ERROR <= GetLastGrantTime(uid, hardware) <= stopRtc + GRANT_ERROR
    {
      var time := GetLastGrantTime(uid, hardware);
      time > 0 && time >= startRtc - GRANT_ERROR && time <= stopRtc + GRANT_ERROR
    }

    /** Record a notification event, keeping only the newest entries. */
    method AddNotificationEvent(uid: int, hardware: int, now: int)
      requires Valid()
      modifies this`notificationEvents
      ensures Valid()
      ensures notificationEvents == Newest(old(notificationEvents) + [NotificationEvent(uid, now, hardware)])
    {
      var events := TrimOldest(notificationEvents + [NotificationEvent(uid, now, hardware)]);
      notificationEvents := events;
    }

    /**
     * Grant `hardware` to `uid` at wall time `now`. A slot index outside
     * the hardware table fails (the log line indexes the table by it)
     * before anything is recorded.
     */
    method Grant(uid: int, hardware: int, now: int) returns (ok: bool)
      requires Valid()
      modifies this`lastGrantTime, this`notificationEvents
      ensures Valid()
      ensures ok <==> 0 <= hardware < NUM_HARDWARE
      ensures !ok ==> lastGrantTime == old(lastGrantTime) && notificationEvents == old(notificationEvents)
      ensures ok ==> lastGrantTime == old(lastGrantTime)[GrantKey(uid, hardware) := now]
      ensures ok ==> GetLastGrantTime(uid, hardware) == now
      ensures ok && now > 0 ==> forall s, e :: GetIsGrant(uid, s, e, hardware) <==> s - GRANT_ERROR <= now <= e + GRANT_ERROR
      ensures hardware == HARDWARE_VIBRATION || hardware == HARDWARE_SOUND ==>
        notificationEvents == Newest(old(notificationEvents) + [NotificationEvent(uid, now, hardware)])
      ensures hardware != HARDWARE_VIBRATION && hardware != HARDWARE_SOUND ==>
        notificationEvents == old(notificationEvents)
    {
      if !(0 <= hardware < NUM_HARDWARE) {
        return false;
      }
      ok := true;
      lastGrantTime := lastGrantTime[GrantKey(uid, hardware) := now];
      if hardware == HARDWARE_VIBRATION || hardware == HARDWARE_SOUND {
        AddNotificationEvent(uid, hardware, now);
      }
    }
  
    /** The notification service asks whether to serve a notification; it always may. */
    method IsServeNotification(uid: int, now: int) returns (serve: bool)
      requires Valid()
      modifies this`lastNotificationUid, this`notificationEvents
      ensures Valid() && serve
      ensures lastNotificationUid == uid
      ensures notificationEvents == Newest(old(notificationEvents) + [NotificationEvent(uid, now, HARDWARE_DEFAULT)])
    {
      lastNotificationUid := uid;
      AddNotificationEvent(lastNotificationUid, HARDWARE_DEFAULT, now);
      serve := true;
    }

    /** The window manager turns the screen on; it always may, and the reason is noted. */
    method IsServeScreen(uid: int) returns (serve: bool)
      modifies this`screenOnReason
      ensures serve && screenOnReason == SCREEN_ON_WINDOW_MANAGER
    {
      screenOnReason := SCREEN_ON_WINDOW_MANAGER;
      serve := true;
    }

    /** A wake lock turns the screen on; it always may, and the reason is noted. */
    method IsServeWakeLock(uid: int) returns (serve: bool)
      modifies this`screenOnReason
      ensures serve && screenOnReason == SCREEN_ON_WAKELOCK
    {
      screenOnReason := SCREEN_ON_WAKELOCK;
      serve := true;
    }

    /** The last focus time of `uid`, or -1 if it never had the focus. */
    function GetLastFocusTime(uid: int): (t: int)
      reads this`lastFocusTime
      ensures uid !in lastFocusTime ==> t == -1
      ensures uid in lastFocusTime ==> t == lastFocusTime[uid]
    {
      if uid in lastFocusTime then lastFocusTime[uid] else -1
    }

    /**
     * Move an application uid to the front of the recent-focus list,
     * dropping its older entry and the oldest uid beyond five.
     */
    method AddFocusUid(uid: int, now: int)
      requires Valid()
      modifies this`focusUids, this`lastFocusTime
      ensures Valid()
      ensures uid < FIRST_APPLICATION_UID ==> focusUids == old(focusUids) && lastFocusTime == old(lastFocusTime)
      ensures uid >= FIRST_APPLICATION_UID ==>
        && focusUids == Recent([uid] + Without(old(focusUids), uid))
        && |focusUids| > 0 && focusUids[0] == uid
        && (uid in old(focusUids) ==> |focusUids| == |old(focusUids)|)
        && lastFocusTime == old(lastFocusTime)[uid := now]
        && GetLastFocusTime(uid) == now
    {
      if uid < FIRST_APPLICATION_UID {
        return;
      }
      ghost var was := focusUids;
      var list := Promoted(focusUids, uid);
      PromoteKeepsDistinct(was, uid);
      if uid in was {
        RemoveAtLength(was, uid);
      }
      var times := lastFocusTime[uid := now];
      forall i | 0 <= i < |list|
        ensures list[i] >= FIRST_APPLICATION_UID && list[i] in times
      {
        assert list[i] in list;
      }
      focusUids := list;
      lastFocusTime := times;
    }

    /** The recent-focus list with `uid` moved to its front and trimmed to five. */
    static method Promoted(was: seq<int>, uid: int) returns (list: seq<int>)
      requires NoDuplicates(was) && |was| <= RECENT_LENGTH
      ensures list == Recent([uid] + Without(was, uid))
    {
      list := was;
      var k := IndexOf(list, uid);
      if k >= 0 {
        RemoveAtIsWithout(list, k, uid);
        list := RemoveAt(list, k);
      } else {
        WithoutAbsent(list, uid);
      }
      list := [uid] + list;
      if |list| > RECENT_LENGTH {
        list := list[..|list| - 1];
      }
    }

    /** Append an application focus event, keeping only the newest entries. */
    method AddFocusEvent(uid: int, now: int)
      requires Valid()
      modifies this`focusEvents
      ensures Valid()
      ensures uid < FIRST_APPLICATION_UID ==> focusEvents == old(focusEvents)
      ensures uid >= FIRST_APPLICATION_UID ==> focusEvents == Newest(old(focusEvents) + [FocusEvent(uid, now)])
    {
      if uid < FIRST_APPLICATION_UID {
        return;
      }
      var events := TrimOldest(focusEvents + [FocusEvent(uid, now)]);
      focusEvents := events;
    }

    /**
     * While the screen is on, credit the app of `fe` with the time from
     * the later of its focus and the screen turning on, up to `time`.
     */
    method AddUsageTime(time: int, fe: FocusEvent)
      modifies this`appUsage
      ensures appUsage == Credit(old(appUsage), isScreenOn, screenOnTime, time, fe)
    {
      if !isScreenOn {
        return;
      }
      var usageTime := if fe.uid in appUsage then appUsage[fe.uid] else 0;
      usageTime := usageTime + time - (if fe.time > screenOnTime then fe.time else screenOnTime);
      appUsage := appUsage[fe.uid := usageTime];
    }

    /**
     * The focused window changed to one owned by `uid`: record it, then
     * credit the previously focused app. The previous focus event is the
     * second-to-last one, so at least two must be on record afterwards.
     */
    method FocusChanged(uid: int, now: int)
      requires Valid()
      requires |focusEvents| + (if uid >= FIRST_APPLICATION_UID then 1 else 0) >= 2
      modifies this`focusUids, this`lastFocusTime, this`focusEvents, this`appUsage
      ensures Valid()
      ensures focusEvents == if uid >= FIRST_APPLICATION_UID then Newest(old(focusEvents) + [FocusEvent(uid, now)]) else old(focusEvents)
      ensures |focusEvents| >= 2
      ensures appUsage == Credit(old(appUsage), isScreenOn, screenOnTime, now, focusEvents[|focusEvents| - 2])
      ensures uid >= FIRST_APPLICATION_UID ==> |focusUids| > 0 && focusUids[0] == uid && GetLastFocusTime(uid) == now
      ensures uid < FIRST_APPLICATION_UID ==> focusUids == old(focusUids) && lastFocusTime == old(lastFocusTime)
    {
      AddFocusUid(uid, now);
      AddFocusEvent(uid, now);
      AddUsageTime(now, focusEvents[|focusEvents| - 2]);
    }

    /**
     * The screen turned off at `t`: close the current on-period as a
     * screen event, add its length to the accumulated on-time, credit the
     * focused app, and reset the on-reason.
     */
    method ScreenOff(t: int)
      requires Valid()
      modifies this`screenEvents, this`accumulatedScreenOnTime, this`appUsage, this`screenOnReason, this`isScreenOn
      ensures Valid()
      ensures screenEvents == Newest(old(screenEvents) + [ScreenEvent(old(screenOnReason), screenOnTime, t)])
      ensures accumulatedScreenOnTime == old(accumulatedScreenOnTime) + (t - screenOnTime)
      ensures |focusEvents| > 0 ==> appUsage == Credit(old(appUsage), old(isScreenOn), screenOnTime, t, focusEvents[|focusEvents| - 1])
      ensures |focusEvents| == 0 ==> appUsage == old(appUsage)
      ensures screenOnReason == SCREEN_ON_DEFAULT && !isScreenOn
    {
      var s := ScreenEvent(screenOnReason, screenOnTime, t);
      accumulatedScreenOnTime := accumulatedScreenOnTime + (t - screenOnTime);
      if |focusEvents| > 0 {
        AddUsageTime(t, focusEvents[|focusEvents| - 1]);
      }
      var events := TrimOldest(screenEvents + [s]);
      screenEvents := events;
      screenOnReason := SCREEN_ON_DEFAULT;
      isScreenOn := false;
    }

    /** The screen turned on at `t`. */
    method ScreenOn(t: int)
      modifies this`screenOnTime, this`isScreenOn
      ensures screenOnTime == t && isScreenOn
    {
      screenOnTime := t;
      isScreenOn := true;
    }
  }
}
