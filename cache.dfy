/** The cache service of server/src/services/redis.js: two key namespaces under one prefix, and
    get, set-with-expiry and delete on a Redis key space. Time is in milliseconds, as elsewhere;
    Redis counts the expiry in seconds. A value is kept as the JSON value whose text `JSON.stringify`
    writes and `JSON.parse` reads back. */
module Cache {
  import opened Wrappers
  import opened Json
  import opened Dates

  const CachePrefix := "weekly-schedule:"

  /** Seconds a written entry lives. */
  const DefaultExpiry := 3600

  /** `${CACHE_PREFIX}tasks:${startDate}:${endDate}` */
  function TasksKey(startDate: string, endDate: string): (k: string)
    ensures StartsWith(k, CachePrefix + "tasks:")
    ensures |k| == 23 + |startDate| + |endDate|
  {
    CachePrefix + "tasks:" + startDate + ":" + endDate
  }

  /** `${CACHE_PREFIX}task:${taskId}` */
  function TaskKey(taskId: string): (k: string)
    ensures StartsWith(k, CachePrefix + "task:")
    ensures |k| == 21 + |taskId|
  {
    CachePrefix + "task:" + taskId
  }

  /** A stored value and the last instant at which Redis still returns it: a key expires only once
      the clock is past its deadline. */
  datatype Entry = Entry(value: Json, expiresAt: Timestamp)

  /** `GET key` at `now`: the value of a live entry, or None (`null`) for an absent or expired key. */
  function Lookup(entries: map<string, Entry>, key: string, now: Timestamp): Option<Json> {
    if key in entries && now <= entries[key].expiresAt then Some(entries[key].value) else None
  }

  /** `SETEX key DEFAULT_EXPIRY value` at `now`. */
  function Put(entries: map<string, Entry>, key: string, value: Json, now: Timestamp): map<string, Entry> {
    entries[key := Entry(value, now + DefaultExpiry * 1000)]
  }

  /** A list key and a single-task key never coincide: at index 20 the list key has the 's' of
      "tasks:" and the task key the ':' of "task:". */
  lemma KeyNamespacesDisjoint(startDate: string, endDate: string, taskId: string)
    ensures TasksKey(startDate, endDate) != TaskKey(taskId)
  {
    var a := TasksKey(startDate, endDate);
    var b := TaskKey(taskId);
    assert (CachePrefix + "tasks:")[20] == 's';
    assert (CachePrefix + "task:")[20] == ':';
    assert a[..21] == (CachePrefix + "tasks:")[..21];
    assert b[..21] == CachePrefix + "task:";
    assert a[20] != b[20];
  }

  /** A list key names its range exactly when neither bound contains ':'. */
  lemma {:induction false} TasksKeyInjective(s1: string, e1: string, s2: string, e2: string)
    requires ':' !in s1 && ':' !in s2
    requires TasksKey(s1, e1) == TasksKey(s2, e2)
    ensures s1 == s2 && e1 == e2
  {
    var x := s1 + ":" + e1;
    var y := s2 + ":" + e2;
    assert TasksKey(s1, e1) == CachePrefix + "tasks:" + x;
    assert TasksKey(s2, e2) == CachePrefix + "tasks:" + y;
    assert x == TasksKey(s1, e1)[22..] == y;
    assert |s1| == |s2| by {
      FirstColon(s1, e1);
      FirstColon(s2, e2);
    }
    assert s1 == x[..|s1|] && s2 == y[..|s2|];
    assert e1 == x[|s1| + 1..] && e2 == y[|s2| + 1..];
  }

  /** In `s + ":" + e` with no ':' in `s`, the first ':' is at index |s|. */
  lemma FirstColon(s: string, e: string)
    requires ':' !in s
    ensures (s + ":" + e)[|s|] == ':'
    ensures forall i :: 0 <= i < |s| ==> (s + ":" + e)[i] != ':'
  {
  }

  /** A ':' in a bound makes two ranges share a key. */
  lemma TasksKeyCollision()
    ensures TasksKey("a:b", "c") == TasksKey("a", "b:c")
  {
  }

  /** The board asks for `YYYY-MM-DD` bounds, which hold no ':', so distinct ranges never share a
      key. */
  lemma DayRangeKeysDistinct(s1: string, e1: string, s2: string, e2: string)
    requires IsDateFormat(s1) && IsDateFormat(s2)
    requires (s1, e1) != (s2, e2)
    ensures TasksKey(s1, e1) != TasksKey(s2, e2)
  {
    if TasksKey(s1, e1) == TasksKey(s2, e2) {
      assert ':' !in s1 by { NoColonInDay(s1); }
      assert ':' !in s2 by { NoColonInDay(s2); }
      TasksKeyInjective(s1, e1, s2, e2);
    }
  }

  lemma NoColonInDay(s: string)
    requires IsDateFormat(s)
    ensures ':' !in s
  {
    forall i | 0 <= i < |s| ensures s[i] != ':' {
      assert i == 4 || i == 7 || IsAsciiDigit(s[i]);
    }
  }

  /** A get after a set of the same key returns the value set, for as long as the entry lives, and
      nothing once the hour has passed. */
  lemma GetAfterSet(entries: map<string, Entry>, key: string, value: Json, now: Timestamp, t: Timestamp)
    requires now <= t
    ensures t <= now + 3_600_000 ==> Lookup(Put(entries, key, value, now), key, t) == Some(value)
    ensures t > now + 3_600_000 ==> Lookup(Put(entries, key, value, now), key, t) == None
  {
  }

  /** A set or a delete touches its own key and no other. */
  lemma OtherKeysUntouched(entries: map<string, Entry>, key: string, other: string, value: Json,
                           now: Timestamp, t: Timestamp)
    requires other != key
    ensures Lookup(Put(entries, key, value, now), other, t) == Lookup(entries, other, t)
    ensures Lookup(entries - {key}, other, t) == Lookup(entries, other, t)
    ensures Lookup(entries - {key}, key, t) == None
  {
  }

  /** The Redis key space the client connects to. */
  class RedisClient {
    var entries: map<string, Entry>

    constructor()
      ensures entries == map[]
    {
      entries := map[];
    }

    /** `client.get(key)` */
    method Get(key: string, now: Timestamp) returns (v: Option<Json>)
      ensures v == Lookup(entries, key, now)
    {
      if key in entries && now <= entries[key].expiresAt {
        v := Some(entries[key].value);
      } else {
        v := None;
      }
    }

    /** `client.setEx(key, seconds, value)` */
    method SetEx(key: string, seconds: int, value: Json, now: Timestamp)
      modifies this
      ensures entries == old(entries)[key := Entry(value, now + seconds * 1000)]
    {
      entries := entries[key := Entry(value, now + seconds * 1000)];
    }

    /** `client.del(key)` */
    method Del(key: string)
      modifies this
      ensures entries == old(entries) - {key}
    {
      entries := entries - {key};
    }
  }

  /** `getTasksCache` (redis.js:23-27): the live list entry for the range, or None. */
  method GetTasksCache(client: RedisClient, startDate: string, endDate: string, now: Timestamp)
    returns (cached: Option<Json>)
    ensures cached == Lookup(client.entries, TasksKey(startDate, endDate), now)
  {
    cached := client.Get(TasksKey(startDate, endDate), now);
  }

  /** `setTasksCache` (redis.js:30-33): the list entry for the range is written for an hour. */
  method SetTasksCache(client: RedisClient, startDate: string, endDate: string, tasks: Json, now: Timestamp)
    modifies client
    ensures client.entries == Put(old(client.entries), TasksKey(startDate, endDate), tasks, now)
  {
    client.SetEx(TasksKey(startDate, endDate), DefaultExpiry, tasks, now);
  }

  /** `invalidateTasksCache` (redis.js:36-39): the list entry for the range, and only it, is gone. */
  method InvalidateTasksCache(client: RedisClient, startDate: string, endDate: string)
    modifies client
    ensures client.entries == old(client.entries) - {TasksKey(startDate, endDate)}
  {
    client.Del(TasksKey(startDate, endDate));
  }

  /** `getTaskCache` (redis.js:42-46): the live entry for the task, or None. */
  method GetTaskCache(client: RedisClient, taskId: string, now: Timestamp) returns (cached: Option<Json>)
    ensures cached == Lookup(client.entries, TaskKey(taskId), now)
  {
    cached := client.Get(TaskKey(taskId), now);
  }

  /** `setTaskCache` (redis.js:49-52): the entry for the task is written for an hour. */
  method SetTaskCache(client: RedisClient, taskId: string, task: Json, now: Timestamp)
    modifies client
    ensures client.entries == Put(old(client.entries), TaskKey(taskId), task, now)
  {
    client.SetEx(TaskKey(taskId), DefaultExpiry, task, now);
  }

  /** `invalidateTaskCache` (redis.js:55-58): the entry for the task, and only it, is gone. */
  method InvalidateTaskCache(client: RedisClient, taskId: string)
    modifies client
    ensures client.entries == old(client.entries) - {TaskKey(taskId)}
  {
    client.Del(TaskKey(taskId));
  }

  /** Caching a task leaves every cached list as it was, and the task reads back while it lives. */
  method CachesAreIndependent(client: RedisClient, startDate: string, endDate: string, taskId: string,
                              task: Json, now: Timestamp, t: Timestamp)
    modifies client
    ensures Lookup(client.entries, TasksKey(startDate, endDate), t) ==
            Lookup(old(client.entries), TasksKey(startDate, endDate), t)
    ensures now <= t <= now + 3_600_000 ==> Lookup(client.entries, TaskKey(taskId), t) == Some(task)
  {
    SetTaskCache(client, taskId, task, now);
    KeyNamespacesDisjoint(startDate, endDate, taskId);
  }
}
