/** The lock-writing lambda: it stores an ISO 8601 timestamp in
    `<lock_key>.lock`, the watermark the trigger compares against. */
module LockWriter {
  import opened Wrappers
  import opened Timestamps
  import opened Iso
  import opened ObjectStore

  /** The event's optional overrides; a field that is not in the event is None. */
  datatype LockEvent = LockEvent(bucket: Option<string>, lockKey: Option<string>,
                                 timestamp: Option<string>)

  /** The S3_BUCKET and LOCK_KEY environment variables. */
  datatype LockSettings = LockSettings(bucket: Option<string>, lockKey: Option<string>)

  const LockSuffix: string := ".lock"

  /** The event's value when it has one, the environment's otherwise. */
  function Pick(fromEvent: Option<string>, fromEnv: Option<string>): (v: Option<string>)
    ensures v.Some? <==> fromEvent.Some? || fromEnv.Some?
  {
    if fromEvent.Some? then fromEvent else fromEnv
  }

  /** The key the lock is written under: the chosen base name with ".lock"
      appended, also when the event names the key. None when neither the
      event nor the environment names one (`None + '.lock'` raises TypeError). */
  function LockKey(e: LockEvent, env: LockSettings): (k: Option<string>)
    ensures k.Some? <==> e.lockKey.Some? || env.lockKey.Some?
    ensures k.Some? ==> |k.value| >= |LockSuffix| && k.value[|k.value| - |LockSuffix|..] == LockSuffix
    ensures k.Some? ==> k.value[..|k.value| - |LockSuffix|] == Pick(e.lockKey, env.lockKey).value
  {
    var base := Pick(e.lockKey, env.lockKey);
    if base.Some? then Some(base.value + LockSuffix) else None
  }

  /** The timestamp to write: the event's, when it is a non-empty text that
      `fromisoformat` accepts; the current UTC time otherwise, without raising. */
  function ChooseTimestamp(given: Option<string>, now: Timestamp): (t: Timestamp)
    ensures given.Some? && Parse(given.value).Some? ==> t == Parse(given.value).value
    ensures given.None? || Parse(given.value).None? ==> t == now
  {
    if given.Some? && given.value != [] then
      var parsed := Parse(given.value);
      if parsed.Some? then parsed.value else now
    else now
  }

  /** An event timestamp in `isoformat()` form is the one written. */
  lemma FormattedTimestampKept(t: Timestamp, now: Timestamp)
    ensures ChooseTimestamp(Some(Format(t)), now) == t
  {
    FormatParseRoundTrip(t);
  }

  /** `update_lock_file`: puts `timestamp.isoformat()` at the lock key; a
      failing put is logged and leaves the bucket as it was. */
  function UpdateLockFile(s: Store, bucket: Option<string>, lockKey: string,
                          timestamp: Timestamp, serverNow: Timestamp): (s': Store)
    ensures Reachable(s, Target(bucket, Some(lockKey))) ==>
              && ObjectId(bucket.value, lockKey) in s'.objects
              && s'.objects[ObjectId(bucket.value, lockKey)].body == Format(timestamp)
    ensures Reachable(s, Target(bucket, Some(lockKey))) ==>
              s'.objects.Keys == s.objects.Keys + {ObjectId(bucket.value, lockKey)}
    ensures !Reachable(s, Target(bucket, Some(lockKey))) ==> s' == s
    ensures s'.failing == s.failing && s.objects.Keys <= s'.objects.Keys
    ensures forall id :: id in s.objects && Some(id) != Target(bucket, Some(lockKey)) ==>
              s'.objects[id] == s.objects[id]
  {
    var written := Put(s, bucket, lockKey, Format(timestamp), serverNow);
    if written.Some? then written.value else s
  }

  /** The JSON body of the answer, as fields. */
  datatype LockResponse = LockResponse(statusCode: int, lockKey: string, timestamp: string)

  /** The handler either answers (with the bucket after the write) or raises. */
  datatype LockRun = Answered(response: LockResponse, store: Store) | Raised

  /** `lambda_handler` of the lock lambda. `now` is `utcnow()`, `serverNow`
      the S3 service's clock that stamps the written object. */
  function Handler(s: Store, e: LockEvent, env: LockSettings,
                   now: Timestamp, serverNow: Timestamp): (r: LockRun)
    ensures r.Raised? <==> e.lockKey.None? && env.lockKey.None?
    ensures r.Answered? ==> r.response.statusCode == 200
    ensures r.Answered? ==> Some(r.response.lockKey) == LockKey(e, env)
    ensures r.Answered? ==> r.response.timestamp == Format(ChooseTimestamp(e.timestamp, now))
    ensures r.Answered? && Reachable(s, Target(Pick(e.bucket, env.bucket), Some(r.response.lockKey))) ==>
              && ObjectId(Pick(e.bucket, env.bucket).value, r.response.lockKey) in r.store.objects
              && r.store.objects[ObjectId(Pick(e.bucket, env.bucket).value, r.response.lockKey)].body
              == r.response.timestamp
    ensures r.Answered? && !Reachable(s, Target(Pick(e.bucket, env.bucket), Some(r.response.lockKey))) ==>
              r.store == s
  {
    var key := LockKey(e, env);
    if key.None? then Raised
    else
      var bucket := Pick(e.bucket, env.bucket);
      var timestamp := ChooseTimestamp(e.timestamp, now);
      var s' := UpdateLockFile(s, bucket, key.value, timestamp, serverNow);
      Answered(LockResponse(200, key.value, Format(timestamp)), s')
  }

  /** A timestamp the event spells in ISO form is written unchanged, and the
      trigger reads exactly that timestamp back from the lock object. */
  lemma EventTimestampWrittenAndReadBack(s: Store, e: LockEvent, env: LockSettings,
                                         now: Timestamp, serverNow: Timestamp, t: Timestamp)
    requires e.timestamp == Some(Format(t))
    requires e.lockKey.Some? || env.lockKey.Some?
    requires Reachable(s, Target(Pick(e.bucket, env.bucket), LockKey(e, env)))
    ensures Handler(s, e, env, now, serverNow).Answered?
    ensures var r := Handler(s, e, env, now, serverNow);
            Parse(Strip(r.store.objects[ObjectId(Pick(e.bucket, env.bucket).value, r.response.lockKey)].body))
            == Some(t)
  {
    FormatParseRoundTrip(t);
    StoredLockRoundTrip(t);
  }
}
