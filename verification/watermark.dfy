/** The two lambdas together: the trigger run that starts the pipeline for a
    generation, the lock write that records it, and the next trigger run. */
module Watermark {
  import opened Wrappers
  import opened Timestamps
  import opened Iso
  import opened ObjectStore
  import opened Trigger
  import LockWriter

  /** The generation the trigger would start for, when it would start. */
  function Generation(s: Store, bucket: string, c: CryptoConfig): (g: Option<Timestamp>)
    ensures g.Some? ==> FileExists(s, Some(bucket), c.file1) && FileExists(s, Some(bucket), c.file2)
  {
    Decide(Observe(s, Some(bucket), c))
  }

  /** The lock write aims at the object the trigger reads as this crypto's
      lock, in the trigger's bucket, and the input files are other objects. */
  predicate WritesLockOf(e: LockWriter.LockEvent, env: LockWriter.LockSettings,
                         bucket: string, c: CryptoConfig) {
    && LockWriter.Pick(e.bucket, env.bucket) == Some(bucket)
    && c.lockKey.Some? && LockWriter.LockKey(e, env) == c.lockKey
    && c.file1 != c.lockKey && c.file2 != c.lockKey
  }

  /** Writing an object other than the files leaves both file lookups as they were. */
  lemma FilesUnchanged(s: Store, s': Store, bucket: string, c: CryptoConfig, lockKey: string)
    requires s'.failing == s.failing && s.objects.Keys <= s'.objects.Keys
    requires s'.objects.Keys == s.objects.Keys + {ObjectId(bucket, lockKey)}
    requires forall id :: id in s.objects && id != ObjectId(bucket, lockKey) ==> s'.objects[id] == s.objects[id]
    requires c.file1 != Some(lockKey) && c.file2 != Some(lockKey)
    ensures Head(s', Some(bucket), c.file1) == Head(s, Some(bucket), c.file1)
    ensures Head(s', Some(bucket), c.file2) == Head(s, Some(bucket), c.file2)
  {
  }

  /** After a run that starts the pipeline for generation G, a lock write of
      a timestamp at or after G makes the next run, over unchanged files,
      start nothing. */
  lemma LockWriteSuppressesRerun(s: Store, bucket: string, c: CryptoConfig,
                                 e: LockWriter.LockEvent, env: LockWriter.LockSettings,
                                 now: Timestamp, serverNow: Timestamp)
    requires Generation(s, bucket, c).Some?
    requires WritesLockOf(e, env, bucket, c)
    requires ObjectId(bucket, c.lockKey.value) !in s.failing
    requires NotAfter(Generation(s, bucket, c).value, LockWriter.ChooseTimestamp(e.timestamp, now))
    ensures LockWriter.Handler(s, e, env, now, serverNow).Answered?
    ensures ProcessCrypto(LockWriter.Handler(s, e, env, now, serverNow).store, Some(bucket), c)
            == Outcome(None, [])
  {
    var t := LockWriter.ChooseTimestamp(e.timestamp, now);
    var lockKey := c.lockKey.value;
    var s' := LockWriter.Handler(s, e, env, now, serverNow).store;
    var put := Put(s, Some(bucket), lockKey, Format(t), serverNow);
    assert put.Some?;
    assert s' == put.value;
    FilesUnchanged(s, s', bucket, c, lockKey);
    assert Get(s', Some(bucket), c.lockKey) == Body(Format(t));
    StoredLockRoundTrip(t);
    var o := Observe(s, Some(bucket), c);
    var o' := Observe(s', Some(bucket), c);
    assert o' == o.(lock := Some(t));
    LockDecides(o');
  }

  /** A lock write that fails (the put raises) leaves the bucket as it was,
      so the next run starts the same generation again. */
  lemma FailedLockWriteRetriggers(s: Store, bucket: string, c: CryptoConfig,
                                  e: LockWriter.LockEvent, env: LockWriter.LockSettings,
                                  now: Timestamp, serverNow: Timestamp)
    requires Generation(s, bucket, c).Some?
    requires WritesLockOf(e, env, bucket, c)
    requires ObjectId(bucket, c.lockKey.value) in s.failing
    ensures LockWriter.Handler(s, e, env, now, serverNow).Answered?
    ensures Generation(LockWriter.Handler(s, e, env, now, serverNow).store, bucket, c)
            == Generation(s, bucket, c)
    ensures ProcessCrypto(LockWriter.Handler(s, e, env, now, serverNow).store, Some(bucket), c).started
            == [c.stateMachineArn]
  {
  }

  /** Uploading one file again with a LastModified strictly after the lock
      (after the suppressing lock write, say), or with no usable lock, starts
      the pipeline again, for the new generation. */
  lemma NewerFileRetriggers(s: Store, bucket: string, c: CryptoConfig, body: string, uploaded: Timestamp)
    requires c.file1.Some? && c.file1 != c.lockKey && c.file1 != c.file2
    requires var lock := Observe(s, Some(bucket), c).lock; lock.None? || Before(lock.value, uploaded)
    requires FileExists(s, Some(bucket), c.file2)
    requires ObjectId(bucket, c.file1.value) !in s.failing
    ensures var s' := Put(s, Some(bucket), c.file1.value, body, uploaded).value;
            Generation(s', bucket, c)
            == Some(Later(uploaded, LastModified(s, Some(bucket), c.file2).value))
  {
    var s' := Put(s, Some(bucket), c.file1.value, body, uploaded).value;
    PutLeavesOthers(s, bucket, c.file1.value, body, uploaded, Some(bucket), c.file2);
    PutLeavesOthers(s, bucket, c.file1.value, body, uploaded, Some(bucket), c.lockKey);
    var o := Observe(s, Some(bucket), c);
    var o' := Observe(s', Some(bucket), c);
    assert o' == o.(exists1 := true, modified1 := Some(uploaded));
    if o.lock.Some? {
      BeforeLater(o.lock.value, uploaded, o.modified2.value);
    }
    DecideStarts(o');
  }

  /** The order of the two files in the configuration does not matter. */
  lemma GenerationSymmetric(s: Store, bucket: string, c: CryptoConfig)
    ensures Generation(s, bucket, c.(file1 := c.file2, file2 := c.file1)) == Generation(s, bucket, c)
  {
    var o := Observe(s, Some(bucket), c);
    if Complete(o) {
      BeforeTotal(o.modified1.value, o.modified2.value);
    }
  }
}
