/** Worked runs of the two lambdas over one crypto whose files are `a.csv`
    and `b.csv`: a first run, the lock write, a rerun, an upload, and a run
    with a file missing. The dates are symbolic: `older` before `newer`
    before `latest`. */
module Scenarios {
  import opened Wrappers
  import opened Timestamps
  import opened Iso
  import opened ObjectStore
  import opened Trigger
  import opened Watermark
  import LockWriter
  import UnguardedTrigger

  const Bucket: string := "data"
  const LockBase: string := "alpha"
  const Alpha: CryptoConfig :=
    CryptoConfig(Some("a.csv"), Some("b.csv"), "arn:alpha", Some(LockBase + LockWriter.LockSuffix))
  const LockEnv: LockWriter.LockSettings := LockWriter.LockSettings(Some(Bucket), None)

  /** The unguarded trigger watching the same two files (and nothing for MONERO). */
  const AlphaUnguarded: UnguardedTrigger.UnguardedConfig :=
    UnguardedTrigger.UnguardedConfig(Some(Bucket),
                                     UnguardedTrigger.CryptoFiles(Some("a.csv"), Some("b.csv"), "arn:alpha"),
                                     UnguardedTrigger.CryptoFiles(None, None, "arn:other"))

  /** `a.csv` last modified at `older`, `b.csv` at `newer`, no lock. */
  function Initial(older: Timestamp, newer: Timestamp): (s: Store)
    ensures s.failing == {}
  {
    Store(map[ObjectId(Bucket, "a.csv") := S3Object("a", older),
              ObjectId(Bucket, "b.csv") := S3Object("b", newer)], {})
  }

  /** The lock write at the end of the pipeline: key "alpha", the event's
      timestamp being `stamp` in ISO form. */
  function LockEvent(stamp: Timestamp): (e: LockWriter.LockEvent)
    ensures e.bucket.None? && e.lockKey == Some(LockBase)
  {
    LockWriter.LockEvent(None, Some(LockBase), Some(Format(stamp)))
  }

  /** The bucket after the lock write that records `newer`. */
  function Locked(older: Timestamp, newer: Timestamp, now: Timestamp, serverNow: Timestamp): (s: Store)
  {
    LockWriter.Handler(Initial(older, newer), LockEvent(newer), LockEnv, now, serverNow).store
  }

  /** No lock: the first run starts the pipeline for the newer file's time. */
  lemma FirstRunStarts(older: Timestamp, newer: Timestamp)
    requires Before(older, newer)
    ensures Generation(Initial(older, newer), Bucket, Alpha) == Some(newer)
    ensures ProcessCrypto(Initial(older, newer), Some(Bucket), Alpha).started == ["arn:alpha"]
  {
    var o := Observe(Initial(older, newer), Some(Bucket), Alpha);
    assert o.lock.None?;
    assert o.modified1 == Some(older) && o.modified2 == Some(newer);
    DecideStarts(o);
  }

  /** The guarded trigger watching the two files as its BTC crypto, with
      nothing configured for MONERO. */
  const AlphaTrigger: TriggerConfig :=
    TriggerConfig(Some(Bucket), Alpha, CryptoConfig(None, None, "arn:other", None))

  /** The first run starts `arn:alpha` and then raises while writing its
      answer, as every run that starts something does. */
  lemma FirstRunRaises(older: Timestamp, newer: Timestamp)
    requires Before(older, newer)
    ensures Trigger.Handler(Initial(older, newer), AlphaTrigger) == Run(Raised, ["arn:alpha"])
  {
    FirstRunStarts(older, newer);
    MissingFileNeverStarts(Initial(older, newer), Some(Bucket), AlphaTrigger.monero);
  }

  /** The lock write is one put of `newer.isoformat()` under "alpha.lock". */
  lemma LockedIsPut(older: Timestamp, newer: Timestamp, now: Timestamp, serverNow: Timestamp)
    ensures Locked(older, newer, now, serverNow)
            == Put(Initial(older, newer), Some(Bucket), LockBase + LockWriter.LockSuffix,
                   Format(newer), serverNow).value
  {
    LockWriter.FormattedTimestampKept(newer, now);
  }

  /** The lock write leaves both files as they were. */
  lemma LockedFiles(older: Timestamp, newer: Timestamp, now: Timestamp, serverNow: Timestamp)
    ensures Locked(older, newer, now, serverNow).failing == {}
    ensures Head(Locked(older, newer, now, serverNow), Some(Bucket), Some("a.csv")) == Some(older)
    ensures Head(Locked(older, newer, now, serverNow), Some(Bucket), Some("b.csv")) == Some(newer)
  {
    var s := Initial(older, newer);
    LockedIsPut(older, newer, now, serverNow);
    PutLeavesOthers(s, Bucket, LockBase + LockWriter.LockSuffix, Format(newer), serverNow, Some(Bucket), Alpha.file1);
    PutLeavesOthers(s, Bucket, LockBase + LockWriter.LockSuffix, Format(newer), serverNow, Some(Bucket), Alpha.file2);
  }

  /** The trigger reads `newer` back from the lock. */
  lemma LockedLock(older: Timestamp, newer: Timestamp, now: Timestamp, serverNow: Timestamp)
    ensures ReadLockTimestamp(Locked(older, newer, now, serverNow), Some(Bucket), Alpha.lockKey) == Some(newer)
  {
    LockedIsPut(older, newer, now, serverNow);
    ReadLockAfterWrite(Initial(older, newer), Bucket, LockBase + LockWriter.LockSuffix, newer, serverNow);
  }

  /** After the lock records the generation, the rerun over the same files
      starts nothing. */
  lemma RerunAfterLockIsSuppressed(older: Timestamp, newer: Timestamp, now: Timestamp, serverNow: Timestamp)
    requires Before(older, newer)
    ensures ProcessCrypto(Locked(older, newer, now, serverNow), Some(Bucket), Alpha).started == []
  {
    var s := Locked(older, newer, now, serverNow);
    LockedFiles(older, newer, now, serverNow);
    LockedLock(older, newer, now, serverNow);
    var o := Observe(s, Some(Bucket), Alpha);
    assert o == Observation(true, true, Some(older), Some(newer), Some(newer));
    LockDecides(o);
  }

  /** The unguarded trigger, over the same bucket, starts the pipeline again. */
  lemma UnguardedRerunStartsAgain(older: Timestamp, newer: Timestamp, now: Timestamp, serverNow: Timestamp)
    ensures UnguardedTrigger.Handler(Locked(older, newer, now, serverNow), AlphaUnguarded).started
            == ["arn:alpha"]
  {
    var s := Locked(older, newer, now, serverNow);
    LockedFiles(older, newer, now, serverNow);
    LockedLock(older, newer, now, serverNow);
    assert UnguardedTrigger.FilesComplete(s, Some(Bucket), AlphaUnguarded.btc);
    assert !UnguardedTrigger.FilesComplete(s, Some(Bucket), AlphaUnguarded.monero);
  }

  /** `b.csv` uploaded again at a later time: the next run starts the
      pipeline for that time. */
  lemma UpdatedFileStartsAgain(older: Timestamp, newer: Timestamp, latest: Timestamp,
                               now: Timestamp, serverNow: Timestamp)
    requires Before(older, newer) && Before(newer, latest)
    ensures ObjectId(Bucket, "b.csv") !in Locked(older, newer, now, serverNow).failing
    ensures Generation(Put(Locked(older, newer, now, serverNow), Some(Bucket), "b.csv", "b2", latest).value,
                       Bucket, Alpha)
            == Some(latest)
  {
    var s := Locked(older, newer, now, serverNow);
    LockedFiles(older, newer, now, serverNow);
    LockedLock(older, newer, now, serverNow);
    var swapped := Alpha.(file1 := Alpha.file2, file2 := Alpha.file1);
    NewerFileRetriggers(s, Bucket, swapped, "b2", latest);
    BeforeTransitive(older, newer, latest);
    GenerationSymmetric(Put(s, Some(Bucket), "b.csv", "b2", latest).value, Bucket, swapped);
  }

  /** Only `a.csv` present: nothing starts. */
  lemma OneFileMissing(older: Timestamp)
    ensures ProcessCrypto(Store(map[ObjectId(Bucket, "a.csv") := S3Object("a", older)], {}),
                          Some(Bucket), Alpha).started == []
  {
  }

  /** The lock for January 2nd, midnight, reads "2025-01-02T00:00:00". */
  lemma January2ndText()
    ensures Format(DateTime(2025, 1, 2, 0, 0, 0, 0)) == "2025-01-02T00:00:00"
  {
  }
}
