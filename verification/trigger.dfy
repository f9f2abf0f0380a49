/** The watermark-guarded trigger lambda: for each crypto it starts the
    Step Function only when both input files exist and their newest
    LastModified is strictly later than the timestamp in the lock file. */
module Trigger {
  import opened Wrappers
  import opened Timestamps
  import opened Iso
  import opened ObjectStore

  /** One crypto's settings, read from the environment; an unset variable is None. */
  datatype CryptoConfig = CryptoConfig(file1: Option<string>, file2: Option<string>,
                                       stateMachineArn: string, lockKey: Option<string>)

  /** S3_BUCKET and the two cryptos the handler serves. */
  datatype TriggerConfig = TriggerConfig(bucket: Option<string>, btc: CryptoConfig,
                                         monero: CryptoConfig)

  /** What `start_execution` answered: the state machine it started. */
  datatype Execution = Execution(stateMachineArn: string)

  /** The answers of the calls one crypto's check makes, in the order it
      makes them. */
  datatype Observation = Observation(exists1: bool, exists2: bool,
                                     modified1: Option<Timestamp>, modified2: Option<Timestamp>,
                                     lock: Option<Timestamp>)

  /** Both files were seen and both LastModified values were read. */
  predicate Complete(o: Observation) {
    o.exists1 && o.exists2 && o.modified1.Some? && o.modified2.Some?
  }

  /** `file_exists`: any exception from `head_object` means "not present". */
  function FileExists(s: Store, bucket: Option<string>, key: Option<string>): (present: bool)
    ensures present <==> var id := Target(bucket, key); Reachable(s, id) && id.value in s.objects
  {
    Head(s, bucket, key).Some?
  }

  /** `get_last_modified`: None where `head_object` raises. */
  function LastModified(s: Store, bucket: Option<string>, key: Option<string>): (t: Option<Timestamp>)
    ensures t.Some? <==> FileExists(s, bucket, key)
    ensures t.Some? ==> t.value == s.objects[Target(bucket, key).value].lastModified
  {
    Head(s, bucket, key)
  }

  /** `read_lock_timestamp`: the lock body, stripped and parsed as ISO 8601;
      a missing object, a failed read and a text that does not parse all
      give None. */
  function ReadLockTimestamp(s: Store, bucket: Option<string>, lockKey: Option<string>): (r: Option<Timestamp>)
    ensures r.Some? ==> Get(s, bucket, lockKey).Body?
  {
    match Get(s, bucket, lockKey)
    case Body(text) => Parse(Strip(text))
    case NoSuchKey => None
    case GetError => None
  }

  /** The decision of `process_crypto`: Some(generation) when the Step
      Function is started, None when it is not. */
  function Decide(o: Observation): (g: Option<Timestamp>)
    ensures g.Some? ==> Complete(o)
    ensures g.Some? ==> IsLatestOf(g.value, o.modified1.value, o.modified2.value)
    ensures g.Some? ==> o.lock.None? || Before(o.lock.value, g.value)
    ensures g.None? && Complete(o) ==>
              o.lock.Some? && NotAfter(o.modified1.value, o.lock.value)
              && NotAfter(o.modified2.value, o.lock.value)
  {
    if !(o.exists1 && o.exists2) then None
    else if o.modified1.None? || o.modified2.None? then None
    else
      var generation := Later(o.modified1.value, o.modified2.value);
      if o.lock.Some? && NotAfter(generation, o.lock.value) then None
      else Some(generation)
  }

  /** The calls `process_crypto` makes against the bucket, as answers. */
  function Observe(s: Store, bucket: Option<string>, c: CryptoConfig): (o: Observation)
    ensures (o.exists1 ==> o.modified1.Some?) && (o.exists2 ==> o.modified2.Some?)
  {
    Observation(FileExists(s, bucket, c.file1), FileExists(s, bucket, c.file2),
                LastModified(s, bucket, c.file1), LastModified(s, bucket, c.file2),
                ReadLockTimestamp(s, bucket, c.lockKey))
  }

  /** What one crypto's check returns, and the ARNs it started. */
  datatype Outcome = Outcome(execution: Option<Execution>, started: seq<string>)

  /** `process_crypto`: at most one start, of this crypto's state machine;
      nothing is written to the bucket. */
  function ProcessCrypto(s: Store, bucket: Option<string>, c: CryptoConfig): (r: Outcome)
    ensures r.execution.Some? <==> Decide(Observe(s, bucket, c)).Some?
    ensures r.execution.Some? ==> r.execution.value == Execution(c.stateMachineArn)
    ensures r.started == if r.execution.Some? then [c.stateMachineArn] else []
  {
    if Decide(Observe(s, bucket, c)).Some?
    then Outcome(Some(Execution(c.stateMachineArn)), [c.stateMachineArn])
    else Outcome(None, [])
  }

  /** The handler's answer: status code and the per-crypto results. */
  datatype Response = Response(statusCode: int, executions: map<string, Option<Execution>>)

  /** How a handler ends: it returns its answer, or an exception escapes it. */
  datatype Ending<R> = Returned(response: R) | Raised

  /** How the handler ended, and the ARNs it started before that. */
  datatype Run = Run(ending: Ending<Response>, started: seq<string>)

  /** Whether `json.dumps` can write the body. Every `start_execution`
      response holds `startDate`, a `datetime`, which the default encoder
      refuses with TypeError; `None` is written as `null`. */
  predicate Encodable(executions: map<string, Option<Execution>>) {
    forall name :: name in executions ==> executions[name].None?
  }

  /** BTC's check, then MONERO's, collected as `lambda_handler` collects
      them: status 200, one entry per crypto holding that crypto's own
      execution when its decision starts one, and BTC's start before
      MONERO's. */
  function Checks(s: Store, cfg: TriggerConfig): (r: Run)
    ensures r.ending.Returned? && r.ending.response.statusCode == 200
    ensures r.ending.response.executions.Keys == {"BTC", "MONERO"}
    ensures r.ending.response.executions["BTC"]
            == if Decide(Observe(s, cfg.bucket, cfg.btc)).Some?
               then Some(Execution(cfg.btc.stateMachineArn)) else None
    ensures r.ending.response.executions["MONERO"]
            == if Decide(Observe(s, cfg.bucket, cfg.monero)).Some?
               then Some(Execution(cfg.monero.stateMachineArn)) else None
    ensures r.started
            == (if r.ending.response.executions["BTC"].Some? then [cfg.btc.stateMachineArn] else [])
             + (if r.ending.response.executions["MONERO"].Some? then [cfg.monero.stateMachineArn] else [])
  {
    var btc := ProcessCrypto(s, cfg.bucket, cfg.btc);
    var monero := ProcessCrypto(s, cfg.bucket, cfg.monero);
    Run(Returned(Response(200, map["BTC" := btc.execution, "MONERO" := monero.execution])),
        btc.started + monero.started)
  }

  /** `lambda_handler` as written: the starts happen, then the body is
      serialised, which raises as soon as one start's response is in it.
      So it answers 200 exactly when it started nothing. */
  function Handler(s: Store, cfg: TriggerConfig): (r: Run)
    ensures r.started
            == (if Decide(Observe(s, cfg.bucket, cfg.btc)).Some? then [cfg.btc.stateMachineArn] else [])
             + (if Decide(Observe(s, cfg.bucket, cfg.monero)).Some? then [cfg.monero.stateMachineArn] else [])
    ensures r.ending.Returned? <==> r.started == []
    ensures r.ending.Returned? ==> r.ending.response == Response(200, map["BTC" := None, "MONERO" := None])
  {
    var run := Checks(s, cfg);
    EncodableBody(run.ending.response.executions);
    if Encodable(run.ending.response.executions) then run else Run(Raised, run.started)
  }

  /** The handler's body can be written exactly when neither check started
      anything, and it is then the map of two `None`s. */
  lemma EncodableBody(executions: map<string, Option<Execution>>)
    requires executions.Keys == {"BTC", "MONERO"}
    ensures Encodable(executions) <==> executions["BTC"].None? && executions["MONERO"].None?
    ensures Encodable(executions) ==> executions == map["BTC" := None, "MONERO" := None]
  {
    if Encodable(executions) {
      assert "BTC" in executions && "MONERO" in executions;
      var both: map<string, Option<Execution>> := map["BTC" := None, "MONERO" := None];
      assert executions.Keys == both.Keys;
    }
  }

  /** `lambda_handler` as evidently intended: status 200 and, per crypto,
      what its check started, with the start date written in a form JSON
      can hold. */
  function IntendedHandler(s: Store, cfg: TriggerConfig): (r: Run)
    ensures r.ending.Returned? && r.ending.response.statusCode == 200
    ensures r.ending.response.executions.Keys == {"BTC", "MONERO"}
    ensures r.ending.response.executions["BTC"].Some?
            <==> Decide(Observe(s, cfg.bucket, cfg.btc)).Some?
    ensures r.ending.response.executions["MONERO"].Some?
            <==> Decide(Observe(s, cfg.bucket, cfg.monero)).Some?
    ensures r.ending.response.executions["BTC"].Some?
            ==> r.ending.response.executions["BTC"].value == Execution(cfg.btc.stateMachineArn)
    ensures r.ending.response.executions["MONERO"].Some?
            ==> r.ending.response.executions["MONERO"].value == Execution(cfg.monero.stateMachineArn)
    ensures r.started
            == (if r.ending.response.executions["BTC"].Some? then [cfg.btc.stateMachineArn] else [])
             + (if r.ending.response.executions["MONERO"].Some? then [cfg.monero.stateMachineArn] else [])
    ensures |r.started| <= 2
  {
    Checks(s, cfg)
  }

  /** The discrepancy: a run that starts a state machine raises after the
      start, where the intended handler answers 200 for the same starts. */
  lemma StartThenRaise(s: Store, cfg: TriggerConfig)
    requires Decide(Observe(s, cfg.bucket, cfg.btc)).Some? || Decide(Observe(s, cfg.bucket, cfg.monero)).Some?
    ensures Handler(s, cfg).ending.Raised? && |Handler(s, cfg).started| >= 1
    ensures IntendedHandler(s, cfg).ending.Returned?
            && IntendedHandler(s, cfg).ending.response.statusCode == 200
    ensures Handler(s, cfg).started == IntendedHandler(s, cfg).started
  {
  }

  /** No start unless both files exist: a failing `head_object` is "absent". */
  lemma MissingFileNeverStarts(s: Store, bucket: Option<string>, c: CryptoConfig)
    requires !FileExists(s, bucket, c.file1) || !FileExists(s, bucket, c.file2)
    ensures ProcessCrypto(s, bucket, c) == Outcome(None, [])
  {
  }

  /** Both files exist yet a LastModified lookup failed (the object went away
      between the calls, or the call raised): no start. */
  lemma MissingTimestampNeverStarts(o: Observation)
    requires o.exists1 && o.exists2
    requires o.modified1.None? || o.modified2.None?
    ensures Decide(o).None?
  {
  }

  /** The generation is Python's `max` of the two LastModified values. */
  lemma GenerationIsMax(o: Observation)
    requires Decide(o).Some?
    ensures Decide(o).value == Later(o.modified1.value, o.modified2.value)
  {
  }

  /** A lock at or after the generation suppresses the start; a lock before
      it, or no lock, does not. */
  lemma LockDecides(o: Observation)
    requires Complete(o)
    ensures Decide(o).None?
            <==> o.lock.Some? && NotAfter(Later(o.modified1.value, o.modified2.value), o.lock.value)
  {
  }

  /** Complete answers and a lock before the generation, or none: a start,
      for the generation. */
  lemma DecideStarts(o: Observation)
    requires Complete(o)
    requires o.lock.None? || Before(o.lock.value, Later(o.modified1.value, o.modified2.value))
    ensures Decide(o) == Some(Later(o.modified1.value, o.modified2.value))
  {
  }

  /** Raising the lock never turns "suppressed" into "start". */
  lemma HigherLockStillSuppresses(o: Observation, later: Timestamp)
    requires Decide(o).None?
    requires o.lock.Some? && NotAfter(o.lock.value, later)
    ensures Decide(o.(lock := Some(later))).None?
  {
    if Complete(o) {
      NotAfterTransitive(Later(o.modified1.value, o.modified2.value), o.lock.value, later);
    }
  }

  /** A lock object that is missing, unreadable or unparsable is treated as
      no lock at all, so it never suppresses a start. */
  lemma UnusableLockIsAbsent(s: Store, bucket: Option<string>, c: CryptoConfig)
    requires match Get(s, bucket, c.lockKey)
             case Body(text) => Parse(Strip(text)).None?
             case _ => true
    ensures Observe(s, bucket, c).lock.None?
    ensures Complete(Observe(s, bucket, c)) ==> ProcessCrypto(s, bucket, c).execution.Some?
  {
  }

  /** A lock object holding `t.isoformat()` reads back as `t`. */
  lemma ReadLockAfterWrite(s: Store, bucket: string, lockKey: string, t: Timestamp, serverNow: Timestamp)
    requires ObjectId(bucket, lockKey) !in s.failing
    ensures ReadLockTimestamp(Put(s, Some(bucket), lockKey, Format(t), serverNow).value, Some(bucket), Some(lockKey))
            == Some(t)
  {
    StoredLockRoundTrip(t);
  }

  /** A lock written by hand, with whitespace around `t.isoformat()` (a
      trailing newline, say), also reads back as `t`. */
  lemma PaddedLockReadsBack(s: Store, bucket: string, lockKey: string,
                            lead: string, trail: string, t: Timestamp)
    requires ObjectId(bucket, lockKey) !in s.failing && ObjectId(bucket, lockKey) in s.objects
    requires s.objects[ObjectId(bucket, lockKey)].body == lead + Format(t) + trail
    requires AllSpace(lead) && AllSpace(trail)
    ensures ReadLockTimestamp(s, Some(bucket), Some(lockKey)) == Some(t)
  {
    StripUnique(lead, Format(t), trail);
    FormatParseRoundTrip(t);
  }

  /** The decision depends on the call answers only: two buckets that answer
      alike give the same outcome. */
  lemma OutcomeDependsOnAnswersOnly(s1: Store, s2: Store, bucket: Option<string>, c: CryptoConfig)
    requires Observe(s1, bucket, c) == Observe(s2, bucket, c)
    ensures ProcessCrypto(s1, bucket, c) == ProcessCrypto(s2, bucket, c)
  {
  }
}
