/** The earlier trigger lambda: it starts a crypto's Step Function whenever
    both of its files exist, and keeps no watermark. */
module UnguardedTrigger {
  import opened Wrappers
  import opened Timestamps
  import opened ObjectStore
  import Trigger

  /** One crypto's two file keys and state machine ARN. */
  datatype CryptoFiles = CryptoFiles(file1: Option<string>, file2: Option<string>,
                                     stateMachineArn: string)

  datatype UnguardedConfig = UnguardedConfig(bucket: Option<string>, btc: CryptoFiles,
                                             monero: CryptoFiles)

  /** The handler's answer: status code and the started executions in order. */
  datatype Response = Response(statusCode: int, executions: seq<Trigger.Execution>)

  /** How the handler ended, and the ARNs it started before that. */
  datatype Run = Run(ending: Trigger.Ending<Response>, started: seq<string>)

  /** Both of a crypto's files answer `head_object`. */
  predicate FilesComplete(s: Store, bucket: Option<string>, c: CryptoFiles) {
    Trigger.FileExists(s, bucket, c.file1) && Trigger.FileExists(s, bucket, c.file2)
  }

  /** The list `triggered_executions` after one crypto's check: one more
      response when both files exist. `start_execution` gets the ARN alone;
      the payload built beside it is never sent. */
  function CheckCrypto(s: Store, bucket: Option<string>, c: CryptoFiles,
                       executions: seq<Trigger.Execution>): (after: seq<Trigger.Execution>)
    ensures after == executions + (if FilesComplete(s, bucket, c) then [Trigger.Execution(c.stateMachineArn)] else [])
  {
    if Trigger.FileExists(s, bucket, c.file1) && Trigger.FileExists(s, bucket, c.file2)
    then executions + [Trigger.Execution(c.stateMachineArn)]
    else executions
  }

  function Arns(executions: seq<Trigger.Execution>): (arns: seq<string>)
    ensures |arns| == |executions|
    ensures forall i :: 0 <= i < |arns| ==> arns[i] == executions[i].stateMachineArn
  {
    seq(|executions|, i requires 0 <= i < |executions| => executions[i].stateMachineArn)
  }

  /** BTC's check, then MONERO's, collected as `lambda_handler` collects them. */
  function Checks(s: Store, cfg: UnguardedConfig): (r: Run)
    ensures r.ending.Returned? && r.ending.response.statusCode == 200
    ensures r.started == Arns(r.ending.response.executions)
  {
    var afterBtc := CheckCrypto(s, cfg.bucket, cfg.btc, []);
    var executions := CheckCrypto(s, cfg.bucket, cfg.monero, afterBtc);
    Run(Trigger.Returned(Response(200, executions)), Arns(executions))
  }

  /** `lambda_handler` as written: the starts happen, then `json.dumps`
      raises on the first `start_execution` response in the list (its
      `startDate` is a `datetime`). So it answers 200, with an empty list,
      exactly when it started nothing. */
  function Handler(s: Store, cfg: UnguardedConfig): (r: Run)
    ensures r.started == (if FilesComplete(s, cfg.bucket, cfg.btc) then [cfg.btc.stateMachineArn] else [])
                         + (if FilesComplete(s, cfg.bucket, cfg.monero) then [cfg.monero.stateMachineArn] else [])
    ensures r.ending.Returned? <==> r.started == []
    ensures r.ending.Returned? ==> r.ending.response == Response(200, [])
  {
    var run := Checks(s, cfg);
    if run.ending.response.executions == [] then run else Run(Trigger.Raised, run.started)
  }

  /** `lambda_handler` as evidently intended: status 200 and the list of
      what was started, BTC's first. */
  function IntendedHandler(s: Store, cfg: UnguardedConfig): (r: Run)
    ensures r.ending.Returned? && r.ending.response.statusCode == 200
    ensures |r.ending.response.executions| <= 2
    ensures r.started == Arns(r.ending.response.executions)
    ensures |r.ending.response.executions| == 2
            <==> FilesComplete(s, cfg.bucket, cfg.btc) && FilesComplete(s, cfg.bucket, cfg.monero)
    ensures r.ending.response.executions == []
            <==> !FilesComplete(s, cfg.bucket, cfg.btc) && !FilesComplete(s, cfg.bucket, cfg.monero)
    ensures FilesComplete(s, cfg.bucket, cfg.btc)
            ==> r.ending.response.executions[0] == Trigger.Execution(cfg.btc.stateMachineArn)
    ensures FilesComplete(s, cfg.bucket, cfg.monero)
            ==> r.ending.response.executions[|r.ending.response.executions| - 1]
                == Trigger.Execution(cfg.monero.stateMachineArn)
  {
    Checks(s, cfg)
  }

  /** The discrepancy: a run that starts a state machine raises after the
      start, where the intended handler answers 200 for the same starts. */
  lemma StartThenRaise(s: Store, cfg: UnguardedConfig)
    requires FilesComplete(s, cfg.bucket, cfg.btc) || FilesComplete(s, cfg.bucket, cfg.monero)
    ensures Handler(s, cfg).ending.Raised? && |Handler(s, cfg).started| >= 1
    ensures IntendedHandler(s, cfg).ending.Returned?
            && IntendedHandler(s, cfg).ending.response.statusCode == 200
    ensures Handler(s, cfg).started == IntendedHandler(s, cfg).started
  {
  }

  /** BTC's state machine is started if and only if both BTC files exist. */
  lemma BtcStartedIffFilesExist(s: Store, cfg: UnguardedConfig)
    requires cfg.btc.stateMachineArn != cfg.monero.stateMachineArn
    ensures cfg.btc.stateMachineArn in Handler(s, cfg).started
            <==> FilesComplete(s, cfg.bucket, cfg.btc)
  {
    var r := Handler(s, cfg);
    if cfg.btc.stateMachineArn in r.started {
      var i :| 0 <= i < |r.started| && r.started[i] == cfg.btc.stateMachineArn;
    }
  }

  /** MONERO's state machine is started if and only if both MONERO files exist. */
  lemma MoneroStartedIffFilesExist(s: Store, cfg: UnguardedConfig)
    requires cfg.btc.stateMachineArn != cfg.monero.stateMachineArn
    ensures cfg.monero.stateMachineArn in Handler(s, cfg).started
            <==> FilesComplete(s, cfg.bucket, cfg.monero)
  {
    var r := Handler(s, cfg);
    if cfg.monero.stateMachineArn in r.started {
      var i :| 0 <= i < |r.started| && r.started[i] == cfg.monero.stateMachineArn;
    }
  }

  /** No stored state is read: two buckets that agree on the four file
      lookups get the same run, whatever else (a lock object, say) differs. */
  lemma ReadsOnlyTheFiles(s1: Store, s2: Store, cfg: UnguardedConfig)
    requires forall key :: key in {cfg.btc.file1, cfg.btc.file2, cfg.monero.file1, cfg.monero.file2}
               ==> Head(s1, cfg.bucket, key) == Head(s2, cfg.bucket, key)
    ensures Handler(s1, cfg) == Handler(s2, cfg)
  {
    assert Head(s1, cfg.bucket, cfg.btc.file1) == Head(s2, cfg.bucket, cfg.btc.file1);
    assert Head(s1, cfg.bucket, cfg.btc.file2) == Head(s2, cfg.bucket, cfg.btc.file2);
    assert Head(s1, cfg.bucket, cfg.monero.file1) == Head(s2, cfg.bucket, cfg.monero.file1);
    assert Head(s1, cfg.bucket, cfg.monero.file2) == Head(s2, cfg.bucket, cfg.monero.file2);
  }

  /** No deduplication: a lock written next to the files changes nothing, so
      a run after it starts exactly what the run before it started. */
  lemma LockWriteDoesNotSuppress(s: Store, cfg: UnguardedConfig, bucket: string,
                                 lockKey: string, body: string, serverNow: Timestamp)
    requires cfg.bucket == Some(bucket)
    requires ObjectId(bucket, lockKey) !in s.failing
    requires Some(lockKey) !in {cfg.btc.file1, cfg.btc.file2, cfg.monero.file1, cfg.monero.file2}
    ensures Handler(Put(s, Some(bucket), lockKey, body, serverNow).value, cfg) == Handler(s, cfg)
  {
    var s' := Put(s, Some(bucket), lockKey, body, serverNow).value;
    forall key | key in {cfg.btc.file1, cfg.btc.file2, cfg.monero.file1, cfg.monero.file2}
      ensures Head(s', cfg.bucket, key) == Head(s, cfg.bucket, key)
    {
      PutLeavesOthers(s, bucket, lockKey, body, serverNow, cfg.bucket, key);
    }
    ReadsOnlyTheFiles(s', s, cfg);
  }

  /** Whatever the guarded trigger starts for a crypto, the unguarded one
      starts too, given the same bucket and files. */
  lemma GuardedStartImpliesUnguardedStart(s: Store, bucket: Option<string>, c: Trigger.CryptoConfig)
    requires Trigger.ProcessCrypto(s, bucket, c).execution.Some?
    ensures FilesComplete(s, bucket, CryptoFiles(c.file1, c.file2, c.stateMachineArn))
  {
  }
}
