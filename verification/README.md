# Arrival-gated pipeline trigger: a Dafny model

This project models the control logic of a small crypto-data pipeline on AWS.
Two cryptos, BTC and MONERO, each have two input files in an S3 bucket and a
Step Functions state machine that processes them.

- The **trigger lambda** (`lambda_functions/trigger_lambda_function.py`)
  checks each crypto in turn. It starts the crypto's state machine only when
  both files exist, and only when the newer of their two `LastModified` times
  (the *generation*) is strictly later than the timestamp stored in the
  crypto's lock object (the *watermark*). A lock that is missing, unreadable
  or unparsable counts as absent.
- The **lock lambda** (`lambda_functions/lock_lambda_function.py`) writes the
  watermark. The key is the event's or the environment's key with `.lock`
  appended. The timestamp is the event's when it parses as ISO 8601, and
  "now" otherwise. The object's body is `timestamp.isoformat()`.
- The **earlier, unguarded trigger** (`lambda_function.py`) starts a crypto's
  state machine whenever both files exist. It keeps no watermark.
- **`trend_processing`** (`etl_jobs/silver_to_gold_job.py`) turns each weekly
  Google Trends row into seven daily rows. The last of the seven days is the
  week's date.

How the model represents these:

- Timestamps are naive Python `datetime` values. They are a seven-field
  record restricted to real calendar values (`Timestamps.Timestamp`), and they
  are compared field by field, as Python compares them.
- `isoformat()`, `fromisoformat()` and `str.strip()` are modelled on strings
  (`Iso`). This makes the lock's write/read round trip a proof, not an
  assumption.
- S3 is a snapshot of the bucket contents plus a set of objects on which
  every call raises (`ObjectStore`). `head_object`, `get_object` and
  `put_object` answer from that snapshot.
- Starting a Step Function is recorded in a log of started ARNs.
- Environment variables are `Option<string>` configuration values; an unset
  variable is `None`. The exception is the state machine ARNs, which the
  model takes as always set (see "## Left out"). The clocks (`utcnow()` and the S3 service's stamp on a
  written object) are parameters.

Modules: `Wrappers` (Option), `Timestamps`, `Iso`, `ObjectStore`, `Trigger`
(the guarded trigger), `LockWriter`, `Watermark` (the two lambdas composed),
`UnguardedTrigger`, `TrendExpansion`, and `Scenarios` (worked runs with
symbolic dates).

Some behaviour of the code worth stating plainly:

- When a crypto is not started, `process_crypto` returns `None` and gives no
  reason.
- The trigger never advances the watermark itself. A separate lambda writes
  it, and `Watermark` composes the two.
- The two cryptos are checked in one sequence. An exception from
  `start_execution` for BTC ends the whole handler, so MONERO is not checked.
- A failing `head_object` counts as "file absent".
- `start_execution` gets the state machine ARN alone: no input and no
  execution name, so a repeated run starts a second execution.
- Both trigger handlers raise whenever they started something (see
  "## Findings").

## Model

| member | source | states |
|---|---|---|
| Timestamps.Later | lambda_functions/trigger_lambda_function.py:94 | `max(ts1, ts2)` is at or after both timestamps and is one of them; it is the second exactly when the first is earlier or they are equal |
| Iso.Format | lambda_functions/lock_lambda_function.py:16 | `isoformat()` is 19 characters without microseconds and 26 with them, and it begins and ends with a digit |
| Iso.Parse | lambda_functions/trigger_lambda_function.py:60 | `fromisoformat` accepts nothing shorter than a full date, and its year field is all ASCII digits |
| Iso.FractionAfterHour | lambda_functions/lock_lambda_function.py:41 | a fraction may follow the bare hour: `HH.fff` is read as that hour plus the fraction |
| Iso.FractionAfterMinute | lambda_functions/lock_lambda_function.py:41 | a fraction may follow the minute: `HH:MM.fff` is read as that clock plus the fraction |
| Iso.FormatParseRoundTrip | lambda_functions/trigger_lambda_function.py:58-60 | parsing what `isoformat()` wrote gives back the same timestamp |
| Iso.ValueDigitsRoundTrip | lambda_functions/lock_lambda_function.py:16 | a field of digits is exactly the zero-padded rendering of the number it denotes at its own width |
| Iso.DateTextOfParse | lambda_functions/trigger_lambda_function.py:60 | a ten-character date that `fromisoformat` reads as a given year, month and day is the text `isoformat()` writes for that date |
| Iso.ClockTextOfParse | lambda_functions/trigger_lambda_function.py:60 | an eight-character `HH:MM:SS` clock that parses to a given hour, minute and second is the text `isoformat()` writes for them |
| Iso.FormatIsCanonical | lambda_functions/lock_lambda_function.py:16 | every `isoformat()` text has `T` as separator and either no fraction or six fraction digits that are not all zero |
| Iso.SecondsFormRoundTrip | lambda_functions/trigger_lambda_function.py:60 | a canonical 19-character text that parses is rewritten unchanged by `isoformat()` |
| Iso.FractionFormRoundTrip | lambda_functions/trigger_lambda_function.py:60 | a canonical 26-character text that parses is rewritten unchanged by `isoformat()` |
| Iso.ParseFormatRoundTrip | lambda_functions/trigger_lambda_function.py:58-60 | the converse round trip: a canonical lock text that `fromisoformat` accepts is exactly what `isoformat()` writes for the parsed timestamp |
| Iso.FormatInjective | lambda_functions/lock_lambda_function.py:16 | distinct timestamps are written as distinct lock texts |
| Iso.Strip | lambda_functions/trigger_lambda_function.py:58 | `strip()` gives a slice of the text such that everything cut off before and after it is whitespace, and the slice neither begins nor ends with whitespace |
| Iso.StripUnique | lambda_functions/trigger_lambda_function.py:58 | whitespace, then a middle that neither begins nor ends with whitespace, then whitespace, strips to exactly that middle |
| Iso.StripKeeps | lambda_functions/trigger_lambda_function.py:58 | `strip()` leaves text unchanged when it has no whitespace at either end |
| Iso.StripIdempotent | lambda_functions/trigger_lambda_function.py:58 | stripping a second time changes nothing |
| Iso.StoredLockRoundTrip | lambda_functions/trigger_lambda_function.py:58-60 | the lock body, stripped and parsed by the trigger, is the timestamp the writer formatted |
| ObjectStore.Head | lambda_functions/trigger_lambda_function.py:44-49 | `head_object` answers exactly when bucket and key are set, the call does not raise, and the object exists; its answer is that object's `LastModified` |
| ObjectStore.Get | lambda_functions/trigger_lambda_function.py:57-68 | `get_object` gives the body exactly when `head_object` would answer, and that body is the object's; `NoSuchKey` exactly when the call goes through but the object is missing; any other failure otherwise |
| ObjectStore.Put | lambda_functions/lock_lambda_function.py:17-21 | `put_object` succeeds exactly when the call does not raise; it then creates or replaces that one object with the body and the service's time and leaves every other object as it was |
| ObjectStore.PutLeavesOthers | lambda_functions/lock_lambda_function.py:18 | a put changes no `head_object` or `get_object` answer for any other name |
| Trigger.FileExists | lambda_functions/trigger_lambda_function.py:29-38 | true exactly when bucket and key are set, the call does not raise and the object exists; any exception reads as false |
| Trigger.LastModified | lambda_functions/trigger_lambda_function.py:40-49 | a timestamp exactly when `file_exists` would say true, and then it is that object's `LastModified`; any exception reads as `None` |
| Trigger.ReadLockTimestamp | lambda_functions/trigger_lambda_function.py:56-68 | a lock timestamp is only ever obtained from a successful `get_object` |
| Trigger.Decide | lambda_functions/trigger_lambda_function.py:86-107 | a start needs both files present and both timestamps read; its generation is the later of the two timestamps and is strictly after the lock, if there is one. With both timestamps read and no start, a lock exists and is at or after both timestamps |
| Trigger.ProcessCrypto | lambda_functions/trigger_lambda_function.py:80-110 | one execution, of this crypto's ARN, exactly when the decision starts one; otherwise `None` and nothing started |
| Trigger.Handler | lambda_functions/trigger_lambda_function.py:112-143 | BTC's check runs before MONERO's, and each starts its ARN exactly when its decision starts; the handler answers 200 (with both entries `None`) if and only if nothing was started, and raises otherwise |
| Trigger.Checks | lambda_functions/trigger_lambda_function.py:115-135 | the two checks collected into the map: status 200; keys exactly BTC and MONERO; each entry is that crypto's own execution when its decision starts and `None` otherwise; BTC's start comes before MONERO's |
| Trigger.EncodableBody | lambda_functions/trigger_lambda_function.py:139-142 | `json.dumps` can write the body exactly when neither entry is a `start_execution` response, and the body is then the map of two `None`s |
| Trigger.IntendedHandler | lambda_functions/trigger_lambda_function.py:112-143 | the intended answer: status 200; the map has exactly the keys BTC and MONERO, each holding an execution of that crypto's own ARN exactly when that crypto's decision starts; BTC's start precedes MONERO's; at most two starts |
| Trigger.StartThenRaise | lambda_functions/trigger_lambda_function.py:137-142 | when either crypto is started, the handler as written raises after making the same starts the intended handler answers 200 for |
| Trigger.MissingFileNeverStarts | lambda_functions/trigger_lambda_function.py:86-110 | if either `file_exists` check fails, including because the call raised, the result is `None` and nothing is started |
| Trigger.MissingTimestampNeverStarts | lambda_functions/trigger_lambda_function.py:87-91 | both files exist but a `LastModified` lookup gave `None`: no start |
| Trigger.GenerationIsMax | lambda_functions/trigger_lambda_function.py:94 | the generation started for is `max(ts1, ts2)` |
| Trigger.LockDecides | lambda_functions/trigger_lambda_function.py:98-102 | with both timestamps read, nothing starts if and only if a lock exists and the generation is at or before it |
| Trigger.DecideStarts | lambda_functions/trigger_lambda_function.py:99-107 | complete answers, and a lock before the generation or no lock, give a start for that generation |
| Trigger.HigherLockStillSuppresses | lambda_functions/trigger_lambda_function.py:99-102 | raising the watermark never turns a suppressed decision into a start |
| Trigger.UnusableLockIsAbsent | lambda_functions/trigger_lambda_function.py:56-68 | a missing lock object, a failed read or an unparsable body reads as no lock, and then complete files always start |
| Trigger.ReadLockAfterWrite | lambda_functions/trigger_lambda_function.py:56-61 | a lock object holding `t.isoformat()` reads back as `t` |
| Trigger.PaddedLockReadsBack | lambda_functions/trigger_lambda_function.py:56-61 | a lock body of whitespace, `t.isoformat()`, then whitespace (a trailing newline, say) reads back as `t` |
| Trigger.OutcomeDependsOnAnswersOnly | lambda_functions/trigger_lambda_function.py:80-110 | the outcome is a function of the call answers (file flags, timestamps, lock) alone |
| LockWriter.LockKey | lambda_functions/lock_lambda_function.py:36 | the key is the event's key, or else the environment's, with `.lock` appended, also when the event supplies it; with neither the handler raises |
| LockWriter.ChooseTimestamp | lambda_functions/lock_lambda_function.py:38-46 | a parseable event timestamp is used unchanged; an absent, empty or unparsable one falls back to the current UTC time |
| LockWriter.FormattedTimestampKept | lambda_functions/lock_lambda_function.py:38-41 | an event timestamp in `isoformat()` form is the one written |
| LockWriter.UpdateLockFile | lambda_functions/lock_lambda_function.py:12-21 | on success the lock object's body is `timestamp.isoformat()`; a successful put adds no object other than the lock; a failing put leaves the bucket unchanged without raising; no other object changes |
| LockWriter.Handler | lambda_functions/lock_lambda_function.py:23-57 | it raises only when no key is given anywhere; otherwise status 200, even when the put failed; the response's `lock_key` and `timestamp` are exactly the key and text written |
| LockWriter.EventTimestampWrittenAndReadBack | lambda_functions/lock_lambda_function.py:38-48 | an ISO event timestamp is stored so that the trigger's read gives back that same timestamp |
| Watermark.FilesUnchanged | lambda_functions/lock_lambda_function.py:18 | writing the lock object does not change either file lookup |
| Watermark.LockWriteSuppressesRerun | lambda_functions/trigger_lambda_function.py:94-102 | after a run that starts for generation G, a lock write of t ≥ G to the trigger's lock key makes the next run over unchanged files start nothing |
| Watermark.FailedLockWriteRetriggers | lambda_functions/lock_lambda_function.py:17-21 | if the lock put fails, the next run starts the same generation again |
| Watermark.NewerFileRetriggers | lambda_functions/trigger_lambda_function.py:94-107 | re-uploading a file with a time after the lock, or when there is no usable lock, starts the pipeline for the generation of the re-upload and the other file |
| Watermark.GenerationSymmetric | lambda_functions/trigger_lambda_function.py:94 | swapping the two file keys does not change the generation or the decision |
| UnguardedTrigger.CheckCrypto | lambda_function.py:53-63 | one crypto's block appends one execution, of its ARN, exactly when both of its files exist, and otherwise leaves the list as it was |
| UnguardedTrigger.Handler | lambda_function.py:47-84 | BTC's ARN is started exactly when both BTC files exist, then MONERO's likewise; the handler answers 200 with an empty list if and only if nothing was started, and raises otherwise |
| UnguardedTrigger.IntendedHandler | lambda_function.py:47-84 | the intended answer: status 200; at most two executions; none when neither crypto is complete; BTC's first when it starts; MONERO's last when it starts; the log is the executions' ARNs, and `start_execution` receives the ARN only |
| UnguardedTrigger.StartThenRaise | lambda_function.py:78-84 | when either crypto is started, the handler as written raises after making the same starts the intended handler answers 200 for |
| UnguardedTrigger.BtcStartedIffFilesExist | lambda_function.py:53-63 | with distinct ARNs, BTC's state machine is started if and only if both BTC files exist |
| UnguardedTrigger.MoneroStartedIffFilesExist | lambda_function.py:66-76 | with distinct ARNs, MONERO's state machine is started if and only if both MONERO files exist |
| UnguardedTrigger.ReadsOnlyTheFiles | lambda_function.py:47-76 | two buckets that agree on the four file lookups give the same run: no stored state is read |
| UnguardedTrigger.LockWriteDoesNotSuppress | lambda_function.py:47-76 | no deduplication: after a lock write next to the files, a run starts exactly what it started before |
| UnguardedTrigger.GuardedStartImpliesUnguardedStart | lambda_function.py:53 | whenever the guarded trigger starts a crypto, that crypto's files are complete, so the unguarded trigger starts it too |
| TrendExpansion.Block | etl_jobs/silver_to_gold_job.py:54-61 | one weekly row becomes seven daily rows |
| TrendExpansion.ExpandLength | etl_jobs/silver_to_gold_job.py:50-63 | the output has seven rows per input row |
| TrendExpansion.ExpandAt | etl_jobs/silver_to_gold_job.py:50-63 | output row k is dated `week − 6 + k % 7` of input row `k / 7` and carries that row's trend index |
| TrendExpansion.TrendProcessing | etl_jobs/silver_to_gold_job.py:45-65 | the nested loops produce exactly the block-by-block expansion, in input order |
| TrendExpansion.SevenRowsPerWeek | etl_jobs/silver_to_gold_job.py:50-63 | seven rows per input row; empty input gives empty output |
| TrendExpansion.BlockDates | etl_jobs/silver_to_gold_job.py:54-61 | in each block the dates run `week − 6 … week`, consecutive and ascending, each carrying the row's `Google_trend_index` |
| TrendExpansion.BlockEndsOnWeek | etl_jobs/silver_to_gold_job.py:56-60 | the last day of each block is the row's `Week` |
| TrendExpansion.ExpandAppend | etl_jobs/silver_to_gold_job.py:53-61 | blocks appear in input-row order: expanding a concatenation concatenates the expansions |
| Scenarios.FirstRunStarts | lambda_functions/trigger_lambda_function.py:86-107 | with no lock, `a.csv` older than `b.csv` starts the pipeline for `b.csv`'s time |
| Scenarios.FirstRunRaises | lambda_functions/trigger_lambda_function.py:112-143 | that first run starts `arn:alpha` and then raises while writing its answer |
| Scenarios.LockedIsPut | lambda_functions/lock_lambda_function.py:36-48 | the lock write for key "alpha" is one put of the timestamp's ISO text under "alpha.lock" |
| Scenarios.LockedFiles | lambda_functions/lock_lambda_function.py:18 | the lock write leaves both files untouched |
| Scenarios.LockedLock | lambda_functions/trigger_lambda_function.py:56-61 | the trigger reads back the timestamp that was written |
| Scenarios.RerunAfterLockIsSuppressed | lambda_functions/trigger_lambda_function.py:99-102 | the rerun after the lock write starts nothing |
| Scenarios.UnguardedRerunStartsAgain | lambda_function.py:53-63 | over the same bucket the unguarded trigger starts the pipeline again |
| Scenarios.UpdatedFileStartsAgain | lambda_functions/trigger_lambda_function.py:94-107 | re-uploading `b.csv` later than the lock starts the pipeline for the upload's time |
| Scenarios.OneFileMissing | lambda_functions/trigger_lambda_function.py:108-110 | with only `a.csv` present nothing starts |
| Scenarios.January2ndText | lambda_functions/lock_lambda_function.py:16 | the lock text for January 2nd 2025, midnight, is "2025-01-02T00:00:00" |

## Left out

- Time zones. S3 `LastModified` values are timezone-aware and `utcnow()` is naive, so Python's comparison between them can raise `TypeError`. Here every timestamp is naive and all of them share one order.
- Iso.Parse: accepts the forms the C parser of Python 3.7–3.10 `fromisoformat` accepts for naive datetimes. These are a date alone, or a date, one separator character, then `HH`, `HH:MM` or `HH:MM:SS`. A `.` after any of those fields starts a fraction of exactly three or six digits running to the end; after the seconds a `:` starts one too. UTC offsets, which give an aware datetime, and the additional spellings of Python 3.11 and later are treated as unparsable.
- Iso.Strip: whitespace is the set `str.isspace()` holds for. The lock body's UTF-8 decoding is not modelled: a body is already text.
- Trigger.Handler: exceptions from `start_execution` itself (an unset ARN, a service error) are not modelled, so the state machine ARNs are plain strings that are always set. In the source they escape the handler. The response of `start_execution` is reduced to the ARN started; the service-assigned execution ARN is left out, and its `startDate` appears only as the reason `json.dumps` raises (`Trigger.Encodable`).
- UnguardedTrigger.Handler: the same holds for the earlier trigger's `start_execution` calls.
- Trigger.Decide: a consistent snapshot cannot produce "file exists but its `LastModified` lookup fails". That race is covered only at the level of call answers (`Trigger.MissingTimestampNeverStarts`).
- LockWriter.Handler: an event field set to JSON `null` is not distinguished from an absent field, and non-string values are not modelled.
- Environment loading, including the `MOENRO_FILE1` variable name: an unset variable is simply a `None` configuration value, which behaves as a missing file. The lock key the trigger reads is configuration; `Watermark.WritesLockOf` states when it names the object the lock lambda writes.
- Logging, the text of the JSON response bodies (only whether `json.dumps` succeeds is modelled), and the unused `input_payload` dictionaries.
- Concurrency between overlapping trigger runs and the lock writer. There is no conditional write in the source, so a race cannot be excluded.
- The rest of the ETL jobs: `prices_processing`, a floating-point rolling mean; `join_dataframes`, whose meaning is pandas' `merge`; the S3 script bodies; `raw_to_silver_job.py` (CSV munging, rolling-mean imputation, Glue catalog calls); and `load_job.py`, which has no logic.
- TrendExpansion.TrendProcessing: dates are whole day numbers. Parquet reading, `pd.to_datetime` and any time-of-day part of `Week` are left out.

## Findings

| source | as written | input that shows it | evidently intended | confidence | as-written member | corrected member |
|---|---|---|---|---|---|---|
| lambda_functions/trigger_lambda_function.py:137-142 | the body is `json.dumps` of the `start_execution` responses, each of which holds `startDate`, a `datetime`; the default encoder raises `TypeError`, after the state machine was started | both BTC files present and no lock: `arn:btc` is started, then the handler raises (`Scenarios.FirstRunRaises` gives a worked instance) | status 200 with the executions in the body | high, not executed | Trigger.Handler, Trigger.StartThenRaise | Trigger.IntendedHandler |
| lambda_function.py:78-84 | the same `json.dumps` over the list of `start_execution` responses | both BTC files present: `arn:btc` is started, then the handler raises | status 200 with the list of executions | high, not executed | UnguardedTrigger.Handler, UnguardedTrigger.StartThenRaise | UnguardedTrigger.IntendedHandler |

Both handlers make the same starts as their intended versions
(`StartThenRaise`), and the rest of the model reasons about starts and
decisions, so it holds for either. A raised error matters beyond the
response: an invocation that fails may be retried by its caller, and each
retry starts the state machine again until a lock is written.

