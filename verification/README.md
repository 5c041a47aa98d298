# Resumable YouTube upload: retry driver and request construction

This project models, in Dafny, the only part of the video post-production
uploader that has logic of its own: the resumable-upload retry loop
`Youtube._resumable_upload` in `youtube.py`, its retry constants, and the
construction of the `videos().insert` request in `Youtube._initialize_upload`.

- `RetryPolicy` (`retry_policy.dfy`): `MAX_RETRIES = 10`, the retriable HTTP
  status codes 500/502/503/504, the retriable exception classes, and the
  full-jitter backoff `random.random() * 2 ** retry`.
- `UploadDriver` (`upload_driver.dfy`): the loop as written. The successive
  results of `request.next_chunk()` are a finite script of `Attempt`s, each
  holding the chunk outcome (progress tick, final response, or raised failure)
  and the value `random.random()` returns if that iteration sleeps. `Step` is
  one loop iteration, `Drive` the loop from a given state, `Upload` the loop
  from `error = None, retry = 0`. A run reports how it ended (`Uploaded(id)`,
  `Exited(reason)` for the two `exit(...)` calls, `Raised(failure)` for a
  re-raised exception, or `OutOfInput` when the script ends while the loop
  still wants a chunk), how many chunks were requested, and every sleep.
  `ResumableUpload` is the loop written statement by statement, proved equal
  to `Upload`.
- `DriverProperties` (`driver_properties.dfy`): lemmas about every script:
  classification, immediate termination on fatal failures and final
  responses, exhaustion after 11 calls and 10 sleeps, sleep bounds, and the
  sticky error.
- `CorrectedDriver` (`corrected_driver.dfy`): the loop with the error cleared
  on every iteration (see Findings).
- `UploadRequest` (`upload_request.dfy`): the `keywords` to `tags` split, the
  request body, the `part` string and the `KeyError` raised for a missing option.

The code's `error` variable is set to `None` once, before the loop, and never
cleared. After the first retriable failure, every later iteration therefore
runs the retry block: progress ticks and the final successful response also
increment the counter and sleep. The model reproduces this. So three 503
errors followed by a successful response give four sleeps, not three
(`DriverProperties.ThreeServerErrorsThenSuccess`). The code also never checks
the privacy status against `VALID_PRIVACY_STATUSES`: any string, `"hidden"`
included, is sent to the server (`UploadRequest.PrivacyStatusNotValidated`).

## Model

| member | source | states |
|---|---|---|
| `RetryPolicy.SleepSeconds` | youtube.py:134-135 | the backoff delay lies in the half-open interval [0, 2 ** retry) |
| `RetryPolicy.BackoffDoubles` | youtube.py:134-135 | with no retry the delay is the jitter itself, and each further retry doubles the delay drawn from the same jitter |
| `RetryPolicy.EveryDelayReachable` | youtube.py:134-135 | full jitter: every delay in [0, 2 ** retry) is produced by some jitter in [0, 1) |
| `RetryPolicy.IsRetriable` | youtube.py:119-126 | an HTTP error is retriable exactly for status 500, 502, 503 or 504, every exception of a `RETRIABLE_EXCEPTIONS` class is, and no other exception is |
| `RetryPolicy.Pow2Monotone` | youtube.py:134 | `2 ** retry` grows with the retry counter |
| `RetryPolicy.MaxSleepCeiling` | youtube.py:17 | the ceiling `2 ** MAX_RETRIES` is 1024 seconds |
| `UploadDriver.RetryBlock` | youtube.py:128-137 | with no caught error nothing happens; with one, the counter rises by exactly one and the iteration sleeps with a delay in [0, 2 ** retry), unless the counter passes 10, which exits with no sleep; the printed cause is the caught error |
| `UploadDriver.Step` | youtube.py:111-137 | only a progress tick or a caught failure keeps the loop going; an uncaught failure is re-raised and a response without `'id'` exits, both at once; an upload reports the response's `'id'`; a sleep uses this iteration's jitter at the incremented counter |
| `UploadDriver.StepCountsSleeps` | youtube.py:128-137 | an iteration moves the counter by one exactly when it sleeps, and the sleep's counter and ceiling match |
| `UploadDriver.Drive` | youtube.py:106-137 | a run never requests more chunks than the script holds, sleeps at most once per chunk, and its sleeps carry counters that count up by one with delays below `2 ** retry` |
| `UploadDriver.Upload` | youtube.py:106-137 | from a fresh start the sleeps carry counters 1, 2, 3, ... and there are at most 10 of them |
| `UploadDriver.Iteration` | youtube.py:111-137 | the try statement, its two handlers and the retry block compute exactly the iteration `Step` |
| `UploadDriver.ResumableUpload` | youtube.py:106-137 | the statement-by-statement loop produces the same run as the recursive driver |
| `DriverProperties.FailureStep` | youtube.py:119-126 | an HTTP error is retriable exactly for status 500, 502, 503 or 504, every transport exception is retriable, nothing else is; a non-retriable failure is re-raised with no counter change and no sleep; a retriable one increments the counter and sleeps, or exits past 10 |
| `DriverProperties.FatalFailureEndsRun` | youtube.py:119-124 | a failure outside both handlers ends the run after that one call with no sleep |
| `DriverProperties.FinalResponseEndsLoop` | youtube.py:110-118 | a final response stops the loop after that call; without `'id'` it exits at once whatever came before; with `'id'` it succeeds, sleeping once more or exiting when an earlier error is still set |
| `DriverProperties.StopIgnoresLaterInput` | youtube.py:110-118 | after the run has ended, no further chunk outcome is consulted |
| `DriverProperties.OnlyConsumedAttemptsMatter` | youtube.py:110-113 | the run is determined by the chunks it requested |
| `DriverProperties.RetriableFailuresExhaust` | youtube.py:128-132 | from counter `k`, retriable failures exit after exactly `11 - k` calls and `10 - k` sleeps |
| `DriverProperties.PersistentFailureExits` | youtube.py:128-132 | a stream of retriable failures gets exactly 11 chunk requests and 10 sleeps, then exits |
| `DriverProperties.SleepsBounded` | youtube.py:134-137 | every sleep has counter 1..10, ceiling `2 ** retry` at most 1024, and a delay in [0, ceiling) |
| `DriverProperties.StickyErrorStep` | youtube.py:108-137 | with an error already caught, a progress tick or a successful response still increments the counter and sleeps, or exits at the limit |
| `DriverProperties.StickyErrorSleepsEveryCall` | youtube.py:108-137 | once an error is caught, at most `11 - retry` more chunks are requested and every one of them but possibly the last sleeps; a successful end has slept on every call |
| `DriverProperties.CleanRunNeverSleeps` | youtube.py:108-128 | without a retriable failure the counter never moves, nothing sleeps and the retry limit is never hit |
| `DriverProperties.SuccessAfterTicks` | youtube.py:110-116 | progress ticks and a response with `'id'` on call `n` upload after exactly `n` calls and zero sleeps |
| `DriverProperties.SuccessAfterStickyError` | youtube.py:108-137 | with an error set, ticks and retriable failures then success either upload after sleeping on every call or, if the counter passes 10 first, exit |
| `DriverProperties.ThreeServerErrorsThenSuccess` | youtube.py:108-137 | three 503 errors then `{'id': 'abc'}` upload `abc` after four chunk calls and four sleeps |
| `DriverProperties.TenServerErrorsThenSuccessExits` | youtube.py:128-132 | ten 503 errors then `{'id': 'abc'}` exit with "No longer attempting to retry." after 11 calls |
| `CorrectedDriver.CorrectedStep` | youtube.py:108-137 | with the error cleared each iteration, only a caught retriable failure backs off, a progress tick leaves the counter alone, and a response with `'id'` is always reported as uploaded |
| `CorrectedDriver.CorrectedDrive` | youtube.py:106-137 | the loop with the error cleared each iteration keeps within its script and keeps the same sleep bounds |
| `CorrectedDriver.CorrectedSleepsOnlyOnFailures` | youtube.py:119-137 | with the error cleared each iteration, a run sleeps at most once per retriable failure it consumed |
| `CorrectedDriver.CorrectedSuccessAfterFailures` | youtube.py:108-137 | with the error cleared each iteration, ticks and `k` retriable failures within the budget then success upload after exactly `k` sleeps |
| `CorrectedDriver.CorrectedAgreesWithoutFailures` | youtube.py:108-137 | without retriable failures the corrected loop and the loop as written give the same run |
| `CorrectedDriver.CorrectedThreeServerErrorsThenSuccess` | youtube.py:108-137 | with the error cleared each iteration, three 503 errors then success upload after three sleeps |
| `CorrectedDriver.CorrectedTenServerErrorsThenSuccess` | youtube.py:108-137 | with the error cleared each iteration, ten 503 errors then success upload after ten sleeps |
| `UploadRequest.Split` | youtube.py:84 | `str.split(',')` gives one more piece than there are commas, and no piece holds a comma |
| `UploadRequest.JoinSplit` | youtube.py:84 | joining the split pieces with the separator gives back the string |
| `UploadRequest.JoinCount` | youtube.py:99 | `sep.join` of separator-free pieces holds exactly one separator fewer than there are pieces, and starts with the first piece |
| `UploadRequest.Part` | youtube.py:99 | `','.join(body.keys())` splits back into the body's keys |
| `UploadRequest.SplitJoin` | youtube.py:99 | splitting a join of comma-free pieces gives back the pieces |
| `UploadRequest.Tags` | youtube.py:82-84 | `tags` is `None` exactly when `keywords` is absent or empty; otherwise it has comma count plus one comma-free pieces |
| `UploadRequest.TagsRoundTrip` | youtube.py:82-84 | joining the tags with `','` gives back the keywords |
| `UploadRequest.FirstMissingRequired` | youtube.py:86-101 | the required options are read in the order title, description, category, status, file |
| `UploadRequest.BuildInsertRequest` | youtube.py:82-102 | the request is built exactly when every required option is present, otherwise `KeyError` names the first missing one; the body carries the options' values, the media upload is resumable with chunk size -1, and `part` splits back into the body's keys |
| `UploadRequest.PartIsSnippetStatus` | youtube.py:86-99 | the `part` argument is `"snippet,status"` |
| `UploadRequest.InitializeUpload` | youtube.py:81-104 | a missing required option raises `KeyError` naming the first one missing, before any chunk is requested; with all present the upload loop runs on the request |
| `UploadRequest.PrivacyStatusNotValidated` | youtube.py:93-95 | a privacy status outside the valid three, such as `"hidden"`, is accepted and sent unchanged |

## Left out

- `post_process.py`: audio and video editing delegated to librosa, parselmouth, moviepy and ffmpeg.
- Credential bootstrap, refresh and token-file writes (`create_channel_creds`, `upload_youtube`, youtube.py:39-79): file I/O and Google auth library calls.
- The real `next_chunk`, `MediaFileUpload` and `videos().insert`: network and library calls, represented by the script of chunk outcomes and the `InsertRequest` record.
- `time.sleep` and `random.random`: the random value is part of each scripted attempt, and a sleep is recorded in the run's trace instead of being performed.
- The `print` diagnostics and the exact text of the exit and error messages: exits carry a typed reason, and each sleep records the error that was printed before it.
- `httplib2.RETRIES = 1` (youtube.py:15): retries inside httplib2 happen below `next_chunk` and are invisible to the loop.
- The response JSON is reduced to its top-level string fields, and option values to strings.
- RetryPolicy.EveryDelayReachable: the jitter is a real in [0, 1), whereas `random.random()` returns a 53-bit float, a multiple of 2 ** -53; the code can only produce delays that are multiples of 2 ** (retry - 53), so only the model's jitter reaches every delay. The bounds and the doubling carry over unchanged, since multiplying by a power of two up to 1024 is exact in floating point.
- UploadRequest.BuildInsertRequest: an option that is `None` is treated as absent, so a required key such as `title` holding `None` raises `KeyError` in the model, whereas the code reads the `None` and still builds the request.
- `exit(...)` raises `SystemExit`, which no handler in the loop catches; the model ends the run with `Exited` at that point.
- `OutOfInput` has no counterpart in the code, whose `next_chunk` can be called indefinitely; it only marks a script that ran out.

## Findings

| source | as written | input that shows it | evidently intended | confidence | as-written member | corrected member |
|---|---|---|---|---|---|---|
| youtube.py:108 | `error = None` runs once before the loop and is never reset, so every iteration after the first retriable failure increments `retry` and sleeps, the successful one included | ten HTTP 503 errors, then a final response `{'id': 'abc'}`: the upload succeeded on the server, yet the retry block on that last iteration takes `retry` to 11 and the process exits with "No longer attempting to retry." | clear `error` at the start of each iteration, so that only iterations that caught a retriable failure back off, and a successful response is always reported | medium, not executed | `DriverProperties.TenServerErrorsThenSuccessExits` | `CorrectedDriver.CorrectedSuccessAfterFailures` |

`UploadRequest.InitializeUpload` keeps the loop as written, since it describes
what the code does; `CorrectedDriver` states the behaviour the loop evidently
intends, and `CorrectedDriver.CorrectedAgreesWithoutFailures` shows the two
differ only once a retriable failure has occurred.
