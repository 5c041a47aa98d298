/**
  The resumable-upload driver (`Youtube._resumable_upload`), modelled as
  written: `next_chunk` is a finite script of attempts, the driver a state
  machine over it, and every backoff sleep is recorded in a trace.

  Deliberately reproduced quirk: the caught error is never cleared, so once a
  retriable failure has happened, every later iteration runs the retry block,
  including progress ticks and the final successful response.
 */
module UploadDriver {
  import opened Results
  import opened RetryPolicy

  /** The final JSON response of the upload, reduced to its top-level string fields. */
  type Response = map<string, string>

  /** What one call of `request.next_chunk()` did. */
  datatype ChunkOutcome =
    | InProgress                  // returned a status and no response
    | Completed(response: Response)  // returned a final response
    | Raises(failure: Failure)    // raised an exception

  /** One loop iteration's input: the chunk outcome, and the value that
      `random.random()` returns if that iteration gets to sleep. */
  datatype Attempt = Attempt(outcome: ChunkOutcome, jitter: Jitter)

  /** The loop's local variables `retry` and `error` (the last caught retriable failure). */
  datatype State = State(retry: nat, error: Option<Failure>)

  /** The state before the first iteration: `error = None`, `retry = 0`. */
  const Start: State := State(0, None)

  /** One backoff: the retry counter after the increment, `max_sleep`, the
      slept seconds, and the (possibly stale) error printed before it. */
  datatype Sleep = Sleep(retry: nat, maxSleep: nat, seconds: real, cause: Failure)

  /** The two `exit(...)` calls. */
  datatype ExitReason =
    | UnexpectedResponse(response: Response)  // "The upload failed with an unexpected response"
    | NoLongerRetrying                        // "No longer attempting to retry."

  /** How a run ends. `OutOfInput` means the script of chunk outcomes ran out
      while the loop still wanted another chunk. */
  datatype Terminal =
    | Uploaded(id: string)
    | Exited(reason: ExitReason)
    | Raised(failure: Failure)
    | OutOfInput

  /** The effect of one loop iteration. */
  datatype StepResult =
    | Continue(next: State, slept: Option<Sleep>)
    | Stop(end: Terminal, slept: Option<Sleep>)

  /** A whole run: how it ended, how many times `next_chunk` was called, and the sleeps. */
  datatype Run = Run(end: Terminal, chunkCalls: nat, sleeps: seq<Sleep>)

  /** A sleep taken right after the counter went from `from` to `from + 1`. */
  predicate SleepAfter(s: Sleep, from: nat) {
    && s.retry == from + 1
    && 1 <= s.retry <= MaxRetries
    && s.maxSleep == Pow2(s.retry)
    && 0.0 <= s.seconds < s.maxSleep as real
  }

  /** A trace of sleeps whose counters count up by one from `from + 1`. */
  predicate SleepsFrom(sleeps: seq<Sleep>, from: nat) {
    forall i :: 0 <= i < |sleeps| ==> SleepAfter(sleeps[i], from + i)
  }

  function SleepList(s: Option<Sleep>): seq<Sleep> {
    if s.Some? then [s.value] else []
  }

  /** The `if error is not None:` block, entered with the error as it stands
      after the try statement; `done` is the final `'id'` response, if any,
      which ends the loop once this block has run. */
  function RetryBlock(st: State, r: Jitter, done: Option<Terminal>): (step: StepResult)
    ensures st.error.None? ==> step.slept.None?
    ensures step.Continue? ==> done.None? && step.next.error == st.error
    ensures step.Continue? && step.slept.None? ==> step.next == st
    ensures step.Continue? && step.slept.Some? ==> step.next.retry == st.retry + 1
    ensures step.slept.Some? ==> SleepAfter(step.slept.value, st.retry) && step.slept.value.cause == st.error.value
    ensures st.error.Some? && st.retry < MaxRetries ==> step.slept.Some?
    ensures st.error.Some? && st.retry >= MaxRetries ==> step == Stop(Exited(NoLongerRetrying), None)
    ensures step.Stop? ==>
      if st.error.Some? && st.retry >= MaxRetries then step.end == Exited(NoLongerRetrying)
      else done.Some? && step.end == done.value
  {
    match st.error
    case None =>
      if done.Some? then Stop(done.value, None) else Continue(st, None)
    case Some(e) =>
      var retry := st.retry + 1;
      if retry > MaxRetries then
        Stop(Exited(NoLongerRetrying), None)
      else
        var s := Sleep(retry, Pow2(retry), SleepSeconds(retry, r), e);
        if done.Some? then Stop(done.value, Some(s))
        else Continue(State(retry, st.error), Some(s))
  }

  /** One iteration of `while response is None:`. Only a progress tick or a
      caught failure keeps the loop going; an uncaught failure and a response
      without `'id'` end it at once without touching the counter; a sleep
      always uses this iteration's jitter at the incremented counter. */
  function Step(st: State, a: Attempt): (step: StepResult)
    ensures step.Continue? ==> a.outcome.InProgress? || (a.outcome.Raises? && IsRetriable(a.outcome.failure))
    ensures a.outcome.Raises? && !IsRetriable(a.outcome.failure) ==> step == Stop(Raised(a.outcome.failure), None)
    ensures a.outcome.Completed? && "id" !in a.outcome.response ==>
      step == Stop(Exited(UnexpectedResponse(a.outcome.response)), None)
    ensures a.outcome.Completed? && "id" in a.outcome.response && step.end.Uploaded? ==>
      step.Stop? && step.end.id == a.outcome.response["id"]
    ensures step.slept.Some? ==> step.slept.value.seconds == SleepSeconds(st.retry + 1, a.jitter)
  {
    match a.outcome
    case InProgress =>
      RetryBlock(st, a.jitter, None)
    case Completed(response) =>
      if "id" in response then RetryBlock(st, a.jitter, Some(Uploaded(response["id"])))
      else Stop(Exited(UnexpectedResponse(response)), None)
    case Raises(f) =>
      if IsRetriable(f) then RetryBlock(State(st.retry, Some(f)), a.jitter, None)
      else Stop(Raised(f), None)
  }

  /** The counter only ever moves by one, and only together with a sleep. */
  lemma StepCountsSleeps(st: State, a: Attempt)
    ensures var step := Step(st, a);
      && (step.Continue? ==> step.next.retry == st.retry + |SleepList(step.slept)|)
      && (step.slept.Some? ==> SleepAfter(step.slept.value, st.retry))
  {
  }

  /** The driver loop from state `st` over the remaining script `attempts`. */
  function Drive(attempts: seq<Attempt>, st: State): (run: Run)
    ensures run.chunkCalls <= |attempts|
    ensures run.end.OutOfInput? ==> run.chunkCalls == |attempts|
    ensures |run.sleeps| <= run.chunkCalls
    ensures SleepsFrom(run.sleeps, st.retry)
    decreases |attempts|
  {
    if |attempts| == 0 then Run(OutOfInput, 0, [])
    else
      StepCountsSleeps(st, attempts[0]);
      match Step(st, attempts[0])
      case Stop(end, slept) => Run(end, 1, SleepList(slept))
      case Continue(next, slept) =>
        var rest := Drive(attempts[1..], next);
        Run(rest.end, rest.chunkCalls + 1, SleepList(slept) + rest.sleeps)
  }

  /** `_resumable_upload` on a fresh request. */
  function Upload(attempts: seq<Attempt>): (run: Run)
    ensures run.chunkCalls <= |attempts|
    ensures |run.sleeps| <= run.chunkCalls
    ensures |run.sleeps| <= MaxRetries
    ensures forall i :: 0 <= i < |run.sleeps| ==> run.sleeps[i].retry == i + 1
  {
    var run := Drive(attempts, Start);
    assert |run.sleeps| > MaxRetries ==> SleepAfter(run.sleeps[MaxRetries], MaxRetries);
    run
  }

  /** `run` preceded by `calls` calls that slept `sleeps`. */
  function After(calls: nat, sleeps: seq<Sleep>, run: Run): Run {
    Run(run.end, calls + run.chunkCalls, sleeps + run.sleeps)
  }

  /** One unfolding of `Drive`. */
  lemma DriveUnfold(attempts: seq<Attempt>, st: State)
    requires |attempts| > 0
    ensures var step := Step(st, attempts[0]);
      Drive(attempts, st) ==
        if step.Stop? then Run(step.end, 1, SleepList(step.slept))
        else After(1, SleepList(step.slept), Drive(attempts[1..], step.next))
  {
  }

  lemma AfterAfter(i: nat, sleeps: seq<Sleep>, j: nat, more: seq<Sleep>, run: Run)
    ensures After(i, sleeps, After(j, more, run)) == After(i + j, sleeps + more, run)
  {
    assert sleeps + (more + run.sleeps) == (sleeps + more) + run.sleeps;
  }

  /** The body of the `while` loop, statement by statement: the `try`
      statement with its two handlers, then the `if error is not None:` block.
      `end` is set when the loop stops (`exit`, `raise`, or a response with an
      `'id'`); otherwise `slept` is the backoff taken before the next chunk. */
  method Iteration(a: Attempt, error0: Option<Failure>, retry0: nat)
    returns (error: Option<Failure>, retry: nat, slept: Option<Sleep>, end: Option<Terminal>)
    ensures end.None? ==> Step(State(retry0, error0), a) == Continue(State(retry, error), slept)
    ensures end.Some? ==> Step(State(retry0, error0), a) == Stop(end.value, slept)
  {
    error, retry, slept, end := error0, retry0, None, None;
    var response: Option<Response> := None;
    match a.outcome {
      case InProgress =>
      case Completed(resp) =>
        if "id" in resp {
          response := Some(resp);
        } else {
          end := Some(Exited(UnexpectedResponse(resp)));
        }
      case Raises(f) =>
        if IsRetriable(f) {
          error := Some(f);
        } else {
          end := Some(Raised(f));
        }
    }
    if end.None? && error.Some? {
      retry := retry + 1;
      if retry > MaxRetries {
        end := Some(Exited(NoLongerRetrying));
      } else {
        var maxSleep := Pow2(retry);
        var seconds := SleepSeconds(retry, a.jitter);
        slept := Some(Sleep(retry, maxSleep, seconds, error.value));
      }
    }
    if end.None? && response.Some? {
      end := Some(Uploaded(response.value["id"]));
    }
  }

  /** The `while response is None:` loop of `_resumable_upload`, one chunk per iteration. */
  method ResumableUpload(attempts: seq<Attempt>) returns (run: Run)
    ensures run == Upload(attempts)
  {
    var error: Option<Failure> := None;
    var retry: nat := 0;
    var i := 0;
    var sleeps: seq<Sleep> := [];
    var end: Option<Terminal> := None;
    while end.None? && i < |attempts|
      invariant 0 <= i <= |attempts|
      invariant end.None? ==> Upload(attempts) == After(i, sleeps, Drive(attempts[i..], State(retry, error)))
      invariant end.Some? ==> Upload(attempts) == Run(end.value, i, sleeps)
      decreases |attempts| - i
    {
      assert attempts[i..][1..] == attempts[i + 1..];
      DriveUnfold(attempts[i..], State(retry, error));
      var slept;
      var i0, sleeps0, error0, retry0 := i, sleeps, error, retry;
      error, retry, slept, end := Iteration(attempts[i], error, retry);
      if end.None? {
        AfterAfter(i0, sleeps0, 1, SleepList(slept), Drive(attempts[i0 + 1..], State(retry, error)));
      }
      sleeps := sleeps + SleepList(slept);
      i := i + 1;
    }
    if end.None? {
      run := Run(OutOfInput, i, sleeps);
    } else {
      run := Run(end.value, i, sleeps);
    }
  }
}
