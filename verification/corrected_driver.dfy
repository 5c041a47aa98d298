/**
  The driver as evidently intended: `error = None` at the top of every
  iteration instead of once before the loop, so only an iteration that
  actually caught a retriable failure backs off.
 */
module CorrectedDriver {
  import opened Results
  import opened RetryPolicy
  import opened UploadDriver
  import opened DriverProperties

  /** One iteration with the error cleared before the `try` statement: only
      an iteration that caught a retriable failure backs off, and a response
      with an `'id'` is always reported as uploaded. */
  function CorrectedStep(st: State, a: Attempt): (step: StepResult)
    ensures step.slept.Some? ==> a.outcome.Raises? && IsRetriable(a.outcome.failure)
    ensures a.outcome.Completed? && "id" in a.outcome.response ==>
      step == Stop(Uploaded(a.outcome.response["id"]), None)
    ensures a.outcome.InProgress? ==> step == Continue(State(st.retry, None), None)
  {
    Step(State(st.retry, None), a)
  }

  /** The number of chunk calls that raised a retriable failure. */
  function CountRetriable(attempts: seq<Attempt>): (n: nat)
    ensures n <= |attempts|
  {
    if |attempts| == 0 then 0
    else (if RetriableAttempt(attempts[0]) then 1 else 0) + CountRetriable(attempts[1..])
  }

  function CorrectedDrive(attempts: seq<Attempt>, st: State): (run: Run)
    ensures run.chunkCalls <= |attempts|
    ensures run.end.OutOfInput? ==> run.chunkCalls == |attempts|
    ensures SleepsFrom(run.sleeps, st.retry)
    decreases |attempts|
  {
    if |attempts| == 0 then Run(OutOfInput, 0, [])
    else
      StepCountsSleeps(State(st.retry, None), attempts[0]);
      match CorrectedStep(st, attempts[0])
      case Stop(end, slept) => Run(end, 1, SleepList(slept))
      case Continue(next, slept) =>
        var rest := CorrectedDrive(attempts[1..], next);
        Run(rest.end, rest.chunkCalls + 1, SleepList(slept) + rest.sleeps)
  }

  /** Only iterations that caught a retriable failure sleep: a corrected run
      sleeps at most once per retriable failure it consumed. */
  lemma {:induction false} CorrectedSleepsOnlyOnFailures(attempts: seq<Attempt>, st: State)
    ensures var run := CorrectedDrive(attempts, st);
      |run.sleeps| <= CountRetriable(attempts[..run.chunkCalls])
    decreases |attempts|
  {
    if |attempts| > 0 {
      var run := CorrectedDrive(attempts, st);
      var step := CorrectedStep(st, attempts[0]);
      var prefix := attempts[..run.chunkCalls];
      assert prefix[0] == attempts[0];
      assert step.slept.Some? ==> RetriableAttempt(attempts[0]);
      if step.Continue? {
        var rest := CorrectedDrive(attempts[1..], step.next);
        CorrectedSleepsOnlyOnFailures(attempts[1..], step.next);
        assert prefix[1..] == attempts[1..][..rest.chunkCalls];
      }
    }
  }

  /** Progress ticks and `k` retriable failures, then a successful response:
      the corrected driver reports the upload after exactly `k` sleeps,
      provided the `k` failures fit in the retry budget. */
  lemma {:induction false} CorrectedSuccessAfterFailures(attempts: seq<Attempt>, st: State)
    requires |attempts| >= 1
    requires forall i :: 0 <= i < |attempts| - 1 ==> KeepsLooping(attempts[i])
    requires Succeeds(attempts[|attempts| - 1])
    requires st.retry + CountRetriable(attempts) <= MaxRetries
    ensures var run := CorrectedDrive(attempts, st);
      && run.end == Uploaded(attempts[|attempts| - 1].outcome.response["id"])
      && run.chunkCalls == |attempts|
      && |run.sleeps| == CountRetriable(attempts)
    decreases |attempts|
  {
    var a := attempts[0];
    var step := CorrectedStep(st, a);
    if |attempts| == 1 {
      assert step == Stop(Uploaded(a.outcome.response["id"]), None);
      assert CountRetriable(attempts) == 0;
    } else {
      assert KeepsLooping(a);
      var rest := attempts[1..];
      assert forall i :: 0 <= i < |rest| - 1 ==> KeepsLooping(rest[i]) by {
        forall i | 0 <= i < |rest| - 1
          ensures KeepsLooping(rest[i])
        {
          assert rest[i] == attempts[i + 1];
        }
      }
      assert rest[|rest| - 1] == attempts[|attempts| - 1];
      assert step.Continue?;
      assert |SleepList(step.slept)| == (if RetriableAttempt(a) then 1 else 0);
      CorrectedSuccessAfterFailures(rest, step.next);
    }
  }

  /** Without any retriable failure the fix changes nothing. */
  lemma {:induction false} CorrectedAgreesWithoutFailures(attempts: seq<Attempt>)
    requires NoRetriableFailure(attempts)
    ensures CorrectedDrive(attempts, Start) == Upload(attempts)
    decreases |attempts|
  {
    if |attempts| > 0 {
      DriveUnfold(attempts, Start);
      assert !RetriableAttempt(attempts[0]);
      if Step(Start, attempts[0]).Continue? {
        assert Step(Start, attempts[0]) == Continue(Start, None);
        assert NoRetriableFailure(attempts[1..]) by {
          forall i | 0 <= i < |attempts[1..]|
            ensures !RetriableAttempt(attempts[1..][i])
          {
            assert attempts[1..][i] == attempts[i + 1];
          }
        }
        CorrectedAgreesWithoutFailures(attempts[1..]);
      }
    }
  }

  /** `n` server errors and then a success hold `n` retriable failures. */
  lemma {:induction false} CountServerErrors(n: nat, r: Jitter, id: string)
    ensures CountRetriable(seq(n, _ => ServerError(r)) + [Success(id)]) == n
  {
    var attempts := seq(n, _ => ServerError(r)) + [Success(id)];
    if n == 0 {
      assert attempts == [Success(id)];
    } else {
      assert attempts[1..] == seq(n - 1, _ => ServerError(r)) + [Success(id)];
      CountServerErrors(n - 1, r, id);
    }
  }

  /** Three 503 errors and then `{'id': 'abc'}`: uploaded after three sleeps. */
  lemma CorrectedThreeServerErrorsThenSuccess(r: Jitter)
    ensures var run := CorrectedDrive([ServerError(r), ServerError(r), ServerError(r), Success("abc")], Start);
      run.end == Uploaded("abc") && run.chunkCalls == 4 && |run.sleeps| == 3
  {
    var attempts := [ServerError(r), ServerError(r), ServerError(r), Success("abc")];
    assert attempts == seq(3, _ => ServerError(r)) + [Success("abc")];
    CountServerErrors(3, r, "abc");
    CorrectedSuccessAfterFailures(attempts, Start);
  }

  /** Ten 503 errors and then `{'id': 'abc'}`: the corrected driver reports
      the upload, after ten sleeps. */
  lemma CorrectedTenServerErrorsThenSuccess(r: Jitter)
    ensures var run := CorrectedDrive(seq(10, _ => ServerError(r)) + [Success("abc")], Start);
      run.end == Uploaded("abc") && run.chunkCalls == 11 && |run.sleeps| == 10
  {
    var attempts := seq(10, _ => ServerError(r)) + [Success("abc")];
    CountServerErrors(10, r, "abc");
    CorrectedSuccessAfterFailures(attempts, Start);
  }
}
