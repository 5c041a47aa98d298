/**
  What the resumable-upload driver guarantees, stated over every script of
  chunk outcomes.
 */
module DriverProperties {
  import opened Results
  import opened RetryPolicy
  import opened UploadDriver

  /** The chunk call raised a failure that one of the handlers catches. */
  predicate RetriableAttempt(a: Attempt) {
    a.outcome.Raises? && IsRetriable(a.outcome.failure)
  }

  /** The chunk call leaves `response` at `None`: a progress tick or a caught failure. */
  predicate KeepsLooping(a: Attempt) {
    a.outcome.InProgress? || RetriableAttempt(a)
  }

  /** The chunk call returned a final response carrying an `'id'`. */
  predicate Succeeds(a: Attempt) {
    a.outcome.Completed? && "id" in a.outcome.response
  }

  predicate NoRetriableFailure(attempts: seq<Attempt>) {
    forall i :: 0 <= i < |attempts| ==> !RetriableAttempt(attempts[i])
  }

  predicate AllRetriable(attempts: seq<Attempt>) {
    forall i :: 0 <= i < |attempts| ==> RetriableAttempt(attempts[i])
  }

  /** Failure classification and what one iteration does with each class:
      an `HttpError` is retriable exactly for 500, 502, 503 and 504, every
      transport failure is retriable, nothing else is. A non-retriable
      failure is re-raised with the counter untouched and no sleep; a
      retriable one increments the counter and sleeps, or exits once the
      counter passes `MaxRetries`. */
  lemma FailureStep(st: State, f: Failure, r: Jitter)
    ensures IsRetriable(f) <==> (f.HttpError? && f.status in {500, 502, 503, 504}) || f.Transport?
    ensures !IsRetriable(f) <==> Step(st, Attempt(Raises(f), r)) == Stop(Raised(f), None)
    ensures IsRetriable(f) && st.retry < MaxRetries ==>
      Step(st, Attempt(Raises(f), r)) ==
        Continue(State(st.retry + 1, Some(f)), Some(Sleep(st.retry + 1, Pow2(st.retry + 1), SleepSeconds(st.retry + 1, r), f)))
    ensures IsRetriable(f) && st.retry >= MaxRetries ==>
      Step(st, Attempt(Raises(f), r)) == Stop(Exited(NoLongerRetrying), None)
  {
  }

  /** A non-retriable failure ends the run on the spot: one chunk call, no sleep. */
  lemma FatalFailureEndsRun(attempts: seq<Attempt>, st: State)
    requires |attempts| > 0 && attempts[0].outcome.Raises? && !IsRetriable(attempts[0].outcome.failure)
    ensures Drive(attempts, st) == Run(Raised(attempts[0].outcome.failure), 1, [])
  {
  }

  /** A final response ends the loop after that one call: without `'id'` it
      exits at once, whatever came before; with `'id'` it succeeds, except
      that a sticky error still runs the retry block, which sleeps once more
      or, with the counter already at `MaxRetries`, exits. */
  lemma FinalResponseEndsLoop(attempts: seq<Attempt>, st: State)
    requires |attempts| > 0 && attempts[0].outcome.Completed?
    ensures var response := attempts[0].outcome.response;
      var run := Drive(attempts, st);
      && run.chunkCalls == 1
      && ("id" !in response ==> run == Run(Exited(UnexpectedResponse(response)), 1, []))
      && ("id" in response && st.error.None? ==> run == Run(Uploaded(response["id"]), 1, []))
      && ("id" in response && st.error.Some? && st.retry < MaxRetries ==>
            run.end == Uploaded(response["id"]) && |run.sleeps| == 1)
      && ("id" in response && st.error.Some? && st.retry >= MaxRetries ==>
            run == Run(Exited(NoLongerRetrying), 1, []))
  {
  }

  /** Once the run has ended, later chunk outcomes are never requested. */
  lemma {:induction false} StopIgnoresLaterInput(attempts: seq<Attempt>, more: seq<Attempt>, st: State)
    requires !Drive(attempts, st).end.OutOfInput?
    ensures Drive(attempts + more, st) == Drive(attempts, st)
    decreases |attempts|
  {
    var all := attempts + more;
    DriveUnfold(attempts, st);
    DriveUnfold(all, st);
    assert all[0] == attempts[0];
    var step := Step(st, attempts[0]);
    if step.Continue? {
      assert all[1..] == attempts[1..] + more;
      StopIgnoresLaterInput(attempts[1..], more, step.next);
    }
  }

  /** A run depends only on the chunk outcomes it consumed. */
  lemma {:induction false} OnlyConsumedAttemptsMatter(attempts: seq<Attempt>, st: State)
    ensures var run := Drive(attempts, st);
      Drive(attempts[..run.chunkCalls], st) == run
    decreases |attempts|
  {
    var run := Drive(attempts, st);
    if |attempts| > 0 {
      var prefix := attempts[..run.chunkCalls];
      DriveUnfold(attempts, st);
      DriveUnfold(prefix, st);
      var step := Step(st, attempts[0]);
      if step.Continue? {
        var rest := Drive(attempts[1..], step.next);
        OnlyConsumedAttemptsMatter(attempts[1..], step.next);
        assert prefix[1..] == attempts[1..][..rest.chunkCalls];
      }
    }
  }

  /** From a state whose counter is at most `MaxRetries`, a stream of
      retriable failures exits after exactly `MaxRetries + 1 - retry` calls,
      having slept once per call but the last. */
  lemma {:induction false} RetriableFailuresExhaust(attempts: seq<Attempt>, st: State)
    requires st.retry <= MaxRetries
    requires |attempts| > MaxRetries - st.retry
    requires AllRetriable(attempts)
    ensures var run := Drive(attempts, st);
      && run.end == Exited(NoLongerRetrying)
      && run.chunkCalls == MaxRetries + 1 - st.retry
      && |run.sleeps| == MaxRetries - st.retry
    decreases MaxRetries - st.retry
  {
    assert RetriableAttempt(attempts[0]);
    DriveUnfold(attempts, st);
    FailureStep(st, attempts[0].outcome.failure, attempts[0].jitter);
    if st.retry < MaxRetries {
      var step := Step(st, attempts[0]);
      assert AllRetriable(attempts[1..]) by {
        forall i | 0 <= i < |attempts[1..]|
          ensures RetriableAttempt(attempts[1..][i])
        {
          assert attempts[1..][i] == attempts[i + 1];
        }
      }
      RetriableFailuresExhaust(attempts[1..], step.next);
    }
  }

  /** A server that keeps failing with retriable errors gets `next_chunk`
      called exactly 11 times, with exactly 10 sleeps, and then the process exits. */
  lemma PersistentFailureExits(attempts: seq<Attempt>)
    requires |attempts| > MaxRetries
    requires AllRetriable(attempts)
    ensures var run := Upload(attempts);
      && run.end == Exited(NoLongerRetrying)
      && run.chunkCalls == 11
      && |run.sleeps| == 10
  {
    RetriableFailuresExhaust(attempts, Start);
  }

  /** Every sleep of a run lies in [0, 2 ** retry) for its counter value
      1..10, hence below 1024 seconds, and the counters of successive
      sleeps are 1, 2, 3, ... */
  lemma SleepsBounded(attempts: seq<Attempt>)
    ensures var sleeps := Upload(attempts).sleeps;
      forall i :: 0 <= i < |sleeps| ==>
        && sleeps[i].retry == i + 1
        && 1 <= sleeps[i].retry <= 10
        && sleeps[i].maxSleep == Pow2(sleeps[i].retry) <= 1024
        && 0.0 <= sleeps[i].seconds < sleeps[i].maxSleep as real
  {
    var sleeps := Upload(attempts).sleeps;
    assert SleepsFrom(sleeps, 0);
    forall i | 0 <= i < |sleeps|
      ensures sleeps[i].maxSleep <= 1024
    {
      assert SleepAfter(sleeps[i], i);
      Pow2Monotone(sleeps[i].retry, MaxRetries);
      MaxSleepCeiling();
    }
  }

  /** Sticky error: with an error already caught, every later iteration runs
      the retry block, a progress tick and a successful response included. */
  lemma StickyErrorStep(st: State, a: Attempt)
    requires st.error.Some?
    requires a.outcome.InProgress? || Succeeds(a)
    ensures st.retry < MaxRetries ==>
      && Step(st, a).slept.Some?
      && Step(st, a).slept.value.retry == st.retry + 1
      && Step(st, a).slept.value.cause == st.error.value
    ensures st.retry >= MaxRetries ==> Step(st, a) == Stop(Exited(NoLongerRetrying), None)
  {
  }

  /** Sticky error over a whole run: once an error has been caught, at most
      `MaxRetries + 1 - retry` more chunks are requested, every call but
      possibly the last sleeps, and a run that ends in success (or runs out
      of input) slept on every one of its calls. */
  lemma {:induction false} StickyErrorSleepsEveryCall(attempts: seq<Attempt>, st: State)
    requires st.error.Some? && st.retry <= MaxRetries
    ensures var run := Drive(attempts, st);
      && run.chunkCalls <= MaxRetries + 1 - st.retry
      && |run.sleeps| + 1 >= run.chunkCalls
      && (run.end.Uploaded? || run.end.OutOfInput? ==> |run.sleeps| == run.chunkCalls)
    decreases |attempts|
  {
    if |attempts| > 0 {
      DriveUnfold(attempts, st);
      var step := Step(st, attempts[0]);
      if step.Continue? {
        assert step.next.error.Some? && step.next.retry == st.retry + 1;
        StickyErrorSleepsEveryCall(attempts[1..], step.next);
      }
    }
  }

  /** Without a retriable failure the counter stays at zero and nothing
      sleeps: progress ticks leave the state exactly as it was. */
  lemma {:induction false} CleanRunNeverSleeps(attempts: seq<Attempt>)
    requires NoRetriableFailure(attempts)
    ensures var run := Upload(attempts);
      run.sleeps == [] && run.end != Exited(NoLongerRetrying)
    decreases |attempts|
  {
    if |attempts| > 0 {
      DriveUnfold(attempts, Start);
      var step := Step(Start, attempts[0]);
      assert !RetriableAttempt(attempts[0]);
      if step.Continue? {
        assert step == Continue(Start, None);
        assert NoRetriableFailure(attempts[1..]) by {
          forall i | 0 <= i < |attempts[1..]|
            ensures !RetriableAttempt(attempts[1..][i])
          {
            assert attempts[1..][i] == attempts[i + 1];
          }
        }
        CleanRunNeverSleeps(attempts[1..]);
      }
    }
  }

  /** Progress ticks and then a response with an `'id'` on call `n`: the
      video is uploaded after exactly `n` calls and no sleep. */
  lemma {:induction false} SuccessAfterTicks(attempts: seq<Attempt>, n: nat)
    requires 1 <= n <= |attempts|
    requires forall i :: 0 <= i < n - 1 ==> attempts[i].outcome.InProgress?
    requires Succeeds(attempts[n - 1])
    ensures Upload(attempts) == Run(Uploaded(attempts[n - 1].outcome.response["id"]), n, [])
    decreases n
  {
    DriveUnfold(attempts, Start);
    if n > 1 {
      assert Step(Start, attempts[0]) == Continue(Start, None);
      SuccessAfterTicks(attempts[1..], n - 1);
    }
  }

  /** Sticky error, whole story: with an error already caught, a run of
      progress ticks and retriable failures followed by a successful
      response sleeps on every call, the success included; if the counter
      would pass `MaxRetries` first, the process exits instead of
      reporting the upload that the server accepted. */
  lemma {:induction false} SuccessAfterStickyError(attempts: seq<Attempt>, st: State)
    requires st.error.Some? && st.retry <= MaxRetries
    requires |attempts| >= 1
    requires forall i :: 0 <= i < |attempts| - 1 ==> KeepsLooping(attempts[i])
    requires Succeeds(attempts[|attempts| - 1])
    ensures var run := Drive(attempts, st);
      if st.retry + |attempts| <= MaxRetries then
        && run.end == Uploaded(attempts[|attempts| - 1].outcome.response["id"])
        && run.chunkCalls == |attempts|
        && |run.sleeps| == |attempts|
      else
        && run.end == Exited(NoLongerRetrying)
        && run.chunkCalls == MaxRetries + 1 - st.retry
        && |run.sleeps| == MaxRetries - st.retry
    decreases |attempts|
  {
    DriveUnfold(attempts, st);
    var step := Step(st, attempts[0]);
    if |attempts| > 1 {
      assert KeepsLooping(attempts[0]);
      if st.retry < MaxRetries {
        assert step.Continue? && step.next.error.Some? && step.next.retry == st.retry + 1;
        var rest := attempts[1..];
        assert forall i :: 0 <= i < |rest| - 1 ==> KeepsLooping(rest[i]) by {
          forall i | 0 <= i < |rest| - 1
            ensures KeepsLooping(rest[i])
          {
            assert rest[i] == attempts[i + 1];
          }
        }
        assert rest[|rest| - 1] == attempts[|attempts| - 1];
        SuccessAfterStickyError(rest, step.next);
      } else {
        assert step == Stop(Exited(NoLongerRetrying), None);
      }
    }
  }

  function ServerError(r: Jitter): Attempt {
    Attempt(Raises(HttpError(503, "Service Unavailable")), r)
  }

  function Success(id: string): Attempt {
    Attempt(Completed(map["id" := id]), 0.0)
  }

  /** Three 503 errors and then `{'id': 'abc'}`: the upload succeeds, but
      the sticky error makes the successful iteration sleep too, so four
      sleeps happen, not three. */
  lemma ThreeServerErrorsThenSuccess(r: Jitter)
    ensures var run := Upload([ServerError(r), ServerError(r), ServerError(r), Success("abc")]);
      run.end == Uploaded("abc") && run.chunkCalls == 4 && |run.sleeps| == 4
  {
    var attempts := [ServerError(r), ServerError(r), ServerError(r), Success("abc")];
    DriveUnfold(attempts, Start);
    var next := Step(Start, attempts[0]).next;
    assert next == State(1, Some(attempts[0].outcome.failure));
    SuccessAfterStickyError(attempts[1..], next);
  }

  /** Ten 503 errors and then `{'id': 'abc'}`: the server accepted the
      video, yet the retry block on that last iteration pushes the counter
      to 11 and the process exits with "No longer attempting to retry." */
  lemma TenServerErrorsThenSuccessExits(r: Jitter)
    ensures var attempts := seq(10, _ => ServerError(r)) + [Success("abc")];
      var run := Upload(attempts);
      run.end == Exited(NoLongerRetrying) && run.chunkCalls == 11 && |run.sleeps| == 10
  {
    var attempts := seq(10, _ => ServerError(r)) + [Success("abc")];
    DriveUnfold(attempts, Start);
    var next := Step(Start, attempts[0]).next;
    assert next == State(1, Some(attempts[0].outcome.failure));
    var rest := attempts[1..];
    assert forall i :: 0 <= i < |rest| - 1 ==> KeepsLooping(rest[i]);
    SuccessAfterStickyError(rest, next);
  }
}
