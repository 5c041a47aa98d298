/**
  The retry policy of the uploader: which failures of a chunk upload are
  worth retrying, how many retries are allowed, and how long to back off.
 */
module RetryPolicy {

  /** `MAX_RETRIES`: once the retry counter exceeds this, the upload is abandoned. */
  const MaxRetries: nat := 10

  /** `RETRIABLE_STATUS_CODES`: server errors that are retried. */
  const RetriableStatusCodes: seq<int> := [500, 502, 503, 504]

  /** The exception classes listed in `RETRIABLE_EXCEPTIONS`. A transport
      failure of kind `k` stands for an exception that is an instance of `k`
      (so `IOError` also covers its subclasses, such as a connection reset). */
  datatype TransportError =
    | HttpLib2Error
    | IOError
    | NotConnected
    | IncompleteRead
    | ImproperConnectionState
    | CannotSendRequest
    | CannotSendHeader
    | ResponseNotReady
    | BadStatusLine

  /** What a call to `next_chunk` can raise. */
  datatype Failure =
    | HttpError(status: int, content: string)          // googleapiclient's HttpError
    | Transport(kind: TransportError, message: string)  // an instance of a RETRIABLE_EXCEPTIONS class
    | Other(name: string, message: string)             // any other exception

  /** The failure is caught by one of the two handlers and leads to a retry
      step: an HTTP error only for the four listed server statuses, every
      exception of a `RETRIABLE_EXCEPTIONS` class, nothing else. */
  predicate IsRetriable(f: Failure)
    ensures f.HttpError? ==> (IsRetriable(f) <==> f.status in {500, 502, 503, 504})
    ensures f.Transport? ==> IsRetriable(f)
    ensures f.Other? ==> !IsRetriable(f)
  {
    match f
    case HttpError(status, _) => status in RetriableStatusCodes
    case Transport(_, _) => true
    case Other(_, _) => false
  }

  /** `2 ** n` on Python's unbounded integers. */
  function Pow2(n: nat): (p: nat)
    ensures p >= 1
  {
    if n == 0 then 1 else 2 * Pow2(n - 1)
  }

  lemma {:induction false} Pow2Monotone(m: nat, n: nat)
    requires m <= n
    ensures Pow2(m) <= Pow2(n)
    decreases n
  {
    if m < n {
      Pow2Monotone(m, n - 1);
    }
  }

  /** The backoff ceiling for the largest retry that still sleeps is 1024 seconds. */
  lemma MaxSleepCeiling()
    ensures Pow2(MaxRetries) == 1024
  {
  }

  /** The value of `random.random()`: a real in the half-open interval [0, 1). */
  type Jitter = r: real | 0.0 <= r < 1.0 witness 0.0

  /** A jitter in [0, 1) scaled by a positive ceiling lies in [0, ceiling). */
  lemma JitterScaled(r: Jitter, c: real)
    requires c > 0.0
    ensures 0.0 <= r * c < c
  {
  }

  /** A jitter scaled by a whole ceiling of at least one. */
  function Jittered(r: Jitter, ceiling: nat): (s: real)
    requires ceiling >= 1
    ensures 0.0 <= s < ceiling as real
  {
    JitterScaled(r, ceiling as real);
    r * ceiling as real
  }

  /** `random.random() * 2 ** retry`: the full-jitter backoff delay in seconds. */
  function SleepSeconds(retry: nat, r: Jitter): (s: real)
    ensures 0.0 <= s < Pow2(retry) as real
  {
    Jittered(r, Pow2(retry))
  }

  /** Exponential backoff: with no retry the delay is the jitter itself, and
      each further retry doubles the delay drawn from the same jitter. */
  lemma BackoffDoubles(n: nat, r: Jitter)
    ensures SleepSeconds(0, r) == r
    ensures SleepSeconds(n + 1, r) == 2.0 * SleepSeconds(n, r)
  {
  }

  lemma PositiveFactor(a: real, b: real)
    requires b > 0.0 && a * b > 0.0
    ensures a > 0.0
  {
  }

  /** Full jitter: every delay in [0, 2 ** retry) is drawn by some jitter. */
  lemma EveryDelayReachable(n: nat, s: real)
    requires 0.0 <= s < Pow2(n) as real
    ensures exists r: Jitter :: SleepSeconds(n, r) == s
  {
    var c := Pow2(n) as real;
    var r := s / c;
    assert r * c == s;
    assert 0.0 <= r < 1.0 by {
      var rest := 1.0 - r;
      assert rest * c == c - s;
      assert c - s > 0.0;
      PositiveFactor(rest, c);
    }
    var j: Jitter := r;
    assert SleepSeconds(n, j) == s;
  }
}
