/** The provider's retry loop: one attempt counter shared by three delay tables of different lengths. */
module RetryPolicy {
  import opened Options

  /** What one call to the gateway does; `Status` is an API status error with that HTTP code, `Other` an
      exception the loop does not handle. */
  datatype Outcome = Success(payload: string) | RateLimit | Auth | BadRequest | Status(code: int)
                   | Connection | Timeout | Tls | Other

  datatype Failure = RateLimitError | AuthError | InvalidRequestError | ServerError | Unhandled(cause: Outcome)

  datatype Result = Returned(payload: string) | Raised(failure: Failure)

  const DELAYS_429 := [1.0, 2.0, 4.0]
  const DELAYS_5XX := [1.0, 2.0]
  const DELAYS_CONN := [0.5]

  /** One attempt with the errors mapped and no retry. */
  function RunOnce(o: Outcome): Result {
    match o
    case Success(payload) => Returned(payload)
    case RateLimit => Raised(RateLimitError)
    case Auth => Raised(AuthError)
    case BadRequest => Raised(InvalidRequestError)
    case Status(code) =>
      Raised(if 500 <= code < 600 then ServerError else if code == 429 then RateLimitError else InvalidRequestError)
    case Connection => Raised(ServerError)
    case Timeout => Raised(ServerError)
    case Tls => Raised(Unhandled(Tls))
    case Other => Raised(Unhandled(Other))
  }

  /** What the random draw may answer for a delay: an offset of at most a quarter of it either way. */
  predicate InSpread(delay: real, offset: real) {
    -0.25 * delay <= offset <= 0.25 * delay
  }

  function Jittered(delay: real, offset: real): real {
    if delay + offset < 0.05 then 0.05 else delay + offset
  }

  lemma JitterHasFloor(delay: real, offset: real)
    ensures Jittered(delay, offset) >= 0.05 && Jittered(delay, offset) >= delay + offset
    ensures Jittered(delay, offset) in {0.05, delay + offset}
  {
  }

  /** How many retries an outcome is worth in all: the length of its delay table. */
  function Budget(o: Outcome): nat {
    match o
    case RateLimit => 3
    case Status(code) => if 500 <= code < 600 then 2 else if code == 429 then 3 else 0
    case Connection => 1
    case Timeout => 1
    case _ => 0
  }

  /** What kind of failure an outcome is, by the exception the caller sees. */
  predicate IsServerSide(o: Outcome) {
    o == Connection || o == Timeout || (o.Status? && 500 <= o.code < 600)
  }

  predicate IsRateLimit(o: Outcome) {
    o == RateLimit || o == Status(429)
  }

  /** The class of every outcome: a success returns its payload; a server-side failure, a rate limit, an
      authentication failure and any other refusal each raise their own error; what is left passes through. */
  lemma ErrorClasses(o: Outcome)
    ensures RunOnce(o).Returned? <==> o.Success?
    ensures o.Success? ==> RunOnce(o) == Returned(o.payload)
    ensures RunOnce(o) == Raised(ServerError) <==> IsServerSide(o)
    ensures RunOnce(o) == Raised(RateLimitError) <==> IsRateLimit(o)
    ensures RunOnce(o) == Raised(AuthError) <==> o == Auth
    ensures RunOnce(o) == Raised(InvalidRequestError) <==>
              o == BadRequest || (o.Status? && !IsServerSide(o) && !IsRateLimit(o))
    ensures RunOnce(o) == Raised(Unhandled(o)) <==> o == Tls || o == Other
  {
  }

  /** Retries by kind of failure: three after a rate limit, two after a server error, one after a lost connection. */
  lemma Budgets(o: Outcome)
    ensures Budget(o) == if IsRateLimit(o) then 3 else if o == Connection || o == Timeout then 1
                         else if IsServerSide(o) then 2 else 0
  {
  }

  /** The unspread wait after attempt `i`: half a second for a lost connection, else a second
      doubled at each attempt. */
  function Wait(o: Outcome, i: nat): real {
    if o == Connection || o == Timeout then 0.5 else if i == 0 then 1.0 else 2.0 * Wait(o, i - 1)
  }

  /** The delay the table of an outcome's kind holds for the attempt. */
  function TableDelay(o: Outcome, i: nat): real
    requires i < Budget(o)
  {
    if o == Connection || o == Timeout then DELAYS_CONN[i]
    else if IsRateLimit(o) then DELAYS_429[i] else DELAYS_5XX[i]
  }

  lemma DelayIsWait(o: Outcome, i: nat)
    requires i < Budget(o)
    ensures TableDelay(o, i) == Wait(o, i) && 0.5 <= TableDelay(o, i) <= 4.0
  {
  }

  /** Every draw stays in the spread of the delay it is made for. */
  ghost predicate DrawsOk(outcomes: nat -> Outcome, offsets: nat -> real) {
    forall i: nat :: i < Budget(outcomes(i)) ==> InSpread(TableDelay(outcomes(i), i), offsets(i))
  }

  /** All unspread waits before attempt `n`. */
  function Unspread(outcomes: nat -> Outcome, n: nat): real {
    if n == 0 then 0.0 else Unspread(outcomes, n - 1) + Wait(outcomes(n - 1), n - 1)
  }

  /** All draws before attempt `n`. */
  function Drawn(offsets: nat -> real, n: nat): real {
    if n == 0 then 0.0 else Drawn(offsets, n - 1) + offsets(n - 1)
  }

  /** The floor of a twentieth of a second never matters, and the waits stay within a quarter of the table's. */
  lemma SpreadDelay(o: Outcome, i: nat, offset: real)
    requires i < Budget(o) && InSpread(TableDelay(o, i), offset)
    ensures Jittered(TableDelay(o, i), offset) == Wait(o, i) + offset
    ensures 0.75 * Wait(o, i) <= Wait(o, i) + offset <= 1.25 * Wait(o, i)
  {
    DelayIsWait(o, i);
  }

  /** The longest the unspread waits before attempt `attempt` can be. */
  function LongestWaits(attempt: nat): real {
    if attempt == 0 then 0.0 else if attempt == 1 then 1.0 else if attempt == 2 then 3.0 else 7.0
  }

  /** One pass of the loop: the final answer, or the delay before the next attempt. */
  method Settle(o: Outcome, attempt: nat, offset: real) returns (answer: Option<Result>, delay: real)
    requires attempt < Budget(o) ==> InSpread(TableDelay(o, attempt), offset)
    ensures answer.None? <==> attempt < Budget(o)
    ensures answer.Some? ==> answer.value == if o == Tls then Raised(ServerError) else RunOnce(o)
    ensures answer.None? ==> delay == Wait(o, attempt) + offset
  {
    delay := 0.0;
    if attempt < Budget(o) {
      SpreadDelay(o, attempt, offset);
    }
    match o {
      case Success(payload) => return Some(Returned(payload)), delay;
      case RateLimit =>
        if attempt >= |DELAYS_429| { return Some(Raised(RateLimitError)), delay; }
        delay := Jittered(DELAYS_429[attempt], offset);
      case Auth => return Some(Raised(AuthError)), delay;
      case BadRequest => return Some(Raised(InvalidRequestError)), delay;
      case Status(code) =>
        if 500 <= code < 600 {
          if attempt >= |DELAYS_5XX| { return Some(Raised(ServerError)), delay; }
          delay := Jittered(DELAYS_5XX[attempt], offset);
        } else if code == 429 {
          if attempt >= |DELAYS_429| { return Some(Raised(RateLimitError)), delay; }
          delay := Jittered(DELAYS_429[attempt], offset);
        } else {
          return Some(Raised(InvalidRequestError)), delay;
        }
      case Connection =>
        if attempt >= |DELAYS_CONN| { return Some(Raised(ServerError)), delay; }
        delay := Jittered(DELAYS_CONN[attempt], offset);
      case Timeout =>
        if attempt >= |DELAYS_CONN| { return Some(Raised(ServerError)), delay; }
        delay := Jittered(DELAYS_CONN[attempt], offset);
      case Tls => return Some(Raised(ServerError)), delay;
      case Other => return Some(Raised(Unhandled(Other))), delay;
    }
    answer := None;
  }

  lemma WaitFits(o: Outcome, i: nat)
    requires i < Budget(o)
    ensures i < 3 && 0.0 <= Wait(o, i) <= LongestWaits(i + 1) - LongestWaits(i)
  {
    DelayIsWait(o, i);
  }

  /** After `n` retries the waits are within a quarter of the tables' sum, and the sum is at most 7 seconds. */
  lemma {:induction false} WaitsBounded(outcomes: nat -> Outcome, offsets: nat -> real, n: nat)
    requires DrawsOk(outcomes, offsets) && forall i :: 0 <= i < n ==> i < Budget(outcomes(i))
    ensures n <= 3 && Unspread(outcomes, n) <= LongestWaits(n)
    ensures 0.75 * Unspread(outcomes, n) <= Unspread(outcomes, n) + Drawn(offsets, n) <= 1.25 * Unspread(outcomes, n)
  {
    if n > 0 {
      WaitsBounded(outcomes, offsets, n - 1);
      SpreadDelay(outcomes(n - 1), n - 1, offsets(n - 1));
      WaitFits(outcomes(n - 1), n - 1);
    }
  }

  /** The number of calls the stream of outcomes determines: the first attempt that is not retried. */
  ghost predicate StopsAfter(outcomes: nat -> Outcome, calls: nat) {
    && 1 <= calls
    && (forall i :: 0 <= i < calls - 1 ==> i < Budget(outcomes(i)))
    && calls - 1 >= Budget(outcomes(calls - 1))
  }

  /** The loop with retry on, for any stream of outcomes and draws. */
  method WithRetry(outcomes: nat -> Outcome, offsets: nat -> real) returns (result: Result, calls: nat, slept: real)
    requires DrawsOk(outcomes, offsets)
    ensures 1 <= calls <= 4
    ensures slept == Unspread(outcomes, calls - 1) + Drawn(offsets, calls - 1)
    ensures 0.75 * Unspread(outcomes, calls - 1) <= slept <= 1.25 * Unspread(outcomes, calls - 1) <= 8.75
    ensures StopsAfter(outcomes, calls)
    ensures result == if outcomes(calls - 1) == Tls then Raised(ServerError) else RunOnce(outcomes(calls - 1))
  {
    var attempt: nat := 0;
    slept := 0.0;
    while true
      invariant slept == Unspread(outcomes, attempt) + Drawn(offsets, attempt)
      invariant forall i :: 0 <= i < attempt ==> i < Budget(outcomes(i))
      decreases 3 - attempt
    {
      var answer, delay := Settle(outcomes(attempt), attempt, offsets(attempt));
      if answer.Some? {
        WaitsBounded(outcomes, offsets, attempt);
        return answer.value, attempt + 1, slept;
      }
      WaitFits(outcomes(attempt), attempt);
      slept := slept + delay;
      attempt := attempt + 1;
    }
  }

  /** The contract of `WithRetry` leaves no freedom: calls, and with it the result, are unique; the first
      success is returned whenever it is reached, which is exactly when every earlier attempt had a retry
      left in its own table. */
  lemma RetryIsDeterministic(outcomes: nat -> Outcome, calls: nat, other: nat)
    requires StopsAfter(outcomes, calls) && StopsAfter(outcomes, other)
    ensures calls == other
    ensures forall i :: 0 <= i && outcomes(i).Success? && (forall j :: 0 <= j < i ==> !outcomes(j).Success?) ==>
              (outcomes(calls - 1).Success? <==> forall j :: 0 <= j < i ==> j < Budget(outcomes(j)))
  {
    forall i | 0 <= i && outcomes(i).Success? && (forall j :: 0 <= j < i ==> !outcomes(j).Success?)
      ensures outcomes(calls - 1).Success? <==> forall j :: 0 <= j < i ==> j < Budget(outcomes(j))
    {
      assert Budget(outcomes(i)) == 0;
      assert calls - 1 <= i;
    }
  }

  /** Mixed errors share the attempt counter, so a connection error after any retry is final. */
  lemma ConnectionErrorAfterRetryIsFinal(outcomes: nat -> Outcome, calls: nat, i: nat)
    requires StopsAfter(outcomes, calls) && 0 < i < calls && Budget(outcomes(i)) == 1
    ensures calls == i + 1
  {
    assert !(i < calls - 1);
  }
}
